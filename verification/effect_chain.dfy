/** The redundancy walk of checkpoint elimination: from a checkpoint's effect
    input, follow effect inputs backwards through nodes that write nothing and
    sit on a single linear effect chain, and report whether the walk meets
    another checkpoint. */
module EffectChain {
  import opened Graph

  /** The loop guard of the walk: the node performs no write and has exactly
      one effect input, so the walk may look past it. */
  predicate PassThrough(n: Node)
  {
    n.op.noWrite && n.op.effectInputCount == 1
  }

  /** One step of the walk: `x` may be looked past and `y` is its effect input. */
  ghost predicate Link(g: Graph, x: NodeId, y: NodeId)
  {
    x in g && PassThrough(g[x]) && |g[x].effects| >= 1 && y == g[x].effects[0]
  }

  /** A path the walk can take: consecutive nodes are joined by `Link`. */
  ghost predicate PassChain(g: Graph, p: seq<NodeId>)
  {
    && |p| >= 1
    && (forall i | 0 <= i < |p| :: p[i] in g)
    && (forall i | 0 <= i < |p| - 1 :: Link(g, p[i], p[i + 1]))
  }

  /** A checkpoint the walk recognises: it also passes the loop guard. */
  ghost predicate GuardedCheckpoint(g: Graph, x: NodeId)
  {
    x in g && PassThrough(g[x]) && g[x].op.opcode == Checkpoint
  }

  /** Reference meaning of the walk from `x`: some linear chain of
      look-past-able nodes leads from `x` to a checkpoint. */
  ghost predicate ReachesCheckpoint(g: Graph, x: NodeId)
  {
    exists p {:trigger PassChain(g, p)} :: PassChain(g, p) && p[0] == x && GuardedCheckpoint(g, p[|p| - 1])
  }

  /** Node `n` is redundant when the chain behind its effect input reaches a
      checkpoint. */
  ghost predicate Redundant(g: Graph, n: NodeId)
    requires WellFormed(g) && n in g && g[n].op.effectInputCount >= 1
  {
    ReachesCheckpoint(g, EffectInput(g, n))
  }

  /** `rank` strictly decreases along every edge the walk steps over: out of
      a node that passes the loop guard and is not a checkpoint. So the walk
      terminates. Edges out of checkpoints are not constrained, because the
      walk stops at a checkpoint; a cycle through one is therefore allowed.
      Effect cycles in a real graph run through merges, which have more than
      one effect input and so stop the walk. */
  ghost predicate RankedBy(g: Graph, rank: map<NodeId, nat>)
  {
    && g.Keys <= rank.Keys
    && forall x | x in g && PassThrough(g[x]) && g[x].op.opcode != Checkpoint && |g[x].effects| >= 1 ::
         g[x].effects[0] in rank && rank[g[x].effects[0]] < rank[x]
  }

  /** The loop of the walk, entered with `x` as the current effect. */
  function ScanChain(g: Graph, x: NodeId, ghost rank: map<NodeId, nat>): (found: bool)
    requires WellFormed(g) && RankedBy(g, rank) && x in g
    ensures found <==> ReachesCheckpoint(g, x)
    decreases rank[x]
  {
    if PassThrough(g[x]) then
      if g[x].op.opcode == Checkpoint then
        FoundHere(g, x);
        true
      else
        var y := EffectInput(g, x);
        ReachesThroughLink(g, x, y);
        ScanChain(g, y, rank)
    else
      StopReachesNothing(g, x);
      false
  }

  /** The walk as a whole: start at the effect input of `n`. */
  function IsRedundantCheckpoint(g: Graph, n: NodeId, ghost rank: map<NodeId, nat>): (redundant: bool)
    requires WellFormed(g) && RankedBy(g, rank) && n in g && g[n].op.effectInputCount >= 1
    ensures redundant <==> Redundant(g, n)
  {
    ScanChain(g, EffectInput(g, n), rank)
  }

  lemma FoundHere(g: Graph, x: NodeId)
    requires GuardedCheckpoint(g, x)
    ensures ReachesCheckpoint(g, x)
  {
    assert PassChain(g, [x]);
  }

  /** Nothing is reached from a node the walk may not look past. */
  lemma StopReachesNothing(g: Graph, x: NodeId)
    requires x in g && !PassThrough(g[x])
    ensures !ReachesCheckpoint(g, x)
  {
    forall p | PassChain(g, p) && p[0] == x
      ensures !GuardedCheckpoint(g, p[|p| - 1])
    {
      assert |p| == 1 || Link(g, p[0], p[1]);
    }
  }

  /** Looking past a node that is not itself a checkpoint changes nothing about
      what is reached. */
  lemma ReachesThroughLink(g: Graph, x: NodeId, y: NodeId)
    requires Link(g, x, y) && y in g && g[x].op.opcode != Checkpoint
    ensures ReachesCheckpoint(g, x) <==> ReachesCheckpoint(g, y)
  {
    if ReachesCheckpoint(g, y) {
      var p :| PassChain(g, p) && p[0] == y && GuardedCheckpoint(g, p[|p| - 1]);
      var q := [x] + p;
      forall i | 0 <= i < |q| - 1
        ensures Link(g, q[i], q[i + 1])
      {
        if i > 0 {
          assert Link(g, p[i - 1], p[i]);
        }
      }
      assert PassChain(g, q);
    }
    if ReachesCheckpoint(g, x) {
      var p :| PassChain(g, p) && p[0] == x && GuardedCheckpoint(g, p[|p| - 1]);
      assert |p| > 1;
      assert Link(g, p[0], p[1]);
      var q := p[1..];
      forall i | 0 <= i < |q| - 1
        ensures Link(g, q[i], q[i + 1])
      {
        assert Link(g, p[i + 1], p[i + 2]);
      }
      assert PassChain(g, q) && q[0] == y;
    }
  }

  /** If the chain meets a node the walk may not look past before any
      checkpoint, the walk fails, whatever lies further up. */
  lemma {:induction false} BlockedChainFindsNothing(g: Graph, p: seq<NodeId>, rank: map<NodeId, nat>)
    requires WellFormed(g) && RankedBy(g, rank) && PassChain(g, p)
    requires forall i | 0 <= i < |p| - 1 :: g[p[i]].op.opcode != Checkpoint
    requires !PassThrough(g[p[|p| - 1]])
    ensures !ScanChain(g, p[0], rank)
    decreases |p|
  {
    if |p| > 1 {
      var q := p[1..];
      assert Link(g, p[0], p[1]);
      forall i | 0 <= i < |q| - 1
        ensures Link(g, q[i], q[i + 1])
      {
        assert Link(g, p[i + 1], p[i + 2]);
      }
      forall i | 0 <= i < |q| - 1
        ensures g[q[i]].op.opcode != Checkpoint
      {
        assert g[p[i + 1]].op.opcode != Checkpoint;
      }
      BlockedChainFindsNothing(g, q, rank);
    }
  }
}
