/** The checkpoint-elimination reducer: a checkpoint that the redundancy walk
    shows to be redundant is replaced by its effect input, and a checkpoint
    whose only user is a `Return` is cut out of that return's effect chain. */
module CheckpointElimination {
  import opened Graph
  import opened EffectChain

  /** What a reducer reports to the driver: nothing happened, every use of the
      reduced node should be redirected to `replacement`, or `node` was edited
      in place. */
  datatype Reduction = NoChange | Replace(replacement: NodeId) | Changed(node: NodeId)

  /** A reduction together with the graph as the reducer leaves it. */
  datatype Reduced = Reduced(reduction: Reduction, graph: Graph)

  /** A checkpoint is pruned from a return when it is the return's effect input
      and the return is its sole user. */
  ghost predicate OwnedCheckpoint(g: Graph, r: NodeId)
    requires WellFormed(g) && r in g && g[r].op.effectInputCount >= 1
  {
    var c := EffectInput(g, r);
    g[c].op.opcode == Checkpoint && OwnedBy(g, c, r)
  }

  /** A checkpoint is dropped in favour of its effect input exactly when it is
      redundant, and the graph is never edited. The replacement is the
      checkpoint itself only for a no-write checkpoint that is its own effect
      input; the driver would read that one as an in-place change. */
  function ReduceCheckpoint(g: Graph, n: NodeId, ghost rank: map<NodeId, nat>): (res: Reduced)
    requires WellFormed(g) && RankedBy(g, rank) && n in g && g[n].op.opcode == Checkpoint
    ensures res.reduction == Replace(n) <==> GuardedCheckpoint(g, n) && EffectInput(g, n) == n
    ensures Redundant(g, n) ==> res == Reduced(Replace(EffectInput(g, n)), g)
    ensures !Redundant(g, n) ==> res == Reduced(NoChange, g)
  {
    if IsRedundantCheckpoint(g, n, rank) then
      SelfReplacementIsSelfLoop(g, n);
      Reduced(Replace(EffectInput(g, n)), g)
    else
      SelfReplacementIsSelfLoop(g, n);
      Reduced(NoChange, g)
  }

  /** A checkpoint that is its own effect input is redundant exactly when it
      passes the loop guard: the walk starts at the checkpoint and stops
      there at once. */
  lemma SelfReplacementIsSelfLoop(g: Graph, n: NodeId)
    requires WellFormed(g) && n in g && g[n].op.opcode == Checkpoint
    ensures Redundant(g, n) && EffectInput(g, n) == n <==> GuardedCheckpoint(g, n) && EffectInput(g, n) == n
  {
    if Redundant(g, n) && EffectInput(g, n) == n {
      var p :| PassChain(g, p) && p[0] == n && GuardedCheckpoint(g, p[|p| - 1]);
      assert |p| == 1 || Link(g, p[0], p[1]);
    }
    if GuardedCheckpoint(g, n) && EffectInput(g, n) == n {
      FoundHere(g, n);
    }
  }

  /** A return whose effect input is a checkpoint it alone uses is rewired past
      that checkpoint and reported as changed; otherwise nothing happens. The
      rewiring touches only the return's first effect slot and the use lists
      of the checkpoint and its effect input, leaves the checkpoint without
      uses, and keeps the graph well formed. */
  function ReduceReturn(g: Graph, r: NodeId): (res: Reduced)
    requires WellFormed(g) && r in g && g[r].op.opcode == Return
    ensures WellFormed(res.graph)
    ensures res.reduction.Changed? <==> OwnedCheckpoint(g, r)
    ensures res.reduction == NoChange || res.reduction == Changed(r)
    ensures res.reduction == NoChange ==> res.graph == g
    ensures res.reduction.Changed? ==>
              var c := EffectInput(g, r);
              && EffectInputReplaced(g, res.graph, r, EffectInput(g, c))
              && EffectInput(res.graph, r) == EffectInput(g, c)
              && res.graph[c].uses == multiset{}
  {
    var c := EffectInput(g, r);
    if g[c].op.opcode == Checkpoint && OwnedBy(g, c, r) then
      OwnedNodeIsNotItsOwnInput(g, c, r);
      var replacement := EffectInput(g, c);
      Reduced(Changed(r), ReplaceEffectInput(g, r, replacement))
    else
      Reduced(NoChange, g)
  }

  /** The pass entry point: dispatch on the opcode of `n`. Only the checkpoint
      branch walks the chain, so only it needs the rank. */
  function Reduce(g: Graph, n: NodeId, ghost rank: map<NodeId, nat>): (res: Reduced)
    requires WellFormed(g) && n in g && (g[n].op.opcode == Checkpoint ==> RankedBy(g, rank))
    ensures WellFormed(res.graph)
    ensures res.reduction == NoChange ==> res.graph == g
    ensures res.reduction.Replace? <==> g[n].op.opcode == Checkpoint && Redundant(g, n)
    ensures res.reduction.Replace? ==> res.graph == g && res.reduction.replacement == EffectInput(g, n)
    ensures res.reduction == Replace(n) <==> GuardedCheckpoint(g, n) && EffectInput(g, n) == n
    ensures res.reduction.Changed? <==> g[n].op.opcode == Return && OwnedCheckpoint(g, n)
    ensures res.reduction.Changed? ==>
              res.reduction.node == n
              && EffectInputReplaced(g, res.graph, n, EffectInput(g, EffectInput(g, n)))
    ensures g[n].op.opcode.Other? ==> res == Reduced(NoChange, g)
  {
    match g[n].op.opcode
    case Checkpoint => ReduceCheckpoint(g, n, rank)
    case Return => ReduceReturn(g, n)
    case Other(_) => Reduced(NoChange, g)
  }

  /** A checkpoint directly behind another checkpoint that passes the guard is
      redundant after zero further steps. */
  lemma CheckpointBehindCheckpoint(g: Graph, n: NodeId, rank: map<NodeId, nat>)
    requires WellFormed(g) && RankedBy(g, rank) && n in g && g[n].op.opcode == Checkpoint
    requires GuardedCheckpoint(g, EffectInput(g, n))
    ensures ReduceCheckpoint(g, n, rank).reduction == Replace(EffectInput(g, n))
  {
    FoundHere(g, EffectInput(g, n));
  }

  /** A writing node met on the chain before any checkpoint keeps the
      checkpoint, whatever lies further up. */
  lemma WriteBlocksElimination(g: Graph, n: NodeId, p: seq<NodeId>, rank: map<NodeId, nat>)
    requires WellFormed(g) && RankedBy(g, rank) && n in g && g[n].op.opcode == Checkpoint
    requires PassChain(g, p) && p[0] == EffectInput(g, n)
    requires forall i | 0 <= i < |p| - 1 :: g[p[i]].op.opcode != Checkpoint
    requires !g[p[|p| - 1]].op.noWrite
    ensures !Redundant(g, n)
    ensures ReduceCheckpoint(g, n, rank) == Reduced(NoChange, g)
  {
    BlockedChainFindsNothing(g, p, rank);
    assert !IsRedundantCheckpoint(g, n, rank);
  }

  /** A merge (a node with other than one effect input) met on the chain
      before any checkpoint keeps the checkpoint, even when a checkpoint lies
      beyond the merge. */
  lemma MergeBlocksElimination(g: Graph, n: NodeId, p: seq<NodeId>, rank: map<NodeId, nat>)
    requires WellFormed(g) && RankedBy(g, rank) && n in g && g[n].op.opcode == Checkpoint
    requires PassChain(g, p) && p[0] == EffectInput(g, n)
    requires forall i | 0 <= i < |p| - 1 :: g[p[i]].op.opcode != Checkpoint
    requires g[p[|p| - 1]].op.effectInputCount != 1
    ensures !Redundant(g, n)
    ensures ReduceCheckpoint(g, n, rank) == Reduced(NoChange, g)
  {
    BlockedChainFindsNothing(g, p, rank);
    assert !IsRedundantCheckpoint(g, n, rank);
  }

  /** A checkpoint with a second user besides the return is never pruned by
      the return rule. */
  lemma SecondUserBlocksPruning(g: Graph, r: NodeId, d: NodeId)
    requires WellFormed(g) && r in g && g[r].op.opcode == Return
    requires d in g && d != r && EffectInput(g, r) in Inputs(g[d])
    ensures !OwnedBy(g, EffectInput(g, r), r)
    ensures ReduceReturn(g, r) == Reduced(NoChange, g)
  {
    OwnedByIffSoleEdge(g, EffectInput(g, r), r);
  }

  /** A return that uses its checkpoint through a second edge as well does not
      own it exclusively, so nothing is pruned. */
  lemma SecondEdgeBlocksPruning(g: Graph, r: NodeId)
    requires WellFormed(g) && r in g && g[r].op.opcode == Return
    requires Inputs(g[r])[EffectInput(g, r)] >= 2
    ensures !OwnedBy(g, EffectInput(g, r), r)
    ensures ReduceReturn(g, r) == Reduced(NoChange, g)
  {
    OwnedByIffSoleEdge(g, EffectInput(g, r), r);
  }

  /** Pruning keeps the walk's termination rank valid exactly when the
      return is not a node the walk steps over, or the rank already drops
      from the return to the checkpoint's effect input. */
  lemma PruningKeepsRank(g: Graph, r: NodeId, rank: map<NodeId, nat>)
    requires WellFormed(g) && RankedBy(g, rank) && r in g && g[r].op.opcode == Return
    requires OwnedCheckpoint(g, r)
    ensures RankedBy(ReduceReturn(g, r).graph, rank) <==>
              !PassThrough(g[r]) || rank[EffectInput(g, EffectInput(g, r))] < rank[r]
  {
    var c := EffectInput(g, r);
    RewiredRank(g, ReduceReturn(g, r).graph, r, EffectInput(g, c), rank);
  }

  /** Rewiring the first effect slot of a non-checkpoint `n` to `x` leaves
      every ranked edge alone except the one out of `n`. */
  lemma RewiredRank(g: Graph, g': Graph, n: NodeId, x: NodeId, rank: map<NodeId, nat>)
    requires n in g && |g[n].effects| >= 1 && g[n].op.opcode != Checkpoint && x in g
    requires RankedBy(g, rank) && EffectInputReplaced(g, g', n, x)
    ensures RankedBy(g', rank) <==> !PassThrough(g[n]) || rank[x] < rank[n]
  {
    assert g'[n].op == g[n].op && g'[n].effects[0] == x;
    if !PassThrough(g[n]) || rank[x] < rank[n] {
      forall y | y in g' && PassThrough(g'[y]) && g'[y].op.opcode != Checkpoint && |g'[y].effects| >= 1
        ensures g'[y].effects[0] in rank && rank[g'[y].effects[0]] < rank[y]
      {
        if y != n {
          assert g'[y].effects == g[y].effects && g'[y].op == g[y].op;
        }
      }
    }
  }
}
