/** The slice of the compiler's sea-of-nodes graph that checkpoint elimination
    reads and edits: an arena of nodes addressed by stable ids, each node with
    its operator's properties, its effect inputs, its remaining inputs and its
    use list. */
module Graph {

  type NodeId = nat

  /** The opcodes the pass tells apart; every other opcode is `Other`. */
  datatype Opcode = Checkpoint | Return | Other(name: string)

  /** The static properties of a node's operator that the pass queries. */
  datatype Operator = Operator(opcode: Opcode, noWrite: bool, effectInputCount: nat)

  /** `effects` are the effect inputs in order; `others` lumps together the
      value, context, frame-state and control inputs, which the pass never
      follows but which still count as uses. `uses` holds one entry per input
      edge that points at this node, naming the node the edge comes from. */
  datatype Node = Node(op: Operator, effects: seq<NodeId>, others: seq<NodeId>, uses: multiset<NodeId>)

  type Graph = map<NodeId, Node>

  /** Every input edge of a node, counted with multiplicity. */
  function Inputs(n: Node): multiset<NodeId>
  {
    multiset(n.effects) + multiset(n.others)
  }

  /** How many input edges of node `b` point at `a`; nodes outside the arena
      have no edges. */
  function UseCount(g: Graph, a: NodeId, b: NodeId): nat
  {
    if b in g then Inputs(g[b])[a] else 0
  }

  /** The node carries as many effect inputs as its operator declares, and the
      two opcodes the pass looks at take exactly one effect input each. */
  ghost predicate ArityOk(n: Node)
  {
    && |n.effects| == n.op.effectInputCount
    && (n.op.opcode == Checkpoint || n.op.opcode == Return ==> n.op.effectInputCount == 1)
  }

  /** The graph invariant: arities agree with operators, every input is a node
      of the arena, and every use list lists exactly the edges that point at
      its node. */
  ghost predicate WellFormed(g: Graph)
  {
    && (forall a | a in g :: ArityOk(g[a]))
    && (forall a, i | a in g && 0 <= i < |g[a].effects| :: g[a].effects[i] in g)
    && (forall a, i | a in g && 0 <= i < |g[a].others| :: g[a].others[i] in g)
    && (forall a, b | a in g :: g[a].uses[b] == UseCount(g, a, b))
  }

  /** The first effect input of node `n`. */
  function EffectInput(g: Graph, n: NodeId): (e: NodeId)
    requires WellFormed(g) && n in g && g[n].op.effectInputCount >= 1
    ensures e in g
    ensures e in Inputs(g[n])
  {
    g[n].effects[0]
  }

  /** Node `a` is owned by `b` when its use list consists of a single use, and
      that use comes from `b`. */
  predicate OwnedBy(g: Graph, a: NodeId, b: NodeId)
    requires a in g
  {
    g[a].uses == multiset{b}
  }

  /** In a well-formed graph ownership is a fact about edges: `b` has exactly
      one input edge to `a`, and no other node has any. */
  lemma OwnedByIffSoleEdge(g: Graph, a: NodeId, b: NodeId)
    requires WellFormed(g) && a in g && b in g
    ensures OwnedBy(g, a, b) <==>
              (Inputs(g[b])[a] == 1 && forall y | y in g && y != b :: Inputs(g[y])[a] == 0)
  {
    if Inputs(g[b])[a] == 1 && forall y | y in g && y != b :: Inputs(g[y])[a] == 0 {
      forall y
        ensures g[a].uses[y] == multiset{b}[y]
      {
        assert g[a].uses[y] == UseCount(g, a, y);
      }
      assert g[a].uses == multiset{b};
    }
    if OwnedBy(g, a, b) {
      assert g[a].uses[b] == UseCount(g, a, b);
      forall y | y in g && y != b
        ensures Inputs(g[y])[a] == 0
      {
        assert g[a].uses[y] == UseCount(g, a, y);
      }
    }
  }

  /** A node owned by some other node cannot be its own effect input, since
      that edge would be a use by itself. */
  lemma OwnedNodeIsNotItsOwnInput(g: Graph, a: NodeId, b: NodeId)
    requires WellFormed(g) && a in g && g[a].op.effectInputCount >= 1
    requires a != b && OwnedBy(g, a, b)
    ensures EffectInput(g, a) != a
  {
    assert g[a].uses[a] == UseCount(g, a, a);
  }

  /** What rewiring slot 0 of `n`'s effect inputs to `x` leaves behind: that
      slot now holds `x`, the node that used to fill it has lost one use by `n`,
      `x` has gained one, and nothing else in the arena differs. */
  ghost predicate EffectInputReplaced(g: Graph, g': Graph, n: NodeId, x: NodeId)
    requires n in g && |g[n].effects| >= 1
  {
    var prev := g[n].effects[0];
    && g'.Keys == g.Keys
    && g'[n].op == g[n].op
    && g'[n].effects == g[n].effects[0 := x]
    && g'[n].others == g[n].others
    && (forall y | y in g && y != n ::
          g'[y].op == g[y].op && g'[y].effects == g[y].effects && g'[y].others == g[y].others)
    && (forall y | y in g ::
          g'[y].uses == g[y].uses - (if y == prev then multiset{n} else multiset{})
                                  + (if y == x then multiset{n} else multiset{}))
  }

  /** The editing primitive the pass uses to splice a node out of an effect
      chain: point `n`'s first effect input at `x` and keep both use lists
      in step. */
  function ReplaceEffectInput(g: Graph, n: NodeId, x: NodeId): (g': Graph)
    requires WellFormed(g) && n in g && x in g && g[n].op.effectInputCount >= 1
    ensures EffectInputReplaced(g, g', n, x)
    ensures WellFormed(g')
  {
    var prev := g[n].effects[0];
    var g1 := g[n := g[n].(effects := g[n].effects[0 := x])];
    var g2 := g1[prev := g1[prev].(uses := g1[prev].uses - multiset{n})];
    var g3 := g2[x := g2[x].(uses := g2[x].uses + multiset{n})];
    ReplaceEffectInputMeetsSpec(g, n, x, g1, g2, g3);
    ReplacePreservesWellFormed(g, g3, n, x);
    g3
  }

  /** The three successive map updates amount to `EffectInputReplaced`. */
  lemma ReplaceEffectInputMeetsSpec(g: Graph, n: NodeId, x: NodeId, g1: Graph, g2: Graph, g3: Graph)
    requires n in g && x in g && |g[n].effects| >= 1 && g[n].effects[0] in g
    requires g1 == g[n := g[n].(effects := g[n].effects[0 := x])]
    requires g2 == g1[g[n].effects[0] := g1[g[n].effects[0]].(uses := g1[g[n].effects[0]].uses - multiset{n})]
    requires g3 == g2[x := g2[x].(uses := g2[x].uses + multiset{n})]
    ensures EffectInputReplaced(g, g3, n, x)
  {
    var prev := g[n].effects[0];
    assert g3.Keys == g.Keys;
    forall y | y in g
      ensures g3[y].op == g[y].op && g3[y].others == g[y].others
      ensures g3[y].effects == if y == n then g[n].effects[0 := x] else g[y].effects
      ensures g3[y].uses == g[y].uses - (if y == prev then multiset{n} else multiset{})
                                      + (if y == x then multiset{n} else multiset{})
    {
      UpdatedNode(g, n, x, g1, g2, g3, y);
    }
  }

  lemma UpdatedNode(g: Graph, n: NodeId, x: NodeId, g1: Graph, g2: Graph, g3: Graph, y: NodeId)
    requires n in g && x in g && |g[n].effects| >= 1 && g[n].effects[0] in g && y in g
    requires g1 == g[n := g[n].(effects := g[n].effects[0 := x])]
    requires g2 == g1[g[n].effects[0] := g1[g[n].effects[0]].(uses := g1[g[n].effects[0]].uses - multiset{n})]
    requires g3 == g2[x := g2[x].(uses := g2[x].uses + multiset{n})]
    ensures g3[y].op == g[y].op && g3[y].others == g[y].others
    ensures g3[y].effects == if y == n then g[n].effects[0 := x] else g[y].effects
    ensures g3[y].uses == g[y].uses - (if y == g[n].effects[0] then multiset{n} else multiset{})
                                    + (if y == x then multiset{n} else multiset{})
  {
    var prev := g[n].effects[0];
    assert g1[y].uses == g[y].uses;
    if y == prev && y == x {
      assert g3[y].uses == g[y].uses - multiset{n} + multiset{n};
    } else if y == prev {
      assert g3[y].uses == g[y].uses - multiset{n};
    } else if y == x {
      assert g3[y].uses == g[y].uses + multiset{n};
    } else {
      assert g3[y].uses == g[y].uses;
    }
  }

  /** Overwriting the first element of a sequence trades one occurrence of the
      old element for one of the new. */
  lemma ReplacedInputsCount(s: seq<NodeId>, x: NodeId)
    requires |s| >= 1
    ensures multiset(s[0 := x]) == multiset(s) - multiset{s[0]} + multiset{x}
  {
    assert s == [s[0]] + s[1..];
    assert s[0 := x] == [x] + s[1..];
  }

  lemma ReplacePreservesWellFormed(g: Graph, g': Graph, n: NodeId, x: NodeId)
    requires WellFormed(g) && n in g && x in g && g[n].op.effectInputCount >= 1
    requires EffectInputReplaced(g, g', n, x)
    ensures WellFormed(g')
  {
    ReplaceKeepsShape(g, g', n, x);
    ReplaceKeepsUses(g, g', n, x);
  }

  /** Arities and closedness survive the rewiring. */
  lemma ReplaceKeepsShape(g: Graph, g': Graph, n: NodeId, x: NodeId)
    requires WellFormed(g) && n in g && x in g && g[n].op.effectInputCount >= 1
    requires EffectInputReplaced(g, g', n, x)
    ensures forall a | a in g' :: ArityOk(g'[a])
    ensures forall a, i | a in g' && 0 <= i < |g'[a].effects| :: g'[a].effects[i] in g'
    ensures forall a, i | a in g' && 0 <= i < |g'[a].others| :: g'[a].others[i] in g'
  {
    forall a | a in g'
      ensures ArityOk(g'[a])
    {
      assert ArityOk(g[a]);
    }
    forall a, i | a in g' && 0 <= i < |g'[a].effects|
      ensures g'[a].effects[i] in g'
    {
      if a != n || i != 0 {
        assert g'[a].effects[i] == g[a].effects[i];
      }
    }
    forall a, i | a in g' && 0 <= i < |g'[a].others|
      ensures g'[a].others[i] in g'
    {
      assert g'[a].others[i] == g[a].others[i];
    }
  }

  /** Use lists still mirror the input edges after the rewiring. */
  lemma ReplaceKeepsUses(g: Graph, g': Graph, n: NodeId, x: NodeId)
    requires WellFormed(g) && n in g && x in g && g[n].op.effectInputCount >= 1
    requires EffectInputReplaced(g, g', n, x)
    ensures forall a, b | a in g' :: g'[a].uses[b] == UseCount(g', a, b)
  {
    forall a, b | a in g'
      ensures g'[a].uses[b] == UseCount(g', a, b)
    {
      assert g[a].uses[b] == UseCount(g, a, b);
      UseCountAfterReplace(g, g', n, x, a, b);
    }
  }

  lemma UseCountAfterReplace(g: Graph, g': Graph, n: NodeId, x: NodeId, a: NodeId, b: NodeId)
    requires n in g && x in g && |g[n].effects| >= 1
    requires EffectInputReplaced(g, g', n, x)
    requires a in g && g[a].uses[b] == UseCount(g, a, b)
    ensures g'[a].uses[b] == UseCount(g', a, b)
  {
    if b == n {
      UseCountOfRewired(g, g', n, x, a);
    } else {
      var prev := g[n].effects[0];
      var d := if a == prev then multiset{n} else multiset{};
      var i := if a == x then multiset{n} else multiset{};
      assert g'[a].uses == g[a].uses - d + i;
      assert d[b] == 0 && i[b] == 0;
      assert g'[a].uses[b] == g[a].uses[b];
      if b in g {
        assert Inputs(g'[b]) == Inputs(g[b]);
      }
    }
  }

  /** The edges out of the rewired node itself. */
  lemma UseCountOfRewired(g: Graph, g': Graph, n: NodeId, x: NodeId, a: NodeId)
    requires n in g && x in g && |g[n].effects| >= 1
    requires EffectInputReplaced(g, g', n, x)
    requires a in g && g[a].uses[n] == UseCount(g, a, n)
    ensures g'[a].uses[n] == UseCount(g', a, n)
  {
    var prev := g[n].effects[0];
    var before := Inputs(g[n]);
    var after := Inputs(g'[n]);
    ReplacedInputsCount(g[n].effects, x);
    assert after == before - multiset{prev} + multiset{x};
    assert prev in multiset(g[n].effects);
    var dn := if a == prev then 1 else 0;
    var in_ := if a == x then 1 else 0;
    assert before[a] >= dn;
    assert after[a] == before[a] - dn + in_;
    var d := if a == prev then multiset{n} else multiset{};
    var i := if a == x then multiset{n} else multiset{};
    assert g'[a].uses == g[a].uses - d + i;
    assert g'[a].uses[n] == g[a].uses[n] - dn + in_;
  }
}
