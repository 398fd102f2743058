/** Small concrete graphs on which the reducer's outcome is worked out. */
module Scenarios {
  import opened Graph
  import opened EffectChain
  import opened CheckpointElimination

  function Start(uses: multiset<NodeId>): Node
  {
    Node(Operator(Other("Start"), true, 0), [], [], uses)
  }

  function Cp(effect: NodeId, uses: multiset<NodeId>): Node
  {
    Node(Operator(Checkpoint, true, 1), [effect], [], uses)
  }

  function Ret(effect: NodeId): Node
  {
    Node(Operator(Return, false, 1), [effect], [], multiset{})
  }

  /** Start <- Checkpoint <- LoadField <- Checkpoint <- Return. */
  function LinearGraph(): Graph
  {
    map[0 := Start(multiset{1}),
        1 := Cp(0, multiset{2}),
        2 := Node(Operator(Other("LoadField"), true, 1), [1], [], multiset{3}),
        3 := Cp(2, multiset{4}),
        4 := Ret(3)]
  }

  /** Start <- StoreField <- Checkpoint <- Return. */
  function WriteGraph(): Graph
  {
    map[0 := Start(multiset{1}),
        1 := Node(Operator(Other("StoreField"), false, 1), [0], [], multiset{2}),
        2 := Cp(1, multiset{3}),
        3 := Ret(2)]
  }

  /** As `WriteGraph`, but a Deoptimize node also takes the checkpoint as an
      input. */
  function SharedGraph(): Graph
  {
    map[0 := Start(multiset{1}),
        1 := Node(Operator(Other("StoreField"), false, 1), [0], [], multiset{2}),
        2 := Cp(1, multiset{3, 4}),
        3 := Ret(2),
        4 := Node(Operator(Other("Deoptimize"), false, 0), [], [2], multiset{})]
  }

  /** Start <- Checkpoint <- EffectPhi(twice) <- Checkpoint. */
  function MergeGraph(): Graph
  {
    map[0 := Start(multiset{1}),
        1 := Cp(0, multiset{2, 2}),
        2 := Node(Operator(Other("EffectPhi"), true, 2), [1, 1], [], multiset{3}),
        3 := Cp(2, multiset{})]
  }

  /** A no-write checkpoint that is its own effect input. */
  function SelfLoopGraph(): Graph
  {
    map[0 := Cp(0, multiset{0})]
  }

  /** Start <- Checkpoint <- Return, next to a separate effect cycle of two
      no-write, single-effect-input nodes that are not checkpoints. */
  function CycleGraph(): Graph
  {
    map[0 := Start(multiset{1}),
        1 := Cp(0, multiset{2}),
        2 := Ret(1),
        3 := Node(Operator(Other("LoadField"), true, 1), [4], [], multiset{4}),
        4 := Node(Operator(Other("LoadField"), true, 1), [3], [], multiset{3})]
  }

  function Identity(): map<NodeId, nat>
  {
    map[0 := 0, 1 := 1, 2 := 2, 3 := 3, 4 := 4]
  }

  // Each graph's `WellFormed` and `RankedBy` facts are proved node by node
  // (`...NodeAt`) and use list by use list (`...UsesAt`), each helper with
  // only its own graph in scope; a single lemma per graph runs the solver
  // out of resource.

  lemma LinearWellFormed()
    ensures WellFormed(LinearGraph()) && RankedBy(LinearGraph(), Identity())
  {
    var g := LinearGraph();
    assert g.Keys == {0, 1, 2, 3, 4};
    forall a | a in g
      ensures ArityOk(g[a])
      ensures forall i | 0 <= i < |g[a].effects| :: g[a].effects[i] in g
      ensures forall i | 0 <= i < |g[a].others| :: g[a].others[i] in g
      ensures PassThrough(g[a]) && g[a].op.opcode != Checkpoint ==> g[a].effects[0] in Identity() && Identity()[g[a].effects[0]] < Identity()[a]
    {
      LinearNodeAt(g, a);
    }
    forall a, b | a in g
      ensures g[a].uses[b] == UseCount(g, a, b)
    {
      LinearUsesAt(g, a, b);
    }
  }

  lemma LinearNodeAt(g: Graph, a: NodeId)
    requires g == LinearGraph() && a in g
    ensures ArityOk(g[a])
    ensures forall i | 0 <= i < |g[a].effects| :: g[a].effects[i] in g
    ensures forall i | 0 <= i < |g[a].others| :: g[a].others[i] in g
    ensures PassThrough(g[a]) && g[a].op.opcode != Checkpoint ==> g[a].effects[0] in Identity() && Identity()[g[a].effects[0]] < Identity()[a]
  {
  }

  lemma LinearUsesAt(g: Graph, a: NodeId, b: NodeId)
    requires g == LinearGraph() && a in g
    ensures g[a].uses[b] == UseCount(g, a, b)
  {
    assert Inputs(g[0]) == multiset{};
    assert Inputs(g[1]) == multiset{0};
    assert Inputs(g[2]) == multiset{1};
    assert Inputs(g[3]) == multiset{2};
    assert Inputs(g[4]) == multiset{3};
    if b !in g {
      assert g[a].uses[b] == 0;
    }
  }

  lemma WriteWellFormed()
    ensures WellFormed(WriteGraph()) && RankedBy(WriteGraph(), Identity())
  {
    var g := WriteGraph();
    assert g.Keys == {0, 1, 2, 3};
    forall a | a in g
      ensures ArityOk(g[a])
      ensures forall i | 0 <= i < |g[a].effects| :: g[a].effects[i] in g
      ensures forall i | 0 <= i < |g[a].others| :: g[a].others[i] in g
      ensures PassThrough(g[a]) && g[a].op.opcode != Checkpoint ==> g[a].effects[0] in Identity() && Identity()[g[a].effects[0]] < Identity()[a]
    {
      WriteNodeAt(g, a);
    }
    forall a, b | a in g
      ensures g[a].uses[b] == UseCount(g, a, b)
    {
      WriteUsesAt(g, a, b);
    }
  }

  lemma WriteNodeAt(g: Graph, a: NodeId)
    requires g == WriteGraph() && a in g
    ensures ArityOk(g[a])
    ensures forall i | 0 <= i < |g[a].effects| :: g[a].effects[i] in g
    ensures forall i | 0 <= i < |g[a].others| :: g[a].others[i] in g
    ensures PassThrough(g[a]) && g[a].op.opcode != Checkpoint ==> g[a].effects[0] in Identity() && Identity()[g[a].effects[0]] < Identity()[a]
  {
  }

  lemma WriteUsesAt(g: Graph, a: NodeId, b: NodeId)
    requires g == WriteGraph() && a in g
    ensures g[a].uses[b] == UseCount(g, a, b)
  {
    assert Inputs(g[0]) == multiset{};
    assert Inputs(g[1]) == multiset{0};
    assert Inputs(g[2]) == multiset{1};
    assert Inputs(g[3]) == multiset{2};
    if b !in g {
      assert g[a].uses[b] == 0;
    }
  }

  lemma SharedWellFormed()
    ensures WellFormed(SharedGraph()) && RankedBy(SharedGraph(), Identity())
  {
    var g := SharedGraph();
    assert g.Keys == {0, 1, 2, 3, 4};
    forall a | a in g
      ensures ArityOk(g[a])
      ensures forall i | 0 <= i < |g[a].effects| :: g[a].effects[i] in g
      ensures forall i | 0 <= i < |g[a].others| :: g[a].others[i] in g
      ensures PassThrough(g[a]) && g[a].op.opcode != Checkpoint ==> g[a].effects[0] in Identity() && Identity()[g[a].effects[0]] < Identity()[a]
    {
      SharedNodeAt(g, a);
    }
    forall a, b | a in g
      ensures g[a].uses[b] == UseCount(g, a, b)
    {
      SharedUsesAt(g, a, b);
    }
  }

  lemma SharedNodeAt(g: Graph, a: NodeId)
    requires g == SharedGraph() && a in g
    ensures ArityOk(g[a])
    ensures forall i | 0 <= i < |g[a].effects| :: g[a].effects[i] in g
    ensures forall i | 0 <= i < |g[a].others| :: g[a].others[i] in g
    ensures PassThrough(g[a]) && g[a].op.opcode != Checkpoint ==> g[a].effects[0] in Identity() && Identity()[g[a].effects[0]] < Identity()[a]
  {
  }

  lemma SharedUsesAt(g: Graph, a: NodeId, b: NodeId)
    requires g == SharedGraph() && a in g
    ensures g[a].uses[b] == UseCount(g, a, b)
  {
    SharedInputs(g);
    if b !in g {
      assert g[a].uses[b] == 0;
    }
  }

  lemma SharedInputs(g: Graph)
    requires g == SharedGraph()
    ensures Inputs(g[0]) == multiset{} && Inputs(g[1]) == multiset{0} && Inputs(g[2]) == multiset{1}
    ensures Inputs(g[3]) == multiset{2} && Inputs(g[4]) == multiset{2}
  {
  }

  lemma MergeWellFormed()
    ensures WellFormed(MergeGraph()) && RankedBy(MergeGraph(), Identity())
  {
    var g := MergeGraph();
    assert g.Keys == {0, 1, 2, 3};
    forall a | a in g
      ensures ArityOk(g[a])
      ensures forall i | 0 <= i < |g[a].effects| :: g[a].effects[i] in g
      ensures forall i | 0 <= i < |g[a].others| :: g[a].others[i] in g
      ensures PassThrough(g[a]) && g[a].op.opcode != Checkpoint ==> g[a].effects[0] in Identity() && Identity()[g[a].effects[0]] < Identity()[a]
    {
      MergeNodeAt(g, a);
    }
    forall a, b | a in g
      ensures g[a].uses[b] == UseCount(g, a, b)
    {
      MergeUsesAt(g, a, b);
    }
  }

  lemma MergeNodeAt(g: Graph, a: NodeId)
    requires g == MergeGraph() && a in g
    ensures ArityOk(g[a])
    ensures forall i | 0 <= i < |g[a].effects| :: g[a].effects[i] in g
    ensures forall i | 0 <= i < |g[a].others| :: g[a].others[i] in g
    ensures PassThrough(g[a]) && g[a].op.opcode != Checkpoint ==> g[a].effects[0] in Identity() && Identity()[g[a].effects[0]] < Identity()[a]
  {
  }

  lemma MergeUsesAt(g: Graph, a: NodeId, b: NodeId)
    requires g == MergeGraph() && a in g
    ensures g[a].uses[b] == UseCount(g, a, b)
  {
    assert Inputs(g[0]) == multiset{};
    assert Inputs(g[1]) == multiset{0};
    assert Inputs(g[2]) == multiset{1, 1};
    assert Inputs(g[3]) == multiset{2};
    if b !in g {
      assert g[a].uses[b] == 0;
    }
  }

  /** The later checkpoint of a linear chain is replaced by the no-write node
      in front of it, because an earlier checkpoint lies behind that node. */
  lemma LinearChainReplaces()
    ensures WellFormed(LinearGraph()) && RankedBy(LinearGraph(), Identity())
    ensures Reduce(LinearGraph(), 3, Identity()).reduction == Replace(2)
  {
    LinearWellFormed();
    LinearReaches();
    assert EffectInput(LinearGraph(), 3) == 2;
  }

  lemma LinearReaches()
    ensures ReachesCheckpoint(LinearGraph(), 2)
  {
    var g := LinearGraph();
    assert Link(g, 2, 1);
    assert PassChain(g, [2, 1]);
    assert GuardedCheckpoint(g, 1);
  }

  /** The return that is the sole user of its checkpoint is rewired past it. */
  lemma LinearChainPrunes()
    ensures WellFormed(LinearGraph()) && RankedBy(LinearGraph(), Identity())
    ensures Reduce(LinearGraph(), 4, Identity()).reduction == Changed(4)
    ensures EffectInput(Reduce(LinearGraph(), 4, Identity()).graph, 4) == 2
  {
    LinearWellFormed();
    var g := LinearGraph();
    assert OwnedBy(g, 3, 4);
  }

  /** A write in front of the checkpoint keeps it. */
  lemma WriteKeepsCheckpoint()
    ensures WellFormed(WriteGraph()) && RankedBy(WriteGraph(), Identity())
    ensures Reduce(WriteGraph(), 2, Identity()) == Reduced(NoChange, WriteGraph())
  {
    WriteWellFormed();
    StopReachesNothing(WriteGraph(), 1);
  }

  /** The return still cuts that checkpoint out and points at the write. */
  lemma WriteThenReturnPrunes()
    ensures WellFormed(WriteGraph()) && RankedBy(WriteGraph(), Identity())
    ensures Reduce(WriteGraph(), 3, Identity()).reduction == Changed(3)
    ensures EffectInput(Reduce(WriteGraph(), 3, Identity()).graph, 3) == 1
  {
    WriteWellFormed();
    var g := WriteGraph();
    assert OwnedBy(g, 2, 3);
  }

  /** A checkpoint also used by a Deoptimize node is not pruned. */
  lemma SharedCheckpointKept()
    ensures WellFormed(SharedGraph()) && RankedBy(SharedGraph(), Identity())
    ensures Reduce(SharedGraph(), 3, Identity()) == Reduced(NoChange, SharedGraph())
  {
    SharedWellFormed();
    var g := SharedGraph();
    assert 2 in Inputs(g[4]);
    SecondUserBlocksPruning(g, 3, 4);
  }

  /** The walk stops at the merge although a checkpoint lies beyond it. */
  lemma CheckpointBeyondMergeKept()
    ensures WellFormed(MergeGraph()) && RankedBy(MergeGraph(), Identity())
    ensures ReachesCheckpoint(MergeGraph(), 1)
    ensures Reduce(MergeGraph(), 3, Identity()) == Reduced(NoChange, MergeGraph())
  {
    MergeWellFormed();
    FoundHere(MergeGraph(), 1);
    StopReachesNothing(MergeGraph(), 2);
  }

  /** The walk from a self-looped checkpoint starts at that checkpoint and
      stops there at once, so the checkpoint is named as its own
      replacement. */
  lemma SelfLoopReplacesItself()
    ensures WellFormed(SelfLoopGraph()) && RankedBy(SelfLoopGraph(), map[0 := 0])
    ensures Reduce(SelfLoopGraph(), 0, map[0 := 0]).reduction == Replace(0)
  {
    var g := SelfLoopGraph();
    assert Inputs(g[0]) == multiset{0};
    forall a, b | a in g
      ensures g[a].uses[b] == UseCount(g, a, b)
    {
      if b !in g {
        assert g[a].uses[b] == 0;
      }
    }
    assert GuardedCheckpoint(g, 0) && EffectInput(g, 0) == 0;
  }

  lemma CycleWellFormed()
    ensures WellFormed(CycleGraph())
  {
    var g := CycleGraph();
    assert g.Keys == {0, 1, 2, 3, 4};
    forall a | a in g
      ensures ArityOk(g[a])
      ensures forall i | 0 <= i < |g[a].effects| :: g[a].effects[i] in g
      ensures forall i | 0 <= i < |g[a].others| :: g[a].others[i] in g
    {
      CycleNodeAt(g, a);
    }
    forall a, b | a in g
      ensures g[a].uses[b] == UseCount(g, a, b)
    {
      CycleUsesAt(g, a, b);
    }
  }

  lemma CycleNodeAt(g: Graph, a: NodeId)
    requires g == CycleGraph() && a in g
    ensures ArityOk(g[a])
    ensures forall i | 0 <= i < |g[a].effects| :: g[a].effects[i] in g
    ensures forall i | 0 <= i < |g[a].others| :: g[a].others[i] in g
  {
  }

  lemma CycleUsesAt(g: Graph, a: NodeId, b: NodeId)
    requires g == CycleGraph() && a in g
    ensures g[a].uses[b] == UseCount(g, a, b)
  {
    assert Inputs(g[0]) == multiset{};
    assert Inputs(g[1]) == multiset{0};
    assert Inputs(g[2]) == multiset{1};
    assert Inputs(g[3]) == multiset{4};
    assert Inputs(g[4]) == multiset{3};
    if b !in g {
      assert g[a].uses[b] == 0;
    }
  }

  /** No rank orders the checkpoint-free cycle, so the walk could not be run
      on this graph. */
  lemma CycleHasNoRank(rank: map<NodeId, nat>)
    ensures !RankedBy(CycleGraph(), rank)
  {
    var g := CycleGraph();
    assert PassThrough(g[3]) && g[3].op.opcode != Checkpoint && g[3].effects[0] == 4;
    assert PassThrough(g[4]) && g[4].op.opcode != Checkpoint && g[4].effects[0] == 3;
  }

  /** The return still prunes its own checkpoint: dispatching it needs no
      rank, whatever cycle lies elsewhere in the graph. */
  lemma ReturnPrunesBesideCycle()
    ensures WellFormed(CycleGraph())
    ensures Reduce(CycleGraph(), 2, map[]).reduction == Changed(2)
    ensures EffectInput(Reduce(CycleGraph(), 2, map[]).graph, 2) == 0
  {
    CycleWellFormed();
    var g := CycleGraph();
    assert OwnedBy(g, 1, 2);
  }
}
