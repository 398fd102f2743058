# Checkpoint elimination, modelled in Dafny

This project models V8's checkpoint-elimination reducer from its optimizing
compiler (`src/compiler/checkpoint-elimination.cc`). The reducer runs on the
compiler's sea-of-nodes graph and removes `Checkpoint` nodes. A checkpoint
records the interpreter state needed to deoptimize. The reducer has two rules:

- **Redundancy walk.** A checkpoint is redundant when the walk from its
  effect input meets another checkpoint. The walk follows effect inputs
  backwards and keeps going only while the current node performs no write
  and has exactly one effect input. A redundant checkpoint is reported as
  `Replace(its effect input)`.
- **Return-owned pruning.** A `Return` whose effect input is a checkpoint
  used by nothing but that return is rewired past the checkpoint. Its effect
  input becomes the checkpoint's own effect input, and the result is
  `Changed(return)`.

`Reduce` dispatches on the opcode. Any other opcode gives `NoChange`.

Files and modules:

- `graph.dfy`, module `Graph`: the node arena `map<NodeId, Node>`. It holds
  the operator properties the pass reads (opcode, no-write flag, effect input
  count), the effect inputs, the remaining inputs, and multiset use lists.
  It also has the invariant `WellFormed`, ownership `OwnedBy`, and the edit
  primitive `ReplaceEffectInput`.
- `effect_chain.dfy`, module `EffectChain`: the redundancy walk
  (`ScanChain`, `IsRedundantCheckpoint`). The walk is checked against a
  path-based reference meaning, `ReachesCheckpoint`.
- `checkpoint_elimination.dfy`, module `CheckpointElimination`: the
  `Reduction` result, the reducers `ReduceCheckpoint`, `ReduceReturn` and
  `Reduce`, and the lemmas about them.
- `scenarios.dfy`, module `Scenarios`: small concrete graphs with their
  outcomes worked out.

Modelling choices:

- A reducer returns a `Reduced` value holding the `Reduction` and the graph
  it leaves behind. Without this the "graph untouched" claims could not be
  stated.
- In V8, `Replace(n)` and `Changed(n)` build the same value. The driver tells
  them apart by comparing the replacement with the reduced node. The model
  uses a three-constructor datatype instead. The replacement is the
  checkpoint itself exactly for a checkpoint that passes the loop guard and
  is its own effect input; `ReduceCheckpoint` states this. On that graph the
  source returns `Replace(node)` (src/compiler/checkpoint-elimination.cc:25,
  36), which V8's driver reads as `Changed(node)`. On every other graph the
  two readings agree.
- `OwnedBy(a, b)` means the use list of `a` is exactly one use, from `b`. A
  use is any input edge: value, effect, control or frame state. `node.h` is
  not part of this model; this is the exclusive-use meaning of ownership.
- `WellFormed` includes one fact from the operator catalog, which is not
  part of this model: `Checkpoint` and `Return` take exactly one effect
  input. `GetEffectInput` needs this on both.
- The walk needs a termination argument. It takes a ghost `rank` map that
  strictly decreases along every edge the walk steps over (`RankedBy`): the
  edge out of a no-write, single-effect-input node that is not a checkpoint.
  Edges out of checkpoints are unconstrained, because the walk stops there.
  Real effect cycles pass through merges, and the loop guard stops at merges.

## Model

| member | source | states |
|---|---|---|
| `EffectChain.ScanChain` | src/compiler/checkpoint-elimination.cc:23-28 | the loop, started at any node, returns true exactly when some chain of no-write, single-effect-input nodes leads from that node to a checkpoint that also passes the guard |
| `EffectChain.IsRedundantCheckpoint` | src/compiler/checkpoint-elimination.cc:21-29 | the walk started at the node's effect input returns true exactly when the node is `Redundant`: the chain behind its effect input reaches a guarded checkpoint |
| `EffectChain.FoundHere` | src/compiler/checkpoint-elimination.cc:25 | a checkpoint that passes the loop guard is found by a walk of length zero |
| `EffectChain.StopReachesNothing` | src/compiler/checkpoint-elimination.cc:23-24 | a node that writes or has an effect input count other than 1 reaches no checkpoint, whatever lies behind it |
| `EffectChain.ReachesThroughLink` | src/compiler/checkpoint-elimination.cc:25-26 | stepping past a no-write, single-input non-checkpoint to its effect input preserves what is reached, in both directions |
| `EffectChain.BlockedChainFindsNothing` | src/compiler/checkpoint-elimination.cc:23-28 | along any chain whose nodes before the last are not checkpoints and whose last node fails the guard, the walk returns false |
| `CheckpointElimination.ReduceCheckpoint` | src/compiler/checkpoint-elimination.cc:33-39 | result is `Replace(effect input)` when the checkpoint is redundant and `NoChange` when it is not; the graph is returned unchanged in both cases; the replacement is the checkpoint itself exactly when it passes the loop guard and is its own effect input |
| `CheckpointElimination.SelfReplacementIsSelfLoop` | src/compiler/checkpoint-elimination.cc:22-25 | a checkpoint that is its own effect input is redundant exactly when it passes the loop guard, because the walk starts and stops at it |
| `CheckpointElimination.ReduceReturn` | src/compiler/checkpoint-elimination.cc:41-52 | `Changed(r)` exactly when r's effect input is a checkpoint owned by r, otherwise `NoChange` with the graph untouched; when changed, r's effect input becomes the checkpoint's effect input, only r's first effect slot and the two affected use lists change, the checkpoint is left with no uses (it cannot be its own effect input, since its sole user is the return), and the graph stays well formed |
| `CheckpointElimination.Reduce` | src/compiler/checkpoint-elimination.cc:54-64 | needs a rank only for a checkpoint; `Replace` exactly for redundant checkpoints, and `Replace(n)` itself exactly for a guarded checkpoint that is its own effect input; `Changed(n)` exactly for returns owning their checkpoint; `NoChange` with no mutation for every other opcode; well-formedness is preserved |
| `CheckpointElimination.CheckpointBehindCheckpoint` | src/compiler/checkpoint-elimination.cc:22-25 | a checkpoint whose immediate effect input is a no-write, single-input checkpoint is replaced after zero further steps |
| `CheckpointElimination.WriteBlocksElimination` | src/compiler/checkpoint-elimination.cc:21-29 | a writing node met before any checkpoint makes the checkpoint not redundant and gives `NoChange`, whatever lies further up the chain |
| `CheckpointElimination.MergeBlocksElimination` | src/compiler/checkpoint-elimination.cc:21-29 | a node with effect input count other than 1 met before any checkpoint makes the checkpoint not redundant and gives `NoChange`, even if a checkpoint lies beyond it |
| `CheckpointElimination.SecondUserBlocksPruning` | src/compiler/checkpoint-elimination.cc:44-51 | when any node other than the return also has the checkpoint as an input, the return does not own the checkpoint, so it gets `NoChange` and the graph is untouched |
| `CheckpointElimination.SecondEdgeBlocksPruning` | src/compiler/checkpoint-elimination.cc:44-51 | when the return itself uses the checkpoint through two or more edges, it does not own it exclusively, so it gets `NoChange` and the graph is untouched |
| `CheckpointElimination.PruningKeepsRank` | src/compiler/checkpoint-elimination.cc:47-48 | the rewiring keeps the walk's termination rank valid exactly when the return is not a node the walk steps over, or the rank drops from the return to the checkpoint's effect input |
| `Graph.OwnedByIffSoleEdge` | src/compiler/checkpoint-elimination.cc:44 | in a well-formed graph, `a` is owned by `b` exactly when `b` has one input edge to `a` and no other node has any |
| `Graph.ReplaceEffectInput` | src/compiler/checkpoint-elimination.cc:47-48 | the return's first effect slot now holds the new input, the old input loses one use by it, the new input gains one, nothing else changes, and the graph stays well formed |
| `Scenarios.LinearChainReplaces` | src/compiler/checkpoint-elimination.cc:33-37 | on Start, Checkpoint, LoadField, Checkpoint, Return, the later checkpoint is replaced by the LoadField |
| `Scenarios.LinearChainPrunes` | src/compiler/checkpoint-elimination.cc:41-49 | on the same graph the return, sole user of its checkpoint, is rewired to the LoadField |
| `Scenarios.WriteKeepsCheckpoint` | src/compiler/checkpoint-elimination.cc:21-29 | a checkpoint behind a StoreField is kept, with the graph untouched |
| `Scenarios.WriteThenReturnPrunes` | src/compiler/checkpoint-elimination.cc:41-49 | the return then cuts that checkpoint out and points at the StoreField |
| `Scenarios.SharedCheckpointKept` | src/compiler/checkpoint-elimination.cc:44-51 | a checkpoint also used by a Deoptimize node is not pruned by the return |
| `Scenarios.SelfLoopReplacesItself` | src/compiler/checkpoint-elimination.cc:21-37 | a no-write checkpoint that is its own effect input is named as its own replacement |
| `Scenarios.CycleHasNoRank` | src/compiler/checkpoint-elimination.cc:23-26 | a cycle of two no-write, single-effect-input non-checkpoints admits no rank, so the walk would not stop on it |
| `Scenarios.ReturnPrunesBesideCycle` | src/compiler/checkpoint-elimination.cc:41-49 | next to such a cycle, a return that owns its checkpoint is still dispatched and rewired to the checkpoint's effect input |
| `Scenarios.CheckpointBeyondMergeKept` | src/compiler/checkpoint-elimination.cc:23-28 | a checkpoint behind an EffectPhi is kept although another checkpoint lies beyond the merge |

## Left out

- The `Editor`, `AdvancedReducer` and the fixed-point graph-reducer driver (src/compiler/checkpoint-elimination.cc:13-14). `Replace` only names the replacement. Redirecting all uses is done by the driver, which is not part of this model.
- `NodeProperties::GetEffectInput`, `NodeProperties::ReplaceEffectInput` and `Node::OwnedBy` live in `node-properties.cc` and `node.h`, which are not part of this model. `EffectInput`, `ReplaceEffectInput` and `OwnedBy` model what the pass relies on: slot 0 of the effect inputs is read or overwritten, one use moves from the old input to the new one, and ownership means a single use by the owner.
- Value, context, frame-state and control inputs are lumped into one sequence, `others`. The pass only counts them as uses.
- The operator catalog is reduced to the opcode, the no-write flag and the effect input count.
- The `DCHECK`s on opcode (src/compiler/checkpoint-elimination.cc:34, 42) are `requires` clauses, not runtime checks. So is the effect-input-count check inside `GetEffectInput`.
- The walk's termination: `ScanChain`, `IsRedundantCheckpoint` and `ReduceCheckpoint` require a rank (`RankedBy`), and so does `Reduce` in its checkpoint branch only. The source demands no rank. On an effect cycle through a no-write, single-effect-input checkpoint the walk returns true when it reaches that checkpoint (src/compiler/checkpoint-elimination.cc:25), and the model covers such graphs. The source loops forever only on a cycle of no-write, single-effect-input nodes with no checkpoint in it. No rank exists for such a graph, so the model does not cover it. The rank is over the whole graph, so this also excludes a checkpoint whose walk never reaches the cycle, on which the source does terminate. Returns and other opcodes are dispatched without a rank on any well-formed graph.
- Garbage collection of the orphaned checkpoint, the deoptimization machinery, and true effect dominance. The source itself uses only the linear-chain approximation.
- Idempotence of the whole pass. The source does not promise it.
- Whether replacing a checkpoint keeps the graph effect-equivalent. That depends on the driver's rewiring, which is not modelled.
