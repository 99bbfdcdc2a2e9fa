# AnimatorCoder sequencer, modelled in Dafny

AnimatorCoder is a small Unity library that drives an `Animator` from code
instead of from transition graphs. This project models its core:

- The per-object **sequencer** (`AnimatorCoder`). It keeps parallel per-layer
  arrays: the current animation, a lock flag and a pending chain step. It
  also keeps a table of boolean parameters.
  - `Play` is a small state machine. RESET delegates to the
    default-animation hook. A locked layer, or a request for the animation
    already playing, is rejected. Otherwise the request cancels the layer's
    pending chain step, commits the new animation and lock flag, asks the
    engine for a cross-fade, and schedules a follow-up step when the
    descriptor has one.
  - When that step fires, it unlocks the layer and plays the follow-up.
- The **animation descriptor** (`AnimationData`). Its follow-up link is
  mutable.
- The **hash catalog** (`AnimatorValues`). It is built once behind an
  initialized flag, looked up by ordinal, and searched in reverse to seed each
  layer's current animation.
- The **condition trigger** (`OnParameter.OnStateUpdate`). When a parameter
  has its target value, it unlocks the layer, links its descriptor list into a
  chain in place and plays the head of the chain.
- The two **enumerations** of animation states and parameters.

The engine is an abstract collaborator (`Engine.Animator`):
- its layer count;
- each layer's state hash, current state length and next state length, all
  uninterpreted functions;
- a ghost log of the cross-fade requests it receives.

The name-to-hash function is a parameter of `Initialize`. It is not assumed
injective.

A coroutine becomes a per-layer slot `Option<Pending(step, delay)>` plus an
explicit `Fire(layer)` method. Unity runs a coroutine synchronously up to its
first `yield`, so the delay is computed inside `Play`. The follow-up
descriptor is read from `step.nextAnimation` only when the step fires, as the
source's closure does.

`Initialize` replaces the slot array without stopping the steps in it. Those
steps keep running as **orphans** (`orphans`), and `FireOrphan(k)` fires one of
them. See "## Findings".

Each stateful method is proved against a pure function in `LayerModel`:
- `State()` maps the three layer arrays to a `LayerTable` value.
- `Play` moves it to `PlayOn(old(State()), layer, RequestOf(data, layer))`.
- `SetLocked` moves it to `WithLock(...)`.
- `Fire` unlocks and consumes the slot, then plays.

The rules of the state machine are lemmas about those functions. The
`Scenarios` module holds client programs that drive the sequencer through its
promised behaviours using only the method contracts.

Modules: `Options`, `Identifiers`, `Engine`, `Descriptors`, `HashCatalog`,
`LayerModel`, `Coder`, `Trigger`, `Scenarios`.

## Model

| member | source | states |
|---|---|---|
| Identifiers.Ordinal | AnimatorValues.cs:7-17 | an animation's ordinal is below the member count and indexes that member in declaration order |
| Identifiers.ParameterOrdinal | AnimatorValues.cs:20-24 | a parameter's ordinal is a valid slot of the parameter table |
| Identifiers.OrdinalOfMember | AnimatorValues.cs:7-17 | ordinal and declaration position are inverse |
| Identifiers.OrdinalsDistinct | AnimatorValues.cs:7-17 | distinct members have distinct ordinals, so the seeding search meets each member once |
| Identifiers.Name | AnimatorCoder.cs:210 | each member's engine state name is its symbolic enum name |
| Engine.Animator.CrossFade | AnimatorCoder.cs:142 | a cross-fade request is appended to the engine's log, and nothing else changes |
| Descriptors.AnimationData.constructor | AnimatorCoder.cs:186-192 | a descriptor holds exactly the animation, lock flag, follow-up and cross-fade it was built with; omitted arguments default to RESET, false, null and 0 |
| HashCatalog.NameHashes | AnimatorCoder.cs:210-214 | the table has one entry per member, and the entry at a member's ordinal is the hash of its name |
| HashCatalog.FirstMatch | AnimatorCoder.cs:39-46 | the result is the least index at or after the start whose hash matches; None exactly when no index matches |
| HashCatalog.LookupAnimation | AnimatorCoder.cs:36-46 | the seeded member: the member at the first matching index, or IDLE (the zeroed array value) when nothing matches |
| HashCatalog.LookupAnimationIsFirstMatch | AnimatorCoder.cs:36-46 | seeding yields `a` iff `a` is the first member in ordinal order whose hash equals the state hash, or `a` is IDLE and no member matches |
| HashCatalog.LookupAnimationHashMatches | AnimatorCoder.cs:38-46 | when some member matches the state hash, the seeded member's own hash equals it |
| HashCatalog.AnimatorValues.constructor | AnimatorCoder.cs:201-202 | before the first Initialize the table is absent and the flag is false |
| HashCatalog.AnimatorValues.Initialize | AnimatorCoder.cs:205-215 | the first call builds the table from the hash of every member name; a later call changes nothing (idempotent) |
| HashCatalog.AnimatorValues.GetHash | AnimatorCoder.cs:218-221 | the hash is the table entry at the ordinal, which is the hash of the member's name |
| LayerModel.CurrentOf | AnimatorCoder.cs:59-70 | the animation on a layer, or RESET, the fallback of the caught fault, for a layer that does not exist |
| LayerModel.LockedOf | AnimatorCoder.cs:85-96 | the lock flag of a layer, or false, the fallback of the caught fault, for a layer that does not exist |
| LayerModel.Admits | AnimatorCoder.cs:130-164 | a request is admitted exactly when it is not RESET, the layer exists (otherwise the fault is caught), the layer is unlocked and the animation differs from the current one |
| LayerModel.PendingOf | AnimatorCoder.cs:18 | the chain step pending on a layer, or none for a layer that does not exist |
| LayerModel.ChainDelay | AnimatorCoder.cs:150-152 | seconds until a chain step fires: the next state's length, or the current state's length when the cross-fade is zero, minus the follow-up's cross-fade |
| LayerModel.Commit | AnimatorCoder.cs:138-146 | a commit writes the layer's animation, lock flag and pending step, replacing the old step, and keeps the table well formed |
| LayerModel.PlayOn | AnimatorCoder.cs:130-158 | the table after a request for a descriptor: the commit when the request is admitted, the old table otherwise |
| LayerModel.WithLock | AnimatorCoder.cs:73-83 | sets one layer's lock flag; a layer that does not exist leaves the table as it was |
| LayerModel.Consume | AnimatorCoder.cs:147-155 | a fired step leaves its layer's slot; a layer that does not exist leaves the table as it was |
| LayerModel.Running | AnimatorCoder.cs:18 | the steps still pending in a slot array, with their layers: every such step is listed once, in layer order, and nothing else is |
| LayerModel.RunningOfEmptySlots | AnimatorCoder.cs:18 | a slot array with no pending step leaves nothing running |
| LayerModel.ResetRejects | AnimatorCoder.cs:130-134 | RESET is never committed, on any layer, in range or not |
| LayerModel.LockedLayerRejects | AnimatorCoder.cs:136 | a locked layer rejects every request and the table is unchanged |
| LayerModel.SameAnimationRejects | AnimatorCoder.cs:136 | a request for the animation already current is rejected, locked or not, and the table is unchanged |
| LayerModel.OutOfRangeRejects | AnimatorCoder.cs:160-164 | a request on a layer that does not exist changes nothing |
| LayerModel.AdmittedRequestCommits | AnimatorCoder.cs:138-146 | an admitted request sets the layer's animation, lock flag and pending step (the old step is cancelled); every other layer is unchanged |
| LayerModel.PlayIdempotent | AnimatorCoder.cs:136-146 | playing the same request twice equals playing it once |
| LayerModel.RepeatedTickOnlyUnlocks | AnimatorCoder.cs:136 | unlocking, then requesting the current animation, commits nothing; the only effect is the cleared lock |
| LayerModel.UnlockThenPlay | AnimatorCoder.cs:136 | after unlocking, a request is admitted iff it is not RESET, the layer exists and the animation differs |
| LayerModel.ChainDelayExample | AnimatorCoder.cs:150-152 | two instances that tell the branches apart: the same two lengths give 0.8 s through either branch when their roles are swapped |
| LayerModel.ChainDelayMayBeNegative | AnimatorCoder.cs:150-152 | on either branch, a follow-up cross-fade longer than both lengths gives a negative delay, which nothing rejects |
| Coder.AnimatorCoder.ParameterValue | AnimatorCoder.cs:112-123 | the value of a parameter, or false, the fallback of the caught fault, before Initialize |
| Coder.AnimatorCoder.RequestOf | AnimatorCoder.cs:139-152 | what an admitted request writes: the descriptor's animation and lock flag and its cross-fade time, and, when a follow-up exists, a pending step on this descriptor whose delay is `ChainDelay` of the engine's lengths and the follow-up's cross-fade read at schedule time |
| Coder.AnimatorCoder.constructor | AnimatorCoder.cs:14-18 | a new sequencer has no arrays yet, no orphaned step, and its hook has never been invoked |
| Coder.AnimatorCoder.DefaultAnimation | AnimatorCoder.cs:13 | the hook's invocation for a layer is recorded |
| Coder.AnimatorCoder.Initialize | AnimatorCoder.cs:21-56 | the table is built if needed; the layer arrays get the engine's layer count; every layer is unlocked with an empty slot, and is seeded with the reverse lookup of its state hash; every parameter is false; every step still pending in the old slot array keeps running as an orphan |
| Coder.AnimatorCoder.OrphanSteps | AnimatorCoder.cs:30 | replacing the slot array without stopping its steps adds exactly the pending ones, with their layers, to the orphans |
| Coder.AnimatorCoder.ResetLayers | AnimatorCoder.cs:34-47 | the layer loop unlocks every layer and seeds every layer |
| Coder.AnimatorCoder.ResetParameters | AnimatorCoder.cs:51-55 | every parameter starts false |
| Coder.AnimatorCoder.SeedLayer | AnimatorCoder.cs:38-46 | the inner search leaves the first matching member, or IDLE, on that layer; other layers are untouched |
| Coder.AnimatorCoder.GetCurrentAnimation | AnimatorCoder.cs:59-70 | returns the layer's animation, or RESET before Initialize and for a layer that does not exist |
| Coder.AnimatorCoder.SetLocked | AnimatorCoder.cs:73-83 | sets only that layer's lock flag; out of range or before Initialize, nothing changes; parameters unchanged |
| Coder.AnimatorCoder.IsLocked | AnimatorCoder.cs:85-96 | returns the layer's lock flag, or false for a layer that does not exist |
| Coder.AnimatorCoder.SetBool | AnimatorCoder.cs:99-109 | writes exactly that parameter's slot; before Initialize nothing changes; layers unchanged |
| Coder.AnimatorCoder.GetBool | AnimatorCoder.cs:112-123 | returns the parameter's value, or false before Initialize |
| Coder.AnimatorCoder.Play | AnimatorCoder.cs:126-165 | the layer defaults to 0. Returns true iff the request is admitted. The layer table moves to `PlayOn` of the request: RESET, locked, same-animation, out-of-range, null and uninitialized commit nothing. RESET, and only RESET, invokes the hook. Exactly one cross-fade, to the member's hash, is issued iff committed. Parameters are unchanged |
| Coder.AnimatorCoder.Commit | AnimatorCoder.cs:138-152 | the layer's old pending step is cancelled; animation and lock flag are committed; one cross-fade is issued; a pending step exists iff there is a follow-up, and its delay is `ChainDelay` of the engine's lengths |
| Coder.AnimatorCoder.Fire | AnimatorCoder.cs:147-155 | with no pending step, nothing changes. Otherwise the step is consumed, the layer unlocked, and the step's current follow-up played as `Play` would |
| Coder.AnimatorCoder.FireOrphan | AnimatorCoder.cs:147-155 | an orphaned step fires like a pending one: it unlocks its layer in the new arrays and plays its follow-up there, then leaves the orphans; no other orphan changes |
| Coder.AnimatorCoder.StopChains | AnimatorCoder.cs:138 | stopping every slot's step leaves no step pending |
| Coder.AnimatorCoder.InitializeStoppingChains | AnimatorCoder.cs:21-56 | Initialize's effect on the arrays, the table and the parameters, with no orphan added |
| Trigger.LinkAfter | OnParameter.cs:26-27 | a descriptor's link after the first k iterations of the loop: the entry after its last occurrence among them, or its original link |
| Trigger.LinkAfterDistinct | OnParameter.cs:26-27 | with distinct entries, entry `i` links to entry `i + 1` for every `i` before the last; the last entry keeps its link |
| Trigger.LinkAfterIdempotent | OnParameter.cs:26-27 | linking twice gives the same links as linking once |
| Trigger.RepeatedEntryLinksCycle | OnParameter.cs:26-27 | a descriptor listed twice is relinked by its last occurrence; `[a, b, a]` links a and b into a cycle, followed for as long as consecutive animations differ |
| Trigger.OnParameter.constructor | OnParameter.cs:10-14 | a trigger holds the parameter, target, descriptor list and sequencer it was built with |
| Trigger.OnParameter.LinkChain | OnParameter.cs:26-27 | every descriptor's link is `LinkAfter` of the whole loop (last write wins); nothing else changes |
| Trigger.OnParameter.Dispatched | OnParameter.cs:24-29 | the effect of a matching tick: every link as the linking loop leaves it, and the layer table after unlocking and then playing the relinked head, with the hook and cross-fade logs as `Play` extends them |
| Trigger.OnParameter.Dispatch | OnParameter.cs:24-29 | on a match: the links are stitched; the layer is unlocked before the head of the list is played on it; defaults hook and cross-fade as `Play` |
| Trigger.OnParameter.OnStateUpdate | OnParameter.cs:21-30 | when the parameter differs from the target, nothing changes (locks, animations, pending steps, links, engine log). Otherwise the dispatch happens as in `Dispatch` |
| Scenarios.PlayLocksAndSchedules | AnimatorCoder.cs:126-152 | seeded IDLE; a locking RUN commits, locks the layer, and schedules its step after the state's length |
| Scenarios.ChainFires | AnimatorCoder.cs:153-154 | firing the step unlocks the layer and commits the follow-up ATTACK1 |
| Scenarios.ChainTiming | AnimatorCoder.cs:150-152 | zero cross-fade, 1.0 s clip, 0.2 s follow-up cross-fade: the delay is 0.8 s |
| Scenarios.ChainCancellation | AnimatorCoder.cs:138 | a commit before the step fires cancels it; firing then does nothing and the later animation stays |
| Scenarios.LockGating | AnimatorCoder.cs:136 | a locked layer refuses another animation; after unlocking, requesting the current animation is still refused |
| Scenarios.RefusedRequests | AnimatorCoder.cs:130-136 | RESET returns false and invokes the hook once; an out-of-range layer returns false |
| Scenarios.OrphanedStepFires | AnimatorCoder.cs:30 | after a second Initialize, layer 0 is unlocked with an empty slot, yet the old RUN step still fires there and commits ATTACK1 |
| Scenarios.StoppedStepNeverFires | AnimatorCoder.cs:21-56 | with the steps stopped before reinitializing, no step fires and layer 0 stays at its seeded IDLE |
| Scenarios.ParameterRoundTrip | AnimatorCoder.cs:99-123 | a parameter reads back what was set; the other parameter stays false; before Initialize reads are false |

## Findings

| source | as written | input that shows it | evidently intended | confidence | as-written member | corrected member |
|---|---|---|---|---|---|---|
| AnimatorCoder.cs:30 | `Initialize` replaces the slot array without stopping the steps it holds. A step pending before a second `Initialize` keeps running. No commit can cancel it, because the commit stops only the handle in the new slot. | Initialize; play a locking RUN with follow-up ATTACK1 on layer 0; Initialize again; the old step fires, unlocks layer 0 and commits ATTACK1 over the freshly seeded IDLE | re-initialization leaves no chain step from before, keeping one pending step per layer | medium, not executed | Coder.AnimatorCoder.Initialize, with Scenarios.OrphanedStepFires | Coder.AnimatorCoder.InitializeStoppingChains, with Scenarios.StoppedStepNeverFires |

The timing of an orphan is not modelled. `FireOrphan` stands for the moment the engine's clock reaches it.

Every scenario that builds a fresh sequencer (`NewSequencer`, `ParameterRoundTrip`) initializes it with `InitializeStoppingChains`. On a fresh sequencer it has the same effect as `Initialize`.

## Left out

- Coder.AnimatorCoder.DefaultAnimation: the hook is abstract and overridden by the embedding object. The override's effects are not modelled; only its invocation is recorded.
  - An override may call `Play` or `SetLocked` on the same sequencer.
  - The RESET promises of `Play` (`LayerModel.ResetRejects`, the unchanged table) are about `Play`'s own code, not about what the hook then does.
- Engine lookup: `Initialize`'s optional animator argument and the `GetComponent` fallback are left out. The engine is given at construction.
- `animator.Update(0)` is left out. The engine's reported lengths are uninterpreted, so they stand for the values after that update.
- Coroutine machinery (`StartCoroutine`, `StopCoroutine`, `WaitForSeconds`, real time) becomes a slot plus `Fire`.
  - After a step fires, or after a commit without a follow-up, the slot is `None`. The source keeps a finished or stopped handle there, which behaves the same.
- Collaborators the model cannot see:
  - `LogError` / `Debug.LogError` diagnostics are left out. Only the default return values are modelled.
  - `ParameterDisplay.name` strings and the inspector attributes are editor display only.
  - `Animator.StringToHash` becomes the `stringToHash` parameter.
- `OnStateEnter` is left out. The component lookup is a foreign call; the trigger is given its sequencer at construction.
- Threads: thread-safety of the one-time table initialization is not modelled, since usage is single-threaded.
- Cycles: the source does no cycle detection in descriptor chains, and neither does the model. `RepeatedEntryLinksCycle` shows how a cycle arises.
- Float precision: durations are `real`, with no single-precision rounding.
- Shared table: the static catalog is one `AnimatorValues` object shared by every sequencer.
- Descriptor fields: `animation`, `lockLayer` and `crossfade` are constants. Nothing in the core writes them after construction. Only `nextAnimation` is mutable.
- `Trigger.OnParameter.OnStateUpdate`:
  - On a matching tick it requires a non-empty descriptor list; there the source faults at index 0, uncaught, after unlocking. A non-matching tick accepts an empty list, as the source returns before any index.
  - Null list entries and a missing sequencer (the source faults) are not modelled.
  - The descriptor list is an immutable sequence of references. The source never resizes or reassigns it.
- Exceptions: the try/catch in the accessors and in `Play` is modelled by explicit null and bounds checks that return the same defaults.
  - `Play(null)` is such a fault: it returns false and changes nothing.
