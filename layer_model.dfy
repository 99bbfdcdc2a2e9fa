/**
 * The per-layer state of the sequencer as a value, and the transitions the
 * sequencer's methods perform on it. The methods of AnimatorCoder are proved
 * to move their arrays exactly as these functions say; the lemmas here state
 * the rules of the layer state machine.
 */
module LayerModel {
  import opened Options
  import opened Identifiers
  import opened Descriptors

  /** A scheduled chain step: when it fires, the follow-up of `step` is played after `delay` seconds. */
  datatype Pending = Pending(step: AnimationData, delay: real)

  /** What a play request commits to a layer when it is admitted. */
  datatype Request = Request(animation: Animation, lockLayer: bool, crossfade: real, chain: Option<Pending>)

  /**
   * The parallel per-layer arrays: current animation, lock flag and pending
   * chain step. Before initialization all three are empty, so every layer is
   * out of range.
   */
  datatype LayerTable = LayerTable(current: seq<Animation>, locked: seq<bool>, pending: seq<Option<Pending>>)
  {
    predicate WellFormed()
    {
      |locked| == |current| && |pending| == |current|
    }

    predicate InRange(layer: int)
    {
      0 <= layer < |current|
    }
  }

  /** The current animation on a layer, or RESET for a layer that does not exist. */
  function CurrentOf(t: LayerTable, layer: int): Animation
  {
    if t.InRange(layer) then t.current[layer] else RESET
  }

  /** The lock flag of a layer, or false for a layer that does not exist. */
  function LockedOf(t: LayerTable, layer: int): bool
    requires t.WellFormed()
  {
    t.InRange(layer) && t.locked[layer]
  }

  /** The pending chain step of a layer, if any. */
  function PendingOf(t: LayerTable, layer: int): Option<Pending>
    requires t.WellFormed()
  {
    if t.InRange(layer) then t.pending[layer] else None
  }

  /**
   * Seconds until a chain step fires. With a zero cross-fade the new state is
   * already current, so its length is used; otherwise the length of the state
   * being blended into. The follow-up's own cross-fade is subtracted so that
   * it blends into the tail of this clip. The result may be negative.
   */
  function ChainDelay(crossfade: real, currentLength: real, nextLength: real, nextCrossfade: real): real
  {
    (if crossfade == 0.0 then currentLength else nextLength) - nextCrossfade
  }

  /** A play request for `animation` is admitted: not RESET, an existing unlocked layer, a different animation. */
  predicate Admits(t: LayerTable, layer: int, animation: Animation)
    requires t.WellFormed()
  {
    animation != RESET && t.InRange(layer) && !t.locked[layer] && t.current[layer] != animation
  }

  /** Commits a request on a layer: the old pending step is replaced by the request's chain. */
  function Commit(t: LayerTable, layer: int, r: Request): (u: LayerTable)
    requires t.WellFormed() && t.InRange(layer)
    ensures u.WellFormed()
  {
    LayerTable(t.current[layer := r.animation], t.locked[layer := r.lockLayer], t.pending[layer := r.chain])
  }

  /** The layer table after a play request for a non-null descriptor. */
  function PlayOn(t: LayerTable, layer: int, r: Request): (u: LayerTable)
    requires t.WellFormed()
    ensures u.WellFormed()
  {
    if Admits(t, layer, r.animation) then Commit(t, layer, r) else t
  }

  /** Sets a layer's lock flag; an out-of-range layer leaves the table unchanged. */
  function WithLock(t: LayerTable, layer: int, lockLayer: bool): (u: LayerTable)
    requires t.WellFormed()
    ensures u.WellFormed()
  {
    if t.InRange(layer) then t.(locked := t.locked[layer := lockLayer]) else t
  }

  /** Removes a layer's pending step, as happens when that step fires. */
  function Consume(t: LayerTable, layer: int): (u: LayerTable)
    requires t.WellFormed()
    ensures u.WellFormed()
  {
    if t.InRange(layer) then t.(pending := t.pending[layer := None]) else t
  }

  /** The RESET sentinel is never committed, on any layer, in range or not. */
  lemma ResetRejects(t: LayerTable, layer: int, r: Request)
    requires t.WellFormed() && r.animation == RESET
    ensures !Admits(t, layer, r.animation) && PlayOn(t, layer, r) == t
  {
  }

  /** Lock gating: a locked layer rejects every request. */
  lemma LockedLayerRejects(t: LayerTable, layer: int, r: Request)
    requires t.WellFormed() && LockedOf(t, layer)
    ensures !Admits(t, layer, r.animation) && PlayOn(t, layer, r) == t
  {
  }

  /** Self-transition: requesting the animation already playing is rejected, locked or not. */
  lemma SameAnimationRejects(t: LayerTable, layer: int, r: Request)
    requires t.WellFormed() && CurrentOf(t, layer) == r.animation
    ensures !Admits(t, layer, r.animation) && PlayOn(t, layer, r) == t
  {
  }

  /** Bounds: a request on a layer that does not exist changes nothing. */
  lemma OutOfRangeRejects(t: LayerTable, layer: int, r: Request)
    requires t.WellFormed() && !t.InRange(layer)
    ensures PlayOn(t, layer, r) == t
  {
  }

  /**
   * An admitted request sets the layer's animation and lock flag, replaces its
   * pending step by the request's chain (cancelling the old one), and leaves
   * every other layer as it was.
   */
  lemma AdmittedRequestCommits(t: LayerTable, layer: int, r: Request)
    requires t.WellFormed() && Admits(t, layer, r.animation)
    ensures var u := PlayOn(t, layer, r);
      CurrentOf(u, layer) == r.animation && LockedOf(u, layer) == r.lockLayer && PendingOf(u, layer) == r.chain
      && |u.current| == |t.current|
      && forall other :: other != layer ==>
           CurrentOf(u, other) == CurrentOf(t, other) && LockedOf(u, other) == LockedOf(t, other)
           && PendingOf(u, other) == PendingOf(t, other)
  {
  }

  /** Playing the same request twice has the effect of playing it once. */
  lemma PlayIdempotent(t: LayerTable, layer: int, r: Request)
    requires t.WellFormed()
    ensures PlayOn(PlayOn(t, layer, r), layer, r) == PlayOn(t, layer, r)
  {
  }

  /**
   * A repeated trigger tick, which unlocks the layer and requests the
   * animation that is already current, commits nothing: its only effect is
   * the cleared lock.
   */
  lemma RepeatedTickOnlyUnlocks(t: LayerTable, layer: int, r: Request)
    requires t.WellFormed() && CurrentOf(t, layer) == r.animation
    ensures PlayOn(WithLock(t, layer, false), layer, r) == WithLock(t, layer, false)
    ensures t.InRange(layer) ==> !LockedOf(WithLock(t, layer, false), layer)
  {
  }

  /**
   * After unlocking, a request is admitted exactly when it is not RESET, the
   * layer exists and the animation differs: the old lock no longer gates it.
   */
  lemma UnlockThenPlay(t: LayerTable, layer: int, animation: Animation)
    requires t.WellFormed()
    ensures Admits(WithLock(t, layer, false), layer, animation) <==>
      animation != RESET && t.InRange(layer) && t.current[layer] != animation
  {
  }

  /**
   * Two instances that tell the branches apart: the same lengths give 0.8 s
   * when the length of the current state is used and 0.8 s again when the
   * roles of the two lengths are swapped and the cross-fade is non-zero.
   */
  lemma ChainDelayExample()
    ensures ChainDelay(0.0, 1.0, 7.0, 0.2) == 0.8
    ensures ChainDelay(0.1, 7.0, 1.0, 0.2) == 0.8
  {
  }

  /**
   * A follow-up cross-fade longer than both reported lengths gives a negative
   * delay whichever length is used; nothing rejects it.
   */
  lemma ChainDelayMayBeNegative(crossfade: real, currentLength: real, nextLength: real, nextCrossfade: real)
    requires nextCrossfade > currentLength && nextCrossfade > nextLength
    ensures ChainDelay(crossfade, currentLength, nextLength, nextCrossfade) < 0.0
  {
  }

  /**
   * A chain step that is still running although the slot array that held it
   * has been replaced: nothing can cancel it any more.
   */
  datatype Orphan = Orphan(layer: int, pending: Pending)

  /** The steps still pending in a slot sequence, in layer order, each with its layer. */
  function Running(slots: seq<Option<Pending>>): (r: seq<Orphan>)
    ensures |r| <= |slots|
    ensures forall o :: o in r ==> 0 <= o.layer < |slots| && slots[o.layer] == Some(o.pending)
    ensures forall i :: 0 <= i < |slots| && slots[i].Some? ==> Orphan(i, slots[i].value) in r
    ensures forall i, j :: 0 <= i < j < |r| ==> r[i].layer < r[j].layer
  {
    if |slots| == 0 then []
    else
      Running(slots[..|slots| - 1])
      + (if slots[|slots| - 1].Some? then [Orphan(|slots| - 1, slots[|slots| - 1].value)] else [])
  }

  /** Slots that hold no pending step leave nothing running. */
  lemma RunningOfEmptySlots(slots: seq<Option<Pending>>)
    requires forall i :: 0 <= i < |slots| ==> slots[i].None?
    ensures Running(slots) == []
  {
    if Running(slots) != [] {
      assert Running(slots)[0] in Running(slots);
    }
  }
}
