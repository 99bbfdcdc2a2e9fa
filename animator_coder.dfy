/**
 * The per-object animation sequencer. It keeps parallel per-layer arrays
 * (current animation, lock flag, pending chain step) and a parameter table,
 * all created by Initialize; before that they are null, and every access
 * falls back to its default.
 */
module Coder {
  import opened Options
  import opened Identifiers
  import opened Engine
  import opened HashCatalog
  import opened Descriptors
  import opened LayerModel

  class AnimatorCoder {
    const animator: Animator
    const catalog: AnimatorValues
    var currentAnimation: array?<Animation>
    var layerLocked: array?<bool>
    var parameters: array?<bool>
    var currentCoroutine: array?<Option<Pending>>
    /**
     * Chain steps still running from slot arrays that Initialize replaced,
     * oldest first. No commit can cancel them; each fires at some later time.
     */
    var orphans: seq<Orphan>
    /** Layers for which the embedding object's default-animation hook was invoked, oldest first. */
    ghost var defaultRequests: seq<int>

    /** All four arrays exist. */
    predicate Initialized()
      reads this
    {
      currentAnimation != null && layerLocked != null && parameters != null && currentCoroutine != null
    }

    ghost predicate Valid()
      reads this, catalog, catalog.animations
    {
      catalog.Valid() &&
      (Initialized() ==>
         catalog.initialized &&
         layerLocked.Length == currentAnimation.Length && currentCoroutine.Length == currentAnimation.Length &&
         parameters.Length == ParameterCount && layerLocked != parameters) &&
      (!Initialized() ==>
         currentAnimation == null && layerLocked == null && parameters == null && currentCoroutine == null)
    }

    /** The layer arrays as a value; empty before Initialize. */
    ghost function State(): (t: LayerTable)
      reads this, currentAnimation, layerLocked, currentCoroutine
      ensures t.WellFormed() || !Valid()
    {
      if !Initialized() then LayerTable([], [], [])
      else LayerTable(currentAnimation[..], layerLocked[..], currentCoroutine[..])
    }

    /** The parameter values by ordinal; empty before Initialize. */
    ghost function Params(): seq<bool>
      reads this, parameters
    {
      if parameters == null then [] else parameters[..]
    }

    /** The value of a parameter, or false before Initialize. */
    ghost function ParameterValue(id: Parameter): bool
      reads this, parameters
    {
      ParameterOrdinal(id) < |Params()| && Params()[ParameterOrdinal(id)]
    }

    /**
     * What a play request for `data` on `layer` commits: its animation, lock
     * flag and cross-fade, and, when it has a follow-up, a pending step whose
     * delay is computed from the engine's reported lengths.
     */
    ghost function RequestOf(data: AnimationData, layer: int): Request
      reads data, animator
    {
      Request(data.animation, data.lockLayer, data.crossfade,
        if data.nextAnimation == null then None
        else Some(Pending(data, ChainDelay(data.crossfade, animator.currentLength(layer),
                                           animator.nextLength(layer), data.nextAnimation.crossfade))))
    }

    constructor (animator: Animator, catalog: AnimatorValues)
      requires catalog.Valid()
      ensures Valid() && !Initialized() && defaultRequests == [] && orphans == []
      ensures this.animator == animator && this.catalog == catalog
    {
      this.animator := animator;
      this.catalog := catalog;
      currentAnimation := null;
      layerLocked := null;
      parameters := null;
      currentCoroutine := null;
      orphans := [];
      defaultRequests := [];
    }

    /** The embedding object's baseline animation logic for a layer; only its invocation is recorded. */
    method DefaultAnimation(layer: int)
      modifies this`defaultRequests
      ensures defaultRequests == old(defaultRequests) + [layer]
    {
      defaultRequests := defaultRequests + [layer];
    }

    /**
     * Builds the hash table if needed, sizes the layer arrays to the engine's
     * layer count, unlocks every layer, seeds each layer's animation from the
     * engine's state hash, and zeroes the parameters. The new slot array holds
     * no pending step, but nothing stops the steps pending in the old one:
     * they go on running as orphans.
     */
    method Initialize(stringToHash: string -> int)
      requires Valid()
      modifies this, catalog
      ensures Valid() && Initialized()
      ensures fresh(currentAnimation) && fresh(layerLocked) && fresh(parameters) && fresh(currentCoroutine)
      ensures catalog.Hashes() == if old(catalog.initialized) then old(catalog.Hashes()) else NameHashes(stringToHash)
      ensures currentAnimation.Length == animator.layerCount
      ensures forall i :: 0 <= i < currentAnimation.Length ==>
        currentAnimation[i] == LookupAnimation(catalog.Hashes(), animator.stateHash(i))
        && !layerLocked[i] && currentCoroutine[i] == None
      ensures forall p :: 0 <= p < parameters.Length ==> !parameters[p]
      ensures orphans == old(orphans) + Running(old(State().pending))
      ensures defaultRequests == old(defaultRequests)
    {
      if Initialized() {
        OrphanSteps();
      }
      catalog.Initialize(stringToHash);
      var n := animator.layerCount;
      currentCoroutine := new Option<Pending>[n](_ => None);
      layerLocked := new bool[n];
      currentAnimation := new Animation[n](_ => IDLE);
      ResetLayers();
      parameters := new bool[ParameterCount];
      ResetParameters();
    }

    /** The steps pending in the slot array about to be replaced keep running. */
    method OrphanSteps()
      requires currentCoroutine != null
      modifies this`orphans
      ensures orphans == old(orphans) + Running(currentCoroutine[..])
    {
      var i := 0;
      while i < currentCoroutine.Length
        invariant 0 <= i <= currentCoroutine.Length
        invariant orphans == old(orphans) + Running(currentCoroutine[..i])
      {
        assert currentCoroutine[..i + 1][..i] == currentCoroutine[..i];
        if currentCoroutine[i].Some? {
          orphans := orphans + [Orphan(i, currentCoroutine[i].value)];
        }
        i := i + 1;
      }
      assert currentCoroutine[..i] == currentCoroutine[..];
    }

    /** The per-layer loop of Initialize: unlock each layer and seed its animation. */
    method ResetLayers()
      requires catalog.Valid() && catalog.initialized
      requires currentAnimation != null && layerLocked != null && layerLocked.Length == currentAnimation.Length
      requires forall j :: 0 <= j < currentAnimation.Length ==> currentAnimation[j] == IDLE
      modifies layerLocked, currentAnimation
      ensures forall j :: 0 <= j < currentAnimation.Length ==>
        !layerLocked[j] && currentAnimation[j] == LookupAnimation(catalog.Hashes(), animator.stateHash(j))
    {
      var i := 0;
      while i < currentAnimation.Length
        invariant 0 <= i <= currentAnimation.Length
        invariant forall j :: 0 <= j < i ==>
          !layerLocked[j] && currentAnimation[j] == LookupAnimation(catalog.Hashes(), animator.stateHash(j))
        invariant forall j :: i <= j < currentAnimation.Length ==> currentAnimation[j] == IDLE
      {
        layerLocked[i] := false;
        SeedLayer(i);
        i := i + 1;
      }
    }

    /** The parameter loop of Initialize: every parameter starts false. */
    method ResetParameters()
      requires parameters != null
      modifies parameters
      ensures forall p :: 0 <= p < parameters.Length ==> !parameters[p]
    {
      for p := 0 to parameters.Length
        invariant forall j :: 0 <= j < p ==> !parameters[j]
      {
        parameters[p] := false;
      }
    }

    /**
     * One pass of the seeding search: the first member whose hash equals the
     * layer's state hash becomes its current animation; with no match the
     * array keeps its zero value, IDLE.
     */
    method SeedLayer(i: int)
      requires catalog.Valid() && catalog.initialized
      requires currentAnimation != null && 0 <= i < currentAnimation.Length && currentAnimation[i] == IDLE
      modifies currentAnimation
      ensures currentAnimation[i] == LookupAnimation(catalog.Hashes(), animator.stateHash(i))
      ensures forall j :: 0 <= j < currentAnimation.Length && j != i ==> currentAnimation[j] == old(currentAnimation[j])
    {
      var hash := animator.stateHash(i);
      var k := 0;
      while k < AnimationCount
        invariant 0 <= k <= AnimationCount + 1
        invariant forall j :: 0 <= j < currentAnimation.Length && j != i ==> currentAnimation[j] == old(currentAnimation[j])
        invariant k <= AnimationCount ==>
          currentAnimation[i] == IDLE && forall j :: 0 <= j < k ==> catalog.animations[j] != hash
        invariant k == AnimationCount + 1 ==> currentAnimation[i] == LookupAnimation(catalog.Hashes(), hash)
      {
        if hash == catalog.animations[k] {
          currentAnimation[i] := AllAnimations[k];
          k := AnimationCount;
        }
        k := k + 1;
      }
    }

    /** The animation playing on a layer, or RESET when the layer does not exist. */
    method GetCurrentAnimation(layer: int) returns (a: Animation)
      ensures a == CurrentOf(State(), layer)
      ensures a == RESET || (Initialized() && 0 <= layer < currentAnimation.Length && a == currentAnimation[layer])
    {
      if currentAnimation == null || layerLocked == null || currentCoroutine == null || parameters == null
        || !(0 <= layer < currentAnimation.Length) {
        return RESET;
      }
      a := currentAnimation[layer];
    }

    /** Sets a layer's lock flag; an out-of-range layer or an uninitialized sequencer changes nothing. */
    method SetLocked(lockLayer: bool, layer: int)
      requires Valid()
      modifies layerLocked
      ensures Valid()
      ensures State() == WithLock(old(State()), layer, lockLayer)
      ensures Params() == old(Params())
    {
      if !Initialized() || !(0 <= layer < layerLocked.Length) {
        return;
      }
      layerLocked[layer] := lockLayer;
    }

    /** Whether a layer is locked; false for a layer that does not exist. */
    method IsLocked(layer: int) returns (locked: bool)
      requires Valid()
      ensures locked == LockedOf(State(), layer)
    {
      if !Initialized() || !(0 <= layer < layerLocked.Length) {
        return false;
      }
      locked := layerLocked[layer];
    }

    /** Sets a parameter; before Initialize nothing changes. */
    method SetBool(id: Parameter, value: bool)
      requires Valid()
      modifies parameters
      ensures Valid()
      ensures Params() == if parameters == null then old(Params()) else old(Params())[ParameterOrdinal(id) := value]
      ensures State() == old(State())
    {
      if parameters == null {
        return;
      }
      parameters[ParameterOrdinal(id)] := value;
    }

    /** The value of a parameter; false before Initialize. */
    method GetBool(id: Parameter) returns (value: bool)
      requires Valid()
      ensures value == ParameterValue(id)
      ensures !Initialized() ==> !value
    {
      if parameters == null {
        return false;
      }
      value := parameters[ParameterOrdinal(id)];
    }

    /**
     * Attempts to play a descriptor on a layer and reports whether a transition
     * was committed. RESET hands the layer to the default-animation hook. An
     * admitted request cancels the layer's pending chain step, commits the
     * animation and lock flag, asks the engine for a cross-fade into the
     * animation's hash, and, when the descriptor has a follow-up, schedules a
     * chain step. A null descriptor, an uninitialized sequencer or an
     * out-of-range layer commit nothing.
     */
    method Play(data: AnimationData?, layer: int := 0) returns (committed: bool)
      requires Valid()
      modifies currentAnimation, layerLocked, currentCoroutine, this`defaultRequests, animator`crossFades
      ensures Valid()
      ensures committed == (data != null && Admits(old(State()), layer, data.animation))
      ensures State() == if data == null then old(State()) else PlayOn(old(State()), layer, RequestOf(data, layer))
      ensures defaultRequests == old(defaultRequests) + (if data != null && data.animation == RESET then [layer] else [])
      ensures animator.crossFades == old(animator.crossFades) +
        (if committed then [CrossFadeCall(catalog.hasher(Name(data.animation)), data.crossfade, layer)] else [])
      ensures Params() == old(Params())
    {
      if data == null {
        return false;
      }
      if data.animation == RESET {
        DefaultAnimation(layer);
        return false;
      }
      if !Initialized() || !(0 <= layer < layerLocked.Length) {
        return false;
      }
      if layerLocked[layer] || currentAnimation[layer] == data.animation {
        return false;
      }
      Commit(data, layer);
      return true;
    }

    /**
     * The committing half of Play, for an admitted request: cancel the layer's
     * pending step, commit the animation and lock flag, cross-fade into the
     * animation's hash, and schedule the follow-up when there is one. The
     * chain delay is measured on the state just cross-faded into.
     */
    method Commit(data: AnimationData, layer: int)
      requires Valid() && Admits(State(), layer, data.animation)
      modifies currentAnimation, layerLocked, currentCoroutine, animator`crossFades
      ensures Valid()
      ensures State() == LayerModel.Commit(old(State()), layer, RequestOf(data, layer))
      ensures animator.crossFades == old(animator.crossFades) +
        [CrossFadeCall(catalog.hasher(Name(data.animation)), data.crossfade, layer)]
      ensures Params() == old(Params())
    {
      ghost var before := State();
      ghost var request := RequestOf(data, layer);

      currentCoroutine[layer] := None;
      layerLocked[layer] := data.lockLayer;
      currentAnimation[layer] := data.animation;

      var hash := catalog.GetHash(currentAnimation[layer]);
      animator.CrossFade(hash, data.crossfade, layer);

      if data.nextAnimation != null {
        var delay := animator.nextLength(layer);
        if data.crossfade == 0.0 {
          delay := animator.currentLength(layer);
        }
        currentCoroutine[layer] := Some(Pending(data, delay - data.nextAnimation.crossfade));
      }
      assert currentAnimation[..] == before.current[layer := request.animation];
      assert layerLocked[..] == before.locked[layer := request.lockLayer];
      assert currentCoroutine[..] == before.pending[layer := request.chain];
    }

    /**
     * The pending chain step of a layer fires: the step is consumed, the layer
     * is unlocked and the follow-up descriptor is played. A layer with no
     * pending step (never scheduled, or cancelled by a later commit) is left
     * untouched.
     */
    method Fire(layer: int) returns (committed: bool)
      requires Valid()
      modifies currentAnimation, layerLocked, currentCoroutine, this`defaultRequests, animator`crossFades
      ensures Valid()
      ensures old(PendingOf(State(), layer)).None? ==>
        !committed && State() == old(State()) && defaultRequests == old(defaultRequests)
        && animator.crossFades == old(animator.crossFades)
      ensures old(PendingOf(State(), layer)).Some? ==>
        var next := old(PendingOf(State(), layer)).value.step.nextAnimation;
        var unlocked := WithLock(Consume(old(State()), layer), layer, false);
        committed == (next != null && Admits(unlocked, layer, next.animation))
        && State() == (if next == null then unlocked else PlayOn(unlocked, layer, RequestOf(next, layer)))
        && defaultRequests == old(defaultRequests) + (if next != null && next.animation == RESET then [layer] else [])
        && animator.crossFades == old(animator.crossFades) +
          (if committed then [CrossFadeCall(catalog.hasher(Name(next.animation)), next.crossfade, layer)] else [])
      ensures Params() == old(Params())
    {
      if !Initialized() || !(0 <= layer < currentCoroutine.Length) || currentCoroutine[layer].None? {
        return false;
      }
      var step := currentCoroutine[layer].value.step;
      currentCoroutine[layer] := None;
      SetLocked(false, layer);
      committed := Play(step.nextAnimation, layer);
    }

    /**
     * An orphaned chain step fires: it unlocks its layer and plays its
     * follow-up there, exactly as a pending step would, and is then done.
     * `k` names which orphan the engine's clock reaches; any other value
     * fires nothing.
     */
    method FireOrphan(k: int) returns (committed: bool)
      requires Valid()
      modifies this`orphans, currentAnimation, layerLocked, currentCoroutine, this`defaultRequests, animator`crossFades
      ensures Valid()
      ensures !(0 <= k < old(|orphans|)) ==>
        !committed && orphans == old(orphans) && State() == old(State())
        && defaultRequests == old(defaultRequests) && animator.crossFades == old(animator.crossFades)
      ensures 0 <= k < old(|orphans|) ==>
        var o := old(orphans[k]);
        var next := o.pending.step.nextAnimation;
        var unlocked := WithLock(old(State()), o.layer, false);
        orphans == old(orphans[..k] + orphans[k + 1..])
        && committed == (next != null && Admits(unlocked, o.layer, next.animation))
        && State() == (if next == null then unlocked else PlayOn(unlocked, o.layer, RequestOf(next, o.layer)))
        && defaultRequests == old(defaultRequests) + (if next != null && next.animation == RESET then [o.layer] else [])
        && animator.crossFades == old(animator.crossFades) +
          (if committed then [CrossFadeCall(catalog.hasher(Name(next.animation)), next.crossfade, o.layer)] else [])
      ensures Params() == old(Params())
    {
      if !(0 <= k < |orphans|) {
        return false;
      }
      var o := orphans[k];
      SetLocked(false, o.layer);
      committed := Play(o.pending.step.nextAnimation, o.layer);
      orphans := orphans[..k] + orphans[k + 1..];
    }

    /** Stops every pending chain step in the current slot array. */
    method StopChains()
      requires Valid()
      modifies currentCoroutine
      ensures Valid()
      ensures Running(State().pending) == []
      ensures Initialized() ==> forall i :: 0 <= i < currentCoroutine.Length ==> currentCoroutine[i] == None
    {
      if !Initialized() {
        return;
      }
      for i := 0 to currentCoroutine.Length
        invariant forall j :: 0 <= j < i ==> currentCoroutine[j] == None
      {
        currentCoroutine[i] := None;
      }
      RunningOfEmptySlots(currentCoroutine[..]);
    }

    /**
     * Initialize with the old chain steps stopped first, so that no step
     * outlives the arrays that held it and no orphan is added.
     */
    method InitializeStoppingChains(stringToHash: string -> int)
      requires Valid()
      modifies this, catalog, currentCoroutine
      ensures Valid() && Initialized()
      ensures fresh(currentAnimation) && fresh(layerLocked) && fresh(parameters) && fresh(currentCoroutine)
      ensures catalog.Hashes() == if old(catalog.initialized) then old(catalog.Hashes()) else NameHashes(stringToHash)
      ensures currentAnimation.Length == animator.layerCount
      ensures forall i :: 0 <= i < currentAnimation.Length ==>
        currentAnimation[i] == LookupAnimation(catalog.Hashes(), animator.stateHash(i))
        && !layerLocked[i] && currentCoroutine[i] == None
      ensures forall p :: 0 <= p < parameters.Length ==> !parameters[p]
      ensures orphans == old(orphans)
      ensures defaultRequests == old(defaultRequests)
    {
      StopChains();
      Initialize(stringToHash);
    }
  }
}
