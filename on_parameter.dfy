/**
 * The condition trigger attached to one engine state: on every tick while
 * that state is active it compares a parameter with a target value and, on a
 * match, unlocks the layer, links its descriptors into a chain in place and
 * plays the head of the chain.
 */
module Trigger {
  import opened Identifiers
  import opened Engine
  import opened Descriptors
  import opened LayerModel
  import opened Coder

  /**
   * The follow-up link of descriptor `o` after the linking loop has run its
   * first `k` iterations: the last iteration `i < k` that wrote to `o` left
   * `entries[i + 1]` there; if none did, `o` keeps its `original` link.
   */
  function LinkAfter(entries: seq<AnimationData>, o: AnimationData, k: nat, original: AnimationData?): AnimationData?
    requires k < |entries|
  {
    if k == 0 then original
    else if entries[k - 1] == o then entries[k]
    else LinkAfter(entries, o, k - 1, original)
  }

  /** With no descriptor repeated, entry `i` links to entry `i + 1` and the last entry keeps its link. */
  lemma {:induction false} LinkAfterDistinct(entries: seq<AnimationData>, i: nat, k: nat, original: AnimationData?)
    requires k < |entries| && i < |entries|
    requires forall p, q :: 0 <= p < q < |entries| ==> entries[p] != entries[q]
    ensures LinkAfter(entries, entries[i], k, original) == if i < k then entries[i + 1] else original
  {
    if k > 0 && entries[k - 1] != entries[i] {
      LinkAfterDistinct(entries, i, k - 1, original);
    }
  }

  /** Linking is idempotent: running the loop again over its own result changes no link. */
  lemma {:induction false} LinkAfterIdempotent(entries: seq<AnimationData>, o: AnimationData, k: nat, original: AnimationData?)
    requires k < |entries|
    ensures LinkAfter(entries, o, k, LinkAfter(entries, o, k, original)) == LinkAfter(entries, o, k, original)
  {
    if k > 0 && entries[k - 1] != o {
      LinkAfterIdempotent(entries, o, k - 1, original);
    }
  }

  /**
   * A descriptor listed twice is relinked by its last occurrence: linking
   * [a, b, a] makes a and b point at each other, a cycle whose chain steps
   * keep firing for as long as consecutive animations differ.
   */
  lemma RepeatedEntryLinksCycle(a: AnimationData, b: AnimationData, originalA: AnimationData?, originalB: AnimationData?)
    requires a != b
    ensures LinkAfter([a, b, a], a, 2, originalA) == b
    ensures LinkAfter([a, b, a], b, 2, originalB) == a
  {
  }

  class OnParameter {
    /** The parameter to test. */
    const parameter: Parameter
    /** The value the parameter must have for the trigger to fire. */
    const target: bool
    /** The descriptors to chain and play when the condition is met. */
    const nextAnimations: seq<AnimationData>
    /** The sequencer of the object whose engine state this trigger watches. */
    const animatorBrain: AnimatorCoder

    constructor (parameter: Parameter, target: bool, nextAnimations: seq<AnimationData>, animatorBrain: AnimatorCoder)
      ensures this.parameter == parameter && this.target == target
      ensures this.nextAnimations == nextAnimations && this.animatorBrain == animatorBrain
    {
      this.parameter := parameter;
      this.target := target;
      this.nextAnimations := nextAnimations;
      this.animatorBrain := animatorBrain;
    }

    /**
     * One engine tick while the watched state is active. When the parameter
     * has the target value, the layer is unlocked, the descriptors are linked
     * into a chain and the head of the chain is played on the layer;
     * otherwise nothing changes.
     */
    method OnStateUpdate(layerIndex: int)
      requires animatorBrain.Valid()
      requires animatorBrain.ParameterValue(parameter) == target ==> |nextAnimations| >= 1
      modifies animatorBrain.currentAnimation, animatorBrain.layerLocked, animatorBrain.currentCoroutine
      modifies animatorBrain`defaultRequests, animatorBrain.animator`crossFades
      modifies nextAnimations
      ensures animatorBrain.Valid()
      ensures animatorBrain.Params() == old(animatorBrain.Params())
      ensures old(animatorBrain.ParameterValue(parameter)) != target ==>
        animatorBrain.State() == old(animatorBrain.State())
        && animatorBrain.defaultRequests == old(animatorBrain.defaultRequests)
        && animatorBrain.animator.crossFades == old(animatorBrain.animator.crossFades)
        && forall j :: 0 <= j < |nextAnimations| ==> nextAnimations[j].nextAnimation == old(nextAnimations[j].nextAnimation)
      ensures old(animatorBrain.ParameterValue(parameter)) == target ==> |nextAnimations| >= 1 && Dispatched(layerIndex)
    {
      var value := animatorBrain.GetBool(parameter);
      if value != target {
        return;
      }
      Dispatch(layerIndex);
    }

    /**
     * The effect of a matching tick: the descriptors are linked as the linking
     * loop leaves them, the layer was unlocked, and the head of the chain was
     * then played on it.
     */
    twostate predicate Dispatched(layerIndex: int)
      reads this, nextAnimations, animatorBrain, animatorBrain.animator
      reads animatorBrain.currentAnimation, animatorBrain.layerLocked, animatorBrain.currentCoroutine
      reads animatorBrain.catalog
      requires |nextAnimations| >= 1
      requires old(animatorBrain.State().WellFormed())
    {
      (forall j :: 0 <= j < |nextAnimations| ==>
        nextAnimations[j].nextAnimation ==
          LinkAfter(nextAnimations, nextAnimations[j], |nextAnimations| - 1, old(nextAnimations[j].nextAnimation)))
      && var head := nextAnimations[0];
      var unlocked := WithLock(old(animatorBrain.State()), layerIndex, false);
      animatorBrain.State() == PlayOn(unlocked, layerIndex, animatorBrain.RequestOf(head, layerIndex))
      && animatorBrain.defaultRequests == old(animatorBrain.defaultRequests) + (if head.animation == RESET then [layerIndex] else [])
      && animatorBrain.animator.crossFades == old(animatorBrain.animator.crossFades) +
        (if Admits(unlocked, layerIndex, head.animation)
         then [CrossFadeCall(animatorBrain.catalog.hasher(Name(head.animation)), head.crossfade, layerIndex)] else [])
    }

    /** The matching branch of OnStateUpdate. */
    method Dispatch(layerIndex: int)
      requires animatorBrain.Valid() && |nextAnimations| >= 1
      modifies animatorBrain.currentAnimation, animatorBrain.layerLocked, animatorBrain.currentCoroutine
      modifies animatorBrain`defaultRequests, animatorBrain.animator`crossFades
      modifies nextAnimations
      ensures animatorBrain.Valid()
      ensures animatorBrain.Params() == old(animatorBrain.Params())
      ensures Dispatched(layerIndex)
    {
      animatorBrain.SetLocked(false, layerIndex);
      LinkChain();
      var _ := animatorBrain.Play(nextAnimations[0], layerIndex);
    }

    /** The linking loop: every entry but the last gets the following entry as its follow-up. */
    method LinkChain()
      requires |nextAnimations| >= 1
      modifies nextAnimations
      ensures forall j :: 0 <= j < |nextAnimations| ==>
        nextAnimations[j].nextAnimation ==
          LinkAfter(nextAnimations, nextAnimations[j], |nextAnimations| - 1, old(nextAnimations[j].nextAnimation))
    {
      for i := 0 to |nextAnimations| - 1
        invariant forall j :: 0 <= j < |nextAnimations| ==>
          nextAnimations[j].nextAnimation ==
            LinkAfter(nextAnimations, nextAnimations[j], i, old(nextAnimations[j].nextAnimation))
      {
        nextAnimations[i].nextAnimation := nextAnimations[i + 1];
      }
    }
  }
}
