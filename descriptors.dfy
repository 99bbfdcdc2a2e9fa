/**
 * The animation descriptor: which animation to play, whether it locks its
 * layer, its cross-fade time and an optional follow-up descriptor. The
 * follow-up link is a mutable field because a condition trigger relinks
 * its descriptors in place; nothing in the sequencer or the trigger writes
 * the other fields after construction, so they are constants here.
 */
module Descriptors {
  import opened Identifiers

  class AnimationData {
    const animation: Animation
    /** Whether the layer locks while this animation plays. */
    const lockLayer: bool
    /** The animation to play automatically afterwards, if any. */
    var nextAnimation: AnimationData?
    /** The cross-fade time into this animation, in seconds. */
    const crossfade: real

    constructor (animation: Animation := RESET, lockLayer: bool := false, nextAnimation: AnimationData? := null,
                 crossfade: real := 0.0)
      ensures this.animation == animation && this.lockLayer == lockLayer
      ensures this.nextAnimation == nextAnimation && this.crossfade == crossfade
    {
      this.animation := animation;
      this.lockLayer := lockLayer;
      this.nextAnimation := nextAnimation;
      this.crossfade := crossfade;
    }
  }
}
