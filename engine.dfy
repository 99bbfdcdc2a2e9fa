/**
 * The animation engine collaborator, seen only through what the sequencer
 * asks of it: the layer count, each layer's current state hash, the lengths
 * of the current and of the next queued state on a layer, and cross-fade
 * requests. The answers are uninterpreted: the environment may change them
 * between calls, which stands for the engine advancing in time.
 */
module Engine {

  /** One cross-fade request received by the engine. */
  datatype CrossFadeCall = CrossFadeCall(hash: int, duration: real, layer: int)

  class Animator {
    var layerCount: nat
    /** Short-name hash of the state currently playing on a layer. */
    var stateHash: int -> int
    /** Length of the state currently playing on a layer, after an immediate update. */
    var currentLength: int -> real
    /** Length of the state being blended into on a layer, after an immediate update. */
    var nextLength: int -> real
    /** Every cross-fade request the engine has received, oldest first. */
    ghost var crossFades: seq<CrossFadeCall>

    constructor (layerCount: nat, stateHash: int -> int, currentLength: int -> real, nextLength: int -> real)
      ensures this.layerCount == layerCount && this.stateHash == stateHash
      ensures this.currentLength == currentLength && this.nextLength == nextLength
      ensures crossFades == []
    {
      this.layerCount := layerCount;
      this.stateHash := stateHash;
      this.currentLength := currentLength;
      this.nextLength := nextLength;
      crossFades := [];
    }

    /** Begin blending into the state with the given hash on a layer. */
    method CrossFade(hash: int, duration: real, layer: int)
      modifies this`crossFades
      ensures crossFades == old(crossFades) + [CrossFadeCall(hash, duration, layer)]
    {
      crossFades := crossFades + [CrossFadeCall(hash, duration, layer)];
    }
  }
}
