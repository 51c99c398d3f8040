/**
 * `useGainNodeManager`: one gain node per context, created at gain 1 and
 * connected to the destination, torn down when the context changes; and the
 * clamped master volume.
 */
module GainNodeManager {
  import opened AudioGraph

  /** `Math.max(0, Math.min(1, value))`. */
  function Clamp(value: real): (r: real)
    ensures 0.0 <= r <= 1.0
    ensures 0.0 <= value <= 1.0 ==> r == value
    ensures value < 0.0 ==> r == 0.0
    ensures value > 1.0 ==> r == 1.0
  {
    var upper := if 1.0 < value then 1.0 else value;
    if 0.0 > upper then 0.0 else upper
  }

  lemma ClampIdempotent(value: real)
    ensures Clamp(Clamp(value)) == Clamp(value)
  {
  }

  /** A gain node: its gain and whether it is connected to the context destination. */
  class GainNode {
    var gain: real
    var connected: bool

    /** `createGain()`, then `gain.value = 1` and `connect(destination)`. */
    constructor ()
      ensures gain == 1.0 && connected
    {
      gain := 1.0;
      connected := true;
    }

    method Disconnect()
      modifies this
      ensures !connected && gain == old(gain)
    {
      connected := false;
    }
  }

  class GainNodeManager {
    /** The context the effect last ran for. */
    var audioContext: AudioContext?
    /** The `audioGainNode` state. */
    var audioGainNode: GainNode?

    /** A gain node exists exactly when a context does; it is connected and its gain is a volume. */
    ghost predicate Valid()
      reads this, audioGainNode
    {
      && (audioGainNode != null <==> audioContext != null)
      && (audioGainNode != null ==> audioGainNode.connected && 0.0 <= audioGainNode.gain <= 1.0)
    }

    /** The first run of the effect, for the initial context. */
    constructor (audioContext: AudioContext?)
      ensures Valid() && this.audioContext == audioContext
      ensures audioContext != null ==> fresh(audioGainNode) && audioGainNode.gain == 1.0
    {
      this.audioContext := audioContext;
      if audioContext == null {
        audioGainNode := null;
      } else {
        audioGainNode := new GainNode();
      }
    }

    /**
     * A change of the `audioContext` dependency: the previous node, if any,
     * is disconnected and the state reset, then a node is made for the new
     * context.  The same context does not re-run the effect.
     */
    method ContextChanged(newContext: AudioContext?)
      requires Valid()
      modifies this, audioGainNode
      ensures Valid() && audioContext == newContext
      ensures newContext == old(audioContext) ==>
                audioGainNode == old(audioGainNode) && (audioGainNode != null ==> unchanged(audioGainNode))
      ensures newContext != old(audioContext) ==>
                && (old(audioGainNode) != null ==> !old(audioGainNode).connected)
                && (newContext == null ==> audioGainNode == null)
                && (newContext != null ==> fresh(audioGainNode) && audioGainNode.gain == 1.0)
    {
      if newContext == audioContext {
        return;
      }
      if audioGainNode != null {
        audioGainNode.Disconnect();
        audioGainNode := null;
      }
      audioContext := newContext;
      if newContext == null {
        audioGainNode := null;
        return;
      }
      audioGainNode := new GainNode();
    }

    /** `updateMasterVolume`: no gain node, no effect; otherwise the gain becomes the clamped value. */
    method UpdateMasterVolume(value: real)
      requires Valid()
      modifies audioGainNode
      ensures Valid()
      ensures audioGainNode != null ==> audioGainNode.gain == Clamp(value) && audioGainNode.connected
    {
      if audioGainNode == null {
        return;
      }
      audioGainNode.gain := Clamp(value);
    }
  }
}
