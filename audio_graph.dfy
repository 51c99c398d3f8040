/**
 * Abstract stand-ins for the browser audio objects that the hooks consume:
 * URLs are strings, decoded buffers are records of their observable fields,
 * audio nodes are opaque ids, and an audio context is an object whose only
 * modelled field is its lifecycle state.
 */
module AudioGraph {

  /** One unsigned byte sample, as held by a `Uint8Array`. */
  newtype Byte = x: int | 0 <= x < 256

  type Url = string

  datatype Option<+T> = None | Some(value: T)

  /**
   * A decoded `AudioBuffer`: an opaque identity plus the three fields the
   * source list displays.
   */
  datatype AudioBuffer = AudioBuffer(id: nat, duration: real, sampleRate: nat, numberOfChannels: nat)

  /** The `state` attribute of an `AudioContext`. */
  datatype ContextState = Suspended | Running | Closed

  /** Where a playback source is connected. */
  datatype Destination = ContextDestination | OutputNode(node: nat)

  /** State after `resume()` has settled: a suspended context runs, others are unchanged. */
  function AfterResume(s: ContextState): ContextState
  {
    if s == Suspended then Running else s
  }

  /** An analyser node, by its configuration. */
  datatype Analyser = Analyser(fftSize: nat, smoothingTimeConstant: real)

  /** The data an analyser node writes into a buffer of `n` bytes, sample `i` being `signal(i)`. */
  function Samples(signal: nat -> Byte, n: nat): (r: seq<Byte>)
    ensures |r| == n
    ensures forall i :: 0 <= i < n ==> r[i] == signal(i)
  {
    seq(n, i requires 0 <= i => signal(i))
  }

  /**
   * `getByteTimeDomainData` / `getByteFrequencyData`: the analyser copies
   * its current data into the reused buffer.
   */
  method ReadAnalyser(buffer: array<Byte>, signal: nat -> Byte)
    modifies buffer
    ensures buffer[..] == Samples(signal, buffer.Length)
  {
    for i := 0 to buffer.Length
      invariant forall k :: 0 <= k < i ==> buffer[k] == signal(k)
    {
      buffer[i] := signal(i);
    }
  }

  /**
   * The browser's audio context.  Only its lifecycle is modelled; nodes it
   * creates are opaque ids handed out by their owners.
   */
  class AudioContext {
    var state: ContextState

    /** A new context starts running, or suspended when autoplay is not yet allowed. */
    constructor (autoplayAllowed: bool)
      ensures state == (if autoplayAllowed then Running else Suspended)
    {
      state := if autoplayAllowed then Running else Suspended;
    }

    method Resume()
      modifies this
      ensures state == AfterResume(old(state))
    {
      state := AfterResume(state);
    }

    method Close()
      modifies this
      ensures state == Closed
    {
      state := Closed;
    }
  }
}
