/**
 * The recorder logic of `useWaveformVisualizer`: the peak-amplitude
 * quantiser, the bounded history, the recording flag, the analyser tap and
 * the sampling step of a render tick.  Drawing is not part of this model.
 */
module WaveformVisualizer {
  import opened AudioGraph

  const FFT_SIZE: nat := 2048
  const SMOOTHING_TIME_CONSTANT: real := 0.3
  const MAX_WAVEFORM_DATA_LENGTH: nat := 500
  const QUANTIZATION_LEVEL: int := 100

  /** Distance of a byte sample from the silent level 128. */
  function Deviation(b: Byte): (d: nat)
    ensures d <= 128
    ensures d == 0 <==> b == 128
    ensures b as int == 128 + d || b as int == 128 - d
  {
    var v := b as int - 128;
    if v < 0 then -v else v
  }

  /** The samples that the amplitude scan visits: indices 0, 4, 8, ... */
  function Strided(data: seq<Byte>): (r: seq<Byte>)
    ensures |r| == (|data| + 3) / 4
    ensures forall j :: 0 <= j < |r| ==> 4 * j < |data| && r[j] == data[4 * j]
  {
    if data == [] then []
    else if |data| <= 4 then [data[0]]
    else [data[0]] + Strided(data[4..])
  }

  /** The largest deviation in `s`, or 0 for no samples. */
  function PeakDeviation(s: seq<Byte>): (peak: nat)
    ensures peak <= 128
  {
    if s == [] then 0
    else
      var front := PeakDeviation(s[..|s| - 1]);
      var last := Deviation(s[|s| - 1]);
      if last > front then last else front
  }

  /** `PeakDeviation` is the maximum deviation: it bounds every sample and is attained by one. */
  lemma {:induction false} PeakDeviationIsMax(s: seq<Byte>)
    ensures PeakDeviation(s) <= 128
    ensures forall k :: 0 <= k < |s| ==> Deviation(s[k]) <= PeakDeviation(s)
    ensures s == [] ==> PeakDeviation(s) == 0
    ensures s != [] ==> exists k :: 0 <= k < |s| && Deviation(s[k]) == PeakDeviation(s)
  {
    if s != [] {
      var front := s[..|s| - 1];
      PeakDeviationIsMax(front);
      assert forall k :: 0 <= k < |s| - 1 ==> front[k] == s[k];
      if front != [] {
        var k :| 0 <= k < |front| && Deviation(front[k]) == PeakDeviation(front);
        assert s[k] == front[k];
      }
    }
  }

  /** `Math.round((maxVal / 128) * QUANTIZATION_LEVEL)`, computed over the reals. */
  function Quantize(peak: nat): (q: int)
    ensures 0 <= q
    ensures peak == 0 ==> q == 0
    ensures peak == 128 ==> q == QUANTIZATION_LEVEL
  {
    ((peak as real / 128.0) * QUANTIZATION_LEVEL as real + 0.5).Floor
  }

  /** The amplitude the source computes for one time-domain buffer. */
  function Amplitude(data: seq<Byte>): (a: int)
    ensures 0 <= a
    ensures data == [] ==> a == 0
  {
    Quantize(PeakDeviation(Strided(data)))
  }

  /** `Quantize` rounds `peak * 100 / 128` to the nearest integer, halves upward. */
  lemma QuantizeRounds(peak: nat)
    ensures Quantize(peak) as real - 0.5 <= peak as real * 100.0 / 128.0 < Quantize(peak) as real + 0.5
  {
  }

  /** The same rounding in integer arithmetic: no floating-point error is involved. */
  lemma QuantizeExact(peak: nat)
    ensures Quantize(peak) == (100 * peak + 64) / 128
  {
    var q, x := (100 * peak + 64) / 128, (peak as real / 128.0) * 100.0 + 0.5;
    assert x == (100 * peak + 64) as real / 128.0;
    assert q as real <= x < q as real + 1.0;
  }

  lemma QuantizeRange(peak: nat)
    requires peak <= 128
    ensures 0 <= Quantize(peak) <= QUANTIZATION_LEVEL
  {
    QuantizeExact(peak);
  }

  lemma QuantizeMonotone(p: nat, q: nat)
    requires p <= q
    ensures Quantize(p) <= Quantize(q)
  {
    QuantizeExact(p);
    QuantizeExact(q);
  }

  /** Every amplitude of byte samples lies on the 0..100 quantisation scale. */
  lemma AmplitudeRange(data: seq<Byte>)
    ensures 0 <= Amplitude(data) <= QUANTIZATION_LEVEL
  {
    PeakDeviationIsMax(Strided(data));
    QuantizeRange(PeakDeviation(Strided(data)));
  }

  /** An empty buffer, or one that is silent at every scanned index, has amplitude 0. */
  lemma AmplitudeSilent(data: seq<Byte>)
    requires forall i :: 0 <= i < |data| && i % 4 == 0 ==> data[i] == 128
    ensures Amplitude(data) == 0
  {
    var s := Strided(data);
    assert forall j :: 0 <= j < |s| ==> (4 * j) % 4 == 0;
    PeakDeviationIsMax(s);
    assert PeakDeviation(s) == 0;
    QuantizeExact(0);
  }

  /** Only the samples at indices 0, 4, 8, ... matter. */
  lemma AmplitudeReadsStride(a: seq<Byte>, b: seq<Byte>)
    requires |a| == |b|
    requires forall i :: 0 <= i < |a| && i % 4 == 0 ==> a[i] == b[i]
    ensures Amplitude(a) == Amplitude(b)
  {
    var sa, sb := Strided(a), Strided(b);
    forall j | 0 <= j < |sa|
      ensures sa[j] == sb[j]
    {
      var i := 4 * j;
      assert i % 4 == 0 && i < |a|;
      assert sa[j] == a[i] && sb[j] == b[i];
    }
    assert sa == sb;
  }

  /** One more sample of `s`: the peak is the larger of the old peak and the new deviation. */
  lemma PeakDeviationStep(s: seq<Byte>, j: nat)
    requires j < |s|
    ensures PeakDeviation(s[..j + 1]) ==
              if Deviation(s[j]) > PeakDeviation(s[..j]) then Deviation(s[j]) else PeakDeviation(s[..j])
  {
    assert s[..j + 1][..j] == s[..j];
  }

  /**
   * Index `4 * j` is inside a buffer of length `n` exactly when `j` is inside its stride.
   * Solver step, not a property of the model.
   */
  lemma StrideIndex(n: nat, j: nat)
    ensures 4 * j < n <==> j < (n + 3) / 4
  {
  }

  /** The loop of `calculateAmplitude`: every 4th sample, keeping the largest deviation. */
  method PeakScan(data: array<Byte>) returns (maxVal: nat)
    ensures maxVal == PeakDeviation(Strided(data[..]))
  {
    ghost var samples := Strided(data[..]);
    ghost var j := 0;
    maxVal := 0;
    var i := 0;
    while i < data.Length
      invariant i == 4 * j && 0 <= j <= |samples|
      invariant maxVal == PeakDeviation(samples[..j])
    {
      StrideIndex(data.Length, j);
      assert samples[j] == data[i];
      PeakDeviationStep(samples, j);
      var v := Deviation(data[i]);
      if v > maxVal {
        maxVal := v;
      }
      i, j := i + 4, j + 1;
    }
    StrideIndex(data.Length, j);
    assert samples[..j] == samples;
  }

  /** `calculateAmplitude`: the largest deviation of the scanned samples, rounded onto the 0..100 scale. */
  method CalculateAmplitude(data: array<Byte>) returns (amplitude: int)
    ensures amplitude == Amplitude(data[..])
    ensures 0 <= amplitude <= QUANTIZATION_LEVEL
  {
    var maxVal := PeakScan(data);
    amplitude := Quantize(maxVal);
    AmplitudeRange(data[..]);
  }

  /** `updateWaveformData`: append, then keep the newest `MAX_WAVEFORM_DATA_LENGTH` entries. */
  function UpdateWaveformData(prev: seq<int>, amplitude: int): (r: seq<int>)
    ensures |r| == if |prev| < MAX_WAVEFORM_DATA_LENGTH then |prev| + 1 else MAX_WAVEFORM_DATA_LENGTH
    ensures r == (prev + [amplitude])[|prev| + 1 - |r|..]
    ensures r[|r| - 1] == amplitude
    ensures |prev| < MAX_WAVEFORM_DATA_LENGTH ==> r == prev + [amplitude]
    ensures |prev| == MAX_WAVEFORM_DATA_LENGTH ==> r == prev[1..] + [amplitude]
  {
    var newData := prev + [amplitude];
    if |newData| > MAX_WAVEFORM_DATA_LENGTH then newData[|newData| - MAX_WAVEFORM_DATA_LENGTH..] else newData
  }

  /** Every entry of a history lies on the 0..100 quantisation scale. */
  ghost predicate OnScale(h: seq<int>)
  {
    forall k :: 0 <= k < |h| ==> 0 <= h[k] <= QUANTIZATION_LEVEL
  }

  /** Appending an amplitude keeps every history entry on the quantisation scale. */
  lemma UpdateKeepsScale(prev: seq<int>, amplitude: int)
    requires OnScale(prev)
    requires 0 <= amplitude <= QUANTIZATION_LEVEL
    ensures OnScale(UpdateWaveformData(prev, amplitude))
  {
    var r := UpdateWaveformData(prev, amplitude);
    var d := |prev| + 1 - |r|;
    forall k | 0 <= k < |r|
      ensures 0 <= r[k] <= QUANTIZATION_LEVEL
    {
      assert r[k] == (prev + [amplitude])[d + k];
    }
  }

  /** The state of one `useWaveformVisualizer` instance. */
  class WaveformRecorder {
    var waveformData: seq<int>
    var isRecording: bool
    var analyser: Option<Analyser>
    var dataArray: array?<Byte>

    ghost predicate Valid()
      reads this
    {
      && (analyser.Some? <==> dataArray != null)
      && (dataArray != null ==> analyser.value.fftSize == FFT_SIZE && dataArray.Length == FFT_SIZE)
      && |waveformData| <= MAX_WAVEFORM_DATA_LENGTH
      && OnScale(waveformData)
    }

    constructor ()
      ensures Valid()
      ensures waveformData == [] && !isRecording && analyser == None && dataArray == null
    {
      waveformData, isRecording := [], false;
      analyser, dataArray := None, null;
    }

    method StartRecording()
      requires Valid()
      modifies this`isRecording
      ensures Valid() && isRecording
    {
      isRecording := true;
    }

    method StopRecording()
      requires Valid()
      modifies this`isRecording
      ensures Valid() && !isRecording
    {
      isRecording := false;
    }

    method ResetWaveform()
      requires Valid()
      modifies this`waveformData, this`isRecording
      ensures Valid() && waveformData == [] && !isRecording
    {
      waveformData := [];
      isRecording := false;
    }

    /**
     * The effect on the context and the gain node: a tap with its buffer
     * exists exactly when both do.
     */
    method ConnectAnalyser(hasContext: bool, hasGainNode: bool)
      requires Valid()
      modifies this`analyser, this`dataArray
      ensures Valid()
      ensures analyser.Some? <==> hasContext && hasGainNode
      ensures analyser.Some? ==> analyser.value == Analyser(FFT_SIZE, SMOOTHING_TIME_CONSTANT) && fresh(dataArray)
    {
      if !hasContext || !hasGainNode {
        analyser, dataArray := None, null;
        return;
      }
      var a := Analyser(FFT_SIZE, SMOOTHING_TIME_CONSTANT);
      dataArray := new Byte[a.fftSize];
      analyser := Some(a);
    }

    /**
     * The sampling part of `stableRenderWaveform`.  Unless the tap, its
     * buffer, the canvas and the recording flag are all there, nothing
     * happens; otherwise the analyser fills the buffer from `signal` and one
     * amplitude is appended to the history.
     */
    method RenderWaveform(hasCanvas: bool, signal: nat -> Byte) returns (appended: Option<int>)
      requires Valid()
      modifies this`waveformData, dataArray
      ensures Valid()
      ensures appended.Some? <==> analyser.Some? && hasCanvas && isRecording
      ensures appended.None? ==> waveformData == old(waveformData)
      ensures appended.None? && dataArray != null ==> dataArray[..] == old(dataArray[..])
      ensures appended.Some? ==>
                && dataArray[..] == Samples(signal, FFT_SIZE)
                && appended.value == Amplitude(Samples(signal, FFT_SIZE))
                && waveformData == UpdateWaveformData(old(waveformData), appended.value)
    {
      if analyser.None? || dataArray == null || !hasCanvas || !isRecording {
        return None;
      }
      ghost var samples := Samples(signal, FFT_SIZE);
      ReadAnalyser(dataArray, signal);
      assert dataArray[..] == samples;
      var amplitude := CalculateAmplitude(dataArray);
      UpdateKeepsScale(waveformData, amplitude);
      var next := UpdateWaveformData(waveformData, amplitude);
      waveformData := next;
      appended := Some(amplitude);
    }
  }
}
