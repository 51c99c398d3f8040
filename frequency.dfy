/**
 * `useFrequency`: the frequency analyser tap, the guard of
 * `drawFrequencyBars`, and the bar layout of `calculateFrequencyBars`.
 * Canvas widths and bar geometry are reals; the `fillRect` calls are not
 * part of this model.
 */
module Frequency {
  import opened AudioGraph

  const FFT_SIZE: nat := 128
  const SMOOTHING_TIME_CONSTANT: real := 0.8
  /** `frequencyBinCount`, half the FFT size. */
  const FREQUENCY_BIN_COUNT: nat := FFT_SIZE / 2
  const BAR_WIDTH_SCALE: real := 2.5
  const BAR_HEIGHT_SCALE: real := 0.8
  const BAR_COLOR: string := "rgb(255,255,255)"

  datatype FrequencyBarData = FrequencyBarData(height: real, color: string, x: real, width: real)

  /**
   * `(canvasWidth / bufferLength) * 2.5`; with no bins no bar uses it.
   * Side by side, the bars span two and a half canvas widths.
   */
  function BarWidth(canvasWidth: real, bufferLength: nat): (w: real)
    ensures bufferLength > 0 ==> w * bufferLength as real == canvasWidth * BAR_WIDTH_SCALE
    ensures canvasWidth >= 0.0 ==> w >= 0.0
  {
    if bufferLength == 0 then 0.0 else (canvasWidth / bufferLength as real) * BAR_WIDTH_SCALE
  }

  /** Bar `i` of a layout of bars `width` wide, for the bin value `sample`. */
  function Bar(sample: Byte, i: nat, width: real): (bar: FrequencyBarData)
    ensures 0.0 <= bar.height <= 204.0
    ensures bar.x + bar.width == (i + 1) as real * width
  {
    FrequencyBarData(sample as real * BAR_HEIGHT_SCALE, BAR_COLOR, i as real * width, width)
  }

  /** The layout of the bars for the bins `data`: one `Bar` per bin, all of the common width. */
  ghost predicate IsLayout(bars: seq<FrequencyBarData>, data: seq<Byte>, canvasWidth: real)
  {
    && |bars| == |data|
    && forall i :: 0 <= i < |bars| ==> bars[i] == Bar(data[i], i, BarWidth(canvasWidth, |data|))
  }

  // Solver step (distributivity over the reals), not a property of the model.
  lemma NextOffset(i: nat, width: real)
    ensures (i + 1) as real * width == i as real * width + width
  {
  }

  /** `calculateFrequencyBars`: one bar per bin, laid out left to right from x = 0. */
  method CalculateFrequencyBars(dataArray: array<Byte>, canvasWidth: real) returns (bars: seq<FrequencyBarData>)
    ensures IsLayout(bars, dataArray[..], canvasWidth)
    ensures |bars| > 0 ==> bars[0].x == 0.0
    ensures forall i :: 0 <= i < |bars| - 1 ==> bars[i + 1].x == bars[i].x + bars[i].width
  {
    var bufferLength := dataArray.Length;
    var barWidth := BarWidth(canvasWidth, bufferLength);
    bars := [];
    var x := 0.0;
    for i := 0 to bufferLength
      invariant |bars| == i
      invariant x == i as real * barWidth
      invariant forall k :: 0 <= k < i ==> bars[k] == Bar(dataArray[k], k, barWidth)
    {
      var barHeight := dataArray[i] as real * BAR_HEIGHT_SCALE;
      assert FrequencyBarData(barHeight, BAR_COLOR, x, barWidth) == Bar(dataArray[i], i, barWidth);
      bars := bars + [FrequencyBarData(barHeight, BAR_COLOR, x, barWidth)];
      NextOffset(i, barWidth);
      x := x + barWidth;
    }
    forall i | 0 <= i < |bars| - 1
      ensures bars[i + 1].x == bars[i].x + bars[i].width
    {
      NextOffset(i, barWidth);
    }
  }

  /** On a canvas of positive width, bars start strictly further right one after another. */
  lemma LayoutIncreasing(bars: seq<FrequencyBarData>, data: seq<Byte>, canvasWidth: real, i: nat, j: nat)
    requires IsLayout(bars, data, canvasWidth)
    requires canvasWidth > 0.0
    requires i < j < |bars|
    ensures bars[i].x < bars[j].x
  {
    var w := BarWidth(canvasWidth, |data|);
    assert w > 0.0 by {
      assert canvasWidth / |data| as real > 0.0;
    }
    assert bars[i].x == i as real * w && bars[j].x == j as real * w;
    var d := (j - i) as real;
    assert d * w > 0.0;
    assert j as real * w == i as real * w + d * w;
  }

  /** Bar heights of byte bins lie in [0, 204], and every bar has the same width and colour. */
  lemma LayoutBars(bars: seq<FrequencyBarData>, data: seq<Byte>, canvasWidth: real, i: nat)
    requires IsLayout(bars, data, canvasWidth)
    requires i < |bars|
    ensures 0.0 <= bars[i].height <= 204.0
    ensures bars[i].width == (canvasWidth / |data| as real) * 2.5
    ensures bars[i].color == "rgb(255,255,255)"
  {
    assert data[i] as real <= 255.0;
  }

  /** The state of one `useFrequency` instance. */
  class FrequencyView {
    var analyser: Option<Analyser>
    var dataArray: array?<Byte>
    /** `canvasContextRef`: whether a 2D context has been obtained and kept. */
    var hasCanvasContext: bool

    ghost predicate Valid()
      reads this
    {
      && (analyser.Some? <==> dataArray != null)
      && (analyser.Some? ==> analyser.value == Analyser(FFT_SIZE, SMOOTHING_TIME_CONSTANT))
      && (dataArray != null ==> dataArray.Length == FREQUENCY_BIN_COUNT)
    }

    constructor ()
      ensures Valid() && analyser == None && dataArray == null && !hasCanvasContext
    {
      analyser, dataArray, hasCanvasContext := None, null, false;
    }

    /**
     * The effect on the context and the gain node: an analyser of FFT size
     * 128 with a 64-bin buffer exists exactly when both do.
     */
    method ConnectAnalyser(hasContext: bool, hasGainNode: bool)
      requires Valid()
      modifies this`analyser, this`dataArray
      ensures Valid()
      ensures analyser.Some? <==> hasContext && hasGainNode
      ensures dataArray != null ==> fresh(dataArray) && dataArray.Length == 64
    {
      if !hasContext || !hasGainNode {
        analyser, dataArray := None, null;
        return;
      }
      var a := Analyser(FFT_SIZE, SMOOTHING_TIME_CONSTANT);
      dataArray := new Byte[a.fftSize / 2];
      analyser := Some(a);
    }

    /**
     * `drawFrequencyBars` up to the drawing: nothing happens without the
     * analyser, its buffer or the canvas; otherwise the buffer is refilled
     * from `spectrum`, a 2D context is obtained once if `canvasGives2d`,
     * and when one is held the bars to draw are returned.
     */
    method DrawFrequencyBars(hasCanvas: bool, canvasGives2d: bool, spectrum: nat -> Byte, canvasWidth: real)
      returns (drawn: Option<seq<FrequencyBarData>>)
      requires Valid()
      modifies this`hasCanvasContext, dataArray
      ensures Valid()
      ensures analyser.None? || !hasCanvas ==>
                drawn.None? && hasCanvasContext == old(hasCanvasContext) &&
                (dataArray != null ==> dataArray[..] == old(dataArray[..]))
      ensures analyser.Some? && hasCanvas ==>
                && dataArray[..] == Samples(spectrum, FREQUENCY_BIN_COUNT)
                && hasCanvasContext == (old(hasCanvasContext) || canvasGives2d)
                && (drawn.Some? <==> hasCanvasContext)
                && (drawn.Some? ==> IsLayout(drawn.value, dataArray[..], canvasWidth))
    {
      if analyser.None? || dataArray == null || !hasCanvas {
        return None;
      }
      ReadAnalyser(dataArray, spectrum);
      if !hasCanvasContext {
        hasCanvasContext := canvasGives2d;
      }
      if !hasCanvasContext {
        return None;
      }
      var bars := CalculateFrequencyBars(dataArray, canvasWidth);
      drawn := Some(bars);
    }
  }
}
