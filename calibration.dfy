/**
 * Turning a period's sums and counts into calibrated channel values: the
 * mean times the channel's slope plus its offset, or 0 for a channel that
 * collected no samples.
 */
module Calibration {
  import opened Wrappers
  import opened Sampling

  /** The `KeyError` raised when a sampled channel has no slope or no offset. */
  datatype Fault = MissingSlope(channel: string) | MissingOffset(channel: string)

  /** The linear calibration `raw * slope + offset`. */
  function Calibrate(raw: real, slope: real, offset: real): real
  {
    raw * slope + offset
  }

  /** The mean of `count` samples that add up to `sum`. */
  function Mean(sum: real, count: int): real
    requires count > 0
  {
    sum / count as real
  }

  /**
   * `sums[ch] / counts[ch] * slopes[ch] + offsets[ch] if counts[ch] > 0 else 0`.
   * The slope and offset are looked up only for a channel that has samples.
   */
  function ChannelAverage(ch: string, sums: map<string, real>, counts: map<string, int>,
                          slopes: map<string, real>, offsets: map<string, real>): (r: Result<real, Fault>)
    requires ch in sums && ch in counts
    ensures counts[ch] <= 0 ==> r == Success(0.0)
    ensures r.Failure? <==> counts[ch] > 0 && (ch !in slopes || ch !in offsets)
  {
    if counts[ch] > 0 then
      if ch !in slopes then Failure(MissingSlope(ch))
      else if ch !in offsets then Failure(MissingOffset(ch))
      else Success(Calibrate(Mean(sums[ch], counts[ch]), slopes[ch], offsets[ch]))
    else Success(0.0)
  }

  /**
   * The averages dictionary, read in channel order: one calibrated value per
   * channel, or the fault of the first channel whose calibration is missing.
   */
  function Averages(channels: seq<string>, sums: map<string, real>, counts: map<string, int>,
                    slopes: map<string, real>, offsets: map<string, real>): (r: Result<seq<real>, Fault>)
    requires forall ch :: ch in channels ==> ch in sums && ch in counts
    ensures r.Success? <==> forall i :: 0 <= i < |channels| ==> ChannelAverage(channels[i], sums, counts, slopes, offsets).Success?
    ensures r.Success? ==> (|r.value| == |channels| &&
              forall i :: 0 <= i < |channels| ==> ChannelAverage(channels[i], sums, counts, slopes, offsets) == Success(r.value[i]))
    ensures r.Failure? ==>
              exists i :: && 0 <= i < |channels|
                          && ChannelAverage(channels[i], sums, counts, slopes, offsets) == Failure(r.error)
                          && forall k :: 0 <= k < i ==> ChannelAverage(channels[k], sums, counts, slopes, offsets).Success?
  {
    if |channels| == 0 then Success([])
    else
      match ChannelAverage(channels[0], sums, counts, slopes, offsets)
      case Failure(e) => Failure(e)
      case Success(a) =>
        var rest := Averages(channels[1..], sums, counts, slopes, offsets);
        assert forall i :: 1 <= i < |channels| ==> channels[i] == channels[1..][i - 1];
        match rest
        case Failure(e) =>
          var k :| 0 <= k < |channels| - 1 && ChannelAverage(channels[1..][k], sums, counts, slopes, offsets) == Failure(e)
                   && forall m :: 0 <= m < k ==> ChannelAverage(channels[1..][m], sums, counts, slopes, offsets).Success?;
          assert channels[k + 1] == channels[1..][k];
          assert forall m :: 0 <= m < k + 1 ==> ChannelAverage(channels[m], sums, counts, slopes, offsets).Success?;
          Failure(e)
        case Success(vs) => Success([a] + vs)
  }

  /** The calibrated values of a period whose window absorbed `batches`. */
  function PeriodAverages(channels: seq<string>, batches: seq<seq<real>>,
                          slopes: map<string, real>, offsets: map<string, real>): Result<seq<real>, Fault>
    requires Sized(batches, |channels|)
  {
    Averages(channels, WindowSums(channels, batches), WindowCounts(channels, batches), slopes, offsets)
  }

  /**
   * A period without samples logs 0 for every channel, whatever the slopes
   * and offsets are, and never fails.
   */
  lemma EmptyPeriodIsZero(channels: seq<string>, slopes: map<string, real>, offsets: map<string, real>)
    ensures PeriodAverages(channels, [], slopes, offsets) == Success(seq(|channels|, _ => 0.0))
  {
    var r := PeriodAverages(channels, [], slopes, offsets);
    forall i | 0 <= i < |channels|
      ensures ChannelAverage(channels[i], WindowSums(channels, []), WindowCounts(channels, []), slopes, offsets) == Success(0.0)
    {
      assert WindowCounts(channels, [])[channels[i]] == 0;
    }
    assert r.Success?;
    assert r.value == seq(|channels|, _ => 0.0);
  }

  /**
   * With distinct channel names and at least one read, channel `j` logs the
   * calibrated mean of the values read at position `j`.
   */
  lemma {:induction false} PeriodAverageIsCalibratedMean(channels: seq<string>, batches: seq<seq<real>>,
                                                         slopes: map<string, real>, offsets: map<string, real>, j: nat)
    requires Distinct(channels) && Sized(batches, |channels|) && j < |channels| && |batches| > 0
    requires channels[j] in slopes && channels[j] in offsets
    ensures ChannelAverage(channels[j], WindowSums(channels, batches), WindowCounts(channels, batches), slopes, offsets)
            == Success(Calibrate(Mean(ColumnSum(batches, j), |batches|), slopes[channels[j]], offsets[channels[j]]))
  {
    WindowAfterReads(channels, batches, j);
  }

  /** A steady input `v` on channel `j` is logged as its calibration `v * slope + offset`. */
  lemma {:induction false} SteadySignal(channels: seq<string>, batches: seq<seq<real>>,
                                        slopes: map<string, real>, offsets: map<string, real>, j: nat, v: real)
    requires Distinct(channels) && Sized(batches, |channels|) && j < |channels| && |batches| > 0
    requires channels[j] in slopes && channels[j] in offsets
    requires forall i :: 0 <= i < |batches| ==> batches[i][j] == v
    ensures ChannelAverage(channels[j], WindowSums(channels, batches), WindowCounts(channels, batches), slopes, offsets)
            == Success(Calibrate(v, slopes[channels[j]], offsets[channels[j]]))
  {
    PeriodAverageIsCalibratedMean(channels, batches, slopes, offsets, j);
    ConstantColumnSum(batches, j, v);
    var k := |batches| as real;
    assert Mean(ColumnSum(batches, j), |batches|) == (k * v) / k == v;
  }

  lemma {:induction false} ConstantColumnSum(batches: seq<seq<real>>, j: nat, v: real)
    requires forall i :: 0 <= i < |batches| ==> j < |batches[i]| && batches[i][j] == v
    ensures ColumnSum(batches, j) == |batches| as real * v
  {
    if |batches| > 0 {
      ConstantColumnSum(batches[..|batches| - 1], j, v);
    }
  }
}
