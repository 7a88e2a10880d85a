/**
 * The averaging window of one period: the time-bounded sampling loop and the
 * per-channel running sums and counts it keeps.
 */
module Sampling {
  import opened Wrappers

  /**
   * One pass of the sampling loop as the environment presents it: the clock
   * reading taken by the loop guard together with the batched read that
   * follows it (`None` when the reader fails), or a user interrupt arriving
   * before the next pass.
   */
  datatype Tick = Tick(now: int, read: Option<seq<real>>) | Interrupt

  /** How a window ended: its time elapsed, the reader failed, or the user interrupted. */
  datatype WindowOutcome = Elapsed | ReadFailed | Interrupted

  /**
   * The batches a window accumulates from a run of ticks, and how it ends.
   * A run of ticks that stops before the clock passes `endTime` is read as
   * the clock passing it.
   */
  function Collect(ticks: seq<Tick>, endTime: int): (seq<seq<real>>, WindowOutcome)
  {
    if |ticks| == 0 then ([], Elapsed)
    else match ticks[0]
      case Interrupt => ([], Interrupted)
      case Tick(now, read) =>
        if now >= endTime then ([], Elapsed)
        else match read
          case None => ([], ReadFailed)
          case Some(values) =>
            var rest := Collect(ticks[1..], endTime);
            ([values] + rest.0, rest.1)
  }

  /**
   * What `Collect` keeps: the first `n` ticks are successful reads taken before
   * the window end, in order, and tick `n` (if any) is what ended the window.
   */
  lemma {:induction false} CollectTakesReadsBeforeEnd(ticks: seq<Tick>, endTime: int)
    ensures var (batches, outcome) := Collect(ticks, endTime);
      && |batches| <= |ticks|
      && (forall i :: 0 <= i < |batches| ==> ticks[i].Tick? && ticks[i].now < endTime && ticks[i].read == Some(batches[i]))
      && (outcome == Elapsed <==> |batches| == |ticks| || (ticks[|batches|].Tick? && ticks[|batches|].now >= endTime))
      && (outcome == ReadFailed <==> |batches| < |ticks| && ticks[|batches|].Tick? && ticks[|batches|].now < endTime && ticks[|batches|].read.None?)
      && (outcome == Interrupted <==> |batches| < |ticks| && ticks[|batches|].Interrupt?)
  {
    if |ticks| > 0 && ticks[0].Tick? && ticks[0].now < endTime && ticks[0].read.Some? {
      CollectTakesReadsBeforeEnd(ticks[1..], endTime);
      var rest := Collect(ticks[1..], endTime);
      var batches := Collect(ticks, endTime).0;
      assert batches == [ticks[0].read.value] + rest.0;
      forall i | 1 <= i < |batches|
        ensures ticks[i].Tick? && ticks[i].now < endTime && ticks[i].read == Some(batches[i])
      {
        assert ticks[i] == ticks[1..][i - 1];
      }
    }
  }

  /** The running sum a batched read adds to channel `ch`: every value read at a position naming `ch`. */
  function ChannelTotal(channels: seq<string>, row: seq<real>, ch: string): real
    requires |row| == |channels|
  {
    if |channels| == 0 then 0.0
    else
      var n := |channels| - 1;
      ChannelTotal(channels[..n], row[..n], ch) + (if channels[n] == ch then row[n] else 0.0)
  }

  /** How many positions of the channel list name `ch`: what one read adds to its count. */
  function Occurrences(channels: seq<string>, ch: string): nat
  {
    if |channels| == 0 then 0
    else
      var n := |channels| - 1;
      Occurrences(channels[..n], ch) + (if channels[n] == ch then 1 else 0)
  }

  ghost predicate Sized(batches: seq<seq<real>>, width: nat)
  {
    forall i :: 0 <= i < |batches| ==> |batches[i]| == width
  }

  /** Channel `ch`'s running sum after the given batched reads. */
  function ColumnTotal(channels: seq<string>, batches: seq<seq<real>>, ch: string): real
    requires Sized(batches, |channels|)
  {
    if |batches| == 0 then 0.0
    else
      var n := |batches| - 1;
      ColumnTotal(channels, batches[..n], ch) + ChannelTotal(channels, batches[n], ch)
  }

  /** The sum of the values at position `j` over the given batched reads. */
  function ColumnSum(batches: seq<seq<real>>, j: nat): real
    requires forall i :: 0 <= i < |batches| ==> j < |batches[i]|
  {
    if |batches| == 0 then 0.0
    else
      var n := |batches| - 1;
      ColumnSum(batches[..n], j) + batches[n][j]
  }

  /** The sums a window holds after the given reads. */
  function WindowSums(channels: seq<string>, batches: seq<seq<real>>): map<string, real>
    requires Sized(batches, |channels|)
  {
    map ch | ch in channels :: ColumnTotal(channels, batches, ch)
  }

  /** The counts a window holds after the given reads. */
  function WindowCounts(channels: seq<string>, batches: seq<seq<real>>): map<string, int>
  {
    map ch | ch in channels :: |batches| * Occurrences(channels, ch)
  }

  ghost predicate Distinct(channels: seq<string>)
  {
    forall i, j :: 0 <= i < j < |channels| ==> channels[i] != channels[j]
  }

  /** With distinct channel names every channel sits at exactly one position. */
  lemma {:induction false} DistinctOccurrences(channels: seq<string>, j: nat)
    requires Distinct(channels) && j < |channels|
    ensures Occurrences(channels, channels[j]) == 1
  {
    var n := |channels| - 1;
    if j < n {
      DistinctOccurrences(channels[..n], j);
    } else {
      NotPresentOccurrences(channels[..n], channels[j]);
    }
  }

  lemma {:induction false} NotPresentOccurrences(channels: seq<string>, ch: string)
    requires ch !in channels
    ensures Occurrences(channels, ch) == 0
  {
    if |channels| > 0 {
      NotPresentOccurrences(channels[..|channels| - 1], ch);
    }
  }

  /** With distinct channel names a read adds to channel `j` exactly its own value. */
  lemma {:induction false} DistinctChannelTotal(channels: seq<string>, row: seq<real>, j: nat)
    requires Distinct(channels) && |row| == |channels| && j < |channels|
    ensures ChannelTotal(channels, row, channels[j]) == row[j]
  {
    var n := |channels| - 1;
    if j < n {
      DistinctChannelTotal(channels[..n], row[..n], j);
    } else {
      NotPresentChannelTotal(channels[..n], row[..n], channels[j]);
    }
  }

  lemma {:induction false} NotPresentChannelTotal(channels: seq<string>, row: seq<real>, ch: string)
    requires |row| == |channels| && ch !in channels
    ensures ChannelTotal(channels, row, ch) == 0.0
  {
    if |channels| > 0 {
      NotPresentChannelTotal(channels[..|channels| - 1], row[..|row| - 1], ch);
    }
  }

  /**
   * With distinct channel names, channel `j`'s running sum is the sum of the
   * `j`-th values of the reads.
   */
  lemma {:induction false} DistinctColumnTotal(channels: seq<string>, batches: seq<seq<real>>, j: nat)
    requires Distinct(channels) && Sized(batches, |channels|) && j < |channels|
    ensures ColumnTotal(channels, batches, channels[j]) == ColumnSum(batches, j)
  {
    if |batches| > 0 {
      var n := |batches| - 1;
      DistinctColumnTotal(channels, batches[..n], j);
      DistinctChannelTotal(channels, batches[n], j);
    }
  }

  /**
   * After `k` reads of distinct channels, channel `j`'s count is `k` and its
   * sum is the sum of the `k` values read at position `j`.
   */
  lemma WindowAfterReads(channels: seq<string>, batches: seq<seq<real>>, j: nat)
    requires Distinct(channels) && Sized(batches, |channels|) && j < |channels|
    ensures WindowCounts(channels, batches)[channels[j]] == |batches|
    ensures WindowSums(channels, batches)[channels[j]] == ColumnSum(batches, j)
  {
    DistinctOccurrences(channels, j);
    DistinctColumnTotal(channels, batches, j);
  }

  /** Extending the prefix of one read by position `i` adds that position's value and count. */
  lemma PrefixStep(channels: seq<string>, row: seq<real>, i: nat)
    requires |row| == |channels| && i < |channels|
    ensures forall ch :: ChannelTotal(channels[..i + 1], row[..i + 1], ch)
                         == ChannelTotal(channels[..i], row[..i], ch) + (if channels[i] == ch then row[i] else 0.0)
    ensures forall ch :: Occurrences(channels[..i + 1], ch)
                         == Occurrences(channels[..i], ch) + (if channels[i] == ch then 1 else 0)
  {
    assert channels[..i + 1][..i] == channels[..i] && row[..i + 1][..i] == row[..i];
  }

  lemma ColumnTotalStep(channels: seq<string>, batches: seq<seq<real>>, row: seq<real>)
    requires Sized(batches, |channels|) && |row| == |channels|
    ensures Sized(batches + [row], |channels|)
    ensures forall ch :: ColumnTotal(channels, batches + [row], ch)
                         == ColumnTotal(channels, batches, ch) + ChannelTotal(channels, row, ch)
  {
    assert (batches + [row])[..|batches|] == batches;
  }

  /** Adding one read's totals to a window's sums gives the sums after that read. */
  lemma SumsStep(channels: seq<string>, batches: seq<seq<real>>, row: seq<real>, sums: map<string, real>)
    requires Sized(batches, |channels|) && |row| == |channels|
    requires sums.Keys == set ch | ch in channels
    requires forall ch :: ch in sums ==> sums[ch] == ColumnTotal(channels, batches, ch) + ChannelTotal(channels, row, ch)
    ensures Sized(batches + [row], |channels|)
    ensures sums == WindowSums(channels, batches + [row])
  {
    ColumnTotalStep(channels, batches, row);
    var next := WindowSums(channels, batches + [row]);
    assert sums.Keys == next.Keys;
    forall ch | ch in sums
      ensures sums[ch] == next[ch]
    {
    }
  }

  /** Adding one read's occurrences to a window's counts gives the counts after that read. */
  lemma CountsStep(channels: seq<string>, batches: seq<seq<real>>, row: seq<real>, counts: map<string, int>)
    requires counts.Keys == set ch | ch in channels
    requires forall ch :: ch in counts ==> counts[ch] == |batches| * Occurrences(channels, ch) + Occurrences(channels, ch)
    ensures counts == WindowCounts(channels, batches + [row])
  {
    var next := WindowCounts(channels, batches + [row]);
    assert counts.Keys == next.Keys;
    forall ch | ch in counts
      ensures counts[ch] == next[ch]
    {
      assert (|batches| + 1) * Occurrences(channels, ch) == |batches| * Occurrences(channels, ch) + Occurrences(channels, ch);
    }
  }

  /**
   * The sums and counts of one period (`sums` and `counts` in the loop body).
   * A fresh window is made for every period, so nothing carries over from the
   * previous one; `batches` records the reads it has absorbed.
   */
  class AveragingWindow {
    const channels: seq<string>
    var sums: map<string, real>
    var counts: map<string, int>
    ghost var batches: seq<seq<real>>

    /**
     * Every channel has a sum and a count; each sum is the channel's total
     * over the reads so far, and each count is the number of reads times the
     * number of positions naming the channel.
     */
    ghost predicate Valid()
      reads this
    {
      && Sized(batches, |channels|)
      && sums == WindowSums(channels, batches)
      && counts == WindowCounts(channels, batches)
    }

    /** `{channel: 0.0 ...}` and `{channel: 0 ...}` at the start of a period. */
    constructor (channels: seq<string>)
      ensures Valid() && this.channels == channels && batches == []
      ensures forall ch :: ch in channels ==> sums[ch] == 0.0 && counts[ch] == 0
    {
      this.channels := channels;
      sums := map ch | ch in channels :: 0.0;
      counts := map ch | ch in channels :: 0;
      batches := [];
    }

    /** Adds the `i`-th value of one batched read to the `i`-th channel and counts it. */
    method Add(values: seq<real>)
      requires Valid() && |values| == |channels|
      modifies this
      ensures Valid() && batches == old(batches) + [values]
      ensures forall ch :: ch in channels ==>
                sums[ch] == old(sums)[ch] + ChannelTotal(channels, values, ch)
                && counts[ch] == old(counts)[ch] + Occurrences(channels, ch)
    {
      var s, c := sums, counts;
      for i := 0 to |channels|
        modifies {}
        invariant s.Keys == c.Keys == set ch | ch in channels
        invariant forall ch :: ch in s ==> s[ch] == sums[ch] + ChannelTotal(channels[..i], values[..i], ch)
        invariant forall ch :: ch in c ==> c[ch] == counts[ch] + Occurrences(channels[..i], ch)
      {
        PrefixStep(channels, values, i);
        var ch := channels[i];
        s := s[ch := s[ch] + values[i]];
        c := c[ch := c[ch] + 1];
      }
      assert channels[..|channels|] == channels && values[..|values|] == values;
      SumsStep(channels, batches, values, s);
      CountsStep(channels, batches, values, c);
      sums, counts, batches := s, c, batches + [values];
    }

    /**
     * The sampling loop: while the clock is before `endTime`, read every
     * channel once and add the values; a failed read or an interrupt ends it.
     */
    method Sample(ticks: seq<Tick>, endTime: int) returns (outcome: WindowOutcome)
      requires Valid()
      requires forall i :: 0 <= i < |ticks| && ticks[i].Tick? && ticks[i].read.Some? ==>
                 |ticks[i].read.value| == |channels|
      modifies this
      ensures Valid()
      ensures batches == old(batches) + Collect(ticks, endTime).0
      ensures outcome == Collect(ticks, endTime).1
    {
      var i := 0;
      while i < |ticks|
        invariant 0 <= i <= |ticks| && Valid()
        invariant Collect(ticks, endTime).1 == Collect(ticks[i..], endTime).1
        invariant old(batches) + Collect(ticks, endTime).0 == batches + Collect(ticks[i..], endTime).0
      {
        match ticks[i]
        case Interrupt =>
          return Interrupted;
        case Tick(now, read) =>
          if now >= endTime {
            return Elapsed;
          }
          match read
          case None =>
            return ReadFailed;
          case Some(values) =>
            assert ticks[i..][1..] == ticks[i + 1..];
            Add(values);
        i := i + 1;
      }
      outcome := Elapsed;
    }
  }
}
