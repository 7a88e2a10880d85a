/**
 * The acquisition loop of `average_channels_from_config`: align to the
 * period, then for every period rotate the dated log file if needed, sample
 * the channels until the window ends, calibrate, append one row and advance
 * the schedule cursor; close the log file on every way out.
 */
module Acquisition {
  import opened Wrappers
  import opened Timing
  import opened Csv
  import opened Sampling
  import opened Calibration
  import opened LogFiles

  /**
   * The configuration, fixed for the whole run.  `timestamp` stands for
   * `astimezone(local_tz).isoformat()` and `format` for `f"{x:.6f}"`.
   */
  datatype Config = Config(
    channels: seq<string>,
    slopes: map<string, real>,
    offsets: map<string, real>,
    labels: map<string, string>,
    period: int,
    projectName: string,
    timestamp: int -> string,
    format: real -> string)

  /**
   * What the environment supplies to one period: the date when the period
   * starts, whether opening a log file fails, the passes of the sampling
   * loop, whether the row write fails, and the clock after the write.
   */
  datatype CycleInput = CycleInput(date: string, openFails: bool, ticks: seq<Tick>, writeFails: bool, clockAfterWrite: int)

  /** Why the loop ended; every one of them leads to the same clean-up. */
  datatype StopReason = UserInterrupt | ReaderError | OpenError | WriteError | CalibrationError(fault: Fault)

  /** The end of one period: go on after sleeping `sleep` microseconds, or stop. */
  datatype CycleOutcome = Continue(sleep: int) | Stop(reason: StopReason)

  /** `",".join(f"{v:.6f}" for v in values)`, before joining. */
  function FormatValues(format: real -> string, values: seq<real>): seq<string>
  {
    seq(|values|, i requires 0 <= i < |values| => format(values[i]))
  }

  /** The row a period logs from the reads its window absorbed, or the calibration fault. */
  function PeriodRow(cfg: Config, target: int, batches: seq<seq<real>>): Result<string, Fault>
    requires Sized(batches, |cfg.channels|)
  {
    match PeriodAverages(cfg.channels, batches, cfg.slopes, cfg.offsets)
    case Failure(f) => Failure(f)
    case Success(values) => Success(Row(cfg.timestamp(target), FormatValues(cfg.format, values)))
  }

  ghost predicate ReadsFit(cfg: Config, ticks: seq<Tick>)
  {
    forall i :: 0 <= i < |ticks| && ticks[i].Tick? && ticks[i].read.Some? ==> |ticks[i].read.value| == |cfg.channels|
  }

  lemma CollectedFit(cfg: Config, ticks: seq<Tick>, endTime: int)
    requires ReadsFit(cfg, ticks)
    ensures Sized(Collect(ticks, endTime).0, |cfg.channels|)
  {
    CollectTakesReadsBeforeEnd(ticks, endTime);
  }

  /** The row a period logs, from the reads its window takes before the window ends. */
  ghost function SampledRow(cfg: Config, target: int, ticks: seq<Tick>): Result<string, Fault>
    requires ReadsFit(cfg, ticks)
  {
    CollectedFit(cfg, ticks, WindowEnd(target, cfg.period));
    PeriodRow(cfg, target, Collect(ticks, WindowEnd(target, cfg.period)).0)
  }

  /** How a period ends once its log file is open. */
  ghost function PeriodEnd(cfg: Config, target: int, c: CycleInput): CycleOutcome
    requires ReadsFit(cfg, c.ticks)
  {
    var ended := Collect(c.ticks, WindowEnd(target, cfg.period)).1;
    if ended == ReadFailed then Stop(ReaderError)
    else if ended == Interrupted then Stop(UserInterrupt)
    else match SampledRow(cfg, target, c.ticks)
      case Failure(f) => Stop(CalibrationError(f))
      case Success(_) =>
        if c.writeFails then Stop(WriteError)
        else Continue(SleepTime(NextTarget(target, cfg.period), c.clockAfterWrite))
  }

  /** How a period ends, given what the environment does during it. */
  ghost function CycleEnd(cfg: Config, rotate: bool, target: int, c: CycleInput): CycleOutcome
    requires ReadsFit(cfg, c.ticks)
  {
    if rotate && c.openFails then Stop(OpenError) else PeriodEnd(cfg, target, c)
  }

  /** A period stops on an open error exactly when it has to switch files and the open fails. */
  lemma OpenErrorOnlyWhenOpenFails(cfg: Config, rotate: bool, target: int, c: CycleInput)
    requires ReadsFit(cfg, c.ticks)
    ensures CycleEnd(cfg, rotate, target, c) == Stop(OpenError) <==> rotate && c.openFails
  {
  }

  /**
   * A logged row reads back as the period's target timestamp followed by one
   * calibrated value per channel, in channel order, field for field under the
   * header's labels (when no cell contains a comma).
   */
  lemma LoggedRowLayout(cfg: Config, target: int, ticks: seq<Tick>)
    requires ReadsFit(cfg, ticks) && SampledRow(cfg, target, ticks).Success?
    requires ',' !in cfg.timestamp(target) && CommaFree(FieldLabels(cfg.channels, cfg.labels))
    requires forall x :: ',' !in cfg.format(x)
    ensures var batches := Collect(ticks, WindowEnd(target, cfg.period)).0;
            var fields := Fields(SampledRow(cfg, target, ticks).value);
            && Sized(batches, |cfg.channels|)
            && |fields| == |Fields(Header(FieldLabels(cfg.channels, cfg.labels)))|
                          == 1 + (if cfg.channels == [] then 1 else |cfg.channels|)
            && fields[0] == cfg.timestamp(target)
            && forall i :: 0 <= i < |cfg.channels| ==>
                 fields[i + 1] == cfg.format(PeriodAverages(cfg.channels, batches, cfg.slopes, cfg.offsets).value[i])
  {
    var batches := Collect(ticks, WindowEnd(target, cfg.period)).0;
    CollectedFit(cfg, ticks, WindowEnd(target, cfg.period));
    var values := PeriodAverages(cfg.channels, batches, cfg.slopes, cfg.offsets).value;
    var cells := FormatValues(cfg.format, values);
    HeaderAndRowAlign(FieldLabels(cfg.channels, cfg.labels), cfg.timestamp(target), cells);
  }

  /** The state of the local `log_file` when control reaches the `finally` clause. */
  datatype Binding = Unbound | Bound(handle: Option<Handle>)

  /** What the `finally` clause does: close what is open, or raise. */
  datatype CleanUp = Closes(events: seq<FileEvent>) | UnboundLocal

  /** Where the exception left `log_file`: unbound during the alignment, bound after it. */
  function BindingWhenLeaving(duringAlignment: bool, h: Option<Handle>): Binding
  {
    if duringAlignment then Unbound else Bound(h)
  }

  /**
   * The `finally` clause as written.  `log_file = None` sits inside the `try`,
   * after the alignment sleep, so a `KeyboardInterrupt` during that sleep
   * reaches `if log_file:` with the name still unbound and the clean-up itself
   * raises `UnboundLocalError`.
   */
  function FinallyAsWritten(b: Binding): CleanUp
  {
    match b
    case Unbound => UnboundLocal
    case Bound(h) => Closes(CloseEvents(h))
  }

  /** Interrupting the alignment sleep makes the clean-up raise instead of ending quietly. */
  lemma InterruptDuringAlignmentRaises(h: Option<Handle>)
    ensures FinallyAsWritten(BindingWhenLeaving(true, h)) == UnboundLocal
    ensures FinallyAsWritten(BindingWhenLeaving(false, h)) != UnboundLocal
  {
  }

  /** Creating a file with the header and then appending a row is one update of the file system. */
  lemma CreateThenAppend(disk: map<string, string>, name: string, header: string, row: string)
    ensures var created := if name in disk then disk else disk[name := header];
            created[name := created[name] + row] == disk[name := (if name in disk then disk[name] else header) + row]
  {
  }

  /** Logging a close, then an open, then maybe a header, logs the switch. */
  lemma AppendSwitch(events: seq<FileEvent>, h: Option<Handle>, name: string, existed: bool, header: string)
    ensures events + CloseEvents(h) + [Opened(name)] + (if existed then [] else [Appended(name, header)])
            == events + SwitchEvents(h, name, existed, header)
  {
  }

  /**
   * Whether period `k` of a run meets the rotation guard: the first period
   * always opens a file, a later one switches when the date has changed.
   */
  /**
   * The rotation guard in terms of the run's dates: period `k` switches files
   * when it is the first or its date differs from the previous one.  This is
   * `LogFiles.NeedsRotation` on the handle and dated name, by
   * `Csv.SameLogFilenameIffSameDate` (see `Monitor.Step`).
   */
  predicate Rotates(cycles: seq<CycleInput>, k: nat)
    requires k < |cycles|
  {
    k == 0 || cycles[k].date != cycles[k - 1].date
  }

  /** Periods `0` to `n - 1` of a run, started at `first`, all continue. */
  ghost predicate ContinuesThrough(cfg: Config, cycles: seq<CycleInput>, first: int, n: nat)
    requires n <= |cycles| && forall k :: 0 <= k < |cycles| ==> ReadsFit(cfg, cycles[k].ticks)
  {
    forall k :: 0 <= k < n ==> CycleEnd(cfg, Rotates(cycles, k), TargetAfter(first, cfg.period, k), cycles[k]).Continue?
  }

  /** One more period that continues extends the run of continuing periods. */
  lemma ContinuesThroughNext(cfg: Config, cycles: seq<CycleInput>, first: int, n: nat)
    requires n < |cycles| && forall k :: 0 <= k < |cycles| ==> ReadsFit(cfg, cycles[k].ticks)
    requires ContinuesThrough(cfg, cycles, first, n)
    requires CycleEnd(cfg, Rotates(cycles, n), TargetAfter(first, cfg.period, n), cycles[n]).Continue?
    ensures ContinuesThrough(cfg, cycles, first, n + 1)
  {
  }

  /** What the monitor has done to the file system: the events in order and the files' contents. */
  datatype Trace = Trace(events: seq<FileEvent>, disk: map<string, string>)

  /** The rotation check of a period: switch from `h` to `name` when `rotate` holds. */
  function Rotated(t: Trace, h: Option<Handle>, rotate: bool, name: string, header: string): Trace
  {
    Trace(t.events + (if rotate then SwitchEvents(h, name, name in t.disk, header) else []),
          if name in t.disk then t.disk else t.disk[name := header])
  }

  /** A period that logs `row` to `name`, after switching to it from `h` when `rotate` holds. */
  function LoggedPeriod(t: Trace, h: Option<Handle>, rotate: bool, name: string, header: string, row: string): Trace
  {
    Trace(Rotated(t, h, rotate, name, header).events + [Logged(name, row)],
          t.disk[name := (if name in t.disk then t.disk[name] else header) + row])
  }

  /** A period adds its one row to the rows written; its rotation check adds none. */
  lemma PeriodRows(t: Trace, h: Option<Handle>, rotate: bool, name: string, header: string, row: string)
    ensures DataRows(Rotated(t, h, rotate, name, header).events) == DataRows(t.events)
    ensures DataRows(LoggedPeriod(t, h, rotate, name, header, row).events) == DataRows(t.events) + [Logged(name, row)]
  {
    var switch := if rotate then SwitchEvents(h, name, name in t.disk, header) else [];
    SwitchOpensOnlyNewFile(h, name, name in t.disk, header);
    DataRowsAppend(t.events, switch);
    DataRowsAppend(t.events + switch, [Logged(name, row)]);
    assert DataRows([Logged(name, row)]) == [Logged(name, row)];
  }

  /** A period opens a file only when it rotates, and then the new one. */
  lemma PeriodOpens(t: Trace, h: Option<Handle>, rotate: bool, name: string, header: string, row: string)
    ensures OpenedFiles(LoggedPeriod(t, h, rotate, name, header, row).events)
            == OpenedFiles(t.events) + (if rotate then [name] else [])
  {
    var switch := if rotate then SwitchEvents(h, name, name in t.disk, header) else [];
    SwitchOpensOnlyNewFile(h, name, name in t.disk, header);
    OpenedFilesAppend(t.events, switch);
    OpenedFilesAppend(t.events + switch, [Logged(name, row)]);
    assert OpenedFiles([Logged(name, row)]) == [];
  }

  /** A period keeps the files equal to the initial files with the events replayed on them. */
  lemma PeriodReplay(disk0: map<string, string>, t: Trace, h: Option<Handle>, rotate: bool, name: string, header: string, row: string)
    requires t.disk == Contents(disk0, t.events) && (!rotate ==> name in t.disk)
    ensures Rotated(t, h, rotate, name, header).disk == Contents(disk0, Rotated(t, h, rotate, name, header).events)
    ensures LoggedPeriod(t, h, rotate, name, header, row).disk == Contents(disk0, LoggedPeriod(t, h, rotate, name, header, row).events)
  {
    var rotated := Rotated(t, h, rotate, name, header);
    var switch := if rotate then SwitchEvents(h, name, name in t.disk, header) else [];
    SwitchContents(t.disk, h, name, header);
    ContentsAppend(disk0, t.events, switch);
    ContentsAppend(disk0, rotated.events, [Logged(name, row)]);
    assert [Logged(name, row)][..0] == [];
    assert rotated.disk[name := rotated.disk[name] + row] == t.disk[name := (if name in t.disk then t.disk[name] else header) + row];
  }

  /** A pass of the loop body, as `Cycle` states it, is the period of the run whose rotation flag is the guard's value. */
  lemma CycleIsRunPeriod(t: Trace, h: Option<Handle>, current: string, rotate: bool, name: string, header: string, row: string)
    requires NeedsRotation(h, current, name) == rotate
    ensures Trace(t.events + RotationEvents(h, current, name, name in t.disk, header),
                  if name in t.disk then t.disk else t.disk[name := header])
            == Rotated(t, h, rotate, name, header)
    ensures Trace(t.events + RotationEvents(h, current, name, name in t.disk, header) + [Logged(name, row)],
                  t.disk[name := (if name in t.disk then t.disk[name] else header) + row])
            == LoggedPeriod(t, h, rotate, name, header, row)
  {
  }

  /** The log file of period `k`, named after the date when the period starts. */
  function PeriodFile(cfg: Config, cycles: seq<CycleInput>, k: nat): string
    requires k < |cycles|
  {
    LogFilename(cfg.projectName, cycles[k].date)
  }

  /** The handle open when period `k` starts: none before the first, else the previous period's file. */
  function HandleBefore(cfg: Config, cycles: seq<CycleInput>, k: nat): Option<Handle>
    requires k <= |cycles|
  {
    if k == 0 then None else Some(Handle(PeriodFile(cfg, cycles, k - 1), false))
  }

  /**
   * The trace of a run on the file system `disk0` once periods `0` to
   * `n - 1` have each rotated if needed and logged `rows[k]`.
   */
  function RunTrace(cfg: Config, cycles: seq<CycleInput>, disk0: map<string, string>, rows: seq<string>, n: nat): Trace
    requires n <= |cycles| && n <= |rows|
  {
    if n == 0 then Trace([], disk0)
    else
      var k := n - 1;
      LoggedPeriod(RunTrace(cfg, cycles, disk0, rows, k), HandleBefore(cfg, cycles, k), Rotates(cycles, k),
                   PeriodFile(cfg, cycles, k), Header(FieldLabels(cfg.channels, cfg.labels)), rows[k])
  }

  /** One more completed period extends the run's trace by that period. */
  lemma RunTraceNext(cfg: Config, cycles: seq<CycleInput>, disk0: map<string, string>, rows: seq<string>, n: nat)
    requires n < |cycles| && n < |rows|
    ensures RunTrace(cfg, cycles, disk0, rows, n + 1)
            == LoggedPeriod(RunTrace(cfg, cycles, disk0, rows, n), HandleBefore(cfg, cycles, n), Rotates(cycles, n),
                            PeriodFile(cfg, cycles, n), Header(FieldLabels(cfg.channels, cfg.labels)), rows[n])
  {
  }

  /**
   * The trace when the loop ends at period `n`: the completed periods, then
   * what the stopping period did before it stopped (nothing more when the
   * supplied periods ran out).
   */
  function ExitTrace(cfg: Config, cycles: seq<CycleInput>, disk0: map<string, string>, rows: seq<string>, n: nat): Trace
    requires n <= |cycles| && n <= |rows|
  {
    var t := RunTrace(cfg, cycles, disk0, rows, n);
    if n == |cycles| then t
    else if Rotates(cycles, n) && cycles[n].openFails then Trace(t.events + CloseEvents(HandleBefore(cfg, cycles, n)), t.disk)
    else Rotated(t, HandleBefore(cfg, cycles, n), Rotates(cycles, n), PeriodFile(cfg, cycles, n), Header(FieldLabels(cfg.channels, cfg.labels)))
  }

  /**
   * The row each period of a run started at `first` logs when its reads
   * calibrate; a period that stops logs none, and "" stands in for it.
   */
  ghost function RunRows(cfg: Config, cycles: seq<CycleInput>, first: int): (rows: seq<string>)
    requires forall k :: 0 <= k < |cycles| ==> ReadsFit(cfg, cycles[k].ticks)
    ensures |rows| == |cycles|
  {
    seq(|cycles|, k requires 0 <= k < |cycles| =>
      match SampledRow(cfg, TargetAfter(first, cfg.period, k), cycles[k].ticks)
      case Success(row) => row
      case Failure(_) => "")
  }

  /** The file open when the loop ends at period `n`. */
  function ExitFile(cfg: Config, cycles: seq<CycleInput>, n: nat): Option<string>
    requires n <= |cycles|
  {
    if n == |cycles| then OpenName(HandleBefore(cfg, cycles, n))
    else if Rotates(cycles, n) && cycles[n].openFails then None
    else Some(PeriodFile(cfg, cycles, n))
  }

  /** The files the first `n` periods open, in order: one for each period that meets the rotation guard. */
  function RotatedFiles(cfg: Config, cycles: seq<CycleInput>, n: nat): seq<string>
    requires n <= |cycles|
  {
    if n == 0 then []
    else RotatedFiles(cfg, cycles, n - 1) + (if Rotates(cycles, n - 1) then [PeriodFile(cfg, cycles, n - 1)] else [])
  }

  /** The data rows of periods `0` to `n - 1`: `rows[k]`, to the file of period `k`. */
  function PeriodRowEvents(cfg: Config, cycles: seq<CycleInput>, rows: seq<string>, n: nat): seq<FileEvent>
    requires n <= |cycles| && n <= |rows|
  {
    if n == 0 then [] else PeriodRowEvents(cfg, cycles, rows, n - 1) + [Logged(PeriodFile(cfg, cycles, n - 1), rows[n - 1])]
  }

  /** Row `k` of the first `n` periods' rows is `rows[k]`, to the file of period `k`. */
  lemma {:induction false} PeriodRowEventsAt(cfg: Config, cycles: seq<CycleInput>, rows: seq<string>, n: nat)
    requires n <= |cycles| && n <= |rows|
    ensures var r := PeriodRowEvents(cfg, cycles, rows, n);
            |r| == n && forall k :: 0 <= k < n ==> r[k] == Logged(PeriodFile(cfg, cycles, k), rows[k])
  {
    if n > 0 {
      PeriodRowEventsAt(cfg, cycles, rows, n - 1);
    }
  }

  /** The rows of the completed periods: one per period, in order, to the file named after its own date. */
  lemma {:induction false} RowsWritten(cfg: Config, cycles: seq<CycleInput>, disk0: map<string, string>, rows: seq<string>, n: nat)
    requires n <= |cycles| && n <= |rows|
    ensures DataRows(RunTrace(cfg, cycles, disk0, rows, n).events) == PeriodRowEvents(cfg, cycles, rows, n)
  {
    if n > 0 {
      var k := n - 1;
      RowsWritten(cfg, cycles, disk0, rows, k);
      RunTraceNext(cfg, cycles, disk0, rows, k);
      PeriodRows(RunTrace(cfg, cycles, disk0, rows, k), HandleBefore(cfg, cycles, k), Rotates(cycles, k),
                 PeriodFile(cfg, cycles, k), Header(FieldLabels(cfg.channels, cfg.labels)), rows[k]);
    }
  }

  /**
   * Every completed period of a run logs exactly one row, to the file named
   * after its own date, and that row is the one its reads and its target give.
   */
  lemma OneRowPerPeriod(cfg: Config, cycles: seq<CycleInput>, first: int, disk0: map<string, string>, n: nat)
    requires n <= |cycles| && forall k :: 0 <= k < |cycles| ==> ReadsFit(cfg, cycles[k].ticks)
    requires ContinuesThrough(cfg, cycles, first, n)
    ensures var written := DataRows(RunTrace(cfg, cycles, disk0, RunRows(cfg, cycles, first), n).events);
            && |written| == n
            && forall k :: 0 <= k < n ==>
                 && written[k].name == PeriodFile(cfg, cycles, k)
                 && SampledRow(cfg, TargetAfter(first, cfg.period, k), cycles[k].ticks) == Success(written[k].row)
  {
    var rows := RunRows(cfg, cycles, first);
    RowsWritten(cfg, cycles, disk0, rows, n);
    PeriodRowEventsAt(cfg, cycles, rows, n);
    forall k | 0 <= k < n
      ensures SampledRow(cfg, TargetAfter(first, cfg.period, k), cycles[k].ticks) == Success(rows[k])
    {
      ContinuedRow(cfg, cycles, first, k);
    }
  }

  /** A period that continues logged the row its reads give. */
  lemma ContinuedRow(cfg: Config, cycles: seq<CycleInput>, first: int, k: nat)
    requires k < |cycles| && forall j :: 0 <= j < |cycles| ==> ReadsFit(cfg, cycles[j].ticks)
    requires CycleEnd(cfg, Rotates(cycles, k), TargetAfter(first, cfg.period, k), cycles[k]).Continue?
    ensures SampledRow(cfg, TargetAfter(first, cfg.period, k), cycles[k].ticks) == Success(RunRows(cfg, cycles, first)[k])
  {
  }

  /** A period that stops logs no row, so the rows of a run are those of its completed periods. */
  lemma NoRowAfterStop(cfg: Config, cycles: seq<CycleInput>, disk0: map<string, string>, rows: seq<string>, n: nat)
    requires n <= |cycles| && n <= |rows|
    ensures DataRows(ExitTrace(cfg, cycles, disk0, rows, n).events) == DataRows(RunTrace(cfg, cycles, disk0, rows, n).events)
  {
    if n < |cycles| {
      var t := RunTrace(cfg, cycles, disk0, rows, n);
      var h := HandleBefore(cfg, cycles, n);
      PeriodRows(t, h, Rotates(cycles, n), PeriodFile(cfg, cycles, n), Header(FieldLabels(cfg.channels, cfg.labels)), "");
      SwitchOpensOnlyNewFile(h, "", true, "");
      DataRowsAppend(t.events, CloseEvents(h));
    }
  }

  /** A run opens a file exactly at the periods that meet the rotation guard, and no other. */
  lemma {:induction false} OpensOnRotation(cfg: Config, cycles: seq<CycleInput>, disk0: map<string, string>, rows: seq<string>, n: nat)
    requires n <= |cycles| && n <= |rows|
    ensures OpenedFiles(RunTrace(cfg, cycles, disk0, rows, n).events) == RotatedFiles(cfg, cycles, n)
  {
    if n > 0 {
      var k := n - 1;
      OpensOnRotation(cfg, cycles, disk0, rows, k);
      RunTraceNext(cfg, cycles, disk0, rows, k);
      PeriodOpens(RunTrace(cfg, cycles, disk0, rows, k), HandleBefore(cfg, cycles, k), Rotates(cycles, k),
                 PeriodFile(cfg, cycles, k), Header(FieldLabels(cfg.channels, cfg.labels)), rows[k]);
    }
  }

  /** While the date does not change, a run keeps one log file open from its first period on. */
  lemma {:induction false} SameDateOneFile(cfg: Config, cycles: seq<CycleInput>, n: nat)
    requires 1 <= n <= |cycles| && forall k :: 0 <= k < n ==> cycles[k].date == cycles[0].date
    ensures RotatedFiles(cfg, cycles, n) == [PeriodFile(cfg, cycles, 0)]
  {
    if n > 1 {
      SameDateOneFile(cfg, cycles, n - 1);
    }
  }

  /**
   * The files after the completed periods are the initial files with every
   * logged event replayed on them: each period's file holds its old contents,
   * or the header when it was new, followed by its rows.
   */
  lemma {:induction false} DiskIsReplay(cfg: Config, cycles: seq<CycleInput>, disk0: map<string, string>, rows: seq<string>, n: nat)
    requires n <= |cycles| && n <= |rows|
    ensures var t := RunTrace(cfg, cycles, disk0, rows, n);
            t.disk == Contents(disk0, t.events) && (n > 0 ==> PeriodFile(cfg, cycles, n - 1) in t.disk)
  {
    if n > 0 {
      var k := n - 1;
      DiskIsReplay(cfg, cycles, disk0, rows, k);
      RunTraceNext(cfg, cycles, disk0, rows, k);
      if !Rotates(cycles, k) {
        SameLogFilenameIffSameDate(cfg.projectName, cycles[k].date, cycles[k - 1].date);
      }
      PeriodReplay(disk0, RunTrace(cfg, cycles, disk0, rows, k), HandleBefore(cfg, cycles, k), Rotates(cycles, k),
                   PeriodFile(cfg, cycles, k), Header(FieldLabels(cfg.channels, cfg.labels)), rows[k]);
    }
  }

  /** The files when the loop ends are still the initial files with every logged event replayed on them. */
  lemma ExitDiskIsReplay(cfg: Config, cycles: seq<CycleInput>, disk0: map<string, string>, rows: seq<string>, n: nat)
    requires n <= |cycles| && n <= |rows|
    ensures var t := ExitTrace(cfg, cycles, disk0, rows, n);
            t.disk == Contents(disk0, t.events)
  {
    DiskIsReplay(cfg, cycles, disk0, rows, n);
    if n < |cycles| {
      var t := RunTrace(cfg, cycles, disk0, rows, n);
      var h := HandleBefore(cfg, cycles, n);
      if !Rotates(cycles, n) {
        SameLogFilenameIffSameDate(cfg.projectName, cycles[n].date, cycles[n - 1].date);
      }
      PeriodReplay(disk0, t, h, Rotates(cycles, n), PeriodFile(cfg, cycles, n), Header(FieldLabels(cfg.channels, cfg.labels)), "");
      SwitchContents(t.disk, h, "", "");
      ContentsAppend(disk0, t.events, CloseEvents(h));
    }
  }

  /** The file events of the rotation check: a switch when it is needed, nothing otherwise. */
  function RotationEvents(h: Option<Handle>, current: string, name: string, existed: bool, header: string): seq<FileEvent>
  {
    if NeedsRotation(h, current, name) then SwitchEvents(h, name, existed, header) else []
  }

  /**
   * The file system only grows: every file that existed keeps its old
   * contents as a prefix, every file the monitor created starts with the
   * header, and no other file appears.
   */
  ghost predicate AppendOnly(initial: map<string, string>, disk: map<string, string>, created: set<string>, header: string)
  {
    && (forall f :: f in initial ==> f in disk && initial[f] <= disk[f])
    && (forall f :: f in created ==> f !in initial && f in disk && header <= disk[f])
    && (forall f :: f in disk ==> f in initial || f in created)
  }

  /** Creating a file with the header as its first contents keeps the file system append-only. */
  lemma CreatePreservesAppendOnly(initial: map<string, string>, disk: map<string, string>, created: set<string>,
                                  header: string, name: string)
    requires AppendOnly(initial, disk, created, header) && name !in disk
    ensures AppendOnly(initial, disk[name := header], created + {name}, header)
  {
  }

  /** Appending to an existing file keeps the file system append-only. */
  lemma AppendPreservesAppendOnly(initial: map<string, string>, disk: map<string, string>, created: set<string>,
                                  header: string, name: string, text: string)
    requires AppendOnly(initial, disk, created, header) && name in disk
    ensures AppendOnly(initial, disk[name := disk[name] + text], created, header)
  {
    forall f | f in initial
      ensures initial[f] <= disk[name := disk[name] + text][f]
    {
      if f == name {
        assert disk[f] <= disk[f] + text;
      }
    }
    forall f | f in created
      ensures header <= disk[name := disk[name] + text][f]
    {
      if f == name {
        assert disk[f] <= disk[f] + text;
      }
    }
  }

  class Monitor {
    const cfg: Config
    const fieldLabels: seq<string>
    var logFile: Option<Handle>
    var logFilename: string
    var nextTarget: int
    var disk: map<string, string>
    ghost var initialDisk: map<string, string>
    ghost var events: seq<FileEvent>
    ghost var created: set<string>
    ghost var firstTarget: int
    ghost var completed: nat
    ghost var logFileBound: bool

    /**
     * At most one file is open, and it is the current log file; files are
     * only appended to; a file the monitor created begins with the header;
     * the cursor is exactly `completed` periods past the first target.
     */
    ghost predicate Valid()
      reads this
    {
      && cfg.period >= 1
      && fieldLabels == FieldLabels(cfg.channels, cfg.labels)
      && Replay(events) == Some(OpenName(logFile))
      && (OpenName(logFile).Some? ==> OpenName(logFile).value == logFilename && logFilename in disk)
      && AppendOnly(initialDisk, disk, created, Header(fieldLabels))
      && nextTarget == TargetAfter(firstTarget, cfg.period, completed)
    }

    /** The local `log_file` as the `finally` clause finds it: unbound until the assignment after the alignment sleep. */
    ghost function LocalLogFile(): Binding
      reads this
    {
      BindingWhenLeaving(!logFileBound, logFile)
    }

    /** The set-up before the `try`: labels, the start-up file name, no file open. */
    constructor (cfg: Config, startDate: string, disk: map<string, string>)
      requires cfg.period >= 1
      ensures Valid() && this.cfg == cfg && this.disk == disk && initialDisk == disk
      ensures fieldLabels == FieldLabels(cfg.channels, cfg.labels)
      ensures logFile == None && logFilename == LogFilename(cfg.projectName, startDate)
      ensures events == [] && completed == 0 && !logFileBound
    {
      this.cfg := cfg;
      fieldLabels := FieldLabels(cfg.channels, cfg.labels);
      logFile := None;
      logFilename := LogFilename(cfg.projectName, startDate);
      nextTarget := 0;
      this.disk := disk;
      initialDisk := disk;
      events := [];
      created := {};
      firstTarget := 0;
      completed := 0;
      logFileBound := false;
    }

    /**
     * Switches to log file `name`: close the previous file, note whether the
     * new one exists, open it for appending and, if it is new, write the header.
     */
    method SwitchLog(name: string, openFails: bool) returns (ok: bool)
      requires Valid()
      modifies this`logFile, this`logFilename, this`disk, this`events, this`created
      ensures Valid() && logFilename == name && ok == !openFails
      ensures ok ==> logFile == Some(Handle(name, false))
      ensures ok ==> events == old(events) + SwitchEvents(old(logFile), name, name in old(disk), Header(fieldLabels))
      ensures ok ==> disk == if name in old(disk) then old(disk) else old(disk)[name := Header(fieldLabels)]
      ensures !ok ==> OpenName(logFile) == None && events == old(events) + CloseEvents(old(logFile)) && disk == old(disk)
    {
      CloseLog();
      ghost var closed := events;
      logFilename := name;
      if openFails {
        return false;
      }
      OpenLog();
      AppendSwitch(old(events), old(logFile), name, name in old(disk), Header(fieldLabels));
      ok := true;
    }

    /** `open(log_filename, 'a')`, and the header when the file did not exist. */
    method OpenLog()
      requires Valid() && OpenName(logFile) == None
      modifies this`logFile, this`disk, this`events, this`created
      ensures Valid() && logFile == Some(Handle(logFilename, false))
      ensures events == old(events) + [Opened(logFilename)]
                        + (if logFilename in old(disk) then [] else [Appended(logFilename, Header(fieldLabels))])
      ensures disk == if logFilename in old(disk) then old(disk) else old(disk)[logFilename := Header(fieldLabels)]
    {
      var name := logFilename;
      var existed := name in disk;
      var header := Header(fieldLabels);
      ghost var opening := events + [Opened(name)];
      assert opening[..|events|] == events;
      assert Replay(opening) == Some(Some(name));
      logFile := Some(Handle(name, false));
      events := opening;
      if !existed {
        assert (opening + [Appended(name, header)])[..|opening|] == opening;
        CreatePreservesAppendOnly(initialDisk, disk, created, header, name);
        disk := disk[name := header];
        created := created + {name};
        events := opening + [Appended(name, header)];
      }
    }

    /** `log_file.write(log_entry)` followed by `flush()`; a failed write changes nothing. */
    method WriteRow(row: string, fails: bool) returns (ok: bool)
      requires Valid() && OpenName(logFile).Some?
      modifies this`disk, this`events
      ensures Valid() && ok == !fails
      ensures ok ==> disk == old(disk)[logFile.value.name := old(disk)[logFile.value.name] + row]
      ensures ok ==> events == old(events) + [Logged(logFile.value.name, row)]
      ensures !ok ==> disk == old(disk) && events == old(events)
    {
      if fails {
        return false;
      }
      var name := logFile.value.name;
      assert (events + [Logged(name, row)])[..|events|] == events;
      AppendPreservesAppendOnly(initialDisk, disk, created, Header(fieldLabels), name, row);
      disk := disk[name := disk[name] + row];
      events := events + [Logged(name, row)];
      ok := true;
    }

    /**
     * `if log_file: log_file.close()`, both before a rotation and in the
     * `finally` clause; closing a closed file object again does nothing.
     */
    method CloseLog()
      requires Valid()
      modifies this`logFile, this`events
      ensures Valid() && OpenName(logFile) == None && Replay(events) == Some(None)
      ensures events == old(events) + CloseEvents(old(logFile))
      ensures logFile == if old(logFile).Some? then Some(Handle(old(logFile).value.name, true)) else None
      ensures RowCount(events) == RowCount(old(events))
    {
      CloseLeavesNothingOpen(events, logFile);
      SwitchWritesNoRow(logFile, "", true, "");
      RowCountAppend(events, CloseEvents(logFile));
      events := events + CloseEvents(logFile);
      if logFile.Some? {
        logFile := Some(Handle(logFile.value.name, true));
      }
    }

    /**
     * One pass of the `while True` body: rotate the log if the dated name
     * changed, sample until the window ends, calibrate, append the row stamped
     * with the target time, advance the cursor by one period and work out the
     * sleep.  Any failure stops the pass before the cursor moves.
     */
    method Cycle(c: CycleInput) returns (outcome: CycleOutcome)
      requires Valid() && (logFile.Some? ==> !logFile.value.closed)
      requires ReadsFit(cfg, c.ticks)
      modifies this`logFile, this`logFilename, this`disk, this`events, this`created, this`nextTarget, this`completed
      ensures Valid()
      ensures outcome == CycleEnd(cfg, NeedsRotation(old(logFile), old(logFilename), LogFilename(cfg.projectName, c.date)), old(nextTarget), c)
      ensures outcome.Stop? ==> nextTarget == old(nextTarget) && completed == old(completed)
      ensures RowCount(events) == RowCount(old(events)) + (if outcome.Continue? then 1 else 0)
      ensures outcome == Stop(OpenError) ==>
                && OpenName(logFile) == None && logFilename == LogFilename(cfg.projectName, c.date)
                && events == old(events) + CloseEvents(old(logFile)) && disk == old(disk)
      ensures outcome.Stop? && outcome != Stop(OpenError) ==>
                var name := LogFilename(cfg.projectName, c.date);
                && logFile == Some(Handle(name, false)) && logFilename == name
                && events == old(events)
                             + RotationEvents(old(logFile), old(logFilename), name, name in old(disk), Header(fieldLabels))
                && disk == if name in old(disk) then old(disk) else old(disk)[name := Header(fieldLabels)]
      ensures outcome.Continue? ==>
                var name := LogFilename(cfg.projectName, c.date);
                && SampledRow(cfg, old(nextTarget), c.ticks).Success?
                && var row := SampledRow(cfg, old(nextTarget), c.ticks).value;
                && nextTarget == NextTarget(old(nextTarget), cfg.period) && completed == old(completed) + 1
                && logFile == Some(Handle(name, false)) && logFilename == name
                && events == old(events)
                             + RotationEvents(old(logFile), old(logFilename), name, name in old(disk), Header(fieldLabels))
                             + [Logged(name, row)]
                && disk == old(disk)[name := (if name in old(disk) then old(disk)[name] else Header(fieldLabels)) + row]
    {
      var name := LogFilename(cfg.projectName, c.date);
      var ok := RotateIfNeeded(name, c.openFails);
      if !ok {
        return Stop(OpenError);
      }
      outcome := Period(c);
      if outcome.Continue? {
        CreateThenAppend(old(disk), name, Header(fieldLabels), SampledRow(cfg, old(nextTarget), c.ticks).value);
      }
    }

    /**
     * The part of a period after the rotation check: sample until the window
     * ends, calibrate, append the row stamped with the target time, advance
     * the cursor and work out the sleep.  Any failure stops the period
     * before anything is written or the cursor moves.
     */
    method Period(c: CycleInput) returns (outcome: CycleOutcome)
      requires Valid() && OpenName(logFile).Some?
      requires ReadsFit(cfg, c.ticks)
      modifies this`disk, this`events, this`nextTarget, this`completed
      ensures Valid() && logFile == old(logFile)
      ensures outcome == PeriodEnd(cfg, old(nextTarget), c)
      ensures outcome.Stop? ==> unchanged(this)
      ensures outcome.Continue? ==> RowCount(events) == RowCount(old(events)) + 1
      ensures outcome.Continue? ==>
                var name := logFile.value.name;
                && SampledRow(cfg, old(nextTarget), c.ticks).Success?
                && var row := SampledRow(cfg, old(nextTarget), c.ticks).value;
                && nextTarget == NextTarget(old(nextTarget), cfg.period) && completed == old(completed) + 1
                && events == old(events) + [Logged(name, row)]
                && disk == old(disk)[name := old(disk)[name] + row]
    {
      var timestamp := cfg.timestamp(nextTarget);
      var ended, averages := AveragePeriod(c.ticks, nextTarget);
      if ended == ReadFailed {
        return Stop(ReaderError);
      }
      if ended == Interrupted {
        return Stop(UserInterrupt);
      }
      if averages.Failure? {
        return Stop(CalibrationError(averages.error));
      }
      var row := Row(timestamp, FormatValues(cfg.format, averages.value));
      outcome := Record(row, c.writeFails, c.clockAfterWrite);
    }

    /**
     * The end of a period that produced a row: append it, then move the
     * cursor one period on and work out the sleep to the new target.
     */
    method Record(row: string, writeFails: bool, clockAfterWrite: int) returns (outcome: CycleOutcome)
      requires Valid() && OpenName(logFile).Some?
      modifies this`disk, this`events, this`nextTarget, this`completed
      ensures Valid() && logFile == old(logFile)
      ensures outcome == if writeFails then Stop(WriteError)
                         else Continue(SleepTime(NextTarget(old(nextTarget), cfg.period), clockAfterWrite))
      ensures writeFails ==> unchanged(this)
      ensures !writeFails ==> RowCount(events) == RowCount(old(events)) + 1
      ensures !writeFails ==>
                && nextTarget == NextTarget(old(nextTarget), cfg.period) && completed == old(completed) + 1
                && disk == old(disk)[logFile.value.name := old(disk)[logFile.value.name] + row]
                && events == old(events) + [Logged(logFile.value.name, row)]
    {
      RowCountAppend(events, [Logged(logFile.value.name, row)]);
      var written := WriteRow(row, writeFails);
      if !written {
        return Stop(WriteError);
      }
      nextTarget := NextTarget(nextTarget, cfg.period);
      completed := completed + 1;
      outcome := Continue(SleepTime(nextTarget, clockAfterWrite));
    }

    /** The rotation check: switch to `name` when no file is open or the name changed. */
    method RotateIfNeeded(name: string, openFails: bool) returns (ok: bool)
      requires Valid() && (logFile.Some? ==> !logFile.value.closed)
      modifies this`logFile, this`logFilename, this`disk, this`events, this`created
      ensures Valid()
      ensures ok == !(NeedsRotation(old(logFile), old(logFilename), name) && openFails)
      ensures ok ==> logFile == Some(Handle(name, false)) && logFilename == name && name in disk
      ensures ok ==> events == old(events) + RotationEvents(old(logFile), old(logFilename), name, name in old(disk), Header(fieldLabels))
      ensures ok ==> disk == if name in old(disk) then old(disk) else old(disk)[name := Header(fieldLabels)]
      ensures !ok ==> && OpenName(logFile) == None && logFilename == name
                      && events == old(events) + CloseEvents(old(logFile)) && disk == old(disk)
      ensures RowCount(events) == RowCount(old(events))
    {
      SwitchWritesNoRow(logFile, name, name in disk, Header(fieldLabels));
      RowCountAppend(events, CloseEvents(logFile));
      RowCountAppend(events, SwitchEvents(logFile, name, name in disk, Header(fieldLabels)));
      ok := true;
      if logFile.None? || name != logFilename {
        ok := SwitchLog(name, openFails);
      }
    }

    /**
     * The averaging window of the period starting at `target`: a fresh window
     * sampled until `target + P - 1` seconds, then calibrated.
     */
    method AveragePeriod(ticks: seq<Tick>, target: int) returns (ended: WindowOutcome, averages: Result<seq<real>, Fault>)
      requires ReadsFit(cfg, ticks)
      ensures ended == Collect(ticks, WindowEnd(target, cfg.period)).1
      ensures Sized(Collect(ticks, WindowEnd(target, cfg.period)).0, |cfg.channels|)
      ensures ended == Elapsed ==>
                averages == PeriodAverages(cfg.channels, Collect(ticks, WindowEnd(target, cfg.period)).0, cfg.slopes, cfg.offsets)
    {
      var window := new AveragingWindow(cfg.channels);
      var endTime := WindowEnd(target, cfg.period);
      CollectedFit(cfg, ticks, endTime);
      ended := window.Sample(ticks, endTime);
      assert window.batches == Collect(ticks, endTime).0;
      assert window.sums == WindowSums(cfg.channels, window.batches);
      assert window.counts == WindowCounts(cfg.channels, window.batches);
      averages := Averages(cfg.channels, window.sums, window.counts, cfg.slopes, cfg.offsets);
    }

    /**
     * `average_channels_from_config` from the alignment on: wait for the
     * aligned instant, fix the first target, run periods until one stops or
     * the user interrupts after the last, then close the log file.  `cleanUp`
     * is what the `finally` clause as written does at that point; the run
     * itself closes the log file as intended, also when `log_file` is unbound.
     */
    method Run(startClock: int, alignInterrupted: bool, wakeClock: int, cycles: seq<CycleInput>)
      returns (wait: int, stop: StopReason, ghost cleanUp: CleanUp)
      requires Valid() && logFile == None && events == [] && completed == 0 && !logFileBound
      requires forall k :: 0 <= k < |cycles| ==> ReadsFit(cfg, cycles[k].ticks)
      modifies this`logFile, this`logFilename, this`disk, this`events, this`created
      modifies this`nextTarget, this`completed, this`firstTarget, this`logFileBound
      ensures Valid() && OpenName(logFile) == None && Replay(events) == Some(None)
      ensures wait == AlignmentWait(SinceMinute(startClock), cfg.period)
      ensures cleanUp == UnboundLocal <==> alignInterrupted
      ensures alignInterrupted ==> stop == UserInterrupt && events == [] && disk == old(disk) && completed == 0
      ensures !alignInterrupted ==> firstTarget == FirstTarget(wakeClock, cfg.period)
      ensures nextTarget == TargetAfter(firstTarget, cfg.period, completed)
      ensures completed <= |cycles| && (completed == |cycles| ==> stop == UserInterrupt)
      ensures RowCount(events) == completed
      ensures !alignInterrupted ==>
                forall k :: 0 <= k < completed ==>
                  CycleEnd(cfg, Rotates(cycles, k), TargetAfter(firstTarget, cfg.period, k), cycles[k]).Continue?
      ensures !alignInterrupted && completed < |cycles| ==>
                CycleEnd(cfg, Rotates(cycles, completed), TargetAfter(firstTarget, cfg.period, completed), cycles[completed])
                == Stop(stop)
      ensures !alignInterrupted ==>
                var atExit := ExitTrace(cfg, cycles, old(disk), RunRows(cfg, cycles, firstTarget), completed);
                var file := ExitFile(cfg, cycles, completed);
                && cleanUp == Closes(if file.Some? then [Closed(file.value)] else [])
                && events == atExit.events + cleanUp.events && disk == atExit.disk
    {
      wait := AlignmentWait(SinceMinute(startClock), cfg.period);
      if alignInterrupted {
        stop := UserInterrupt;
        cleanUp := FinallyAsWritten(LocalLogFile());
        CloseLog();
        return;
      }
      logFileBound := true;
      nextTarget := FirstTarget(wakeClock, cfg.period);
      firstTarget := nextTarget;
      stop := Periods(cycles);
      cleanUp := FinallyAsWritten(LocalLogFile());
      CloseLog();
    }

    /**
     * The `while True` loop: run the periods in order until one stops; when
     * the supplied periods run out the user is taken to have interrupted.
     */
    method Periods(cycles: seq<CycleInput>) returns (stop: StopReason)
      requires Valid() && logFile == None && events == [] && completed == 0 && nextTarget == firstTarget
      requires forall k :: 0 <= k < |cycles| ==> ReadsFit(cfg, cycles[k].ticks)
      modifies this`logFile, this`logFilename, this`disk, this`events, this`created, this`nextTarget, this`completed
      ensures Valid() && firstTarget == old(firstTarget)
      ensures completed <= |cycles| && (completed == |cycles| ==> stop == UserInterrupt)
      ensures RowCount(events) == completed
      ensures ContinuesThrough(cfg, cycles, firstTarget, completed)
      ensures completed < |cycles| ==>
                CycleEnd(cfg, Rotates(cycles, completed), TargetAfter(firstTarget, cfg.period, completed), cycles[completed])
                == Stop(stop)
      ensures Trace(events, disk) == ExitTrace(cfg, cycles, old(disk), RunRows(cfg, cycles, firstTarget), completed)
      ensures OpenName(logFile) == ExitFile(cfg, cycles, completed)
    {
      stop := UserInterrupt;
      var k := 0;
      while k < |cycles|
        invariant Valid() && k == completed <= |cycles| && RowCount(events) == k
        invariant firstTarget == old(firstTarget) && stop == UserInterrupt
        invariant logFile == HandleBefore(cfg, cycles, k) && (k > 0 ==> logFilename == PeriodFile(cfg, cycles, k - 1))
        invariant ContinuesThrough(cfg, cycles, firstTarget, k)
        invariant Trace(events, disk) == RunTrace(cfg, cycles, old(disk), RunRows(cfg, cycles, firstTarget), k)
      {
        var outcome := Step(cycles, k, old(disk));
        if outcome.Continue? {
          ContinuesThroughNext(cfg, cycles, firstTarget, k);
        }
        if outcome.Stop? {
          stop := outcome.reason;
          return;
        }
        k := k + 1;
      }
      assert ExitTrace(cfg, cycles, old(disk), RunRows(cfg, cycles, firstTarget), k)
             == RunTrace(cfg, cycles, old(disk), RunRows(cfg, cycles, firstTarget), k);
    }

    /** Period `k` of a run, with the file of period `k - 1` (if any) still open. */
    method Step(cycles: seq<CycleInput>, k: nat, ghost disk0: map<string, string>) returns (outcome: CycleOutcome)
      requires Valid() && k == completed < |cycles|
      requires forall j :: 0 <= j < |cycles| ==> ReadsFit(cfg, cycles[j].ticks)
      requires logFile == HandleBefore(cfg, cycles, k) && (k > 0 ==> logFilename == PeriodFile(cfg, cycles, k - 1))
      requires Trace(events, disk) == RunTrace(cfg, cycles, disk0, RunRows(cfg, cycles, firstTarget), k)
      modifies this`logFile, this`logFilename, this`disk, this`events, this`created, this`nextTarget, this`completed
      ensures Valid() && firstTarget == old(firstTarget)
      ensures outcome == CycleEnd(cfg, Rotates(cycles, k), TargetAfter(firstTarget, cfg.period, k), cycles[k])
      ensures completed == old(completed) + (if outcome.Continue? then 1 else 0)
      ensures RowCount(events) == RowCount(old(events)) + (if outcome.Continue? then 1 else 0)
      ensures outcome.Continue? ==>
                && logFile == HandleBefore(cfg, cycles, k + 1) && logFilename == PeriodFile(cfg, cycles, k)
                && Trace(events, disk) == RunTrace(cfg, cycles, disk0, RunRows(cfg, cycles, firstTarget), k + 1)
      ensures outcome.Stop? ==>
                && Trace(events, disk) == ExitTrace(cfg, cycles, disk0, RunRows(cfg, cycles, firstTarget), k)
                && OpenName(logFile) == ExitFile(cfg, cycles, k)
    {
      if k > 0 {
        SameLogFilenameIffSameDate(cfg.projectName, cycles[k].date, cycles[k - 1].date);
      }
      var name := PeriodFile(cfg, cycles, k);
      ghost var rows := RunRows(cfg, cycles, firstTarget);
      ghost var before := Trace(events, disk);
      ghost var header := Header(fieldLabels);
      assert NeedsRotation(logFile, logFilename, name) == Rotates(cycles, k);
      CycleIsRunPeriod(before, logFile, logFilename, Rotates(cycles, k), name, header, rows[k]);
      outcome := Cycle(cycles[k]);
      if outcome.Continue? {
        assert Trace(events, disk) == RunTrace(cfg, cycles, disk0, rows, k + 1) by {
          ContinuedRow(cfg, cycles, firstTarget, k);
          RunTraceNext(cfg, cycles, disk0, rows, k);
          assert before == RunTrace(cfg, cycles, disk0, rows, k) && header == Header(FieldLabels(cfg.channels, cfg.labels));
          assert Trace(events, disk) == LoggedPeriod(before, HandleBefore(cfg, cycles, k), Rotates(cycles, k), name, header, rows[k]);
        }
      } else {
        assert Trace(events, disk) == ExitTrace(cfg, cycles, disk0, rows, k) by {
          OpenErrorOnlyWhenOpenFails(cfg, Rotates(cycles, k), TargetAfter(firstTarget, cfg.period, k), cycles[k]);
          assert before == RunTrace(cfg, cycles, disk0, rows, k) && header == Header(FieldLabels(cfg.channels, cfg.labels));
          if outcome != Stop(OpenError) {
            assert Trace(events, disk) == Rotated(before, HandleBefore(cfg, cycles, k), Rotates(cycles, k), name, header);
          }
        }
      }
    }
  }
}
