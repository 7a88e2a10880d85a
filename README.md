# LabJack channel-averaging monitor, modelled in Dafny

`labjack_monitor.py` reads a set of analog channels from a LabJack device,
averages them over fixed periods aligned to the wall clock, converts every
average with a per-channel slope and offset, and appends one CSV row per
period to a log file named after the project and the current date. This
project models the core of that program, `average_channels_from_config`:

- **Timing** (`timing.dfy`): the start-up alignment wait, the first target
  time, the averaging-window end, the schedule cursor and the clamped sleep.
  Instants are integer microseconds of local wall time counted from a
  minute-aligned origin, so the modular arithmetic is exact.
- **Csv** (`csv.dfy`): field labels with the channel-name fallback, the dated
  log file name, the header and data-row lines, and how a line splits back
  into fields.
- **Sampling** (`sampling.dfy`): the time-bounded sampling loop as an
  `AveragingWindow` class. Its `sums` and `counts` maps are reset for every
  period and updated in place for every batched read.
- **Calibration** (`calibration.dfy`): the averages comprehension. A channel
  with samples gives `sum / count * slope + offset`. A channel without samples
  gives 0. A channel with samples but no slope or offset raises `KeyError`,
  modelled as a `Fault`.
- **LogFiles** (`logfiles.dfy`): the file handle and the open, close and
  append events. It holds the rotation guard and a replay of the events that
  checks at most one file is open at a time.
- **Acquisition** (`acquisition.dfy`): the `Monitor` class with the loop
  state (`log_file`, `log_filename`, `next_target_time`) and the file system
  contents. It holds one pass of the `while True` body and the whole run,
  from the alignment to the `finally` clause. A run is specified by the
  trace it leaves, built period by period from the inputs: the file events
  in order and the files' contents (`RunTrace`, `ExitTrace`).

The environment is supplied as data: the clock readings, the reads (or
reader failures), interrupts, file-open and write failures, and the date at
the start of each period. A run ends in one of five ways: user interrupt,
reader error, open error, write error or calibration error. The broad
`except` clauses turn each of them into the end of the loop, and every one
then reaches the same clean-up, which closes the log file.

The loop does not sleep until `next_target_time` before its first window,
so the first period samples from the wake-up instant to `target + P - 1`
seconds, about `2P - 1` seconds; every later window is preceded by a sleep
until its target, when there is time left (a late loop clamps that sleep to
zero, lines 115-119, and its window starts after the target).
The window guard is only `now < end_time`, and the model keeps that.

## Model

| member | source | states |
|---|---|---|
| Timing.SinceMinute | labjack_monitor.py:50-51 | the seconds-into-the-minute reading lies in [0, 60 s) and the instant minus it falls on a minute boundary |
| Timing.AlignmentWait | labjack_monitor.py:52 | the wait `(P - s mod P) mod P` lies in [0, P) and `s` plus the wait is a multiple of the period |
| Timing.AlignmentWaitIsUnique | labjack_monitor.py:52-54 | a wait in [0, P) brings `s` onto a multiple of P if and only if it is the computed wait |
| Timing.FirstTarget | labjack_monitor.py:59 | the first target is a whole second and lies in the last second before wake-up + P |
| Timing.ExactWakeFirstTarget | labjack_monitor.py:50-59 | after an exact alignment sleep the wake-up instant is a whole second, and the first target is exactly one period after it |
| Timing.WindowEnd | labjack_monitor.py:89 | the window ends one second before the next target (`actual_averaging_time = P - 1`) |
| Timing.SleepTime | labjack_monitor.py:114-119 | the sleep is never negative; it is positive exactly when the clock is before the target, and then it ends exactly at the target |
| Timing.TargetAfterIsExact | labjack_monitor.py:113 | after n advances the cursor is exactly first + n·P, whatever the clock read in between (no drift) |
| Csv.FieldLabels | labjack_monitor.py:32 | one label per channel, in channel order: the configured label if there is one, else the channel name |
| Csv.LogFilenameRoundTrip | labjack_monitor.py:66-67 | the date can be read back from the project's log file name |
| Csv.SameLogFilenameIffSameDate | labjack_monitor.py:66-69 | for one project two names are equal if and only if their dates are equal, so the rotation guard compares dates |
| Csv.SplitJoin | labjack_monitor.py:106 | cells without commas come back unchanged when their joined text is split |
| Csv.LineFields | labjack_monitor.py:107 | a line reads back as its first cell followed by its other cells |
| Csv.HeaderAndRowAlign | labjack_monitor.py:78-79 | the header and every data row have the same number of fields: "time" sits over the timestamp and each label over its channel's value |
| Sampling.CollectTakesReadsBeforeEnd | labjack_monitor.py:92-93 | the window absorbs exactly the leading successful reads taken before the window end, in order; the tick after them says whether time ran out, the reader failed or the user interrupted |
| Sampling.DistinctOccurrences | labjack_monitor.py:94-96 | with distinct channel names each read adds exactly 1 to every channel's count |
| Sampling.DistinctChannelTotal | labjack_monitor.py:94-95 | with distinct channel names a read adds to channel j exactly the j-th value |
| Sampling.DistinctColumnTotal | labjack_monitor.py:92-95 | with distinct channel names channel j's total is the sum of the j-th values of all reads |
| Sampling.WindowAfterReads | labjack_monitor.py:87-96 | after k reads of distinct channels, channel j's count is k and its sum is the sum of the k values read at position j |
| Sampling.AveragingWindow.constructor | labjack_monitor.py:87-88 | a new period starts with every channel's sum 0.0 and count 0 and no reads, so nothing carries over |
| Sampling.AveragingWindow.Add | labjack_monitor.py:94-96 | one batched read adds the value at each position to that position's channel and 1 to its count (a repeated channel collects once per position); the window stays consistent with its reads |
| Sampling.AveragingWindow.Sample | labjack_monitor.py:92-97 | the sampling loop adds exactly the reads the window collects and ends the way the window ends |
| Calibration.ChannelAverage | labjack_monitor.py:101 | 0 when the channel has no samples; a `KeyError` if and only if it has samples and lacks a slope or an offset |
| Calibration.Averages | labjack_monitor.py:100-103 | succeeds if and only if every channel calibrates, giving one value per channel in order; otherwise the fault of the first failing channel |
| Calibration.EmptyPeriodIsZero | labjack_monitor.py:101 | a period without reads logs 0 for every channel and never fails |
| Calibration.PeriodAverageIsCalibratedMean | labjack_monitor.py:87-103 | with distinct channels and at least one read, channel j logs (mean of the j-th values) · slope + offset |
| Calibration.SteadySignal | labjack_monitor.py:101 | a constant input v is logged as v · slope + offset |
| LogFiles.AtMostOneFileOpen | labjack_monitor.py:69-80 | in every prefix of a well-formed event log, at most one file is open and none is closed more often than opened |
| LogFiles.SwitchEvents | labjack_monitor.py:69-79 | a switch writes the header if and only if the file did not exist |
| LogFiles.RowCountAppend | labjack_monitor.py:108 | the rows written by two stretches of file events add up |
| LogFiles.SwitchWritesNoRow | labjack_monitor.py:69-80 | neither closing a file nor a rotation writes a data row; the header is not a row |
| LogFiles.CloseLeavesNothingOpen | labjack_monitor.py:125-127 | closing the current handle leaves no file open |
| LogFiles.DataRows | labjack_monitor.py:108 | the data rows picked out of an event sequence number exactly the rows it writes, and each is a row write |
| LogFiles.SwitchOpensOnlyNewFile | labjack_monitor.py:69-80 | a close opens nothing; a rotation opens exactly the new file; neither writes a data row |
| LogFiles.SwitchContents | labjack_monitor.py:71-80 | replaying a rotation on the files leaves them as they were, except that a missing file is created holding just the header |
| LogFiles.SwitchLeavesNewFileOpen | labjack_monitor.py:69-80 | a rotation (close the previous file, open the new one, maybe write the header) keeps the event log well formed and leaves exactly the new file open |
| Acquisition.LoggedRowLayout | labjack_monitor.py:106-107 | a logged row reads back as the target timestamp followed by the formatted calibrated values in channel order, as many fields as the header has (with no channels, the timestamp and one empty field) |
| Acquisition.OpenErrorOnlyWhenOpenFails | labjack_monitor.py:69-75 | a period stops on an open error exactly when it has to switch files and the open fails |
| Acquisition.PeriodRows | labjack_monitor.py:69-108 | a period adds exactly its one row to the rows written; its rotation check adds none |
| Acquisition.PeriodOpens | labjack_monitor.py:69-75 | a period opens a file only when it rotates, and then exactly the new one |
| Acquisition.PeriodReplay | labjack_monitor.py:69-109 | after a period the files are still the initial files with every event replayed on them |
| Acquisition.RowsWritten | labjack_monitor.py:106-108 | the rows of n completed periods are exactly one per period, in order, each to the file named after its own date |
| Acquisition.OneRowPerPeriod | labjack_monitor.py:84-108 | in a run, row k is logged to period k's dated file and is the row that period's reads, calibration and target give |
| Acquisition.NoRowAfterStop | labjack_monitor.py:63-108 | the period that stops writes no row, so a run's rows are those of its completed periods |
| Acquisition.OpensOnRotation | labjack_monitor.py:69-75 | a run opens a file exactly at the periods that meet the rotation guard (the first one, and every date change), in order |
| Acquisition.SameDateOneFile | labjack_monitor.py:64-69 | while the date does not change, a run opens one log file, at its first period, and never reopens it |
| Acquisition.DiskIsReplay | labjack_monitor.py:71-109 | after the completed periods each file holds its old contents, or the header when it was new, followed by its rows: the initial files with every event replayed |
| Acquisition.ExitDiskIsReplay | labjack_monitor.py:63-109 | the files when the loop ends are still the initial files with every event replayed |
| Acquisition.InterruptDuringAlignmentRaises | labjack_monitor.py:48-56 | an interrupt during the alignment sleep makes the clean-up raise; one after it does not |
| Acquisition.Monitor.constructor | labjack_monitor.py:32-41 | the set-up computes the labels and the start-up file name, and nothing is open yet |
| Acquisition.Monitor.SwitchLog | labjack_monitor.py:69-79 | the previous file is closed before the new one is opened; the header is written only to a new file; a failed open leaves nothing open |
| Acquisition.Monitor.OpenLog | labjack_monitor.py:73-79 | opening for append creates the file holding just the header if it was missing, and leaves an existing file's contents as they were |
| Acquisition.Monitor.WriteRow | labjack_monitor.py:108-109 | a row write appends the row to the open file and nothing else; a failed write changes nothing |
| Acquisition.Monitor.CloseLog | labjack_monitor.py:125-127 | after the clean-up no file is open, a handle that is already closed is not closed again, and no row is written |
| Acquisition.Monitor.RotateIfNeeded | labjack_monitor.py:64-80 | the log switches exactly when no file is open or the dated name changed; afterwards the open file is the current dated one; a failed open leaves the new name set, the previous file closed, nothing open and the disk unchanged; no row is written |
| Acquisition.Monitor.AveragePeriod | labjack_monitor.py:87-103 | a fresh window over the period's reads; the calibrated averages are those of exactly the reads taken before the window end |
| Acquisition.Monitor.Record | labjack_monitor.py:108-119 | a written row advances the cursor by exactly one period and yields the clamped sleep to the new target; a failed write changes nothing |
| Acquisition.Monitor.Period | labjack_monitor.py:84-119 | a period ends as its reads, calibration and write dictate; on success the row stamped with the target is appended and the cursor advances; on failure nothing changes |
| Acquisition.Monitor.Cycle | labjack_monitor.py:63-119 | one pass of the loop: the rotation, then the period; on success the events are the rotation followed by the row, and the file holds its old contents (or the header) followed by the row; on a failed open only the previous file is closed; on any later stop only the rotation happened and no row is written |
| Acquisition.Monitor.Step | labjack_monitor.py:63-119 | period k of a run ends as the independent `CycleEnd` says for its inputs, its target first + k·P, and a rotation exactly when it is the first period or the date changed; when it continues the events and files are the run's trace one period further (the rotation only when the guard holds, then exactly that period's row); when it stops they are the trace at the exit, and no row is written |
| Acquisition.Monitor.Periods | labjack_monitor.py:63-119 | the periods run in order: every completed one continued, the first that did not gives the stop reason, and an exhausted input ends as a user interrupt; the events and files are exactly the run's trace up to that exit, and the file left open is the exit file |
| Acquisition.Monitor.Run | labjack_monitor.py:48-127 | the wait is the alignment wait; periods 0..n-1 continued and period n (if supplied) stopped with the returned reason; the events are the run's trace to the exit followed by closing the exit file, and the files are the trace's files; the `finally` clause as written raises exactly when the alignment was interrupted, and then nothing was written |

## Left out

- Device I/O: connecting to the LabJack, the retry loop, `ljm.eNames` and `ljm.close` are not modelled. A batched read is an environment input that is either a list of values or a failure.
- Configuration loading: reading the JSON file, `argparse` and the defaults for `project_name`, `sampling_rate` and `averaging_period` are outside the model. The configuration arrives already parsed.
- Clock and time zone: `datetime.now()` and `strftime` are environment inputs. `astimezone(local_tz).isoformat()` is an opaque function of the target instant.
- Formatting: `f"{x:.6f}"` is an opaque function from reals to strings. Averages are exact reals, so floating-point rounding is not modelled.
- Sampling rate: the `time.sleep(1.0 / sampling_rate)` between reads is not modelled. Only the clock reading at the next loop guard matters, and it is an input.
- Timing.AlignmentWait: requires a period of at least one second. With a period of 0 the source raises `ZeroDivisionError` at line 52. With a negative period Python's floored modulo puts the wait in `(P, 0]`: it is negative, and `time.sleep` raises `ValueError` at line 54, unless the seconds reading is an exact multiple of `|P|`, when the wait is zero and the loop runs with a target that moves back by `|P|` each period. Either exception reaches the `finally` clause with `log_file` still unbound, which is the defect under "## Findings". Neither case is modelled.
- Acquisition.Monitor.Run: the loop runs for as many periods as the environment supplies. When the supplied periods run out, the run is treated as interrupted by the user.
- Sampling.Collect: a tick sequence that runs out before the clock reaches the window end is treated as the window elapsing.
- Interrupts: they are modelled only during the alignment sleep and between passes of the sampling loop. An interrupt during a write, a sleep between periods or the rotation is not modelled separately.
- Acquisition.Monitor.OpenLog: writing the header is assumed to succeed, and buffering before `flush()` is not modelled. Only the data-row write can fail.
- The file system is only the set of existing names and the append-only contents of files. Permissions, the race between `os.path.exists` and `open`, and concurrent writers are not modelled.
- Console output (`print`) is left out.

## Findings

| source | as written | input that shows it | evidently intended | confidence | as-written member | corrected member |
|---|---|---|---|---|---|---|
| labjack_monitor.py:48-56 | `log_file = None` is assigned inside the `try`, after the alignment sleep, so the `finally` clause at lines 125-127 can read an unbound `log_file` | Ctrl-C during the alignment sleep at line 54: `KeyboardInterrupt` is caught, then `if log_file:` raises `UnboundLocalError` (an averaging period of 0, or in general a negative one, gets there the same way) | initialise `log_file` before the `try`, so the clean-up closes nothing and the run ends quietly | not executed | Acquisition.FinallyAsWritten | Acquisition.Monitor.Run |
