/**
 * The log file handle and the file system as the monitor sees them: a Python
 * file object, the order of opens, closes and writes, and the rotation guard.
 */
module LogFiles {
  import opened Wrappers

  /** A file object: the file it was opened on and whether `close()` has run on it. */
  datatype Handle = Handle(name: string, closed: bool)

  /**
   * What the monitor does to the file system, in order.  `Appended` is the
   * header written to a new file, `Logged` a period's data row.
   */
  datatype FileEvent =
    | Opened(name: string)
    | Closed(name: string)
    | Appended(name: string, text: string)
    | Logged(name: string, row: string)

  /**
   * Replays a sequence of file events: the file open at the end (`Some(None)`
   * when none is), or `None` when the sequence opens a file while another is
   * open, or closes or writes a file that is not the open one.
   */
  function Replay(events: seq<FileEvent>): Option<Option<string>>
  {
    if |events| == 0 then Some(None)
    else
      var n := |events| - 1;
      match Replay(events[..n])
      case None => None
      case Some(open) =>
        match events[n]
        case Opened(name) => if open.None? then Some(Some(name)) else None
        case Closed(name) => if open == Some(name) then Some(None) else None
        case Appended(name, _) => if open == Some(name) then Some(open) else None
        case Logged(name, _) => if open == Some(name) then Some(open) else None
  }

  /** The number of data rows an event sequence writes. */
  function RowCount(events: seq<FileEvent>): nat
  {
    if |events| == 0 then 0
    else RowCount(events[..|events| - 1]) + (if events[|events| - 1].Logged? then 1 else 0)
  }

  /** Rows written by two stretches of events add up. */
  lemma {:induction false} RowCountAppend(a: seq<FileEvent>, b: seq<FileEvent>)
    ensures RowCount(a + b) == RowCount(a) + RowCount(b)
  {
    if |b| > 0 {
      var n := |b| - 1;
      assert (a + b)[..|a + b| - 1] == a + b[..n];
      RowCountAppend(a, b[..n]);
    } else {
      assert a + b == a;
    }
  }

  /** The data rows an event sequence writes, in order. */
  function DataRows(events: seq<FileEvent>): (r: seq<FileEvent>)
    ensures |r| == RowCount(events)
    ensures forall i :: 0 <= i < |r| ==> r[i].Logged?
  {
    if |events| == 0 then []
    else
      var n := |events| - 1;
      DataRows(events[..n]) + (if events[n].Logged? then [events[n]] else [])
  }

  lemma {:induction false} DataRowsAppend(a: seq<FileEvent>, b: seq<FileEvent>)
    ensures DataRows(a + b) == DataRows(a) + DataRows(b)
  {
    if |b| > 0 {
      var n := |b| - 1;
      assert (a + b)[..|a + b| - 1] == a + b[..n];
      DataRowsAppend(a, b[..n]);
    } else {
      assert a + b == a;
    }
  }

  /** The files an event sequence opens, in order. */
  function OpenedFiles(events: seq<FileEvent>): seq<string>
  {
    if |events| == 0 then []
    else
      var n := |events| - 1;
      OpenedFiles(events[..n]) + (if events[n].Opened? then [events[n].name] else [])
  }

  lemma {:induction false} OpenedFilesAppend(a: seq<FileEvent>, b: seq<FileEvent>)
    ensures OpenedFiles(a + b) == OpenedFiles(a) + OpenedFiles(b)
  {
    if |b| > 0 {
      var n := |b| - 1;
      assert (a + b)[..|a + b| - 1] == a + b[..n];
      OpenedFilesAppend(a, b[..n]);
    } else {
      assert a + b == a;
    }
  }

  /**
   * The file system after the events, replayed from `disk`: `open(name, 'a')`
   * creates an empty file when there is none, every write appends its text
   * to the file, and a close changes nothing.
   */
  function Contents(disk: map<string, string>, events: seq<FileEvent>): map<string, string>
  {
    if |events| == 0 then disk
    else
      var n := |events| - 1;
      var before := Contents(disk, events[..n]);
      match events[n]
      case Opened(name) => if name in before then before else before[name := ""]
      case Closed(_) => before
      case Appended(name, text) => before[name := (if name in before then before[name] else "") + text]
      case Logged(name, text) => before[name := (if name in before then before[name] else "") + text]
  }

  lemma {:induction false} ContentsAppend(disk: map<string, string>, a: seq<FileEvent>, b: seq<FileEvent>)
    ensures Contents(disk, a + b) == Contents(Contents(disk, a), b)
  {
    if |b| > 0 {
      var n := |b| - 1;
      assert (a + b)[..|a + b| - 1] == a + b[..n];
      ContentsAppend(disk, a, b[..n]);
    } else {
      assert a + b == a;
    }
  }

  /** Opens minus closes. */
  function OpenCount(events: seq<FileEvent>): int
  {
    if |events| == 0 then 0
    else
      var n := |events| - 1;
      OpenCount(events[..n]) + (if events[n].Opened? then 1 else if events[n].Closed? then -1 else 0)
  }

  lemma {:induction false} ReplayPrefix(events: seq<FileEvent>, k: nat)
    requires Replay(events).Some? && k <= |events|
    ensures Replay(events[..k]).Some?
  {
    if k < |events| {
      var n := |events| - 1;
      assert events[..n][..k] == events[..k];
      ReplayPrefix(events[..n], k);
    } else {
      assert events[..k] == events;
    }
  }

  lemma {:induction false} OpenCountMatchesReplay(events: seq<FileEvent>)
    requires Replay(events).Some?
    ensures OpenCount(events) == if Replay(events).value.Some? then 1 else 0
  {
    if |events| > 0 {
      OpenCountMatchesReplay(events[..|events| - 1]);
    }
  }

  /**
   * At most one file is open at any point of a well-formed event sequence:
   * every prefix has opened at most one file more than it closed, and never
   * closed more than it opened.
   */
  lemma {:induction false} AtMostOneFileOpen(events: seq<FileEvent>, k: nat)
    requires Replay(events).Some? && k <= |events|
    ensures 0 <= OpenCount(events[..k]) <= 1
  {
    ReplayPrefix(events, k);
    OpenCountMatchesReplay(events[..k]);
  }

  /** The file a handle holds open, if it has not been closed. */
  function OpenName(h: Option<Handle>): Option<string>
  {
    if h.Some? && !h.value.closed then Some(h.value.name) else None
  }

  /** `if log_file: log_file.close()`: closing a closed file object does nothing. */
  function CloseEvents(h: Option<Handle>): seq<FileEvent>
  {
    if h.Some? && !h.value.closed then [Closed(h.value.name)] else []
  }

  /** `log_file is None or new_log_filename != log_filename`. */
  function NeedsRotation(h: Option<Handle>, current: string, name: string): bool
  {
    h.None? || name != current
  }

  /**
   * A successful rotation to `name`: close the previous file, open the new
   * one, and write the header only if the file did not exist before.
   */
  function SwitchEvents(h: Option<Handle>, name: string, existed: bool, header: string): (r: seq<FileEvent>)
    ensures Appended(name, header) in r <==> !existed
  {
    CloseEvents(h) + [Opened(name)] + (if existed then [] else [Appended(name, header)])
  }

  /** Neither a close nor a switch writes a data row. */
  lemma SwitchWritesNoRow(h: Option<Handle>, name: string, existed: bool, header: string)
    ensures RowCount(CloseEvents(h)) == 0
    ensures RowCount(SwitchEvents(h, name, existed, header)) == 0
  {
    var closing := CloseEvents(h);
    var withOpen := closing + [Opened(name)];
    assert withOpen[..|closing|] == closing;
    if !existed {
      assert (withOpen + [Appended(name, header)])[..|withOpen|] == withOpen;
    }
  }

  /** A close opens nothing and logs nothing; a switch opens exactly the new file and logs no row. */
  lemma SwitchOpensOnlyNewFile(h: Option<Handle>, name: string, existed: bool, header: string)
    ensures DataRows(CloseEvents(h)) == [] && DataRows(SwitchEvents(h, name, existed, header)) == []
    ensures OpenedFiles(CloseEvents(h)) == [] && OpenedFiles(SwitchEvents(h, name, existed, header)) == [name]
  {
    var closing := CloseEvents(h);
    var withOpen := closing + [Opened(name)];
    assert withOpen[..|closing|] == closing;
    if !existed {
      assert (withOpen + [Appended(name, header)])[..|withOpen|] == withOpen;
    }
  }

  /**
   * A switch leaves every file as it was, except that a file that did not
   * exist is created holding just the header.
   */
  lemma SwitchContents(disk: map<string, string>, h: Option<Handle>, name: string, header: string)
    ensures Contents(disk, CloseEvents(h)) == disk
    ensures Contents(disk, SwitchEvents(h, name, name in disk, header))
            == if name in disk then disk else disk[name := header]
  {
    var closing := CloseEvents(h);
    var withOpen := closing + [Opened(name)];
    assert withOpen[..|closing|] == closing;
    if name !in disk {
      assert (withOpen + [Appended(name, header)])[..|withOpen|] == withOpen;
      assert "" + header == header;
    }
  }

  /** Closing the handle that is open leaves no file open. */
  lemma CloseLeavesNothingOpen(events: seq<FileEvent>, h: Option<Handle>)
    requires Replay(events) == Some(OpenName(h))
    ensures Replay(events + CloseEvents(h)) == Some(None)
  {
    if h.Some? && !h.value.closed {
      assert (events + CloseEvents(h))[..|events|] == events;
    } else {
      assert events + CloseEvents(h) == events;
    }
  }

  /**
   * A rotation keeps the event sequence well formed whatever was open before,
   * and leaves exactly the new file open.
   */
  lemma {:induction false} SwitchLeavesNewFileOpen(events: seq<FileEvent>, h: Option<Handle>, name: string,
                                                  existed: bool, header: string)
    requires Replay(events) == Some(OpenName(h))
    ensures Replay(events + SwitchEvents(h, name, existed, header)) == Some(Some(name))
  {
    CloseLeavesNothingOpen(events, h);
    var closed := events + CloseEvents(h);
    var withOpen := closed + [Opened(name)];
    assert withOpen[..|closed|] == closed;
    if existed {
      assert events + SwitchEvents(h, name, existed, header) == withOpen;
    } else {
      assert events + SwitchEvents(h, name, existed, header) == withOpen + [Appended(name, header)];
      assert (withOpen + [Appended(name, header)])[..|withOpen|] == withOpen;
    }
  }
}
