/**
 * The text the monitor writes: column labels, the dated log file name, the
 * header line and the data lines of the CSV log.
 */
module Csv {
  import opened Wrappers

  /** `sep.join(cells)`: the cells with one separator between neighbours. */
  function Join(cells: seq<string>, sep: char): string
  {
    if |cells| == 0 then ""
    else if |cells| == 1 then cells[0]
    else cells[0] + [sep] + Join(cells[1..], sep)
  }

  /** Cuts `s` at every separator; the inverse of `Join` for separator-free cells. */
  function Split(s: string, sep: char): (r: seq<string>)
    ensures |r| >= 1
  {
    if |s| == 0 then [""]
    else
      var rest := Split(s[1..], sep);
      if s[0] == sep then [""] + rest else [[s[0]] + rest[0]] + rest[1..]
  }

  lemma {:induction false} SplitWithoutSeparator(a: string, sep: char)
    requires sep !in a
    ensures Split(a, sep) == [a]
  {
    if |a| > 0 {
      SplitWithoutSeparator(a[1..], sep);
      assert [a[0]] + a[1..] == a;
    }
  }

  lemma {:induction false} SplitAtFirstSeparator(a: string, sep: char, rest: string)
    requires sep !in a
    ensures Split(a + [sep] + rest, sep) == [a] + Split(rest, sep)
  {
    if |a| == 0 {
      assert a + [sep] + rest == [sep] + rest;
      assert ([sep] + rest)[1..] == rest;
    } else {
      SplitAtFirstSeparator(a[1..], sep, rest);
      assert (a + [sep] + rest)[1..] == a[1..] + [sep] + rest;
      assert [a[0]] + a[1..] == a;
    }
  }

  /** Cells that contain no separator come back unchanged from their joined line. */
  lemma {:induction false} SplitJoin(cells: seq<string>, sep: char)
    requires |cells| >= 1
    requires forall i :: 0 <= i < |cells| ==> sep !in cells[i]
    ensures Split(Join(cells, sep), sep) == cells
  {
    if |cells| == 1 {
      SplitWithoutSeparator(cells[0], sep);
    } else {
      SplitJoin(cells[1..], sep);
      SplitAtFirstSeparator(cells[0], sep, Join(cells[1..], sep));
      assert [cells[0]] + cells[1..] == cells;
    }
  }

  /**
   * `[labels.get(ch, ch) for ch in channels]`: one label per channel, in
   * channel order, falling back to the channel's own name.
   */
  function FieldLabels(channels: seq<string>, labels: map<string, string>): (r: seq<string>)
    ensures |r| == |channels|
    ensures forall i :: 0 <= i < |channels| ==>
              r[i] == if channels[i] in labels then labels[channels[i]] else channels[i]
  {
    if |channels| == 0 then []
    else
      var ch := channels[|channels| - 1];
      FieldLabels(channels[..|channels| - 1], labels) + [if ch in labels then labels[ch] else ch]
  }

  /** `f"{project_name}_{current_date}.csv"`. */
  function LogFilename(project: string, date: string): string
  {
    project + "_" + date + ".csv"
  }

  /** Recovers the date from a log file name of the given project, if it is one. */
  function DateOfLogFilename(project: string, name: string): Option<string>
  {
    if |name| >= |project| + 5 && name[..|project|] == project && name[|project|] == '_'
       && name[|name| - 4..] == ".csv"
    then Some(name[|project| + 1..|name| - 4])
    else None
  }

  lemma LogFilenameRoundTrip(project: string, date: string)
    ensures DateOfLogFilename(project, LogFilename(project, date)) == Some(date)
  {
    var name := LogFilename(project, date);
    assert name[..|project|] == project;
    assert name[|project| + 1..|name| - 4] == date;
    assert name[|name| - 4..] == ".csv";
  }

  /**
   * For one project the file name changes exactly when the date does, so the
   * name comparison that drives rotation is a date comparison.
   */
  lemma {:induction false} SameLogFilenameIffSameDate(project: string, d1: string, d2: string)
    ensures LogFilename(project, d1) == LogFilename(project, d2) <==> d1 == d2
  {
    if LogFilename(project, d1) == LogFilename(project, d2) {
      LogFilenameRoundTrip(project, d1);
      LogFilenameRoundTrip(project, d2);
    }
  }

  /** A CSV line: the first cell, a comma, the remaining cells joined, a newline. */
  function Line(first: string, rest: seq<string>): string
  {
    first + "," + Join(rest, ',') + "\n"
  }

  /** `"time," + ",".join(field_labels) + "\n"`. */
  function Header(fieldLabels: seq<string>): string
  {
    Line("time", fieldLabels)
  }

  /** `f"{start_timestamp},{values}\n"` with `values` the joined cells. */
  function Row(timestamp: string, cells: seq<string>): string
  {
    Line(timestamp, cells)
  }

  /** The comma-separated fields of a line, without its newline. */
  function Fields(line: string): seq<string>
  {
    if |line| > 0 && line[|line| - 1] == '\n' then Split(line[..|line| - 1], ',') else Split(line, ',')
  }

  ghost predicate CommaFree(cells: seq<string>)
  {
    forall i :: 0 <= i < |cells| ==> ',' !in cells[i]
  }

  /**
   * A line reads back as its first cell followed by its other cells; with no
   * other cells (no channels) the line still ends in an empty field.
   */
  lemma {:induction false} LineFields(first: string, rest: seq<string>)
    requires ',' !in first && CommaFree(rest)
    ensures Fields(Line(first, rest)) == [first] + (if rest == [] then [""] else rest)
  {
    var line := Line(first, rest);
    assert line[..|line| - 1] == first + [','] + Join(rest, ',');
    SplitAtFirstSeparator(first, ',', Join(rest, ','));
    if rest == [] {
      assert Split("", ',') == [""];
    } else {
      SplitJoin(rest, ',');
    }
  }

  /**
   * The header and every data row of the same channel list have the same
   * number of fields, so each value sits under its channel's label.
   */
  lemma {:induction false} HeaderAndRowAlign(fieldLabels: seq<string>, timestamp: string, cells: seq<string>)
    requires |fieldLabels| == |cells|
    requires ',' !in timestamp && CommaFree(fieldLabels) && CommaFree(cells)
    ensures |Fields(Header(fieldLabels))| == |Fields(Row(timestamp, cells))| == 1 + (if cells == [] then 1 else |cells|)
    ensures Fields(Header(fieldLabels))[0] == "time" && Fields(Row(timestamp, cells))[0] == timestamp
    ensures forall i :: 1 <= i <= |cells| ==>
              Fields(Header(fieldLabels))[i] == fieldLabels[i - 1] && Fields(Row(timestamp, cells))[i] == cells[i - 1]
  {
    LineFields("time", fieldLabels);
    LineFields(timestamp, cells);
  }
}
