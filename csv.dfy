/** The CSV download text of the public pages:
    `"data:text/csv;charset=utf-8," + [header, ...rows].map(e => e.join(",")).join("\n")`
    where row `idx` is `[idx + 1, ...fields]`. */
module Csv {
  import opened Text
  import opened Wrappers

  const DataUriPrefix: string := "data:text/csv;charset=utf-8,"

  /** The numbered lines `start, start + 1, ...` of the body. */
  function NumberedLines(rows: seq<seq<string>>, start: nat): (ls: seq<string>)
    ensures |ls| == |rows|
    ensures forall i :: 0 <= i < |rows| ==> ls[i] == Join([NatToString(start + i)] + rows[i], ",")
  {
    if rows == [] then []
    else [Join([NatToString(start)] + rows[0], ",")] + NumberedLines(rows[1..], start + 1)
  }

  /** The lines of the file: the header, then row i (1-based) numbered i. */
  function Lines(header: seq<string>, rows: seq<seq<string>>): (ls: seq<string>)
    ensures |ls| == |rows| + 1
    ensures ls[0] == Join(header, ",")
    ensures forall i :: 1 <= i <= |rows| ==> ls[i] == Join([NatToString(i)] + rows[i - 1], ",")
  {
    [Join(header, ",")] + NumberedLines(rows, 1)
  }

  function Content(header: seq<string>, rows: seq<seq<string>>): string {
    DataUriPrefix + Join(Lines(header, rows), "\n")
  }

  /** Every field of every row, and every header cell, is free of `c`. */
  predicate CellsFree(header: seq<string>, rows: seq<seq<string>>, c: char) {
    && (forall k :: 0 <= k < |header| ==> Free(header[k], c))
    && (forall i, k :: 0 <= i < |rows| && 0 <= k < |rows[i]| ==> Free(rows[i][k], c))
  }

  lemma {:induction false} JoinFree(parts: seq<string>, sep: string, c: char)
    requires forall k :: 0 <= k < |parts| ==> Free(parts[k], c)
    requires Free(sep, c)
    ensures Free(Join(parts, sep), c)
  {
    if |parts| > 1 {
      JoinFree(parts[1..], sep, c);
    }
  }

  /** Row numbers are digits only, so a line break never comes from them. */
  lemma NumberFree(i: nat, c: char)
    requires !IsDigit(c)
    ensures Free(NatToString(i), c)
  {
  }

  /** The text starts with the data-URI prefix followed by the header line. */
  lemma {:induction false} ContentStartsWithHeader(header: seq<string>, rows: seq<seq<string>>)
    ensures var h := DataUriPrefix + Join(header, ",");
      |h| <= |Content(header, rows)| && Content(header, rows)[..|h|] == h
  {
    var ls := Lines(header, rows);
    JoinStartsWithFirst(ls, "\n");
    var body := Join(ls, "\n");
    assert Content(header, rows) == DataUriPrefix + body;
    assert (DataUriPrefix + body)[..|DataUriPrefix| + |ls[0]|] == DataUriPrefix + body[..|ls[0]|];
  }

  /** When no cell holds a line break, neither does any line. */
  lemma LinesFree(header: seq<string>, rows: seq<seq<string>>)
    requires CellsFree(header, rows, '\n')
    ensures forall k :: 0 <= k < |Lines(header, rows)| ==> Free(Lines(header, rows)[k], '\n')
  {
    var ls := Lines(header, rows);
    forall k | 0 <= k < |ls| ensures Free(ls[k], '\n') {
      if k == 0 {
        JoinFree(header, ",", '\n');
      } else {
        LineFree(rows[k - 1], k);
      }
    }
  }

  lemma LineFree(row: seq<string>, i: nat)
    requires forall k :: 0 <= k < |row| ==> Free(row[k], '\n')
    ensures Free(Join([NatToString(i)] + row, ","), '\n')
  {
    NumberedCellsFree(row, i, '\n');
    JoinFree([NatToString(i)] + row, ",", '\n');
  }

  lemma NumberedCellsFree(row: seq<string>, i: nat, c: char)
    requires !IsDigit(c)
    requires forall k :: 0 <= k < |row| ==> Free(row[k], c)
    ensures forall m :: 0 <= m < |[NatToString(i)] + row| ==> Free(([NatToString(i)] + row)[m], c)
  {
    var cells := [NatToString(i)] + row;
    NumberFree(i, c);
    forall m | 0 <= m < |cells| ensures Free(cells[m], c) {
      if m > 0 {
        assert cells[m] == row[m - 1];
      }
    }
  }

  /** When no cell holds a line break, cutting the body at line breaks gives
      exactly the header line and one line per row: `|rows| + 1` lines. */
  lemma ContentLines(header: seq<string>, rows: seq<seq<string>>)
    requires CellsFree(header, rows, '\n')
    ensures |DataUriPrefix| <= |Content(header, rows)|
    ensures Split(Content(header, rows)[|DataUriPrefix|..], '\n') == Lines(header, rows)
    ensures |Split(Content(header, rows)[|DataUriPrefix|..], '\n')| == |rows| + 1
  {
    var ls := Lines(header, rows);
    LinesFree(header, rows);
    SplitJoin(ls, '\n');
    assert Content(header, rows)[|DataUriPrefix|..] == Join(ls, "\n");
  }

  /** The rows of a table of items: one list of cells per item, in order. */
  function Table<T>(items: seq<T>, fields: T -> seq<string>): (rows: seq<seq<string>>)
    ensures |rows| == |items|
    ensures forall i :: 0 <= i < |items| ==> rows[i] == fields(items[i])
  {
    seq(|items|, i requires 0 <= i < |items| => fields(items[i]))
  }

  /** No field of any item contains `c`. */
  predicate ItemsFree<T>(items: seq<T>, fields: T -> seq<string>, c: char) {
    forall i, k :: 0 <= i < |items| && 0 <= k < |fields(items[i])| ==> Free(fields(items[i])[k], c)
  }

  /** `downloadCSV`'s text for a list of items: the data-URI prefix and the
      header line come first; when neither the header nor any field holds a
      line break, cutting the rest at line breaks gives back exactly the
      header line and one line per item. */
  function TableContent<T>(header: seq<string>, items: seq<T>, fields: T -> seq<string>): (t: string)
    ensures var h := DataUriPrefix + Join(header, ",");
      |h| <= |t| && t[..|h|] == h
    ensures (forall k :: 0 <= k < |header| ==> Free(header[k], '\n')) && ItemsFree(items, fields, '\n') ==>
      && Split(t[|DataUriPrefix|..], '\n') == Lines(header, Table(items, fields))
      && |Split(t[|DataUriPrefix|..], '\n')| == |items| + 1
  {
    var rows := Table(items, fields);
    ContentStartsWithHeader(header, rows);
    if (forall k :: 0 <= k < |header| ==> Free(header[k], '\n')) && ItemsFree(items, fields, '\n') then
      ContentLines(header, rows);
      Content(header, rows)
    else
      Content(header, rows)
  }

  /** When no cell holds a comma, cutting line i (1-based) at commas gives its
      row number, which reads back as i, followed by that row's cells. */
  lemma {:induction false} RowCells(header: seq<string>, rows: seq<seq<string>>, i: nat)
    requires 1 <= i <= |rows|
    requires forall cell :: cell in rows[i - 1] ==> Free(cell, ',')
    ensures var cells := Split(Lines(header, rows)[i], ',');
      cells == [NatToString(i)] + rows[i - 1] && ParseInt(cells[0]) == Some(i)
  {
    var cells := [NatToString(i)] + rows[i - 1];
    NumberedCellsFree(rows[i - 1], i, ',');
    SplitJoin(cells, ',');
    ParseIntOfNatToString(i);
  }
}
