/** The public legislation page (src/pages/Legislation.jsx): the year
    options, the search and filters, and the CSV download text. The year of a
    bill (`new Date(tanggal).getFullYear()`) is taken as the function `yearOf`. */
module Legislation {
  import opened Text
  import opened Wrappers
  import opened Seqs
  import opened Records
  import Csv

  function YearsOf(items: seq<Law>, yearOf: Law -> nat): (r: seq<nat>)
    ensures |r| == |items| && forall i :: 0 <= i < |items| ==> r[i] == yearOf(items[i])
  {
    seq(|items|, i requires 0 <= i < |items| => yearOf(items[i]))
  }

  /** `(a, b) => b - a` keeps `a` in front of `b` exactly when `a >= b`. */
  function Descending(): (nat, nat) -> bool {
    (a: nat, b: nat) => a >= b
  }

  /** `years`: the year of every bill, each once, newest first. */
  function YearOptions(items: seq<Law>, yearOf: Law -> nat): (r: seq<nat>)
    ensures forall y :: y in r <==> y in YearsOf(items, yearOf)
    ensures forall i, j :: 0 <= i < j < |r| ==> r[i] > r[j]
  {
    var d := Distinct(YearsOf(items, yearOf));
    var r := SortBy(d, Descending());
    SortBySorted(d, Descending());
    NoDupPermutation(d, r);
    assert forall y :: y in r <==> y in multiset(d);
    r
  }

  /** A bill is listed when its title contains the search text, ignoring
      case, its status is the chosen one (or "All"), and its year is the one
      `parseInt` reads from the chosen year (or "All"). */
  predicate Matches(item: Law, yearOf: Law -> nat, searchTitle: string, filterStatus: string, filterYear: string) {
    && IncludesIgnoreCase(item.judul, searchTitle)
    && (filterStatus == All || item.status == filterStatus)
    && (filterYear == All || ParseInt(filterYear) == Some(yearOf(item)))
  }

  /** `filteredData`: the matching bills, in fixture order. */
  function FilteredData(items: seq<Law>, yearOf: Law -> nat, searchTitle: string, filterStatus: string, filterYear: string): (r: seq<Law>)
    ensures IsSubsequence(r, items)
    ensures forall it :: it in r <==> it in items && Matches(it, yearOf, searchTitle, filterStatus, filterYear)
    ensures forall it :: multiset(r)[it] == if Matches(it, yearOf, searchTitle, filterStatus, filterYear) then multiset(items)[it] else 0
  {
    Filter(it => Matches(it, yearOf, searchTitle, filterStatus, filterYear), items)
  }

  /** With an empty search and both filters on "All" every bill is listed. */
  lemma NoFilterKeepsAll(items: seq<Law>, yearOf: Law -> nat)
    ensures FilteredData(items, yearOf, "", All, All) == items
  {
    forall k | 0 <= k < |items| ensures Matches(items[k], yearOf, "", All, All) {
      EmptyQueryMatches(items[k].judul);
    }
    FilterAll(it => Matches(it, yearOf, "", All, All), items);
  }

  /** Choosing a year option (its decimal text, as the select hands it over)
      lists, among the bills that pass the other two filters, exactly those of
      that year. */
  lemma YearOptionSelectsYear(items: seq<Law>, yearOf: Law -> nat, searchTitle: string, filterStatus: string, y: nat)
    ensures forall it :: it in FilteredData(items, yearOf, searchTitle, filterStatus, NatToString(y)) <==>
      it in FilteredData(items, yearOf, searchTitle, filterStatus, All) && yearOf(it) == y
  {
    ParseIntOfNatToString(y);
    assert NatToString(y) != All by {
      assert IsDigit(NatToString(y)[0]);
    }
  }

  const CsvHeader: seq<string> := ["No", "Judul RUU", "Status", "Tanggal", "Komisi"]

  /** The cells of a bill's row after its number: title, status, date,
      commission. */
  function Fields(law: Law): seq<string> {
    [law.judul, law.status, law.tanggal, law.komisi]
  }

  function CsvRows(fd: seq<Law>): (rows: seq<seq<string>>)
    ensures |rows| == |fd|
    ensures forall i :: 0 <= i < |fd| ==> rows[i] == [fd[i].judul, fd[i].status, fd[i].tanggal, fd[i].komisi]
  {
    Csv.Table(fd, Fields)
  }

  /** The text `downloadCSV` hands to the browser (before `encodeURI`). */
  function DownloadCsv(fd: seq<Law>): string {
    Csv.TableContent(CsvHeader, fd, Fields)
  }

  /** The header line reads "No,Judul RUU,Status,Tanggal,Komisi". */
  lemma HeaderLine()
    ensures Join(CsvHeader, ",") == "No" + "," + "Judul RUU" + "," + "Status" + "," + "Tanggal" + "," + "Komisi"
  {
    assert CsvHeader[1..][1..][1..] == ["Tanggal", "Komisi"];
  }
}
