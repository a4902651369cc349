/** The public members page (src/pages/Members.jsx): search and filters, the
    leaders/members split, the filter options and the CSV download text. */
module Members {
  import opened Text
  import opened Wrappers
  import opened Seqs
  import opened Records
  import Csv

  /** A member is listed when its name contains the search text, ignoring
      case, and it meets the faction and position filters. */
  predicate Matches(m: Member, search: string, filterFraksi: string, filterJabatan: string) {
    && IncludesIgnoreCase(m.nama, search)
    && (filterFraksi == All || m.fraksi == filterFraksi)
    && (filterJabatan == All || m.jabatan == filterJabatan)
  }

  /** `filteredMembers`: the matching members, in fixture order. */
  function FilteredMembers(ms: seq<Member>, search: string, filterFraksi: string, filterJabatan: string): (r: seq<Member>)
    ensures IsSubsequence(r, ms)
    ensures forall m :: m in r <==> m in ms && Matches(m, search, filterFraksi, filterJabatan)
    ensures forall m :: multiset(r)[m] == if Matches(m, search, filterFraksi, filterJabatan) then multiset(ms)[m] else 0
  {
    Filter(m => Matches(m, search, filterFraksi, filterJabatan), ms)
  }

  /** With an empty search and both filters on "All" every member is listed. */
  lemma NoFilterKeepsAll(ms: seq<Member>)
    ensures FilteredMembers(ms, "", All, All) == ms
  {
    forall k | 0 <= k < |ms| ensures Matches(ms[k], "", All, All) {
      EmptyQueryMatches(ms[k].nama);
    }
    FilterAll(m => Matches(m, "", All, All), ms);
  }

  /** `pimpinan`: the listed members who are leaders, in order. */
  function Pimpinan(fm: seq<Member>): (r: seq<Member>)
    ensures IsSubsequence(r, fm)
    ensures forall m :: m in r <==> m in fm && m.isPimpinan
    ensures forall m :: multiset(r)[m] == if m.isPimpinan then multiset(fm)[m] else 0
  {
    Filter((m: Member) => m.isPimpinan, fm)
  }

  /** `anggota`: the listed members who are not leaders, in order. */
  function Anggota(fm: seq<Member>): (r: seq<Member>)
    ensures IsSubsequence(r, fm)
    ensures forall m :: m in r <==> m in fm && !m.isPimpinan
    ensures forall m :: multiset(r)[m] == if !m.isPimpinan then multiset(fm)[m] else 0
  {
    Filter((m: Member) => !m.isPimpinan, fm)
  }

  /** The two sections split the listed members: together they hold each
      listed member exactly as often as the list does, and no member is in
      both. */
  lemma PimpinanAnggotaPartition(fm: seq<Member>)
    ensures multiset(Pimpinan(fm)) + multiset(Anggota(fm)) == multiset(fm)
    ensures |Pimpinan(fm)| + |Anggota(fm)| == |fm|
    ensures forall m :: !(m in Pimpinan(fm) && m in Anggota(fm))
  {
    FilterPartition((m: Member) => m.isPimpinan, (m: Member) => !m.isPimpinan, fm);
  }

  function Fraksis(ms: seq<Member>): (r: seq<string>)
    ensures |r| == |ms| && forall i :: 0 <= i < |ms| ==> r[i] == ms[i].fraksi
  {
    seq(|ms|, i requires 0 <= i < |ms| => ms[i].fraksi)
  }

  function Jabatans(ms: seq<Member>): (r: seq<string>)
    ensures |r| == |ms| && forall i :: 0 <= i < |ms| ==> r[i] == ms[i].jabatan
  {
    seq(|ms|, i requires 0 <= i < |ms| => ms[i].jabatan)
  }

  /** `fraksiOptions`: every faction of the fixture once, in the order of
      first appearance. */
  function FraksiOptions(ms: seq<Member>): (r: seq<string>)
    ensures NoDup(r)
    ensures forall f :: f in r <==> f in Fraksis(ms)
    ensures forall i, j :: 0 <= i < j < |r| ==> IndexOf(Fraksis(ms), r[i]) < IndexOf(Fraksis(ms), r[j])
  {
    Distinct(Fraksis(ms))
  }

  /** `jabatanOptions`: every position of the fixture once, in the order of
      first appearance. */
  function JabatanOptions(ms: seq<Member>): (r: seq<string>)
    ensures NoDup(r)
    ensures forall f :: f in r <==> f in Jabatans(ms)
    ensures forall i, j :: 0 <= i < j < |r| ==> IndexOf(Jabatans(ms), r[i]) < IndexOf(Jabatans(ms), r[j])
  {
    Distinct(Jabatans(ms))
  }

  const CsvHeader: seq<string> := ["No", "Nama", "Jabatan", "Fraksi"]

  /** The cells of a member's row after its number: name, position, faction. */
  function Fields(m: Member): seq<string> {
    [m.nama, m.jabatan, m.fraksi]
  }

  function CsvRows(fm: seq<Member>): (rows: seq<seq<string>>)
    ensures |rows| == |fm|
    ensures forall i :: 0 <= i < |fm| ==> rows[i] == [fm[i].nama, fm[i].jabatan, fm[i].fraksi]
  {
    Csv.Table(fm, Fields)
  }

  /** The text `downloadCSV` hands to the browser (before `encodeURI`). */
  function DownloadCsv(fm: seq<Member>): string {
    Csv.TableContent(CsvHeader, fm, Fields)
  }

  /** The header line reads "No,Nama,Jabatan,Fraksi". */
  lemma HeaderLine()
    ensures Join(CsvHeader, ",") == "No,Nama,Jabatan,Fraksi"
  {
  }
}
