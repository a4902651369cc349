/** The admin bill list (src/pages/ManageLegislation.jsx): search, a modal
    form that adds or edits a bill, deletion, and the colour of each status
    badge. */
module ManageLegislation {
  import opened Wrappers
  import opened Text
  import opened Seqs
  import opened Records

  /** The four fields of the modal form. */
  datatype LawForm = LawForm(judul: string, status: string, tanggal: string, komisi: string)

  /** The status a new bill starts with. */
  const DefaultStatus: string := "Dalam Pembahasan"

  /** The form of a new bill. */
  const NewForm: LawForm := LawForm("", DefaultStatus, "", "")

  /** The badge classes of a status the page does not know. */
  const FallbackColor: string := "bg-gray-200 text-gray-800"

  /** `statusColors[status] || fallback`: the classes of the four known
      statuses, the grey fallback for any other. */
  function StatusColor(status: string): (c: string)
    ensures status == "Disahkan" ==> c == "bg-green-200 text-green-800"
    ensures status == "Dalam Pembahasan" ==> c == "bg-yellow-200 text-yellow-800"
    ensures status == "Ditolak" ==> c == "bg-red-200 text-red-800"
    ensures status == "Dalam Proses" ==> c == "bg-blue-200 text-blue-800"
    ensures status !in {"Disahkan", "Dalam Pembahasan", "Ditolak", "Dalam Proses"} ==> c == FallbackColor
  {
    if status == "Disahkan" then "bg-green-200 text-green-800"
    else if status == "Dalam Pembahasan" then "bg-yellow-200 text-yellow-800"
    else if status == "Ditolak" then "bg-red-200 text-red-800"
    else if status == "Dalam Proses" then "bg-blue-200 text-blue-800"
    else FallbackColor
  }

  /** Every status the form offers gets its own colour, never the fallback. */
  lemma FormStatusesHaveColors(status: string)
    requires status in {"Dalam Pembahasan", "Disahkan", "Ditolak", "Dalam Proses"}
    ensures StatusColor(status) != FallbackColor
  {
  }

  /** The text the search runs over: title, status, date and commission
      separated by spaces. */
  function SearchText(law: Law): string {
    Join([law.judul, law.status, law.tanggal, law.komisi], " ")
  }

  /** `filteredLaws`: the bills whose search text contains the query,
      ignoring case, in list order. */
  function FilteredLaws(laws: seq<Law>, search: string): (r: seq<Law>)
    ensures IsSubsequence(r, laws)
    ensures forall law :: law in r <==> law in laws && IncludesIgnoreCase(SearchText(law), search)
    ensures forall law :: multiset(r)[law] == if IncludesIgnoreCase(SearchText(law), search) then multiset(laws)[law] else 0
  {
    Filter((law: Law) => IncludesIgnoreCase(SearchText(law), search), laws)
  }

  /** The search text starts with the title. */
  lemma SearchTextAround(law: Law)
    ensures SearchText(law) == "" + law.judul + (" " + Join([law.status, law.tanggal, law.komisi], " "))
  {
    var parts := [law.judul, law.status, law.tanggal, law.komisi];
    assert parts[1..] == [law.status, law.tanggal, law.komisi];
  }

  /** A bill whose title contains the query is listed. */
  lemma TitleMatchIsListed(laws: seq<Law>, search: string, law: Law)
    requires law in laws && IncludesIgnoreCase(law.judul, search)
    ensures law in FilteredLaws(laws, search)
  {
    SearchTextAround(law);
    IncludesIgnoreCaseInMiddle("", law.judul, " " + Join([law.status, law.tanggal, law.komisi], " "), search);
  }

  /** An empty search lists every bill. */
  lemma EmptySearchKeepsAll(laws: seq<Law>)
    ensures FilteredLaws(laws, "") == laws
  {
    forall k | 0 <= k < |laws| ensures IncludesIgnoreCase(SearchText(laws[k]), "") {
      EmptyQueryMatches(SearchText(laws[k]));
    }
    FilterAll((law: Law) => IncludesIgnoreCase(SearchText(law), ""), laws);
  }

  /** The form filled from a bill. */
  function FormOf(law: Law): LawForm {
    LawForm(law.judul, law.status, law.tanggal, law.komisi)
  }

  /** The edit: every bill with that id takes the form's four fields and
      keeps its id; the others stay. */
  function EditLaws(laws: seq<Law>, id: int, f: LawForm): (r: seq<Law>)
    ensures |r| == |laws|
    ensures forall k :: 0 <= k < |laws| ==> r[k].id == laws[k].id
    ensures forall k :: 0 <= k < |laws| ==> r[k] == if laws[k].id == id then Law(id, f.judul, f.status, f.tanggal, f.komisi) else laws[k]
  {
    if laws == [] then []
    else [if laws[0].id == id then Law(id, f.judul, f.status, f.tanggal, f.komisi) else laws[0]] + EditLaws(laws[1..], id, f)
  }

  /** Saving a bill's own values back changes nothing. */
  lemma EditWithOwnValues(laws: seq<Law>, k: nat)
    requires k < |laws| && forall j :: 0 <= j < |laws| && laws[j].id == laws[k].id ==> laws[j] == laws[k]
    ensures EditLaws(laws, laws[k].id, FormOf(laws[k])) == laws
  {
    var r := EditLaws(laws, laws[k].id, FormOf(laws[k]));
    forall j | 0 <= j < |laws| ensures r[j] == laws[j] {
    }
  }

  /** The add: a bill with id one more than the list's length and the form's
      fields, put in front. */
  function AddLaw(laws: seq<Law>, f: LawForm): (r: seq<Law>)
    ensures |r| == |laws| + 1 && r[1..] == laws
    ensures r[0].id == |laws| + 1 && FormOf(r[0]) == f
  {
    [Law(|laws| + 1, f.judul, f.status, f.tanggal, f.komisi)] + laws
  }

  /** `handleDelete` once confirmed: exactly the bills with another id, in
      order. */
  function DeleteLaws(laws: seq<Law>, id: int): (r: seq<Law>)
    ensures IsSubsequence(r, laws)
    ensures forall law :: law in r <==> law in laws && law.id != id
    ensures forall law :: multiset(r)[law] == if law.id != id then multiset(laws)[law] else 0
  {
    Filter((law: Law) => law.id != id, laws)
  }

  class ManageLegislationPage {
    var laws: seq<Law>
    var search: string
    var isModalOpen: bool
    var editingLaw: Option<Law>
    var formData: LawForm

    constructor (fixture: seq<Law>)
      ensures laws == fixture && search == "" && !isModalOpen && editingLaw == None && formData == NewForm
    {
      laws := fixture;
      search := "";
      isModalOpen := false;
      editingLaw := None;
      formData := NewForm;
    }

    /** The bills the table lists. */
    function Shown(): seq<Law>
      reads this
    {
      FilteredLaws(laws, search)
    }

    /** `openModal`: the new-bill form, or the bill's four fields. */
    method OpenModal(law: Option<Law>)
      modifies this`editingLaw, this`formData, this`isModalOpen
      ensures editingLaw == law && isModalOpen
      ensures law.None? ==> formData == NewForm
      ensures law.Some? ==> formData == FormOf(law.value)
    {
      editingLaw := law;
      formData := if law.Some? then FormOf(law.value) else NewForm;
      isModalOpen := true;
    }

    /** `closeModal`. */
    method CloseModal()
      modifies this`isModalOpen, this`editingLaw
      ensures !isModalOpen && editingLaw == None
    {
      isModalOpen := false;
      editingLaw := None;
    }

    /** Any change of the form's fields. */
    method SetForm(f: LawForm)
      modifies this`formData
      ensures formData == f
    {
      formData := f;
    }

    method SetSearch(value: string)
      modifies this`search
      ensures search == value
    {
      search := value;
    }

    /** `handleSubmit`: edits the bill being edited or adds a new one, then
      closes the modal. */
    method HandleSubmit()
      modifies this`laws, this`isModalOpen, this`editingLaw
      ensures old(editingLaw).Some? ==> laws == EditLaws(old(laws), old(editingLaw).value.id, formData)
      ensures old(editingLaw).None? ==> laws == AddLaw(old(laws), formData)
      ensures !isModalOpen && editingLaw == None
    {
      if editingLaw.Some? {
        laws := EditLaws(laws, editingLaw.value.id, formData);
      } else {
        laws := AddLaw(laws, formData);
      }
      CloseModal();
    }

    /** `handleDelete`: once confirmed, every bill with that id goes. */
    method HandleDelete(id: int, confirmed: bool)
      modifies this`laws
      ensures confirmed ==> laws == DeleteLaws(old(laws), id)
      ensures !confirmed ==> laws == old(laws)
    {
      if confirmed {
        laws := DeleteLaws(laws, id);
      }
    }
  }
}
