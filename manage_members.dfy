/** The admin member list (src/pages/ManageMembers.jsx): search, a modal form
    that adds or edits a member with a photo preview, and deletion. */
module ManageMembers {
  import opened Wrappers
  import opened Text
  import opened Seqs
  import opened Records

  /** The four text fields of the modal form. */
  datatype MemberForm = MemberForm(nama: string, jabatan: string, fraksi: string, dapil: string)

  const EmptyForm: MemberForm := MemberForm("", "", "", "")

  /** The picture shown when there is no photo. */
  const DefaultPhoto: string := "/potoDPR.png"

  /** The text the search runs over: name, fraksi and dapil separated by
      spaces. */
  function SearchText(m: Member): string {
    Join([m.nama, m.fraksi, m.dapil], " ")
  }

  /** `filteredMembers`: the members whose search text contains the query,
      ignoring case, in list order. */
  function FilteredMembers(ms: seq<Member>, search: string): (r: seq<Member>)
    ensures IsSubsequence(r, ms)
    ensures forall m :: m in r <==> m in ms && IncludesIgnoreCase(SearchText(m), search)
    ensures forall m :: multiset(r)[m] == if IncludesIgnoreCase(SearchText(m), search) then multiset(ms)[m] else 0
  {
    Filter((m: Member) => IncludesIgnoreCase(SearchText(m), search), ms)
  }

  /** The search text seen as each field with the text around it. */
  lemma SearchTextAround(m: Member)
    ensures SearchText(m) == "" + m.nama + (" " + m.fraksi + " " + m.dapil)
    ensures SearchText(m) == (m.nama + " ") + m.fraksi + (" " + m.dapil)
    ensures SearchText(m) == (m.nama + " " + m.fraksi + " ") + m.dapil + ""
  {
    var parts := [m.nama, m.fraksi, m.dapil];
    assert parts[1..] == [m.fraksi, m.dapil] && parts[1..][1..] == [m.dapil];
    assert Join(parts[1..], " ") == m.fraksi + " " + m.dapil;
    assert SearchText(m) == m.nama + " " + (m.fraksi + " " + m.dapil);
  }

  /** A member whose name, fraksi or dapil contains the query is listed. */
  lemma FieldMatchIsListed(ms: seq<Member>, search: string, m: Member)
    requires m in ms
    requires IncludesIgnoreCase(m.nama, search) || IncludesIgnoreCase(m.fraksi, search) || IncludesIgnoreCase(m.dapil, search)
    ensures m in FilteredMembers(ms, search)
  {
    SearchTextAround(m);
    if IncludesIgnoreCase(m.nama, search) {
      IncludesIgnoreCaseInMiddle("", m.nama, " " + m.fraksi + " " + m.dapil, search);
    } else if IncludesIgnoreCase(m.fraksi, search) {
      IncludesIgnoreCaseInMiddle(m.nama + " ", m.fraksi, " " + m.dapil, search);
    } else {
      IncludesIgnoreCaseInMiddle(m.nama + " " + m.fraksi + " ", m.dapil, "", search);
    }
  }

  /** An empty search lists every member. */
  lemma EmptySearchKeepsAll(ms: seq<Member>)
    ensures FilteredMembers(ms, "") == ms
  {
    forall k | 0 <= k < |ms| ensures IncludesIgnoreCase(SearchText(ms[k]), "") {
      EmptyQueryMatches(SearchText(ms[k]));
    }
    FilterAll((m: Member) => IncludesIgnoreCase(SearchText(m), ""), ms);
  }

  /** The form filled from a member. */
  function FormOf(m: Member): MemberForm {
    MemberForm(m.nama, m.jabatan, m.fraksi, m.dapil)
  }

  /** The preview of a member's photo, the default picture when there is none. */
  function PhotoOf(m: Member): (p: string)
    ensures m.foto != "" ==> p == m.foto
    ensures m.foto == "" ==> p == DefaultPhoto
  {
    if m.foto != "" then m.foto else DefaultPhoto
  }

  /** The edit: every member with that id takes the form's four fields and the
      preview as photo, keeping its id and leadership flag; the others stay. */
  function EditMembers(ms: seq<Member>, id: int, f: MemberForm, foto: string): (r: seq<Member>)
    ensures |r| == |ms|
    ensures forall k :: 0 <= k < |ms| ==> r[k].id == ms[k].id
    ensures forall k :: 0 <= k < |ms| ==> r[k] == if ms[k].id == id
      then ms[k].(nama := f.nama, jabatan := f.jabatan, fraksi := f.fraksi, dapil := f.dapil, foto := foto)
      else ms[k]
  {
    if ms == [] then []
    else
      [if ms[0].id == id then ms[0].(nama := f.nama, jabatan := f.jabatan, fraksi := f.fraksi, dapil := f.dapil, foto := foto) else ms[0]]
      + EditMembers(ms[1..], id, f, foto)
  }

  /** The add: a member with id one more than the list's length, the form's
      fields and the preview as photo, put in front. */
  function AddMember(ms: seq<Member>, f: MemberForm, foto: string): (r: seq<Member>)
    ensures |r| == |ms| + 1 && r[1..] == ms
    ensures r[0].id == |ms| + 1 && FormOf(r[0]) == f && r[0].foto == foto && !r[0].isPimpinan
  {
    [Member(|ms| + 1, f.nama, f.jabatan, f.fraksi, f.dapil, foto, false)] + ms
  }

  /** `handleDelete` once confirmed: exactly the members with another id, in
      order. */
  function DeleteMembers(ms: seq<Member>, id: int): (r: seq<Member>)
    ensures IsSubsequence(r, ms)
    ensures forall m :: m in r <==> m in ms && m.id != id
    ensures forall m :: multiset(r)[m] == if m.id != id then multiset(ms)[m] else 0
  {
    Filter((m: Member) => m.id != id, ms)
  }

  /** Ids are counted, not reserved: in a list numbered n down to 1, deleting
      any member but the newest and then adding one gives the new member the
      id n, which the newest member still has. */
  lemma AddAfterDeleteRepeatsId(ms: seq<Member>, id: int, f: MemberForm, foto: string)
    requires forall k :: 0 <= k < |ms| ==> ms[k].id == |ms| - k
    requires 1 <= id < |ms|
    ensures var after := AddMember(DeleteMembers(ms, id), f, foto);
      after[0].id == |ms| && exists k :: 1 <= k < |after| && after[k].id == |ms|
  {
    var d := DeleteMembers(ms, id);
    assert ms[|ms| - id] in ms && ms[|ms| - id].id == id;
    assert ms[|ms| - id] !in d;
    assert |d| < |ms| by {
      FilterShorter(ms, id);
    }
    assert |d| == |ms| - 1 by {
      OnlyOneWithId(ms, id);
    }
    assert ms[0] in d;
    var after := AddMember(d, f, foto);
    var j :| 0 <= j < |d| && d[j] == ms[0];
    assert after[j + 1] == ms[0];
  }

  lemma FilterShorter(ms: seq<Member>, id: int)
    requires exists k :: 0 <= k < |ms| && ms[k].id == id
    ensures |DeleteMembers(ms, id)| < |ms|
  {
    FilterPartition((m: Member) => m.id != id, (m: Member) => m.id == id, ms);
    var k :| 0 <= k < |ms| && ms[k].id == id;
    assert ms[k] in Filter((m: Member) => m.id == id, ms);
  }

  lemma {:induction false} OnlyOneWithId(ms: seq<Member>, id: int)
    requires forall k :: 0 <= k < |ms| ==> ms[k].id == |ms| - k
    requires 1 <= id <= |ms|
    ensures |DeleteMembers(ms, id)| == |ms| - 1
  {
    var rest := ms[1..];
    if id == |ms| {
      FilterAll((m: Member) => m.id != id, rest);
    } else {
      OnlyOneWithId(rest, id);
    }
  }

  class ManageMembersPage {
    var members: seq<Member>
    var search: string
    var isModalOpen: bool
    var editingMember: Option<Member>
    var formData: MemberForm
    var fotoPreview: string

    constructor (fixture: seq<Member>)
      ensures members == fixture && search == "" && !isModalOpen && editingMember == None
      ensures formData == EmptyForm && fotoPreview == DefaultPhoto
    {
      members := fixture;
      search := "";
      isModalOpen := false;
      editingMember := None;
      formData := EmptyForm;
      fotoPreview := DefaultPhoto;
    }

    /** The members the table lists. */
    function Shown(): seq<Member>
      reads this
    {
      FilteredMembers(members, search)
    }

    /** `openModal`: an empty form and the default picture for a new member,
      or the member's four fields and photo. */
    method OpenModal(member: Option<Member>)
      modifies this`editingMember, this`formData, this`fotoPreview, this`isModalOpen
      ensures editingMember == member && isModalOpen
      ensures member.None? ==> formData == EmptyForm && fotoPreview == DefaultPhoto
      ensures member.Some? ==> formData == FormOf(member.value) && fotoPreview == PhotoOf(member.value)
    {
      editingMember := member;
      if member.Some? {
        formData := FormOf(member.value);
        fotoPreview := PhotoOf(member.value);
      } else {
        formData := EmptyForm;
        fotoPreview := DefaultPhoto;
      }
      isModalOpen := true;
    }

    /** `closeModal`. */
    method CloseModal()
      modifies this`isModalOpen, this`editingMember, this`fotoPreview
      ensures !isModalOpen && editingMember == None && fotoPreview == DefaultPhoto
    {
      isModalOpen := false;
      editingMember := None;
      fotoPreview := DefaultPhoto;
    }

    /** A picture chosen or dropped, once read, as the address `url`. */
    method PreviewLoaded(url: string)
      modifies this`fotoPreview
      ensures fotoPreview == url
    {
      fotoPreview := url;
    }

    /** Any change of the form's text fields. */
    method SetForm(f: MemberForm)
      modifies this`formData
      ensures formData == f
    {
      formData := f;
    }

    method SetSearch(value: string)
      modifies this`search
      ensures search == value
    {
      search := value;
    }

    /** `handleSubmit`: edits the member being edited or adds a new one, then
      closes the modal. */
    method HandleSubmit()
      modifies this`members, this`isModalOpen, this`editingMember, this`fotoPreview
      ensures old(editingMember).Some? ==>
        members == EditMembers(old(members), old(editingMember).value.id, formData, old(fotoPreview))
      ensures old(editingMember).None? ==> members == AddMember(old(members), formData, old(fotoPreview))
      ensures !isModalOpen && editingMember == None && fotoPreview == DefaultPhoto
    {
      if editingMember.Some? {
        members := EditMembers(members, editingMember.value.id, formData, fotoPreview);
      } else {
        members := AddMember(members, formData, fotoPreview);
      }
      CloseModal();
    }

    /** `handleDelete`: once confirmed, every member with that id goes. */
    method HandleDelete(id: int, confirmed: bool)
      modifies this`members
      ensures confirmed ==> members == DeleteMembers(old(members), id)
      ensures !confirmed ==> members == old(members)
    {
      if confirmed {
        members := DeleteMembers(members, id);
      }
    }
  }
}
