/** The admin budget editor (src/pages/ManageBudget.jsx): a table of months
    keyed by year, a modal form that adds or edits a month, the case-
    insensitive check that a month is not entered twice, and deletion. */
module ManageBudget {
  import opened Wrappers
  import opened Text
  import opened Seqs
  import opened Records

  /** The modal form: a month, the year it goes to, and the five amounts. */
  datatype BudgetForm = BudgetForm(
    bulan: string,
    tahun: Year,
    gajiTunjangan: int,
    danaLegislasi: int,
    danaResesKunjungan: int,
    operasionalStaf: int,
    biayaBadan: int)

  /** The first entry of the form's year list (2024 to 2030). */
  const FirstFormYear: Year := "2024"

  /** The form of a new month: no month chosen, the first year, zero amounts. */
  const NewForm: BudgetForm := BudgetForm("", FirstFormYear, 0, 0, 0, 0, 0)

  /** The form as the page starts out, before the modal was ever opened. */
  const InitialForm: BudgetForm := BudgetForm("", "", 0, 0, 0, 0, 0)

  /** The form that edits `m`, aimed at the year on screen. */
  function FormOf(m: BudgetMonth, tahun: Year): (f: BudgetForm)
    ensures f.bulan == m.bulan && f.tahun == tahun && Record(f) == m
  {
    BudgetForm(m.bulan, tahun, m.gajiTunjangan, m.danaLegislasi, m.danaResesKunjungan, m.operasionalStaf, m.biayaBadan)
  }

  /** The row a submitted form is stored as. */
  function Record(f: BudgetForm): BudgetMonth {
    BudgetMonth(f.bulan, f.gajiTunjangan, f.danaLegislasi, f.danaResesKunjungan, f.operasionalStaf, f.biayaBadan)
  }

  /** `budgetData[tahun] || []`. */
  function YearRows(data: map<Year, seq<BudgetMonth>>, tahun: Year): seq<BudgetMonth> {
    if tahun in data then data[tahun] else []
  }

  /** A stored row blocks the form's month: the names agree once lower-cased
      (the form's trimmed first), and the row is not the one being edited. */
  predicate Clashes(m: BudgetMonth, bulan: string, editing: Option<BudgetMonth>) {
    Lower(m.bulan) == Lower(Trim(bulan)) && (editing.None? || m.bulan != editing.value.bulan)
  }

  /** `exists`: some row of the year blocks the form's month. */
  function MonthTaken(rows: seq<BudgetMonth>, bulan: string, editing: Option<BudgetMonth>): (b: bool)
    ensures b <==> exists k :: 0 <= k < |rows| && Clashes(rows[k], bulan, editing)
  {
    if rows == [] then false
    else if Clashes(rows[0], bulan, editing) then true
    else
      var b := MonthTaken(rows[1..], bulan, editing);
      ClashInTail(rows, bulan, editing);
      b
  }

  /** With no clash at the head, a clash in the rows is a clash in the rest. */
  lemma ClashInTail(rows: seq<BudgetMonth>, bulan: string, editing: Option<BudgetMonth>)
    requires rows != [] && !Clashes(rows[0], bulan, editing)
    ensures (exists k :: 0 <= k < |rows| && Clashes(rows[k], bulan, editing))
      <==> (exists k :: 0 <= k < |rows[1..]| && Clashes(rows[1..][k], bulan, editing))
  {
    if k :| 0 <= k < |rows| && Clashes(rows[k], bulan, editing) {
      assert rows[1..][k - 1] == rows[k];
    }
    if k :| 0 <= k < |rows[1..]| && Clashes(rows[1..][k], bulan, editing) {
      assert rows[k + 1] == rows[1..][k];
    }
  }

  /** The edit: every row named `bulan` becomes `rec`; the rest stay in place. */
  function ReplaceMonth(rows: seq<BudgetMonth>, bulan: string, rec: BudgetMonth): (r: seq<BudgetMonth>)
    ensures |r| == |rows|
    ensures forall k :: 0 <= k < |rows| ==> r[k] == if rows[k].bulan == bulan then rec else rows[k]
  {
    if rows == [] then []
    else [if rows[0].bulan == bulan then rec else rows[0]] + ReplaceMonth(rows[1..], bulan, rec)
  }

  /** The outcome of `handleSubmit` on the table: None when the month is
      already taken in the form's year, which then stays as it was; otherwise
      the table with only that year replaced, by the year's rows with the new
      month in front when adding, or with the edited month replaced when
      editing. A year the table lacks counts as an empty one. */
  function Submit(data: map<Year, seq<BudgetMonth>>, form: BudgetForm, editing: Option<BudgetMonth>): (r: Option<map<Year, seq<BudgetMonth>>>)
    ensures r.None? <==> MonthTaken(YearRows(data, form.tahun), form.bulan, editing)
    ensures r.Some? ==> r.value.Keys == data.Keys + {form.tahun}
    ensures r.Some? ==> forall y :: y in data && y != form.tahun ==> r.value[y] == data[y]
    ensures r.Some? && editing.None? ==>
      r.value[form.tahun] == [Record(form)] + YearRows(data, form.tahun)
      && |r.value[form.tahun]| == |YearRows(data, form.tahun)| + 1
    ensures r.Some? && editing.Some? ==>
      r.value[form.tahun] == ReplaceMonth(YearRows(data, form.tahun), editing.value.bulan, Record(form))
      && |r.value[form.tahun]| == |YearRows(data, form.tahun)|
  {
    var rows := YearRows(data, form.tahun);
    if MonthTaken(rows, form.bulan, editing) then None
    else
      var updated := if editing.Some? then ReplaceMonth(rows, editing.value.bulan, Record(form)) else [Record(form)] + rows;
      Some(data[form.tahun := updated])
  }

  /** The first add to a year the table lacks creates it with that month alone. */
  lemma AddToNewYear(data: map<Year, seq<BudgetMonth>>, form: BudgetForm)
    requires form.tahun !in data
    ensures Submit(data, form, None) == Some(data[form.tahun := [Record(form)]])
  {
    assert [Record(form)] + [] == [Record(form)];
  }

  /** `handleDelete` on one year: exactly the rows with another month name, in
      order. */
  function RemoveMonth(rows: seq<BudgetMonth>, bulan: string): (r: seq<BudgetMonth>)
    ensures IsSubsequence(r, rows)
    ensures forall m :: m in r <==> m in rows && m.bulan != bulan
    ensures forall m :: multiset(r)[m] == if m.bulan != bulan then multiset(rows)[m] else 0
  {
    Filter(NotOfMonth(bulan), rows)
  }

  /** No two rows of a year name the same month, ignoring case. */
  predicate UniqueMonths(rows: seq<BudgetMonth>) {
    forall i, j :: 0 <= i < j < |rows| ==> Lower(rows[i].bulan) != Lower(rows[j].bulan)
  }

  /** A month whose name differs, ignoring case, from every month of a year
      without repeats can go in front of them. */
  lemma ConsUnique(x: BudgetMonth, rows: seq<BudgetMonth>)
    requires UniqueMonths(rows)
    requires forall k :: 0 <= k < |rows| ==> Lower(rows[k].bulan) != Lower(x.bulan)
    ensures UniqueMonths([x] + rows)
  {
    var r := [x] + rows;
    forall i, j | 0 <= i < j < |r| ensures Lower(r[i].bulan) != Lower(r[j].bulan) {
      assert r[j] == rows[j - 1];
      if i > 0 {
        assert r[i] == rows[i - 1];
      }
    }
  }

  /** Adding a month without surrounding blanks to a year whose months are
      distinct keeps them distinct. */
  lemma AddKeepsMonthsUnique(data: map<Year, seq<BudgetMonth>>, form: BudgetForm)
    requires UniqueMonths(YearRows(data, form.tahun)) && Trim(form.bulan) == form.bulan
    requires Submit(data, form, None).Some?
    ensures UniqueMonths(Submit(data, form, None).value[form.tahun])
  {
    var rows := YearRows(data, form.tahun);
    assert !MonthTaken(rows, form.bulan, None);
    forall k | 0 <= k < |rows| ensures Lower(rows[k].bulan) != Lower(Record(form).bulan) {
      assert !Clashes(rows[k], form.bulan, None);
    }
    ConsUnique(Record(form), rows);
  }

  /** Editing a month of a year whose months are distinct, under a name
      without surrounding blanks, keeps them distinct. */
  lemma EditKeepsMonthsUnique(data: map<Year, seq<BudgetMonth>>, form: BudgetForm, m: BudgetMonth)
    requires UniqueMonths(YearRows(data, form.tahun)) && Trim(form.bulan) == form.bulan
    requires Submit(data, form, Some(m)).Some?
    ensures UniqueMonths(Submit(data, form, Some(m)).value[form.tahun])
  {
    var rows := YearRows(data, form.tahun);
    var r := Submit(data, form, Some(m)).value[form.tahun];
    forall i, j | 0 <= i < j < |r| ensures Lower(r[i].bulan) != Lower(r[j].bulan) {
      assert Lower(rows[i].bulan) != Lower(rows[j].bulan);
      if rows[i].bulan == m.bulan {
        assert !Clashes(rows[j], form.bulan, Some(m));
      } else if rows[j].bulan == m.bulan {
        assert !Clashes(rows[i], form.bulan, Some(m));
      }
    }
  }

  /** Re-saving a month of a year whose months are distinct under its own name
      is never rejected: the only row with that name is the one being edited. */
  lemma ResaveSucceeds(data: map<Year, seq<BudgetMonth>>, form: BudgetForm, m: BudgetMonth)
    requires UniqueMonths(YearRows(data, form.tahun))
    requires m in YearRows(data, form.tahun) && form.bulan == m.bulan && Trim(m.bulan) == m.bulan
    ensures Submit(data, form, Some(m)).Some?
  {
    var rows := YearRows(data, form.tahun);
    var i :| 0 <= i < |rows| && rows[i] == m;
    forall k | 0 <= k < |rows| ensures !Clashes(rows[k], form.bulan, Some(m)) {
      if k < i {
        assert Lower(rows[k].bulan) != Lower(rows[i].bulan);
      } else if k > i {
        assert Lower(rows[i].bulan) != Lower(rows[k].bulan);
      }
    }
  }

  /** An edit whose year holds no row with the edited month's name changes no
      row: the form is stored nowhere, and the original row stays in its own
      year. */
  lemma EditIntoYearWithoutMonth(data: map<Year, seq<BudgetMonth>>, form: BudgetForm, m: BudgetMonth)
    requires forall k :: 0 <= k < |YearRows(data, form.tahun)| ==> YearRows(data, form.tahun)[k].bulan != m.bulan
    requires Submit(data, form, Some(m)).Some?
    ensures Submit(data, form, Some(m)).value == data[form.tahun := YearRows(data, form.tahun)]
  {
    var rows := YearRows(data, form.tahun);
    assert ReplaceMonth(rows, m.bulan, Record(form)) == rows;
  }

  function RejectedMessage(form: BudgetForm): string {
    "Bulan \"" + form.bulan + "\" sudah ada di tahun " + form.tahun + "."
  }

  function SavedMessage(form: BudgetForm, editing: Option<BudgetMonth>): string {
    if editing.Some? then "Bulan \"" + form.bulan + "\" berhasil diupdate."
    else "Bulan \"" + form.bulan + "\" berhasil ditambahkan."
  }

  function DeletedMessage(bulan: string): string {
    "Bulan \"" + bulan + "\" berhasil dihapus."
  }

  class ManageBudgetPage {
    var budgetData: map<Year, seq<BudgetMonth>>
    var selectedYear: Year
    var isModalOpen: bool
    var editingMonth: Option<BudgetMonth>
    var formData: BudgetForm
    var notification: string

    /** The year on screen is a key of the table. */
    ghost predicate Valid()
      reads this
    {
      selectedYear in budgetData
    }

    /** The page on the fixture, showing its first year. */
    constructor (data: map<Year, seq<BudgetMonth>>, firstYear: Year)
      requires firstYear in data
      ensures Valid()
      ensures budgetData == data && selectedYear == firstYear && !isModalOpen
      ensures editingMonth == None && formData == InitialForm && notification == ""
    {
      budgetData := data;
      selectedYear := firstYear;
      isModalOpen := false;
      editingMonth := None;
      formData := InitialForm;
      notification := "";
    }

    /** The rows of the year on screen. */
    function ShownRows(): seq<BudgetMonth>
      reads this
    {
      YearRows(budgetData, selectedYear)
    }

    /** `openModal`: a blank form for a new month, or the month's own values
      aimed at the year on screen. */
    method OpenModal(month: Option<BudgetMonth>)
      modifies this`editingMonth, this`formData, this`isModalOpen
      ensures editingMonth == month && isModalOpen
      ensures month.None? ==> formData == NewForm
      ensures month.Some? ==> formData == FormOf(month.value, selectedYear)
    {
      editingMonth := month;
      if month.Some? {
        formData := FormOf(month.value, selectedYear);
      } else {
        formData := NewForm;
      }
      isModalOpen := true;
    }

    /** `closeModal`. */
    method CloseModal()
      modifies this`isModalOpen, this`editingMonth
      ensures !isModalOpen && editingMonth == None
    {
      isModalOpen := false;
      editingMonth := None;
    }

    /** Any change of the modal's inputs. */
    method SetForm(f: BudgetForm)
      modifies this`formData
      ensures formData == f
    {
      formData := f;
    }

    /** Choosing a year in the year select, which lists the table's keys. */
    method SelectYear(y: Year)
      requires y in budgetData
      modifies this`selectedYear
      ensures Valid() && selectedYear == y
    {
      selectedYear := y;
    }

    /** `handleSubmit`: a taken month only sets the rejection notice; otherwise
      the table becomes `Submit`'s, the form's year is shown, and the modal
      closes. */
    method HandleSubmit()
      requires Valid()
      modifies this`budgetData, this`selectedYear, this`isModalOpen, this`editingMonth, this`notification
      ensures Valid()
      ensures Submit(old(budgetData), formData, old(editingMonth)).None? ==>
        && budgetData == old(budgetData) && selectedYear == old(selectedYear)
        && isModalOpen == old(isModalOpen) && editingMonth == old(editingMonth)
        && notification == RejectedMessage(formData)
      ensures Submit(old(budgetData), formData, old(editingMonth)).Some? ==>
        && budgetData == Submit(old(budgetData), formData, old(editingMonth)).value
        && selectedYear == formData.tahun && !isModalOpen && editingMonth == None
        && notification == SavedMessage(formData, old(editingMonth))
    {
      var r := Submit(budgetData, formData, editingMonth);
      if r.None? {
        notification := RejectedMessage(formData);
        return;
      }
      budgetData := r.value;
      selectedYear := formData.tahun;
      notification := SavedMessage(formData, editingMonth);
      CloseModal();
    }

    /** `handleDelete`: once confirmed, the year on screen loses every row of
      that month and the other years stay as they were. */
    method HandleDelete(bulan: string, confirmed: bool)
      requires Valid()
      modifies this`budgetData, this`notification
      ensures Valid()
      ensures !confirmed ==> budgetData == old(budgetData) && notification == old(notification)
      ensures confirmed ==>
        && budgetData == old(budgetData)[selectedYear := RemoveMonth(old(budgetData)[selectedYear], bulan)]
        && notification == DeletedMessage(bulan)
    {
      if confirmed {
        budgetData := budgetData[selectedYear := RemoveMonth(budgetData[selectedYear], bulan)];
        notification := DeletedMessage(bulan);
      }
    }
  }
}
