/** The public aspirations board (src/pages/Aspirations.jsx): a form that
    posts a new aspiration after checking its fields, support (like) toggles,
    expandable descriptions, a category filter and a most-supported-first
    ordering. */
module Aspirations {
  import opened Wrappers
  import opened Text
  import opened Seqs

  /** The `category` of a record. Records posted on the board carry the text
      chosen in the form; the records of the shared aspirations file carry a
      list of categories, as the admin page reads them. */
  datatype Category = CategoryText(text: string) | CategoryList(items: seq<string>)

  /** An aspiration as the board keeps it. `image` is the address of the
      attached picture, if any; `liked` is false for records that never set
      it, new ones included. */
  datatype Aspiration = Aspiration(
    id: int,
    title: string,
    category: Category,
    description: string,
    image: Option<string>,
    likes: int,
    liked: bool)

  const TitleRequired: string := "Judul aspirasi wajib diisi."
  const CategoryRequired: string := "Kategori aspirasi wajib dipilih."
  const DescriptionRequired: string := "Deskripsi aspirasi wajib diisi."

  /** The category option that means "every category". */
  const Semua: string := "Semua"

  /** How many characters of a collapsed description are shown. */
  const DescriptionLimit: nat := 150

  /** The checks of `handleSubmit`, in order: the first of title, category
      and description that is blank gives its message; None when none is. A
      field is blank exactly when nothing is left of it once trimmed
      (`Text.TrimEmptyIffBlank`). */
  function ValidationError(title: string, category: string, description: string): (e: Option<string>)
    ensures e.None? <==> !Blank(title) && !Blank(category) && !Blank(description)
    ensures Blank(title) ==> e == Some(TitleRequired)
    ensures !Blank(title) && Blank(category) ==> e == Some(CategoryRequired)
    ensures !Blank(title) && !Blank(category) && Blank(description) ==> e == Some(DescriptionRequired)
  {
    if Blank(title) then Some(TitleRequired)
    else if Blank(category) then Some(CategoryRequired)
    else if Blank(description) then Some(DescriptionRequired)
    else None
  }

  /** The checks give the same outcome as testing each trimmed field for
      emptiness in turn. */
  lemma ValidationByTrim(title: string, category: string, description: string)
    ensures ValidationError(title, category, description) ==
      if Trim(title) == "" then Some(TitleRequired)
      else if Trim(category) == "" then Some(CategoryRequired)
      else if Trim(description) == "" then Some(DescriptionRequired)
      else None
  {
    TrimEmptyIffBlank(title);
    TrimEmptyIffBlank(category);
    TrimEmptyIffBlank(description);
  }

  /** The record a valid submit puts in front: the next id by count, the
      fields as typed (untrimmed), no support yet. */
  function NewAspiration(list: seq<Aspiration>, title: string, category: string, description: string, image: Option<string>): (a: Aspiration)
    ensures a.id == |list| + 1 && a.likes == 0 && !a.liked
    ensures a.title == title && a.category == CategoryText(category) && a.description == description && a.image == image
  {
    Aspiration(|list| + 1, title, CategoryText(category), description, image, 0, false)
  }

  /** Supporting or withdrawing support: the counter moves by one and the
      flag flips. */
  function Toggle(a: Aspiration): (b: Aspiration)
    ensures b.liked == !a.liked
    ensures b.likes == if a.liked then a.likes - 1 else a.likes + 1
    ensures b.(liked := a.liked, likes := a.likes) == a
  {
    a.(likes := a.likes + (if a.liked then -1 else 1), liked := !a.liked)
  }

  /** `toggleLike`: the records with that id toggled, every other one as it
      was. */
  function ToggleLikeIn(list: seq<Aspiration>, id: int): (r: seq<Aspiration>)
    ensures |r| == |list|
    ensures forall k :: 0 <= k < |list| ==> r[k] == if list[k].id == id then Toggle(list[k]) else list[k]
  {
    if list == [] then []
    else [if list[0].id == id then Toggle(list[0]) else list[0]] + ToggleLikeIn(list[1..], id)
  }

  /** Pressing a support button twice restores the board. */
  lemma ToggleLikeInTwice(list: seq<Aspiration>, id: int)
    ensures ToggleLikeIn(ToggleLikeIn(list, id), id) == list
  {
    var twice := ToggleLikeIn(ToggleLikeIn(list, id), id);
    forall k | 0 <= k < |list| ensures twice[k] == list[k] {
    }
  }

  /** The description of record `id` is shown in full; a missing entry means
      collapsed. */
  predicate Expanded(showFullDesc: map<int, bool>, id: int) {
    id in showFullDesc && showFullDesc[id]
  }

  /** `toggleDescription`: that record's flag flips, every other one stays. */
  function FlipExpanded(showFullDesc: map<int, bool>, id: int): (r: map<int, bool>)
    ensures Expanded(r, id) == !Expanded(showFullDesc, id)
    ensures forall j :: j != id ==> (j in r <==> j in showFullDesc) && (j in r ==> r[j] == showFullDesc[j])
  {
    showFullDesc[id := !Expanded(showFullDesc, id)]
  }

  /** The description as the card shows it: in full when expanded, otherwise
      cut to 150 characters followed by "..." when longer. */
  function ShownDescription(a: Aspiration, showFullDesc: map<int, bool>): (s: string)
    ensures Expanded(showFullDesc, a.id) || |a.description| <= DescriptionLimit ==> s == a.description
    ensures !Expanded(showFullDesc, a.id) && |a.description| > DescriptionLimit ==>
      s == a.description[..DescriptionLimit] + "..."
  {
    if Expanded(showFullDesc, a.id) then a.description else Truncate(a.description, DescriptionLimit)
  }

  /** `asp.category === filterCategory`: strict equality holds only between
      two texts; a list is never equal to a text. */
  predicate InCategory(a: Aspiration, filterCategory: string) {
    a.category == CategoryText(filterCategory)
  }

  /** The category filter: everything under "Semua", otherwise exactly the
      records whose category is that very text, in order. */
  function CategoryFilter(list: seq<Aspiration>, filterCategory: string): (r: seq<Aspiration>)
    ensures filterCategory == Semua ==> r == list
    ensures filterCategory != Semua ==> IsSubsequence(r, list)
    ensures filterCategory != Semua ==> forall a :: a in r <==> a in list && InCategory(a, filterCategory)
    ensures filterCategory != Semua ==> forall a :: multiset(r)[a] == if InCategory(a, filterCategory) then multiset(list)[a] else 0
  {
    if filterCategory == Semua then list else Filter((a: Aspiration) => InCategory(a, filterCategory), list)
  }

  /** A record whose category is a list never passes a filter other than
      "Semua", even when the list holds the chosen category: the records of
      the aspirations file all vanish as soon as a category is chosen. */
  lemma ListedRecordsHidden(list: seq<Aspiration>, filterCategory: string)
    requires filterCategory != Semua
    ensures forall a :: a in CategoryFilter(list, filterCategory) ==> a.category.CategoryText?
    ensures (forall k :: 0 <= k < |list| ==> list[k].category.CategoryList?) ==> CategoryFilter(list, filterCategory) == []
  {
  }

  /** When the board's comparator lets `a` stay in front of `b`: always when
      not ordering by support (it returns 0), otherwise when `a` has at least
      as much support. */
  function KeepBefore(sortByLikes: bool): (Aspiration, Aspiration) -> bool {
    (a: Aspiration, b: Aspiration) => !sortByLikes || a.likes >= b.likes
  }

  /** `filteredAspirations`: the filtered records, most supported first when
      ordering by support and in board order otherwise. */
  function FilteredAspirations(list: seq<Aspiration>, filterCategory: string, sortByLikes: bool): (r: seq<Aspiration>)
    ensures multiset(r) == multiset(CategoryFilter(list, filterCategory))
    ensures !sortByLikes ==> r == CategoryFilter(list, filterCategory)
    ensures sortByLikes ==> forall i, j :: 0 <= i < j < |r| ==> r[i].likes >= r[j].likes
  {
    var filtered := CategoryFilter(list, filterCategory);
    var le := KeepBefore(sortByLikes);
    if sortByLikes then
      assert TotalPreorder(le);
      SortBySorted(filtered, le);
      SortBy(filtered, le)
    else
      SortByKeepsOrder(filtered, le);
      SortBy(filtered, le)
  }

  class AspirationsPage {
    var aspirations: seq<Aspiration>
    var title: string
    var category: string
    var description: string
    /** The address of the chosen picture, if one is chosen. */
    var image: Option<string>
    var error: string
    var filterCategory: string
    var sortByLikes: bool
    var showFullDesc: map<int, bool>

    constructor (fixture: seq<Aspiration>)
      ensures aspirations == fixture && title == "" && category == "" && description == ""
      ensures image == None && error == "" && filterCategory == Semua && !sortByLikes && showFullDesc == map[]
    {
      aspirations := fixture;
      title := "";
      category := "";
      description := "";
      image := None;
      error := "";
      filterCategory := Semua;
      sortByLikes := false;
      showFullDesc := map[];
    }

    /** The cards the board lists. */
    function Shown(): seq<Aspiration>
      reads this
    {
      FilteredAspirations(aspirations, filterCategory, sortByLikes)
    }

    /** `handleSubmit`: a failed check only sets its message; a passing one
      clears the message, puts the new record in front and empties the
      form. */
    method HandleSubmit()
      modifies this`aspirations, this`title, this`category, this`description, this`image, this`error
      ensures ValidationError(old(title), old(category), old(description)).Some? ==>
        && error == ValidationError(old(title), old(category), old(description)).value
        && aspirations == old(aspirations)
        && title == old(title) && category == old(category) && description == old(description) && image == old(image)
      ensures ValidationError(old(title), old(category), old(description)).None? ==>
        && error == ""
        && aspirations == [NewAspiration(old(aspirations), old(title), old(category), old(description), old(image))] + old(aspirations)
        && title == "" && category == "" && description == "" && image == None
    {
      var e := ValidationError(title, category, description);
      if e.Some? {
        error := e.value;
        return;
      }
      error := "";
      aspirations := [NewAspiration(aspirations, title, category, description, image)] + aspirations;
      title := "";
      category := "";
      description := "";
      image := None;
    }

    method SetTitle(value: string)
      modifies this`title
      ensures title == value
    {
      title := value;
    }

    method SetCategory(value: string)
      modifies this`category
      ensures category == value
    {
      category := value;
    }

    method SetDescription(value: string)
      modifies this`description
      ensures description == value
    {
      description := value;
    }

    /** Choosing a picture, taken as the address it will be shown from. */
    method SetImage(value: Option<string>)
      modifies this`image
      ensures image == value
    {
      image := value;
    }

    /** `toggleLike`. */
    method ToggleLike(id: int)
      modifies this`aspirations
      ensures aspirations == ToggleLikeIn(old(aspirations), id)
    {
      aspirations := ToggleLikeIn(aspirations, id);
    }

    /** `toggleDescription`. */
    method ToggleDescription(id: int)
      modifies this`showFullDesc
      ensures showFullDesc == FlipExpanded(old(showFullDesc), id)
    {
      showFullDesc := FlipExpanded(showFullDesc, id);
    }

    method SetFilterCategory(value: string)
      modifies this`filterCategory
      ensures filterCategory == value
    {
      filterCategory := value;
    }

    /** The ordering button. */
    method ToggleSortByLikes()
      modifies this`sortByLikes
      ensures sortByLikes == !old(sortByLikes)
    {
      sortByLikes := !sortByLikes;
    }
  }
}
