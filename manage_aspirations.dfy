/** The admin aspirations table (src/pages/ManageAspirations.jsx): search and
    category filter, the likes ordering, the sortable columns, pagination by
    ten, and deletion with a reason. */
module ManageAspirations {
  import opened Text
  import opened Wrappers
  import opened Seqs

  /** An aspiration as the admin table reads it: `category` is a list. */
  datatype Aspiration = Aspiration(id: int, title: string, category: seq<string>, description: string, likes: int)

  /** The likes select: "All", "Tertinggi" (most liked first), "Terendah". */
  datatype LikesFilter = AllLikes | Tertinggi | Terendah

  /** The sortable columns. */
  datatype SortField = Id | Title | Category | Description | Likes

  datatype SortOrder = Asc | Desc

  const ItemsPerPage: nat := 10

  /** The title or the description contains the search text, ignoring case. */
  predicate MatchesSearch(a: Aspiration, search: string) {
    IncludesIgnoreCase(a.title, search) || IncludesIgnoreCase(a.description, search)
  }

  /** No category is selected, or the item has one of the selected ones. */
  predicate MatchesCategory(a: Aspiration, selected: seq<string>) {
    selected == [] || exists c :: c in a.category && c in selected
  }

  predicate Matches(a: Aspiration, search: string, selected: seq<string>) {
    MatchesSearch(a, search) && MatchesCategory(a, selected)
  }

  /** JavaScript's `!(a > b)` on strings: `a` is not after `b` when the two
      are compared character by character, a proper prefix coming first. */
  function StrLe(a: string, b: string): bool {
    if a == [] then true
    else if b == [] then false
    else if a[0] != b[0] then a[0] < b[0]
    else StrLe(a[1..], b[1..])
  }

  lemma {:induction false} StrLeTotal(a: string, b: string)
    ensures StrLe(a, b) || StrLe(b, a)
  {
    if a != [] && b != [] && a[0] == b[0] {
      StrLeTotal(a[1..], b[1..]);
    }
  }

  lemma {:induction false} StrLeTransitive(a: string, b: string, c: string)
    requires StrLe(a, b) && StrLe(b, c)
    ensures StrLe(a, c)
  {
    if a != [] && b != [] && c != [] && a[0] == b[0] && b[0] == c[0] {
      StrLeTransitive(a[1..], b[1..], c[1..]);
    }
  }

  /** The column value of `a` is not greater than that of `b`; string columns
      are compared lower-cased, and the category lists as the texts they turn
      into when compared, their items joined with commas. */
  function KeyLe(f: SortField, a: Aspiration, b: Aspiration): bool {
    match f
    case Id => a.id <= b.id
    case Likes => a.likes <= b.likes
    case Title => StrLe(Lower(a.title), Lower(b.title))
    case Category => StrLe(Join(a.category, ","), Join(b.category, ","))
    case Description => StrLe(Lower(a.description), Lower(b.description))
  }

  /** When the comparator lets `a` stay in front of `b`: it returns -1 or 0,
      which for "asc" means `a`'s value is not greater and for "desc" not
      smaller. */
  function KeepBefore(f: SortField, o: SortOrder): (Aspiration, Aspiration) -> bool {
    (a: Aspiration, b: Aspiration) => if o == Asc then KeyLe(f, a, b) else KeyLe(f, b, a)
  }

  /** Every column comparator is consistent, so sorting by it orders the rows. */
  lemma KeepBeforeConsistent(f: SortField, o: SortOrder)
    ensures TotalPreorder(KeepBefore(f, o))
  {
    var le := KeepBefore(f, o);
    forall a, b ensures le(a, b) || le(b, a) {
      StrLeTotal(Lower(a.title), Lower(b.title));
      StrLeTotal(Lower(a.description), Lower(b.description));
      StrLeTotal(Join(a.category, ","), Join(b.category, ","));
    }
    forall a, b, c | le(a, b) && le(b, c) ensures le(a, c) {
      if o == Asc {
        if f == Title {
          StrLeTransitive(Lower(a.title), Lower(b.title), Lower(c.title));
        } else if f == Description {
          StrLeTransitive(Lower(a.description), Lower(b.description), Lower(c.description));
        } else if f == Category {
          StrLeTransitive(Join(a.category, ","), Join(b.category, ","), Join(c.category, ","));
        }
      } else {
        if f == Title {
          StrLeTransitive(Lower(c.title), Lower(b.title), Lower(a.title));
        } else if f == Description {
          StrLeTransitive(Lower(c.description), Lower(b.description), Lower(a.description));
        } else if f == Category {
          StrLeTransitive(Join(c.category, ","), Join(b.category, ","), Join(a.category, ","));
        }
      }
    }
  }

  /** The likes ordering applied to the filtered items: none under "All",
      most liked first under "Tertinggi", least liked first under
      "Terendah"; always a rearrangement. */
  function OrderByLikes(s: seq<Aspiration>, likes: LikesFilter): (r: seq<Aspiration>)
    ensures multiset(r) == multiset(s)
    ensures likes == AllLikes ==> r == s
    ensures likes == Tertinggi ==> forall i, j :: 0 <= i < j < |r| ==> r[i].likes >= r[j].likes
    ensures likes == Terendah ==> forall i, j :: 0 <= i < j < |r| ==> r[i].likes <= r[j].likes
  {
    if likes == AllLikes then s
    else
      var le := if likes == Tertinggi then KeepBefore(Likes, Desc) else KeepBefore(Likes, Asc);
      KeepBeforeConsistent(Likes, if likes == Tertinggi then Desc else Asc);
      SortBySorted(s, le);
      SortBy(s, le)
  }

  /** `filteredData`: the matching items, in data order under "All", most
      liked first under "Tertinggi" and least liked first under "Terendah". */
  function FilteredData(data: seq<Aspiration>, search: string, selected: seq<string>, likes: LikesFilter): (r: seq<Aspiration>)
    ensures multiset(r) == multiset(Filter(a => Matches(a, search, selected), data))
    ensures forall a :: a in r <==> a in data && Matches(a, search, selected)
    ensures forall a :: multiset(r)[a] == if Matches(a, search, selected) then multiset(data)[a] else 0
    ensures likes == AllLikes ==> IsSubsequence(r, data)
    ensures likes == Tertinggi ==> forall i, j :: 0 <= i < j < |r| ==> r[i].likes >= r[j].likes
    ensures likes == Terendah ==> forall i, j :: 0 <= i < j < |r| ==> r[i].likes <= r[j].likes
  {
    var filtered := Filter(a => Matches(a, search, selected), data);
    var r := OrderByLikes(filtered, likes);
    SameMembers(r, filtered);
    r
  }

  /** `sortedData`: under "Tertinggi"/"Terendah" the filtered list as it is;
      under "All" a rearrangement of it ordered by the chosen column and
      direction. */
  function SortedData(data: seq<Aspiration>, search: string, selected: seq<string>, likes: LikesFilter,
                      field: SortField, order: SortOrder): (r: seq<Aspiration>)
    ensures likes != AllLikes ==> r == FilteredData(data, search, selected, likes)
    ensures multiset(r) == multiset(FilteredData(data, search, selected, likes))
    ensures likes == AllLikes ==> SortedBy(r, KeepBefore(field, order))
  {
    var filtered := FilteredData(data, search, selected, likes);
    if likes != AllLikes then filtered
    else
      KeepBeforeConsistent(field, order);
      SortBySorted(filtered, KeepBefore(field, order));
      SortBy(filtered, KeepBefore(field, order))
  }

  /** `Math.ceil(n / itemsPerPage)`: the fewest pages of ten that hold `n`
      items. */
  function TotalPages(n: nat): (t: nat)
    ensures t * ItemsPerPage >= n
    ensures t == 0 || (t - 1) * ItemsPerPage < n
  {
    (n + ItemsPerPage - 1) / ItemsPerPage
  }

  /** `s.slice((page - 1) * 10, page * 10)`: at most ten items, the ones at
      positions `(page - 1) * 10` onwards; a full ten when the list reaches
      that far and none past its end. */
  function PageItems<T>(s: seq<T>, page: nat): (r: seq<T>)
    requires page >= 1
    ensures |r| <= ItemsPerPage
    ensures forall k :: 0 <= k < |r| ==> (page - 1) * ItemsPerPage + k < |s| && r[k] == s[(page - 1) * ItemsPerPage + k]
    ensures page * ItemsPerPage <= |s| ==> |r| == ItemsPerPage
    ensures (page - 1) * ItemsPerPage >= |s| ==> r == []
  {
    var first := (page - 1) * ItemsPerPage;
    var last := page * ItemsPerPage;
    var lo := if first < |s| then first else |s|;
    var hi := if last < |s| then last else |s|;
    s[lo..hi]
  }

  /** Every item is shown on exactly one of the pages 1..totalPages: item i on
      page i / 10 + 1, at position i % 10. */
  lemma EveryItemOnItsPage<T>(s: seq<T>, i: nat)
    requires i < |s|
    ensures 1 <= i / ItemsPerPage + 1 <= TotalPages(|s|)
    ensures var p := PageItems(s, i / ItemsPerPage + 1);
      i % ItemsPerPage < |p| && p[i % ItemsPerPage] == s[i]
  {
  }

  /** `handleCategoryChange`: a selected category is removed, any other is
      appended; a selection without repeats stays without repeats. */
  function ToggleCategory(selected: seq<string>, value: string): (r: seq<string>)
    ensures value in selected ==> forall c :: c in r <==> c in selected && c != value
    ensures value in selected ==> forall c :: multiset(r)[c] == if c != value then multiset(selected)[c] else 0
    ensures value in selected ==> IsSubsequence(r, selected)
    ensures value !in selected ==> r == selected + [value]
    ensures NoDup(selected) ==> NoDup(r)
  {
    if value in selected then
      var r := Filter(c => c != value, selected);
      assert NoDup(selected) ==> NoDup(r) by {
        if NoDup(selected) {
          SubsequenceNoDup(r, selected);
        }
      }
      r
    else selected + [value]
  }

  /** Ticking a category that was not selected and then unticking it gives
      the selection back. */
  lemma ToggleCategoryTwice(selected: seq<string>, value: string)
    requires value !in selected
    ensures ToggleCategory(ToggleCategory(selected, value), value) == selected
  {
    FilterDropsLast(c => c != value, selected, value);
  }

  /** With an empty search, no category and no likes ordering, every item is
      listed in data order. */
  lemma NoFilterKeepsAll(data: seq<Aspiration>)
    ensures FilteredData(data, "", [], AllLikes) == data
  {
    forall k | 0 <= k < |data| ensures Matches(data[k], "", []) {
      EmptyQueryMatches(data[k].title);
    }
    FilterAll(a => Matches(a, "", []), data);
  }

  /** `data.filter(asp => asp.id !== id)`: exactly the items with another id,
      in order. */
  function RemoveById(data: seq<Aspiration>, id: int): (r: seq<Aspiration>)
    ensures IsSubsequence(r, data)
    ensures forall a :: a in r <==> a in data && a.id != id
    ensures forall a :: multiset(r)[a] == if a.id != id then multiset(data)[a] else 0
  {
    Filter((a: Aspiration) => a.id != id, data)
  }

  /** `!reason` for the answer of `prompt`: cancelled (null) or empty. */
  predicate NoReason(reason: Option<string>) {
    reason == None || reason == Some("")
  }

  function Flip(o: SortOrder): SortOrder {
    if o == Asc then Desc else Asc
  }

  class ManageAspirationsPage {
    var search: string
    var filterCategories: seq<string>
    var filterLikes: LikesFilter
    var currentPage: int
    var sortField: SortField
    var sortOrder: SortOrder
    var data: seq<Aspiration>

    /** The page number is at least 1 and no category is selected twice. */
    ghost predicate Valid()
      reads this
    {
      currentPage >= 1 && NoDup(filterCategories)
    }

    constructor (fixture: seq<Aspiration>)
      ensures Valid()
      ensures data == fixture && search == "" && filterCategories == [] && filterLikes == AllLikes
      ensures currentPage == 1 && sortField == Id && sortOrder == Asc
    {
      search := "";
      filterCategories := [];
      filterLikes := AllLikes;
      currentPage := 1;
      sortField := Id;
      sortOrder := Asc;
      data := fixture;
    }

    /** The list the table pages through. */
    function View(): seq<Aspiration>
      reads this
    {
      SortedData(data, search, filterCategories, filterLikes, sortField, sortOrder)
    }

    /** `currentItems`. */
    function CurrentItems(): seq<Aspiration>
      reads this
      requires Valid()
    {
      PageItems(View(), currentPage)
    }

    /** `totalPages`. */
    function Pages(): nat
      reads this
    {
      TotalPages(|View()|)
    }

    /** Typing in the search box (the page number is kept). */
    method SetSearch(value: string)
      modifies this`search
      ensures search == value
    {
      search := value;
    }

    /** Choosing in the likes select (the page number is kept). */
    method SetFilterLikes(value: LikesFilter)
      modifies this`filterLikes
      ensures filterLikes == value
    {
      filterLikes := value;
    }

    /** `handleCategoryChange`. */
    method HandleCategoryChange(value: string)
      requires Valid()
      modifies this`filterCategories, this`currentPage
      ensures Valid()
      ensures filterCategories == ToggleCategory(old(filterCategories), value)
      ensures currentPage == 1
    {
      filterCategories := ToggleCategory(filterCategories, value);
      currentPage := 1;
    }

    /** `handleSort`: the current column flips its direction, another column
      becomes the sort column in ascending order; back to page 1. */
    method HandleSort(field: SortField)
      requires Valid()
      modifies this`sortField, this`sortOrder, this`currentPage
      ensures Valid()
      ensures sortField == field && currentPage == 1
      ensures old(sortField) == field ==> sortOrder == Flip(old(sortOrder))
      ensures old(sortField) != field ==> sortOrder == Asc
    {
      if sortField == field {
        sortOrder := Flip(sortOrder);
      } else {
        sortField := field;
        sortOrder := Asc;
      }
      currentPage := 1;
    }

    /** `handleDelete`: nothing happens without a reason or without
      confirmation; otherwise every item with that id goes. */
    method HandleDelete(id: int, reason: Option<string>, confirmed: bool)
      modifies this`data
      ensures NoReason(reason) || !confirmed ==> data == old(data)
      ensures !NoReason(reason) && confirmed ==> data == RemoveById(old(data), id)
    {
      if NoReason(reason) {
        return;
      }
      if confirmed {
        data := RemoveById(data, id);
      }
    }

    /** The "Prev" button (shown only when there is more than one page). */
    method Prev()
      requires Valid() && Pages() > 1
      modifies this`currentPage
      ensures Valid()
      ensures currentPage == if old(currentPage) - 1 > 1 then old(currentPage) - 1 else 1
      ensures old(currentPage) <= Pages() ==> 1 <= currentPage <= Pages()
    {
      currentPage := if currentPage - 1 > 1 then currentPage - 1 else 1;
    }

    /** The "Next" button (shown only when there is more than one page). */
    method Next()
      requires Valid() && Pages() > 1
      modifies this`currentPage
      ensures Valid()
      ensures currentPage == if old(currentPage) + 1 < Pages() then old(currentPage) + 1 else Pages()
      ensures 1 <= currentPage <= Pages()
    {
      currentPage := if currentPage + 1 < Pages() then currentPage + 1 else Pages();
    }

    /** A numbered page button. */
    method GoToPage(num: int)
      requires Valid() && 1 <= num <= Pages()
      modifies this`currentPage
      ensures Valid() && currentPage == num
    {
      currentPage := num;
    }
  }
}
