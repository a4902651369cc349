# pantauDPR page logic in Dafny

pantauDPR is a React dashboard for following the Indonesian House of
Representatives (DPR). It has public pages and admin pages:

- Public pages: members, bills, budget, member activity feed, citizens'
  aspirations.
- Admin pages: editors for members, bills, the budget and aspirations, plus a
  login page and a settings page.

The logic sits in the pages' event handlers and derived views, and this
project models it. The mapping from React to Dafny is:

| In the page | In the model |
|---|---|
| A page with `useState` fields | A class whose fields are those fields |
| A handler | A method with a `modifies` frame, whose `ensures` gives the whole new state in terms of pure functions |
| A derived view (`filteredData`, `sortedData`, the pagination slice, `filteredPosts`, …) | A function with a named result and a contract |
| Browser dialogs (`confirm`, `prompt`) and picked files | Method parameters |
| `alert` texts and the navigation target | Method results |

Modules, one per page plus shared ones:

| Module | What it holds |
|---|---|
| `Records` | The fixture records shared by several pages |
| `Text` | ASCII lower-casing, `includes`, `trim`, `join`/`split`, decimal numbers, truncation with "..." |
| `Seqs` | `filter`, `new Set` (first-appearance deduplication), and a stable insertion sort standing in for `Array.prototype.sort` with a comparator |
| `Csv` | The `data:text/csv` download text |
| `Members`, `Legislation`, `Budget`, `Performance`, `Aspirations` | The public pages |
| `ManageMembers`, `ManageLegislation`, `ManageBudget`, `ManageAspirations`, `AdminSettings`, `AdminLogin` | The admin pages |

Facts about the source that the model makes explicit:

- **Ids come from the list length.** The member, bill and aspiration editors give a new record the id `length + 1`. After a delete, that id can equal one still in use (`ManageMembers.AddAfterDeleteRepeatsId`).
- **Editing a budget month into another year does not move it.** The edit replaces rows of the form's year whose name is the edited month's name. So when the form's year is not the year the month came from, the original row stays in its year. The target year changes only if it happens to hold a row with that name, and gains an empty entry if it did not exist. `ManageBudget.EditIntoYearWithoutMonth` states this.
- **The budget duplicate check trims only the form's month.** It compares against stored names without trimming them. Month names are always trimmed, though, because the form picks them from a fixed list. Under that condition the check keeps a year's months distinct, ignoring case (`AddKeepsMonthsUnique`, `EditKeepsMonthsUnique`).
- **Sorting the admin aspirations by the category column compares list texts.** JavaScript compares the category lists through their comma-joined text, and this is modelled (`ManageAspirations.KeyLe`).
- **The public aspirations filter hides the fixture records.** The records of the aspirations file carry a list of categories (the admin page calls `some` and `join` on them), while a record posted on the public page carries the chosen text. The public filter tests `asp.category === filterCategory`, and a list is never strictly equal to a text. So once a category other than "Semua" is chosen, only records posted on the page can appear (`Aspirations.ListedRecordsHidden`).
- **The page number is not reset by every change.** Typing a search or choosing a likes order leaves `currentPage` as it was, so it can point past the last page. Of Prev and Next, only Next promises a page within `1..totalPages` whatever the starting page; GoToPage is only offered the numbers `1..totalPages`, so it lands in range too.

## Model

| member | source | states |
|---|---|---|
| Text.Includes | src/pages/Members.jsx:17-19 | `includes` holds exactly when the query occurs at some position of the text |
| Text.Lower | src/pages/Members.jsx:17-19 | `toLowerCase()` keeps the length and lower-cases each ASCII letter, leaving every other character alone |
| Text.IncludesIgnoreCaseInMiddle | src/pages/ManageMembers.jsx:20-25 | a query found in one field is found in any text that contains that field, which is how the joined search texts match |
| Text.TrimEmptyIffBlank | src/pages/Aspirations.jsx:22-33 | `trim()` gives "" exactly when the text is all whitespace |
| Text.Trim | src/pages/Performance.jsx:45 | `trim()` is a slice of the text with only whitespace before and after it, and it neither starts nor ends with whitespace |
| Text.TrimUnique | src/pages/Performance.jsx:45 | those conditions fix the result: any slice framed by whitespace and free of it at its ends is `trim()` |
| Text.Truncate | src/pages/Performance.jsx:225-227 | a text longer than the limit becomes its first `limit` characters followed by "..."; a shorter one is kept |
| Text.TruncateBounded | src/pages/Aspirations.jsx:241-243 | a shown text is never longer than the limit plus the three dots, and starts with the original cut to the limit |
| Text.ParseIntOfNatToString | src/pages/Legislation.jsx:25 | `parseInt` of a year's decimal text gives the year back |
| Text.ParseInt | src/pages/Legislation.jsx:25 | `parseInt` reads the leading digits, and gives no number (NaN) exactly when the text does not start with a digit |
| Text.Join | src/pages/Members.jsx:38-40 | `join(sep)`: the parts with `sep` between them; `SplitJoin` shows nothing is lost when no part holds the separator |
| Text.Split | src/pages/Members.jsx:38-40 | cutting a text at a separator always gives at least one piece; `SplitJoin` shows it undoes `join` |
| Text.SplitJoin | src/pages/Members.jsx:38-40 | cutting a `join(c)` of parts that do not contain `c` gives the parts back, so `join` loses nothing |
| Seqs.Filter | src/pages/Members.jsx:16-25 | `filter` keeps exactly the elements that pass, each as often as it occurs, as an order-preserving subsequence |
| Seqs.Distinct | src/pages/Members.jsx:13-14 | `Array.from(new Set(xs))` has no repeats, holds exactly the values of `xs`, in first-appearance order |
| Seqs.SortBySorted | src/pages/ManageAspirations.jsx:51-59 | sorting with a consistent comparator yields a list ordered by it (and a permutation, by `SortBy`'s contract) |
| Seqs.SortByKeepsOrder | src/pages/Aspirations.jsx:73 | a comparator that always returns 0 leaves the order unchanged |
| Csv.ContentStartsWithHeader | src/pages/Members.jsx:38-40 | the download text starts with "data:text/csv;charset=utf-8," followed by the header line |
| Csv.ContentLines | src/pages/Members.jsx:38-40 | when no cell holds a line break, cutting the body at "\n" gives back the header line and one line per row |
| Csv.Table | src/pages/Members.jsx:32-37 | the rows of the download: one list of cells per item, item by item |
| Csv.TableContent | src/pages/Members.jsx:30-40 | the download is the prefix and the header line and, when neither the header nor any field holds a line break, exactly one more line per item |
| Csv.RowCells | src/pages/Members.jsx:32-40 | when no cell holds a comma, line i splits into its number, which parses back to i, and then the row's cells |
| Members.FilteredMembers | src/pages/Members.jsx:16-25 | exactly the members whose name contains the search (ignoring case) and whose fraksi and jabatan match or are "All", in order |
| Members.NoFilterKeepsAll | src/pages/Members.jsx:16-25 | an empty search with both filters on "All" lists every member |
| Members.Pimpinan | src/pages/Members.jsx:27 | the listed leaders, in order |
| Members.Anggota | src/pages/Members.jsx:28 | the listed non-leaders, in order |
| Members.PimpinanAnggotaPartition | src/pages/Members.jsx:27-28 | the two sections hold every listed member exactly once between them and their sizes add up |
| Members.FraksiOptions | src/pages/Members.jsx:13 | every faction once, in order of first appearance |
| Members.JabatanOptions | src/pages/Members.jsx:14 | every position once, in order of first appearance |
| Members.CsvRows | src/pages/Members.jsx:32-37 | one row per listed member: name, position, faction |
| Members.DownloadCsv | src/pages/Members.jsx:30-40 | `Csv.TableContent` with the header "No,Nama,Jabatan,Fraksi" and each listed member's name, position and faction; `Csv.RowCells` reads every line back |
| Members.HeaderLine | src/pages/Members.jsx:31 | the header line is "No,Nama,Jabatan,Fraksi" |
| Legislation.YearsOf | src/pages/Legislation.jsx:19 | the year of each bill, in order |
| Legislation.YearOptions | src/pages/Legislation.jsx:18-20 | each bill's year exactly once, strictly descending |
| Legislation.FilteredData | src/pages/Legislation.jsx:22-28 | exactly the bills whose title contains the search and whose status and year match or are "All", in order |
| Legislation.NoFilterKeepsAll | src/pages/Legislation.jsx:22-28 | an empty search with both filters on "All" lists every bill |
| Legislation.YearOptionSelectsYear | src/pages/Legislation.jsx:25 | choosing a year option keeps exactly that year's bills among those the other filters pass |
| Legislation.CsvRows | src/pages/Legislation.jsx:32-38 | one row per listed bill: title, status, date, commission |
| Legislation.DownloadCsv | src/pages/Legislation.jsx:30-42 | `Csv.TableContent` with the header "No,Judul RUU,Status,Tanggal,Komisi" and each listed bill's four fields; `Csv.RowCells` reads every line back |
| Legislation.HeaderLine | src/pages/Legislation.jsx:31 | the header line is "No,Judul RUU,Status,Tanggal,Komisi" |
| Budget.MonthFilter | src/pages/Budget.jsx:28-31 | the whole year under "Semua", otherwise exactly that month's rows in order |
| Budget.Column | src/pages/Budget.jsx:37-57 | one amount per row, in row order |
| Budget.BuildChart | src/pages/Budget.jsx:33-61 | the labels and five series line up with the rows index by index, each series with its label and colour |
| Budget.MonthTotal | src/pages/Budget.jsx:66-75 | the five amounts of one month added up, the step of both `reduce` calls; `TotalSplitsByMonth` and `TotalsAgree` build on it |
| Budget.Total | src/pages/Budget.jsx:66-75 | the `reduce` over a list of months; when no month has a negative total, it is not negative |
| Budget.TotalSplitsByMonth | src/pages/Budget.jsx:66-86 | one month's total plus the other months' total is the year's total |
| Budget.MonthTotalAtMostYearTotal | src/pages/Budget.jsx:66-86 | with no negative amounts, the shown total never exceeds the year's total |
| Budget.YearTotal | src/pages/Budget.jsx:76-86 | the year's total, or 0 for a year the data lacks |
| Budget.BudgetPage.constructor | src/pages/Budget.jsx:20-64 | the page starts on "2024" and "Semua" with the effect applied once |
| Budget.BudgetPage.ApplyFilters | src/pages/Budget.jsx:25-64 | a missing year leaves chart and table as they were; otherwise both are rebuilt from the year and month |
| Budget.BudgetPage.SetTahun | src/pages/Budget.jsx:20-64 | the chosen year, followed by the effect |
| Budget.BudgetPage.SetBulan | src/pages/Budget.jsx:21-64 | the chosen month, followed by the effect |
| Budget.BudgetPage.MonthlyTotal | src/pages/Budget.jsx:66-75 | `totalBulanan`: the total of the table on screen; `TotalsAgree` relates it to `totalTahunan` |
| Budget.BudgetPage.YearlyTotal | src/pages/Budget.jsx:76-86 | `totalTahunan`: `YearTotal` of the chosen year; `TotalsAgree` relates it to `totalBulanan` |
| Budget.BudgetPage.TotalsAgree | src/pages/Budget.jsx:28-86 | under "Semua" the monthly total equals the yearly total; for one month it plus the rest make the year |
| Performance.InitPost | src/pages/Performance.jsx:13-17 | a post starts not liked, with its own comments or none |
| Performance.InitPosts | src/pages/Performance.jsx:12-18 | every fixture post, in order, initialised |
| Performance.Toggle | src/pages/Performance.jsx:37 | the like flag flips and the counter moves by one in the matching direction; nothing else changes |
| Performance.ToggleTwice | src/pages/Performance.jsx:33-41 | two toggles give the post back |
| Performance.ToggleKeepsOthersLikes | src/pages/Performance.jsx:37 | toggling never changes the likes that are not this page's own |
| Performance.ToggleLikeIn | src/pages/Performance.jsx:33-41 | only posts with that id are toggled; length and order are kept |
| Performance.ToggleLikeInTwice | src/pages/Performance.jsx:33-41 | pressing a like button twice restores the feed |
| Performance.AddCommentTo | src/pages/Performance.jsx:47-59 | the comment is appended to the posts with that id; other posts unchanged |
| Performance.GetMember | src/pages/Performance.jsx:68-69 | the first member with that id, or none exactly when no member has it |
| Performance.FilteredPosts | src/pages/Performance.jsx:72-83 | exactly the posts matching search, fraksi and jabatan, in order |
| Performance.OrphanHiddenWhenFiltered | src/pages/Performance.jsx:68-81 | a post without a known author is hidden once the fraksi or jabatan filter is set |
| Performance.NoFilterKeepsAll | src/pages/Performance.jsx:72-83 | an empty search with both filters on "All" shows every post |
| Performance.ShownContent | src/pages/Performance.jsx:225-227 | content over 220 characters shows its first 220 and "..." |
| Performance.PerformancePage.constructor | src/pages/Performance.jsx:12-26 | the initial posts, no open thread, no inputs, no filters |
| Performance.PerformancePage.FraksiOptions | src/pages/Performance.jsx:29 | every faction of the member list once, in order of first appearance |
| Performance.PerformancePage.JabatanOptions | src/pages/Performance.jsx:30 | every position of the member list once, in order of first appearance |
| Performance.PerformancePage.ToggleLike | src/pages/Performance.jsx:33-41 | the feed becomes `ToggleLikeIn` of the old feed |
| Performance.PerformancePage.AddComment | src/pages/Performance.jsx:44-62 | blank input changes nothing; otherwise the trimmed anonymous comment is appended, the input cleared and the thread opened |
| Performance.PerformancePage.SetCommentInput | src/pages/Performance.jsx:324-329 | only that post's input changes |
| Performance.PerformancePage.ToggleComments | src/pages/Performance.jsx:287-291 | the thread opens, or closes when it was the open one |
| Aspirations.ValidationError | src/pages/Aspirations.jsx:22-33 | the first blank of title, category, description gives its message; none when all are filled |
| Aspirations.ValidationByTrim | src/pages/Aspirations.jsx:22-33 | the checks agree with testing each trimmed field for emptiness in order |
| Aspirations.NewAspiration | src/pages/Aspirations.jsx:36-43 | id is the old length + 1, no likes, not liked, fields as typed, the category as the chosen text |
| Aspirations.Toggle | src/pages/Aspirations.jsx:57 | the flag flips and the counter moves by one in the matching direction |
| Aspirations.ToggleLikeIn | src/pages/Aspirations.jsx:53-61 | only records with that id are toggled; length and order are kept |
| Aspirations.ToggleLikeInTwice | src/pages/Aspirations.jsx:53-61 | pressing a support button twice restores the board |
| Aspirations.FlipExpanded | src/pages/Aspirations.jsx:64-66 | only that id's flag flips (a missing flag counts as collapsed) |
| Aspirations.ShownDescription | src/pages/Aspirations.jsx:241-243 | in full when expanded or short, otherwise the first 150 characters and "..." |
| Aspirations.CategoryFilter | src/pages/Aspirations.jsx:70-72 | everything under "Semua", otherwise exactly the records whose category is that very text, in order |
| Aspirations.ListedRecordsHidden | src/pages/Aspirations.jsx:70-72 | under a filter other than "Semua" no record with a list of categories survives, so a board of such records filters to nothing |
| Aspirations.FilteredAspirations | src/pages/Aspirations.jsx:69-73 | a rearrangement of the filtered records: most supported first when ordering by support, the board order otherwise |
| Aspirations.AspirationsPage.constructor | src/pages/Aspirations.jsx:7-16 | the fixture, an empty form, no filter, no ordering |
| Aspirations.AspirationsPage.HandleSubmit | src/pages/Aspirations.jsx:20-50 | a failed check only sets its message; a passing one clears it, prepends the new record and empties the form |
| Aspirations.AspirationsPage.ToggleLike | src/pages/Aspirations.jsx:53-61 | the board becomes `ToggleLikeIn` of the old board |
| Aspirations.AspirationsPage.ToggleDescription | src/pages/Aspirations.jsx:64-66 | the flags become `FlipExpanded` of the old flags |
| Aspirations.AspirationsPage.ToggleSortByLikes | src/pages/Aspirations.jsx:217 | the ordering switch flips |
| ManageAspirations.StrLeTotal | src/pages/ManageAspirations.jsx:56-57 | any two strings are ordered one way or the other |
| ManageAspirations.StrLeTransitive | src/pages/ManageAspirations.jsx:56-57 | string order is transitive |
| ManageAspirations.KeepBeforeConsistent | src/pages/ManageAspirations.jsx:51-59 | every column comparator, either direction, is a total preorder |
| ManageAspirations.OrderByLikes | src/pages/ManageAspirations.jsx:42-43 | a rearrangement: unchanged under "All", likes descending under "Tertinggi", ascending under "Terendah" |
| ManageAspirations.FilteredData | src/pages/ManageAspirations.jsx:31-46 | exactly the matching items (search in title or description, a shared category or none selected), ordered by likes as chosen |
| ManageAspirations.SortedData | src/pages/ManageAspirations.jsx:49-60 | `filteredData` itself under a likes order, otherwise a permutation of it sorted by the column and direction |
| ManageAspirations.TotalPages | src/pages/ManageAspirations.jsx:66 | the fewest pages of ten that hold every item |
| ManageAspirations.PageItems | src/pages/ManageAspirations.jsx:63-65 | at most ten items, those from position (page − 1) · 10 on; none past the end |
| ManageAspirations.EveryItemOnItsPage | src/pages/ManageAspirations.jsx:63-66 | item i is on page i / 10 + 1, which is within the page count, at position i mod 10 |
| ManageAspirations.ToggleCategory | src/pages/ManageAspirations.jsx:79-81 | removes a selected category and keeps the others in order, appends any other; a selection without repeats stays so |
| ManageAspirations.ToggleCategoryTwice | src/pages/ManageAspirations.jsx:79-81 | ticking and then unticking a category gives the selection back |
| ManageAspirations.NoFilterKeepsAll | src/pages/ManageAspirations.jsx:31-46 | no search, no category, no likes order: every item in data order |
| ManageAspirations.RemoveById | src/pages/ManageAspirations.jsx:89 | exactly the items with another id, in order |
| ManageAspirations.ManageAspirationsPage.constructor | src/pages/ManageAspirations.jsx:8-15 | the fixture on page 1, sorted by id ascending, with no filters |
| ManageAspirations.ManageAspirationsPage.HandleCategoryChange | src/pages/ManageAspirations.jsx:77-83 | the selection becomes `ToggleCategory` of the old one, without repeats, on page 1 |
| ManageAspirations.ManageAspirationsPage.HandleSort | src/pages/ManageAspirations.jsx:68-75 | the current column flips its direction, a new column starts ascending; page 1 |
| ManageAspirations.ManageAspirationsPage.HandleDelete | src/pages/ManageAspirations.jsx:85-91 | nothing happens without a reason or confirmation; otherwise the items with that id go |
| ManageAspirations.ManageAspirationsPage.Prev | src/pages/ManageAspirations.jsx:244 | one page back, never below 1 |
| ManageAspirations.ManageAspirationsPage.Next | src/pages/ManageAspirations.jsx:262 | one page on, never past the page count |
| ManageAspirations.ManageAspirationsPage.GoToPage | src/pages/ManageAspirations.jsx:253 | the chosen page |
| ManageBudget.FormOf | src/pages/ManageBudget.jsx:41 | the form of a month, aimed at the year on screen, stores back as that month |
| ManageBudget.MonthTaken | src/pages/ManageBudget.jsx:71-75 | some row of the year has the form's month (trimmed, ignoring case) and is not the one being edited |
| ManageBudget.Clashes | src/pages/ManageBudget.jsx:71-75 | the test inside `some`: the names agree once lower-cased, the form's trimmed first, and the row is not the one being edited; `MonthTaken`, `ResaveSucceeds` and the uniqueness lemmas build on it |
| ManageBudget.ReplaceMonth | src/pages/ManageBudget.jsx:83 | every row with the edited month's name becomes the form; the rest stay in place |
| ManageBudget.Submit | src/pages/ManageBudget.jsx:66-86 | rejected exactly when the month is taken; otherwise only the form's year changes, gaining the form in front or having the edited month replaced |
| ManageBudget.AddToNewYear | src/pages/ManageBudget.jsx:70-86 | the first add to a missing year creates it with that month alone |
| ManageBudget.RemoveMonth | src/pages/ManageBudget.jsx:94 | exactly the rows with another month name, in order |
| ManageBudget.ConsUnique | src/pages/ManageBudget.jsx:84 | a month unlike every month of a duplicate-free year can go in front |
| ManageBudget.AddKeepsMonthsUnique | src/pages/ManageBudget.jsx:70-86 | adding keeps a year's months distinct ignoring case |
| ManageBudget.EditKeepsMonthsUnique | src/pages/ManageBudget.jsx:70-86 | editing keeps a year's months distinct ignoring case |
| ManageBudget.ResaveSucceeds | src/pages/ManageBudget.jsx:71-75 | re-saving a month under its own name is never rejected |
| ManageBudget.EditIntoYearWithoutMonth | src/pages/ManageBudget.jsx:82-86 | an edit whose target year lacks the edited month changes no row |
| ManageBudget.ManageBudgetPage.constructor | src/pages/ManageBudget.jsx:16-29 | the fixture, showing its first year, with the modal closed |
| ManageBudget.ManageBudgetPage.OpenModal | src/pages/ManageBudget.jsx:38-54 | a new-month form on 2024, or the month's values aimed at the year on screen |
| ManageBudget.ManageBudgetPage.CloseModal | src/pages/ManageBudget.jsx:56-59 | the modal closes and nothing is being edited |
| ManageBudget.ManageBudgetPage.SelectYear | src/pages/ManageBudget.jsx:17 | the chosen year, a key of the table |
| ManageBudget.ManageBudgetPage.HandleSubmit | src/pages/ManageBudget.jsx:66-90 | a rejection only sets its notice; otherwise the table becomes `Submit`'s, the form's year is shown and the modal closes |
| ManageBudget.ManageBudgetPage.HandleDelete | src/pages/ManageBudget.jsx:92-98 | once confirmed, only the year on screen loses that month's rows |
| ManageMembers.FilteredMembers | src/pages/ManageMembers.jsx:20-25 | exactly the members whose name, fraksi and dapil joined by spaces contain the search ignoring case, in order |
| ManageMembers.FieldMatchIsListed | src/pages/ManageMembers.jsx:20-25 | a member with the search in its name, fraksi or dapil is listed |
| ManageMembers.EmptySearchKeepsAll | src/pages/ManageMembers.jsx:20-25 | an empty search lists everyone |
| ManageMembers.PhotoOf | src/pages/ManageMembers.jsx:36 | the member's photo, or "/potoDPR.png" when it has none |
| ManageMembers.EditMembers | src/pages/ManageMembers.jsx:74-80 | the members with that id take the form and the preview, keeping their id; others unchanged |
| ManageMembers.AddMember | src/pages/ManageMembers.jsx:82-87 | a member with id length + 1, the form and the preview, in front |
| ManageMembers.DeleteMembers | src/pages/ManageMembers.jsx:94 | exactly the members with another id, in order |
| ManageMembers.AddAfterDeleteRepeatsId | src/pages/ManageMembers.jsx:83-94 | after deleting an older member, the next new id equals one still in the list |
| ManageMembers.ManageMembersPage.constructor | src/pages/ManageMembers.jsx:8-18 | the fixture, an empty form and the default picture |
| ManageMembers.ManageMembersPage.OpenModal | src/pages/ManageMembers.jsx:27-42 | an empty form and the default picture, or the member's fields and photo |
| ManageMembers.ManageMembersPage.CloseModal | src/pages/ManageMembers.jsx:44-48 | closed, nothing being edited, default picture |
| ManageMembers.ManageMembersPage.PreviewLoaded | src/pages/ManageMembers.jsx:54 | the loaded picture becomes the preview |
| ManageMembers.ManageMembersPage.HandleSubmit | src/pages/ManageMembers.jsx:71-90 | edits or adds with the preview as photo, then closes the modal |
| ManageMembers.ManageMembersPage.HandleDelete | src/pages/ManageMembers.jsx:92-96 | once confirmed, the members with that id go |
| ManageLegislation.StatusColor | src/pages/ManageLegislation.jsx:8-13 | the classes of the four known statuses, grey for any other |
| ManageLegislation.FormStatusesHaveColors | src/pages/ManageLegislation.jsx:8-13 | every status the form offers has its own colour |
| ManageLegislation.FilteredLaws | src/pages/ManageLegislation.jsx:34-39 | exactly the bills whose title, status, date and commission joined by spaces contain the search ignoring case, in order |
| ManageLegislation.TitleMatchIsListed | src/pages/ManageLegislation.jsx:34-39 | a bill with the search in its title is listed |
| ManageLegislation.EmptySearchKeepsAll | src/pages/ManageLegislation.jsx:34-39 | an empty search lists every bill |
| ManageLegislation.EditLaws | src/pages/ManageLegislation.jsx:68-73 | the bills with that id take the form's fields and keep their id; others unchanged |
| ManageLegislation.EditWithOwnValues | src/pages/ManageLegislation.jsx:68-73 | saving a bill's own values back changes nothing |
| ManageLegislation.AddLaw | src/pages/ManageLegislation.jsx:75-79 | a bill with id length + 1 and the form's fields, in front |
| ManageLegislation.DeleteLaws | src/pages/ManageLegislation.jsx:86 | exactly the bills with another id, in order |
| ManageLegislation.ManageLegislationPage.constructor | src/pages/ManageLegislation.jsx:23-32 | the fixture and the new-bill form |
| ManageLegislation.ManageLegislationPage.OpenModal | src/pages/ManageLegislation.jsx:41-59 | the new-bill form with status "Dalam Pembahasan", or the bill's four fields |
| ManageLegislation.ManageLegislationPage.CloseModal | src/pages/ManageLegislation.jsx:61-64 | closed, nothing being edited |
| ManageLegislation.ManageLegislationPage.HandleSubmit | src/pages/ManageLegislation.jsx:66-82 | edits or adds, then closes the modal |
| ManageLegislation.ManageLegislationPage.HandleDelete | src/pages/ManageLegislation.jsx:84-88 | once confirmed, the bills with that id go |
| AdminSettings.SetField | src/pages/AdminSettings.jsx:15-18 | only the named profile field changes |
| AdminSettings.SetFieldOwnValue | src/pages/AdminSettings.jsx:15-18 | writing a field its own value changes nothing |
| AdminSettings.SaveProfileMessage | src/pages/AdminSettings.jsx:28-35 | a refusal exactly when the name or the email is empty, success otherwise |
| AdminSettings.ChangePasswordMessage | src/pages/AdminSettings.jsx:37-48 | "all required" when a box is empty, "not the same" when new and confirmation differ, success exactly otherwise |
| AdminSettings.CurrentPasswordNotChecked | src/pages/AdminSettings.jsx:37-48 | the current password is never compared: any filled-in value gives the same outcome |
| AdminSettings.AdminSettingsPage.constructor | src/pages/AdminSettings.jsx:7-13 | "Admin DPR", "admin@pantauDPR.id", "/potoDPR.png", not editing, empty boxes |
| AdminSettings.AdminSettingsPage.HandleChange | src/pages/AdminSettings.jsx:15-18 | the profile becomes `SetField` of the old one |
| AdminSettings.AdminSettingsPage.HandleAvatarChange | src/pages/AdminSettings.jsx:20-26 | a chosen picture becomes the avatar; no choice changes nothing |
| AdminSettings.AdminSettingsPage.HandleSaveProfile | src/pages/AdminSettings.jsx:28-35 | a refusal keeps editing mode, success leaves it; the profile is untouched |
| AdminSettings.AdminSettingsPage.HandleChangePassword | src/pages/AdminSettings.jsx:37-48 | a refusal keeps the boxes, success empties all three |
| AdminLogin.SetField | src/pages/AdminLogin.jsx:12-14 | only the named field changes |
| AdminLogin.OnlyTheAdminAccount | src/pages/AdminLogin.jsx:18 | the check accepts exactly username "admin" with password "1234" |
| AdminLogin.TypingCredentialsLogsIn | src/pages/AdminLogin.jsx:12-18 | typing the two credentials, in either order, gives a form the check accepts |
| AdminLogin.AdminLoginPage.constructor | src/pages/AdminLogin.jsx:9-10 | an empty form and no error |
| AdminLogin.AdminLoginPage.HandleChange | src/pages/AdminLogin.jsx:12-14 | the form becomes `SetField` of the old one |
| AdminLogin.AdminLoginPage.HandleSubmit | src/pages/AdminLogin.jsx:16-24 | navigates to "/admin/dashboard" with the error cleared exactly when accepted; otherwise "Username atau password salah!" and no navigation |

## Left out

- Rendering, framer-motion animation and Tailwind classes. The status colours of the public bill page (src/pages/Legislation.jsx:6-11) are only rendering. The image lightbox, the zoomed photo and the category dropdown's open state are UI state and are not modelled either.
- The JSON fixtures are not part of this model. The pages take them as constructor parameters. Two things about the budget fixture are therefore left open:
  - whether it is empty, in which case `Object.keys(...)[0]` is undefined; the admin budget page requires its first year to be a key;
  - the order of `Object.keys`, which picks the first year.
- Browser dialogs and events are not modelled as such:
  - `confirm` and `prompt` answers become parameters;
  - `alert`, notification texts and the navigation target become results or fields;
  - the `setTimeout` that clears the budget notice after three seconds is not modelled.
- Browser objects are not modelled:
  - `FileReader`: the admin member page receives the loaded picture as an address;
  - `URL.createObjectURL`: a chosen picture is taken as the address it is shown from;
  - `window.scrollTo`.
- The download side of the CSV export is left out: `encodeURI`, the DOM link and its click. The model stops at the text handed to `encodeURI`. The budget page's `CSVLink` export and its chart library are third-party code and are not part of this model.
- `Date.now()` comment ids are a method parameter. `new Date(tanggal).getFullYear()` is an abstract function `yearOf` of the bill, so invalid dates (NaN years) are not modelled.
- Navigation from a feed post to its member (`onMemberClick`) is not modelled.
- `toLowerCase` and `trim` are modelled on ASCII letters and on the ASCII whitespace plus U+00A0 and U+FEFF. Strings are sequences of characters, not UTF-16 code units, so lengths and the 150/220-character cuts are per character.
- JavaScript numbers are not modelled:
  - amounts and likes are unbounded integers;
  - there is no floating point, no `Number(...)` coercion of the number inputs, and no `toLocaleString` formatting;
  - `parseInt` is modelled for leading decimal digits only, with no sign, no whitespace and no other radix.
- HTML `required` attributes on the admin forms are browser validation and are not modelled; the handlers are modelled as written.
- `{ ...formData }` stores the budget form's `tahun` on the saved row as an extra property. A row keeps only its month and five amounts in the model.
- Looking up a status colour under an inherited object property name (such as "toString") is not modelled; every other text gets the grey fallback.
- Seqs.SortBy: the model's insertion sort is stable, as `Array.prototype.sort` is. Stability is not stated as a contract; only "ordered" and "a permutation" are.
- ManageAspirations.ManageAspirationsPage.Prev: it promises a page within `1..totalPages` only when the old page was within range. Search and likes changes do not reset the page, so the old page can be out of range.
