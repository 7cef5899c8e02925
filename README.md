# Ad library: filter, sort, counts and forms

The application is a single-page ad library. A signed-in user browses a catalogue of ad creatives
from five advertising platforms (Google, Bing, LinkedIn, Meta, Pinterest), bookmarks them and adds new ones.
This project models the catalogue logic of that application in Dafny:

- **The root component's filter effect.** It narrows the catalogue by the platform list, six
  category lists (industry, angle, campaign goal, ad format, funnel stage, target group) and a
  case-insensitive text search. It then sorts the survivors with a numeric comparator on
  the date, the engagement score or a search relevance score, ascending or descending.
  The result is modelled by `FilterEngine.View`, the function the effect computes. `ApplyFilters` is
  the imperative version: pass by pass, then an in-place array sort.
- **The root component's handlers.** They cover bookmarking, adding an ad, the active-filter count
  and the per-platform counts. They live on `AdStore.AdLibrary`, a class whose `filteredAds` field
  always equals `View(ads, filters)`.
- **The filter sidebar's handlers.** Toggling a category value, changing the sort key or order,
  clearing all filters (`FilterSidebar`).
- **The platform tab strip.** Tab to platform list, platform list to highlighted tab, and the
  count badges (`PlatformTabs`).
- **The "add ad" form.** Fourteen text fields, the submit predicate, the tag parser and the
  reset after submit (`AddAdForm`, class `AdForm`).
- **The download file name** of the detail view (`DownloadName`).

Supporting modules:

- `JsText` models the JavaScript string operations the code relies on: `toLowerCase`, `trim`,
  `includes`, and `split` with a one-character separator.
- `Seqs` models removing every occurrence of a value, which is `filter(v => v !== x)`.
- `Sorting` models a stable comparator sort.
- `Tally` models a `Record<string, number>` of counters.

## Model

| member | source | states |
|---|---|---|
| AdModel.PlatformOf | src/types/ad.ts:6 | exactly the five platform identifiers are accepted, and each one is read back to the platform it names |
| AdModel.PlatformIdRoundTrip | src/types/ad.ts:6 | every platform's identifier is one of the five, and reading it back gives the same platform |
| AdModel.PlatformIdInjective | src/types/ad.ts:6 | two platforms have the same identifier exactly when they are the same platform |
| AdModel.WithValues | src/components/filters/FilterSidebar.tsx:64-67 | the spread `{ ...filters, [category]: newValues }`: the chosen dimension gets the new list; every other dimension, the search, the sort key and the sort order stay as they were |
| JsText.LowerChar | src/App.tsx:213 | `toLowerCase` on one character. An upper-case ASCII or Latin-1 letter becomes the character whose code point is 32 higher (`'A'` becomes `'a'`). Every other character is unchanged, and the result is never upper case |
| JsText.ToLower | src/App.tsx:213 | `toLowerCase` on a string: the length is kept and no upper-case letter is left. Each upper-case letter's code point rises by 32, and every other character stays |
| JsText.TrimStart | src/components/modals/AddAdModal.tsx:125 | the result is a suffix of the input that does not start with white space, and everything cut off is white space |
| JsText.TrimEnd | src/components/modals/AddAdModal.tsx:125 | the result is a prefix of the input that does not end with white space, and everything cut off is white space |
| JsText.Trim | src/components/modals/AddAdModal.tsx:125 | `trim()`: the result is empty, or neither its first nor its last character is white space |
| JsText.TrimSlice | src/components/modals/AddAdModal.tsx:125 | the trimmed string is the slice of the input that starts right after the leading white space |
| JsText.TrimBlank | src/components/modals/AddAdModal.tsx:125 | trimming gives the empty string exactly when every character of the input is white space |
| JsText.TrimIdempotent | src/components/modals/AddAdModal.tsx:125 | trimming twice is the same as trimming once |
| JsText.TrimChars | src/components/modals/AddAdModal.tsx:125 | trimming only removes characters; every character of the result is in the input |
| JsText.OccursChars | src/components/modals/AddAdModal.tsx:125 | every character of a substring occurrence is a character of the string |
| JsText.Contains | src/App.tsx:215-218 | `includes`: the query is a prefix of the string or of one of its suffixes (its meaning is stated by `ContainsIff`) |
| JsText.OccursContains | src/App.tsx:215-218 | `includes` finds an occurrence at any position |
| JsText.ContainsOccurs | src/App.tsx:215-218 | when `includes` holds, it returns a position at which the query occurs |
| JsText.ContainsIff | src/App.tsx:215-218 | `includes` holds exactly when the query occurs at some position of the string |
| JsText.Split | src/components/modals/AddAdModal.tsx:125 | `split(',')` always yields at least one piece, even for the empty string |
| JsText.SplitCount | src/components/modals/AddAdModal.tsx:125 | a split yields exactly one more piece than there are separators |
| JsText.SplitNoSeparator | src/components/modals/AddAdModal.tsx:125 | no piece contains the separator |
| JsText.SplitJoin | src/components/modals/AddAdModal.tsx:125 | joining the pieces with the separator gives back the input |
| JsText.SplitChars | src/components/modals/AddAdModal.tsx:125 | every character of every piece comes from the input |
| Seqs.Without | src/components/filters/FilterSidebar.tsx:62 | `filter(v => v !== value)` leaves no occurrence of the value. It keeps every other element with its multiplicity and in its order, so the length drops by the number of occurrences removed |
| Seqs.WithoutMembers | src/components/filters/FilterSidebar.tsx:62 | an element is left exactly when it was in the list and differs from the removed value |
| Seqs.WithoutOnly | src/components/modals/AddAdModal.tsx:125 | `filter(Boolean)` over pieces that are all empty leaves nothing |
| Seqs.WithoutAbsent | src/components/filters/FilterSidebar.tsx:62 | removing a value that is not in the list changes nothing |
| Seqs.WithoutAppended | src/components/filters/FilterSidebar.tsx:60-62 | removing a value right after appending it is the same as removing it from the original list |
| Seqs.SubsequenceSubMultiset | src/App.tsx:177-220 | a list obtained by filtering holds each element at most as often as the original |
| Sorting.Compare | src/App.tsx:253 | the comparator: `key(b) - key(a)` for `desc`, `key(a) - key(b)` otherwise. A positive value puts `a` after `b` |
| Sorting.StableSort | src/App.tsx:223 | the order `filtered.sort(comparator)` produces, built by stable insertion. Its meaning is stated by `StableSortCorrect` |
| Sorting.InsertPermutes | src/App.tsx:223-254 | one insertion step adds exactly the inserted record |
| Sorting.InsertInOrder | src/App.tsx:223-254 | inserting into a list that is ordered by the comparator keeps it ordered |
| Sorting.InsertWithKey | src/App.tsx:223-254 | inserting a record appends it to the run of records that have its key; runs with other keys are untouched |
| Sorting.StableSortCorrect | src/App.tsx:223-254 | the comparator sort is a permutation. The comparator never places an earlier record after a later one. Records with equal keys keep their input order, as ECMAScript requires of `Array.prototype.sort` |
| Sorting.Map | src/App.tsx:260-262 | `map(g)` keeps the length and applies `g` at every position |
| Sorting.StableSortMap | src/App.tsx:223-254 | sorting commutes with a map that keeps every sort key |
| Sorting.InsertSplit | src/App.tsx:223-254 | an insertion puts the record right after the last element that the comparator does not place after it |
| Sorting.InsertInPlace | src/App.tsx:223-254 | one in-place step of the array sort equals the insertion step on the sorted prefix, and the rest of the array is untouched |
| Sorting.SortInPlace | src/App.tsx:223 | `filtered.sort(comparator)` in place: the array ends as the stable sort of its old contents |
| FilterEngine.Keep | src/App.tsx:177-220 | one `filtered.filter(test)` pass over the list (its meaning is stated by `KeepSpec` and `KeepCount`) |
| FilterEngine.KeepSpec | src/App.tsx:177-220 | one filter pass keeps, in order, exactly the records that pass its test |
| FilterEngine.KeepCount | src/App.tsx:177-220 | one filter pass keeps each passing record as often as it occurs and drops every other record |
| FilterEngine.SearchHit | src/App.tsx:214-219 | the search test: the lower-cased title, description, brand name (when present) or some tag contains the lower-cased query |
| FilterEngine.SelectUpTo | src/App.tsx:174-220 | the survivors of the first `n` passes are a subsequence of the input and hold exactly the input records that get through those passes |
| FilterEngine.SelectUpToCount | src/App.tsx:174-220 | the survivors of the first `n` passes hold each admitted record as often as the input does, and no other record |
| FilterEngine.Select | src/App.tsx:174-220 | the records that get through all eight passes, in input order (its meaning is stated by `SelectUpTo`, `SelectUpToCount` and `MatchesIff`) |
| FilterEngine.AdmittedUpToEach | src/App.tsx:176-220 | getting through the first `n` passes is getting through each of them, where a pass with an empty list or an empty search admits everything |
| FilterEngine.MatchesIff | src/App.tsx:176-220 | a record survives every filter exactly when each non-empty list holds the record's value for its dimension and a non-empty search hits the title, the description, the brand name or a tag |
| FilterEngine.SelectSameCriteria | src/App.tsx:176-220 | two queries with the same seven lists and the same search select the same records; the sort settings play no part |
| FilterEngine.SelectNoFilter | src/App.tsx:174-220 | when every list and the search are empty, nothing is removed |
| FilterEngine.SelectUpToZero | src/App.tsx:174 | before any pass, the working list is the whole catalogue |
| FilterEngine.StageStep | src/App.tsx:176-220 | running pass `n` when it is active gives the survivors of the first `n + 1` passes; skipping it when inactive does too |
| FilterEngine.EngagementOf | src/App.tsx:232-233 | `engagementScore \|\| 0`: the score when there is one, otherwise 0 |
| FilterEngine.RelevanceOf | src/App.tsx:237-242 | the relevance score lies in 0..3. It is at least 2 exactly when the title contains the query, and odd exactly when the description contains it |
| FilterEngine.SortValue | src/App.tsx:226-251 | relevance sorting with a search gives a score in 0..3; relevance sorting without a search falls back to the engagement score |
| FilterEngine.View | src/App.tsx:173-257 | the visible list is a permutation of the records that pass every filter |
| FilterEngine.ViewMembers | src/App.tsx:173-257 | a record is visible exactly when it is in the catalogue and passes every filter. Each matching record is shown exactly as often as it occurs in the catalogue |
| FilterEngine.ViewSorted | src/App.tsx:223-254 | visible records are ordered by sort value: non-increasing for `desc`, non-decreasing for `asc` |
| FilterEngine.ViewStable | src/App.tsx:223-254 | visible records with equal sort values keep their catalogue order |
| FilterEngine.ViewNoFilter | src/App.tsx:173-257 | with no active filter, every record is visible exactly as often as it occurs in the catalogue |
| FilterEngine.FilterPasses | src/App.tsx:174-220 | running the active passes in pipeline order, each narrowing the working list, yields the selected records |
| FilterEngine.ApplyFilters | src/App.tsx:173-257 | the effect body (filter passes, then an in-place sort of a copy) computes exactly `View` |
| FilterSidebar.ToggleValue | src/components/filters/FilterSidebar.tsx:58-68 | checking appends the value (duplicates included). Unchecking removes every occurrence and keeps the other values in order. No other part of the query changes |
| FilterSidebar.SetSortBy | src/components/filters/FilterSidebar.tsx:70-75 | only the sort key changes |
| FilterSidebar.SetSortOrder | src/components/filters/FilterSidebar.tsx:77-82 | only the sort order changes |
| FilterSidebar.ClearAll | src/components/filters/FilterSidebar.tsx:84-97 | clearing gives the app's initial query, in which no filter is active and the count is 0 |
| FilterSidebar.ActiveCount | src/components/filters/FilterSidebar.tsx:99-106 | the count is 0 exactly when all six category lists are empty |
| FilterSidebar.ActiveCountIgnoresPlatformsAndSearch | src/components/filters/FilterSidebar.tsx:99-106 | queries that agree on the six category lists have the same count, whatever their platforms and search |
| FilterSidebar.CheckThenUncheck | src/components/filters/FilterSidebar.tsx:58-68 | checking a value that was not selected and then unchecking it restores the query |
| FilterSidebar.ToggleCount | src/components/filters/FilterSidebar.tsx:58-68 | checking adds one to the count; unchecking subtracts the number of times the value was selected |
| FilterSidebar.CheckWidens | src/components/filters/FilterSidebar.tsx:58-68 | checking one more value in a category that already has a selection never hides a visible record |
| FilterSidebar.SortChangeKeepsRecords | src/components/filters/FilterSidebar.tsx:70-82 | changing the sort key or the sort order keeps the same visible records with the same multiplicities |
| PlatformTabs.TabSelection | src/components/layout/PlatformTabs.tsx:20-26 | the "all" tab clears the platform list; any other tab selects exactly itself; the highlighted tab afterwards is the one clicked |
| PlatformTabs.ActiveTab | src/components/layout/PlatformTabs.tsx:28 | an empty selection highlights "all", otherwise the first selected platform |
| PlatformTabs.SelectionRoundTrip | src/components/layout/PlatformTabs.tsx:20-28 | every selection a tab can produce is produced again by clicking the highlighted tab |
| PlatformTabs.Badge | src/components/layout/PlatformTabs.tsx:46-49 | the "all" badge is the sum of the counts; a platform's badge is its stored count, or 0 when it has none |
| Tally.LookupSpec | src/App.tsx:294 | reading `counts[k]` yields a count exactly when `k` is a key, and that count belongs to `k`'s entry |
| Tally.Bump | src/App.tsx:294 | `counts[k] = (counts[k] \|\| 0) + 1` adds one to `k`'s count and leaves every other key's count alone |
| Tally.LookupBump | src/App.tsx:294 | after bumping `a`, the count read under `b` has grown by one if `a` is `b` and is unchanged otherwise |
| Tally.BumpKeys | src/App.tsx:294 | a bump keeps an existing key in its place and adds a new key last |
| Tally.BumpTotal | src/App.tsx:294 | a bump raises the sum of the counts by exactly one |
| Tally.BumpDistinct | src/App.tsx:294 | a bump never creates a duplicate key |
| AdStore.ToggleBookmark | src/App.tsx:259-263 | the bookmark flag flips on exactly the ads with the given id. No other field and no other ad changes, and the length stays the same |
| AdStore.ToggleTwice | src/App.tsx:259-263 | bookmarking the same id twice restores the catalogue |
| AdStore.BookmarkKeepsView | src/App.tsx:259-263 | bookmarking changes neither which ads are visible nor their order: the new visible list is the old one with the same flags flipped |
| AdStore.SelectMap | src/App.tsx:176-220 | filtering commutes with a map that keeps every record's verdict |
| AdStore.OwnerOf | src/App.tsx:269 | the owner is the user's id when there is a non-empty one, else "anonymous"; it is never empty |
| AdStore.NewAd | src/App.tsx:265-271 | the new ad carries the draft's fields, the given id and the owner. It is not bookmarked and has no engagement score |
| AdStore.CountsOf | src/App.tsx:284-298 | the counts `getAdCounts` returns: the five zero entries, bumped once per ad in catalogue order (their meaning is stated by `CountsLookup`, `CountsTotal`, `CountsKeys` and `CountsDistinct`) |
| AdStore.CountsKeys | src/App.tsx:284-298 | the counts have exactly the five platform keys, in tab order |
| AdStore.CountsDistinct | src/App.tsx:284-298 | no platform key occurs twice in the counts |
| AdStore.InitialLookup | src/App.tsx:285-291 | before any ad is counted, every platform's count is 0 |
| AdStore.CountsLookup | src/App.tsx:284-298 | each platform's count is the number of ads on that platform |
| AdStore.CountsTotal | src/App.tsx:284-298 | the counts add up to the number of ads |
| AdStore.BadgesOfCounts | src/components/layout/PlatformTabs.tsx:46-49 | the "all" badge shows the number of ads and each platform's badge the number of ads on it |
| AdStore.AdLibrary.constructor | src/App.tsx:144-157 | the catalogue starts with the given ads, the initial query and its visible list |
| AdStore.AdLibrary.Refresh | src/App.tsx:173-257 | the effect re-establishes `filteredAds == View(ads, filters)` without touching the catalogue or the query |
| AdStore.AdLibrary.Bookmark | src/App.tsx:259-263 | the catalogue becomes its bookmark toggle; the query is unchanged; the visible list follows |
| AdStore.AdLibrary.AddAd | src/App.tsx:265-273 | the new ad is put first and the other ads follow unchanged; the visible list follows |
| AdStore.AdLibrary.SetFilters | src/App.tsx:365 | the sidebar's query replaces the current one; the visible list follows |
| AdStore.AdLibrary.Search | src/App.tsx:333 | only the search string changes; the visible list follows |
| AdStore.AdLibrary.SelectTab | src/App.tsx:343 | only the platform list changes, to the tab's selection, and the same tab is highlighted afterwards |
| AdStore.AdLibrary.ActiveFiltersCount | src/App.tsx:275-282 | the header's count agrees with the sidebar's count and is 0 exactly when no category value is selected |
| AdStore.AdLibrary.AdCounts | src/App.tsx:284-298 | the `forEach` loop computes the counts, one bump per ad in catalogue order |
| AddAdForm.With | src/components/modals/AddAdModal.tsx:86-88 | the edited field gets the value; every other field keeps its own |
| AddAdForm.SubmitEnabled | src/components/modals/AddAdModal.tsx:433 | the negation of the `disabled` expression: none of the nine required fields is empty |
| AddAdForm.SubmitEnabledIff | src/components/modals/AddAdModal.tsx:433 | the submit button is enabled exactly when none of the nine required fields is empty |
| AddAdForm.OptionalFieldIrrelevant | src/components/modals/AddAdModal.tsx:433 | editing an optional field (image URL, brand name, call to action, target audience, tags) never enables or disables the submit button |
| AddAdForm.TrimAll | src/components/modals/AddAdModal.tsx:125 | `map(tag => tag.trim())` trims every piece and keeps the count |
| AddAdForm.TrimmedPieces | src/components/modals/AddAdModal.tsx:125 | each trimmed piece of the comma split contains no comma and is unchanged by another trim |
| AddAdForm.BlankPieces | src/components/modals/AddAdModal.tsx:125 | an input made only of commas and white space trims to empty pieces |
| AddAdForm.ParseTags | src/components/modals/AddAdModal.tsx:125 | no tag is empty, holds a comma, or has white space at either end. There is at most one more tag than there are commas. The tags are the trimmed pieces in input order with exactly the empty ones removed: every non-empty piece is kept as often as it occurs. An input of only commas and white space gives no tag |
| AddAdForm.DraftOf | src/components/modals/AddAdModal.tsx:123-128 | the draft carries every form field, the platform the form's identifier names, the parsed tags and the creation time. It is not bookmarked |
| AddAdForm.AdForm.constructor | src/components/modals/AddAdModal.tsx:67-82 | the form opens with every field empty |
| AddAdForm.AdForm.SetField | src/components/modals/AddAdModal.tsx:86-88 | `handleInputChange` sets one field, and the platform field stays empty or one of the five identifiers |
| AddAdForm.AdForm.Submit | src/components/modals/AddAdModal.tsx:120-150 | submitting hands over the draft built from the form as it was, then resets every field to empty |
| DownloadName.ReplaceNonAlnum | src/components/modals/AdDetailModal.tsx:53 | `replace(/[^a-z0-9]/gi, '_')` keeps the length, keeps ASCII letters and digits, and turns every other character into one underscore |
| DownloadName.Stem | src/components/modals/AdDetailModal.tsx:53 | the stem has the title's length and consists of lower-case letters, digits and underscores. Upper-case ASCII letters are lowered, lower-case ASCII letters and digits are kept, and every other character becomes `_`, including non-ASCII letters such as `é` |
| DownloadName.DownloadFileName | src/components/modals/AdDetailModal.tsx:53 | the file name is the stem followed by `.jpg` |
| DownloadName.StemIdempotent | src/components/modals/AdDetailModal.tsx:53 | sanitising a stem again leaves it unchanged |

## Left out

- Authentication is not modelled: the sign-in subscription, the loading screen and the signed-out screen. The signed-in user appears only as an optional id passed to `AddAd`.
- Rendering is not modelled: view mode, modal visibility, the header, the grid and the cards. None of them computes anything the catalogue depends on.
- `Date.now().toString()` (the new ad's id) and `new Date().toISOString()` (its creation time) are parameters of `AdLibrary.AddAd` and `AdForm.Submit`. The model does not claim that ids are unique.
- `createdAt`, a string in the ad type, is modelled as the integer timestamp that `new Date(createdAt).getTime()` gives. Unparsable dates (`NaN`) and the floating-point arithmetic of the comparator are not modelled. The sort values are integers, and so are engagement scores.
- The unreachable `default` branch of the `sortBy` switch is not modelled: the sort key is one of the three values.
- React scheduling is not modelled. Each handler calls `Refresh` right away, so the visible list is never stale. The initial `filteredAds`, which equals the unsorted sample data until the effect first runs, is not modelled.
- The sorting algorithm of the JavaScript engine is not modelled. Any stable sort with this comparator gives the same order, and the model uses an insertion sort.
- The eight `if`s of the filter effect are modelled as one loop over a table of passes in the same order.
- JsText.LowerChar: lowers only ASCII and Latin-1 letters, not the whole Unicode case mapping of `toLowerCase`.
- Strings are sequences of Unicode scalar values, not UTF-16 code units. So a character outside the Basic Multilingual Plane becomes one `_` in a download name, not two.
- AddAdForm.AdForm.SetField: requires a platform value to be one of the five identifiers, because the form's selector offers nothing else. The source accepts any field name as a string, and the model has exactly the fourteen fields of the form.
- AddAdForm.AdForm.Submit: requires the submit predicate, because the button is disabled otherwise. Closing the dialog (`onClose`) is not modelled.
- The image upload (`FileReader`, drag and drop), copy to the clipboard, sharing, and the anchor click of the download are browser I/O and are not modelled.
