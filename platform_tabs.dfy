/**
 * The platform tab strip: one tab per platform plus an "all" tab. A tab
 * selects the platform filter list, the list selects the highlighted tab,
 * and each tab shows a count badge.
 */
module PlatformTabs {
  import opened AdModel
  import opened Tally

  /** The identifier of the tab that clears the platform filter. */
  const AllTab: string := "all"

  /** `handleTabChange(value)`: the "all" tab clears the platform list, any
      other tab selects exactly its own identifier. Reading the highlighted
      tab back from the result gives the tab that was chosen. */
  function TabSelection(value: string): (r: seq<string>)
    ensures |r| <= 1
    ensures r == [] <==> value == AllTab
    ensures ActiveTab(r) == value
  {
    if value == AllTab then [] else [value]
  }

  /** `activeTab`: "all" for an empty selection, otherwise its first entry. */
  function ActiveTab(selected: seq<string>): (r: string)
    ensures selected == [] ==> r == AllTab
    ensures selected != [] ==> r == selected[0]
  {
    if |selected| == 0 then AllTab else selected[0]
  }

  /** Every selection a tab can produce is given back by clicking the
      highlighted tab again. */
  lemma SelectionRoundTrip(selected: seq<string>)
    requires |selected| <= 1 && selected != [AllTab]
    ensures TabSelection(ActiveTab(selected)) == selected
  {
    if selected != [] {
      assert selected == [selected[0]];
    }
  }

  /** The badge of a tab: for "all" the sum of every count, for a platform its
      own count, 0 when it has none. */
  function Badge(tabId: string, counts: Counts): (r: int)
    ensures tabId == AllTab ==> r == Total(counts)
    ensures tabId != AllTab && tabId !in Keys(counts) ==> r == 0
    ensures tabId != AllTab && tabId in Keys(counts) ==> Entry(tabId, r) in counts
  {
    LookupSpec(counts, tabId);
    if tabId == AllTab then Total(counts) else CountOr0(counts, tabId)
  }
}
