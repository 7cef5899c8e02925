/**
 * The filter sidebar's handlers. Each builds a new query from the current
 * one; the app root then re-runs the filter effect on it.
 */
module FilterSidebar {
  import opened AdModel
  import opened Seqs
  import opened FilterEngine

  /** `handleFilterChange(category, value, checked)`: checking appends the
      value to the category's list, duplicates included; unchecking removes
      every occurrence of it. No other part of the query changes. */
  function ToggleValue(f: FilterOptions, c: Category, value: string, checked: bool): (r: FilterOptions)
    ensures checked ==> Values(r, CategoryDim(c)) == Values(f, CategoryDim(c)) + [value]
    ensures !checked ==> value !in Values(r, CategoryDim(c))
    ensures !checked ==> IsSubsequence(Values(r, CategoryDim(c)), Values(f, CategoryDim(c)))
    ensures !checked ==> multiset(Values(r, CategoryDim(c))) == multiset(Values(f, CategoryDim(c)))[value := 0]
    ensures forall d :: d != CategoryDim(c) ==> Values(r, d) == Values(f, d)
    ensures r.searchQuery == f.searchQuery && r.sortBy == f.sortBy && r.sortOrder == f.sortOrder
  {
    var current := Values(f, CategoryDim(c));
    WithValues(f, CategoryDim(c), if checked then current + [value] else Without(current, value))
  }

  /** `handleSortChange`: only the sort key changes. */
  function SetSortBy(f: FilterOptions, sortBy: SortBy): (r: FilterOptions)
    ensures r.sortBy == sortBy
    ensures r.(sortBy := f.sortBy) == f
  {
    f.(sortBy := sortBy)
  }

  /** `handleSortOrderChange`: only the sort order changes. */
  function SetSortOrder(f: FilterOptions, sortOrder: SortOrder): (r: FilterOptions)
    ensures r.sortOrder == sortOrder
    ensures r.(sortOrder := f.sortOrder) == f
  {
    f.(sortOrder := sortOrder)
  }

  /** `clearAllFilters`: the query the app starts with, in which no filter is
      active and the active-filter count is 0. */
  function ClearAll(): (r: FilterOptions)
    ensures r == InitialFilters
    ensures NoFilter(r)
    ensures ActiveCount(r) == 0
  {
    FilterOptions([], [], [], [], [], [], [], "", Date, Desc)
  }

  /** `getActiveFiltersCount`: the number of selected category values. The
      platform list and the search string do not count. */
  function ActiveCount(f: FilterOptions): (r: nat)
    ensures r == 0 <==> forall c :: Values(f, CategoryDim(c)) == []
  {
    assert Values(f, CategoryDim(Industries)) == f.industries;
    assert Values(f, CategoryDim(Angles)) == f.angles;
    assert Values(f, CategoryDim(CampaignGoals)) == f.campaignGoals;
    assert Values(f, CategoryDim(AdFormats)) == f.adFormats;
    assert Values(f, CategoryDim(FunnelStages)) == f.funnelStages;
    assert Values(f, CategoryDim(TargetGroups)) == f.targetGroups;
    |f.industries| + |f.angles| + |f.campaignGoals| + |f.adFormats| + |f.funnelStages| + |f.targetGroups|
  }

  /** The count is the sum of the six category lengths: the platform list
      and the search string never change it. */
  lemma {:induction false} ActiveCountIgnoresPlatformsAndSearch(f: FilterOptions, g: FilterOptions)
    requires forall c :: Values(f, CategoryDim(c)) == Values(g, CategoryDim(c))
    ensures ActiveCount(f) == ActiveCount(g)
  {
    assert Values(f, CategoryDim(Industries)) == Values(g, CategoryDim(Industries));
    assert Values(f, CategoryDim(Angles)) == Values(g, CategoryDim(Angles));
    assert Values(f, CategoryDim(CampaignGoals)) == Values(g, CategoryDim(CampaignGoals));
    assert Values(f, CategoryDim(AdFormats)) == Values(g, CategoryDim(AdFormats));
    assert Values(f, CategoryDim(FunnelStages)) == Values(g, CategoryDim(FunnelStages));
    assert Values(f, CategoryDim(TargetGroups)) == Values(g, CategoryDim(TargetGroups));
  }

  /** Checking a value and unchecking it again restores the query when the
      value was not selected before. */
  lemma CheckThenUncheck(f: FilterOptions, c: Category, value: string)
    requires value !in Values(f, CategoryDim(c))
    ensures ToggleValue(ToggleValue(f, c, value, true), c, value, false) == f
  {
    var xs := Values(f, CategoryDim(c));
    WithoutAppended(xs, value);
    WithoutAbsent(xs, value);
    var r := ToggleValue(ToggleValue(f, c, value, true), c, value, false);
    assert Values(r, CategoryDim(c)) == xs;
    match c
    case Industries =>
    case Angles =>
    case CampaignGoals =>
    case AdFormats =>
    case FunnelStages =>
    case TargetGroups =>
  }

  /** Checking a value adds one to the active-filter count; unchecking takes
      off as many as the value was selected. */
  lemma ToggleCount(f: FilterOptions, c: Category, value: string)
    ensures ActiveCount(ToggleValue(f, c, value, true)) == ActiveCount(f) + 1
    ensures ActiveCount(ToggleValue(f, c, value, false))
      == ActiveCount(f) - multiset(Values(f, CategoryDim(c)))[value]
  {
    var xs := Values(f, CategoryDim(c));
    var on, off := ToggleValue(f, c, value, true), ToggleValue(f, c, value, false);
    assert |Values(off, CategoryDim(c))| == |xs| - multiset(xs)[value] by {
      assert Values(off, CategoryDim(c)) == Without(xs, value);
    }
    match c
    case Industries =>
    case Angles =>
    case CampaignGoals =>
    case AdFormats =>
    case FunnelStages =>
    case TargetGroups =>
  }

  /** Checking one more value in a category that already has a selection can
      only widen the visible list. */
  lemma CheckWidens(ads: seq<Ad>, f: FilterOptions, c: Category, value: string, x: Ad)
    requires Values(f, CategoryDim(c)) != []
    requires x in View(ads, f)
    ensures x in View(ads, ToggleValue(f, c, value, true))
  {
    var g := ToggleValue(f, c, value, true);
    ViewMembers(ads, f);
    ViewMembers(ads, g);
    MatchesIff(x, f);
    MatchesIff(x, g);
    forall d ensures |Values(g, d)| == 0 || FieldValue(x, d) in Values(g, d) {
      if d == CategoryDim(c) {
        assert FieldValue(x, d) in Values(f, d);
      }
    }
  }

  /** Changing the sort key or order keeps the same records visible, each as
      often as before; only their order can change. */
  lemma SortChangeKeepsRecords(ads: seq<Ad>, f: FilterOptions, sortBy: SortBy, sortOrder: SortOrder)
    ensures multiset(View(ads, SetSortBy(f, sortBy))) == multiset(View(ads, f))
    ensures multiset(View(ads, SetSortOrder(f, sortOrder))) == multiset(View(ads, f))
  {
    SelectSameCriteria(ads, SetSortBy(f, sortBy), f);
    SelectSameCriteria(ads, SetSortOrder(f, sortOrder), f);
  }
}
