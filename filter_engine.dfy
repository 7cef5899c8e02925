/**
 * The filter/search/sort effect of the app root: seven dimension filters,
 * a case-insensitive text search and one comparator-driven stable sort.
 */
module FilterEngine {
  import opened AdModel
  import opened JsText
  import opened Seqs
  import opened Sorting

  /** One pass of the effect: a dimension membership test or the text search. */
  datatype Stage = DimensionStage(d: Dimension) | SearchStage

  /** The passes in the order the effect runs them. */
  const Pipeline: seq<Stage> := [
    DimensionStage(PlatformDim),
    DimensionStage(CategoryDim(Industries)),
    DimensionStage(CategoryDim(Angles)),
    DimensionStage(CategoryDim(CampaignGoals)),
    DimensionStage(CategoryDim(AdFormats)),
    DimensionStage(CategoryDim(FunnelStages)),
    DimensionStage(CategoryDim(TargetGroups)),
    SearchStage]

  /** A pass runs only when its list is non-empty or the search string is non-empty. */
  predicate Active(f: FilterOptions, st: Stage) {
    match st
    case DimensionStage(d) => |Values(f, d)| > 0
    case SearchStage => f.searchQuery != ""
  }

  /** `tags.some(tag => tag.toLowerCase().includes(q))`. */
  predicate AnyTagContains(tags: seq<string>, q: string) {
    exists t :: t in tags && Contains(ToLower(t), q)
  }

  /** The search test against an already lower-cased query: title, description,
      the brand name when there is one, or some tag contains it. */
  predicate SearchHit(ad: Ad, q: string) {
    || Contains(ToLower(ad.title), q)
    || Contains(ToLower(ad.description), q)
    || (ad.brandName.Some? && Contains(ToLower(ad.brandName.value), q))
    || AnyTagContains(ad.tags, q)
  }

  /** The test a pass applies to each record. */
  predicate Passes(ad: Ad, f: FilterOptions, st: Stage) {
    match st
    case DimensionStage(d) => FieldValue(ad, d) in Values(f, d)
    case SearchStage => SearchHit(ad, ToLower(f.searchQuery))
  }

  /** A record gets through a pass if the pass is skipped or its test holds. */
  predicate Admits(ad: Ad, f: FilterOptions, st: Stage) {
    !Active(f, st) || Passes(ad, f, st)
  }

  /** `filtered.filter(test)` for one pass. */
  function Keep(s: seq<Ad>, f: FilterOptions, st: Stage): seq<Ad> {
    if s == [] then []
    else if Passes(s[0], f, st) then [s[0]] + Keep(s[1..], f, st)
    else Keep(s[1..], f, st)
  }

  /** A pass keeps, in order, exactly the records that pass its test. */
  lemma {:induction false} KeepSpec(s: seq<Ad>, f: FilterOptions, st: Stage)
    ensures IsSubsequence(Keep(s, f, st), s)
    ensures forall x :: x in Keep(s, f, st) <==> x in s && Passes(x, f, st)
  {
    if s != [] {
      KeepSpec(s[1..], f, st);
    }
  }

  /** A pass keeps every passing record as often as it occurs, and drops
      every other record. */
  lemma {:induction false} KeepCount(s: seq<Ad>, f: FilterOptions, st: Stage, x: Ad)
    ensures multiset(Keep(s, f, st))[x] == if Passes(x, f, st) then multiset(s)[x] else 0
  {
    if s != [] {
      KeepCount(s[1..], f, st, x);
      assert s == [s[0]] + s[1..];
    }
  }

  /** The record gets through the first `n` passes. */
  predicate AdmittedUpTo(ad: Ad, f: FilterOptions, n: nat)
    requires n <= |Pipeline|
  {
    n == 0 || (AdmittedUpTo(ad, f, n - 1) && Admits(ad, f, Pipeline[n - 1]))
  }

  /** The records of `s` that get through the first `n` passes, in input order. */
  function SelectUpTo(s: seq<Ad>, f: FilterOptions, n: nat): (r: seq<Ad>)
    requires n <= |Pipeline|
    ensures IsSubsequence(r, s)
    ensures forall x :: x in r <==> x in s && AdmittedUpTo(x, f, n)
  {
    if s == [] then []
    else
      var rest := SelectUpTo(s[1..], f, n);
      if AdmittedUpTo(s[0], f, n) then [s[0]] + rest else rest
  }

  /** The survivors of the first `n` passes hold every admitted record as
      often as the input does, and no other record. */
  lemma {:induction false} SelectUpToCount(s: seq<Ad>, f: FilterOptions, n: nat, x: Ad)
    requires n <= |Pipeline|
    ensures multiset(SelectUpTo(s, f, n))[x] == if AdmittedUpTo(x, f, n) then multiset(s)[x] else 0
  {
    if s != [] {
      SelectUpToCount(s[1..], f, n, x);
      assert s == [s[0]] + s[1..];
    }
  }

  /** The record passes every filter of the query. */
  predicate Matches(ad: Ad, f: FilterOptions) {
    AdmittedUpTo(ad, f, |Pipeline|)
  }

  /** The records of `s` that pass every filter, in input order. */
  function Select(s: seq<Ad>, f: FilterOptions): seq<Ad> {
    SelectUpTo(s, f, |Pipeline|)
  }

  /** No pass is active: all seven lists and the search string are empty. */
  predicate NoFilter(f: FilterOptions) {
    && f.platforms == [] && f.industries == [] && f.angles == [] && f.campaignGoals == []
    && f.adFormats == [] && f.funnelStages == [] && f.targetGroups == [] && f.searchQuery == ""
  }

  /** Getting through the first `n` passes is getting through each of them. */
  lemma {:induction false} AdmittedUpToEach(ad: Ad, f: FilterOptions, n: nat)
    requires n <= |Pipeline|
    ensures AdmittedUpTo(ad, f, n) <==> forall i :: 0 <= i < n ==> Admits(ad, f, Pipeline[i])
  {
    if n > 0 {
      AdmittedUpToEach(ad, f, n - 1);
    }
  }

  /** What passing all filters means: every non-empty list holds the record's
      value for its dimension, and a non-empty search hits the record. */
  lemma MatchesIff(ad: Ad, f: FilterOptions)
    ensures Matches(ad, f) <==>
      (forall d :: |Values(f, d)| == 0 || FieldValue(ad, d) in Values(f, d))
      && (f.searchQuery == "" || SearchHit(ad, ToLower(f.searchQuery)))
  {
    AdmittedUpToEach(ad, f, |Pipeline|);
    if Matches(ad, f) {
      forall d ensures |Values(f, d)| == 0 || FieldValue(ad, d) in Values(f, d) {
        match d
        case PlatformDim => assert Admits(ad, f, Pipeline[0]);
        case CategoryDim(Industries) => assert Admits(ad, f, Pipeline[1]);
        case CategoryDim(Angles) => assert Admits(ad, f, Pipeline[2]);
        case CategoryDim(CampaignGoals) => assert Admits(ad, f, Pipeline[3]);
        case CategoryDim(AdFormats) => assert Admits(ad, f, Pipeline[4]);
        case CategoryDim(FunnelStages) => assert Admits(ad, f, Pipeline[5]);
        case CategoryDim(TargetGroups) => assert Admits(ad, f, Pipeline[6]);
      }
      assert Admits(ad, f, Pipeline[7]);
    }
  }

  /** Queries with the same seven lists and search string select the same
      records: the sort key and order play no part in the filtering. */
  lemma {:induction false} SelectSameCriteria(s: seq<Ad>, f: FilterOptions, g: FilterOptions)
    requires forall d :: Values(f, d) == Values(g, d)
    requires f.searchQuery == g.searchQuery
    ensures Select(s, f) == Select(s, g)
  {
    if s != [] {
      SelectSameCriteria(s[1..], f, g);
      AdmittedUpToEach(s[0], f, |Pipeline|);
      AdmittedUpToEach(s[0], g, |Pipeline|);
      forall i | 0 <= i < |Pipeline| ensures Admits(s[0], f, Pipeline[i]) == Admits(s[0], g, Pipeline[i]) {
        if Pipeline[i].DimensionStage? {
          assert Values(f, Pipeline[i].d) == Values(g, Pipeline[i].d);
        }
      }
    }
  }

  /** With no active pass, nothing is removed. */
  lemma {:induction false} SelectNoFilter(s: seq<Ad>, f: FilterOptions)
    requires NoFilter(f)
    ensures Select(s, f) == s
  {
    if s != [] {
      SelectNoFilter(s[1..], f);
      assert Matches(s[0], f) by { MatchesIff(s[0], f); }
    }
  }

  /** Before any pass, every record is there. */
  lemma {:induction false} SelectUpToZero(s: seq<Ad>, f: FilterOptions)
    ensures SelectUpTo(s, f, 0) == s
  {
    if s != [] {
      SelectUpToZero(s[1..], f);
    }
  }

  /** Running pass `n` (when active) on the survivors of the first `n` passes
      gives the survivors of the first `n + 1` passes. */
  lemma {:induction false} StageStep(s: seq<Ad>, f: FilterOptions, n: nat)
    requires n < |Pipeline|
    ensures SelectUpTo(s, f, n + 1) ==
      if Active(f, Pipeline[n]) then Keep(SelectUpTo(s, f, n), f, Pipeline[n]) else SelectUpTo(s, f, n)
  {
    if s != [] {
      StageStep(s[1..], f, n);
    }
  }

  /** `engagementScore || 0`. */
  function EngagementOf(ad: Ad): int {
    match ad.engagementScore
    case Some(v) => v
    case None => 0
  }

  /** The relevance score against a lower-cased query: 2 for a title hit plus
      1 for a description hit. */
  function RelevanceOf(ad: Ad, q: string): (r: int)
    ensures 0 <= r <= 3
    ensures r >= 2 <==> Contains(ToLower(ad.title), q)
    ensures r % 2 == 1 <==> Contains(ToLower(ad.description), q)
  {
    (if Contains(ToLower(ad.title), q) then 2 else 0)
    + (if Contains(ToLower(ad.description), q) then 1 else 0)
  }

  /** The value the comparator reads off a record for the chosen sort key. */
  function SortValue(ad: Ad, f: FilterOptions): (r: int)
    ensures f.sortBy == Relevance && f.searchQuery != "" ==> 0 <= r <= 3
    ensures f.sortBy == Relevance && f.searchQuery == "" ==> r == EngagementOf(ad)
  {
    match f.sortBy
    case Date => ad.createdAt
    case Engagement => EngagementOf(ad)
    case Relevance =>
      if f.searchQuery != "" then RelevanceOf(ad, ToLower(f.searchQuery)) else EngagementOf(ad)
  }

  /** The sort key the comparator reads off each record. */
  function SortKey(f: FilterOptions): Ad -> int {
    ad => SortValue(ad, f)
  }

  /** The visible list: the records passing every filter, in the comparator's
      stable order. It is a permutation of the selected records. */
  function View(s: seq<Ad>, f: FilterOptions): (r: seq<Ad>)
    ensures multiset(r) == multiset(Select(s, f))
  {
    var sel := Select(s, f);
    assert multiset(StableSort(sel, SortKey(f), f.sortOrder == Desc)) == multiset(sel) by {
      StableSortCorrect(sel, SortKey(f), f.sortOrder == Desc);
    }
    StableSort(sel, SortKey(f), f.sortOrder == Desc)
  }

  /** The visible list holds exactly the matching records, each as often as
      in the input. */
  lemma ViewMembers(s: seq<Ad>, f: FilterOptions)
    ensures multiset(View(s, f)) <= multiset(s)
    ensures forall x :: x in View(s, f) <==> x in s && Matches(x, f)
    ensures forall x :: multiset(View(s, f))[x] == if Matches(x, f) then multiset(s)[x] else 0
  {
    var sel, r := Select(s, f), View(s, f);
    SubsequenceSubMultiset(sel, s);
    forall x ensures multiset(r)[x] == if Matches(x, f) then multiset(s)[x] else 0 {
      SelectUpToCount(s, f, |Pipeline|, x);
    }
    forall x ensures x in r <==> x in sel {
      assert x in r <==> x in multiset(r);
    }
  }

  /** The visible list is ordered by the sort value: non-increasing for
      `desc`, non-decreasing for `asc`. */
  lemma ViewSorted(s: seq<Ad>, f: FilterOptions)
    ensures forall i, j :: 0 <= i < j < |View(s, f)| ==>
      if f.sortOrder == Desc then SortValue(View(s, f)[i], f) >= SortValue(View(s, f)[j], f)
      else SortValue(View(s, f)[i], f) <= SortValue(View(s, f)[j], f)
  {
    var r := View(s, f);
    StableSortCorrect(Select(s, f), SortKey(f), f.sortOrder == Desc);
    forall i, j | 0 <= i < j < |r|
      ensures if f.sortOrder == Desc then SortValue(r[i], f) >= SortValue(r[j], f)
        else SortValue(r[i], f) <= SortValue(r[j], f)
    {
      assert Compare(r[i], r[j], SortKey(f), f.sortOrder == Desc) <= 0;
    }
  }

  /** Records with equal sort values keep their input order. */
  lemma ViewStable(s: seq<Ad>, f: FilterOptions)
    ensures forall k :: WithKey(View(s, f), SortKey(f), k) == WithKey(Select(s, f), SortKey(f), k)
  {
    StableSortCorrect(Select(s, f), SortKey(f), f.sortOrder == Desc);
  }

  /** With no active filter every record is visible, as often as in the input. */
  lemma ViewNoFilter(s: seq<Ad>, f: FilterOptions)
    requires NoFilter(f)
    ensures multiset(View(s, f)) == multiset(s)
  {
    SelectNoFilter(s, f);
  }

  /** The filter passes of the effect, in pipeline order: each active pass
      narrows `filtered` with its test, an inactive one leaves it alone. */
  method FilterPasses(ads: seq<Ad>, f: FilterOptions) returns (filtered: seq<Ad>)
    ensures filtered == Select(ads, f)
  {
    filtered := ads;
    SelectUpToZero(ads, f);
    for n := 0 to |Pipeline|
      invariant filtered == SelectUpTo(ads, f, n)
    {
      var st := Pipeline[n];
      StageStep(ads, f, n);
      if Active(f, st) {
        filtered := Keep(filtered, f, st);
      }
    }
  }

  /** The effect body: the filter passes, then `filtered.sort(comparator)`. */
  method ApplyFilters(ads: seq<Ad>, f: FilterOptions) returns (visible: seq<Ad>)
    ensures visible == View(ads, f)
  {
    var filtered := FilterPasses(ads, f);
    var a := new Ad[|filtered|](i requires 0 <= i < |filtered| => filtered[i]);
    assert a[..] == filtered;
    SortInPlace(a, SortKey(f), f.sortOrder == Desc);
    visible := a[..];
  }
}
