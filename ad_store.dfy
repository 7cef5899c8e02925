/**
 * The app root's catalogue state: the list of ads, the current query and the
 * visible list the filter effect derives from both, with the handlers that
 * change them and the per-platform counts shown on the tabs.
 */
module AdStore {
  import opened AdModel
  import opened Sorting
  import opened FilterEngine
  import opened FilterSidebar
  import opened Tally
  import opened PlatformTabs

  /** `ad.id === id ? { ...ad, isBookmarked: !ad.isBookmarked } : ad`. */
  function ToggleIfId(id: string): Ad -> Ad {
    (ad: Ad) => if ad.id == id then ad.(isBookmarked := !ad.isBookmarked) else ad
  }

  /** `handleBookmark(id)`: the bookmark flag flips on exactly the ads whose id
      is `id`; no other field and no other ad changes, and the length and
      order stay as they were. */
  function ToggleBookmark(ads: seq<Ad>, id: string): (r: seq<Ad>)
    ensures |r| == |ads|
    ensures forall i :: 0 <= i < |ads| ==> r[i].(isBookmarked := ads[i].isBookmarked) == ads[i]
    ensures forall i :: 0 <= i < |ads| ==> (r[i].isBookmarked != ads[i].isBookmarked <==> ads[i].id == id)
  {
    Map(ads, ToggleIfId(id))
  }

  /** Bookmarking the same id twice restores the list. */
  lemma ToggleTwice(ads: seq<Ad>, id: string)
    ensures ToggleBookmark(ToggleBookmark(ads, id), id) == ads
  {
    var once := ToggleBookmark(ads, id);
    var twice := ToggleBookmark(once, id);
    forall i | 0 <= i < |ads| ensures twice[i] == ads[i] {
      assert once[i].id == ads[i].id;
    }
  }

  /** A bookmark flag plays no part in the filters or the sort, so toggling
      it changes neither which ads are visible nor their order: the visible
      list of the new catalogue is the old visible list with the same flags
      flipped. */
  lemma BookmarkKeepsView(ads: seq<Ad>, f: FilterOptions, id: string)
    ensures View(ToggleBookmark(ads, id), f) == ToggleBookmark(View(ads, f), id)
  {
    var g := ToggleIfId(id);
    forall ad ensures Matches(g(ad), f) == Matches(ad, f) && SortKey(f)(g(ad)) == SortKey(f)(ad) {
      MatchesIff(ad, f);
      MatchesIff(g(ad), f);
      assert forall d :: FieldValue(g(ad), d) == FieldValue(ad, d);
    }
    SelectMap(ads, f, g);
    StableSortMap(Select(ads, f), SortKey(f), f.sortOrder == Desc, g);
  }

  /** Selecting commutes with a map that keeps every record's verdict. */
  lemma {:induction false} SelectMap(s: seq<Ad>, f: FilterOptions, g: Ad -> Ad)
    requires forall ad :: Matches(g(ad), f) == Matches(ad, f)
    ensures Select(Map(s, g), f) == Map(Select(s, f), g)
  {
    if s != [] {
      assert Map(s, g)[1..] == Map(s[1..], g);
      SelectMap(s[1..], f, g);
      if Matches(s[0], f) {
        assert Map([s[0]] + Select(s[1..], f), g) == [g(s[0])] + Map(Select(s[1..], f), g);
      }
    }
  }

  /** `user?.id || 'anonymous'`: the signed-in user's id unless there is none
      or it is empty. */
  function OwnerOf(user: Option<string>): (r: string)
    ensures r != ""
    ensures user.Some? && user.value != "" ==> r == user.value
    ensures user.None? || user.value == "" ==> r == "anonymous"
  {
    if user.Some? && user.value != "" then user.value else "anonymous"
  }

  /** The ad `handleAddAd` builds from a draft: the draft's fields, the given
      id, the owner, no bookmark and no engagement score. The form's optional
      text fields arrive as (possibly empty) strings, so they are present. */
  function NewAd(d: AdDraft, id: string, user: Option<string>): (r: Ad)
    ensures r.id == id && r.userId == OwnerOf(user) && !r.isBookmarked
    ensures r.engagementScore.None?
    ensures r.title == d.title && r.description == d.description && r.imageUrl == d.imageUrl
    ensures r.platform == d.platform && r.tags == d.tags && r.createdAt == d.createdAt
    ensures r.industry == d.industry && r.angle == d.angle && r.campaignGoal == d.campaignGoal
    ensures r.adFormat == d.adFormat && r.funnelStage == d.funnelStage && r.targetGroup == d.targetGroup
    ensures r.brandName == Some(d.brandName) && r.ctaText == Some(d.ctaText)
    ensures r.targetAudience == Some(d.targetAudience)
  {
    Ad(id, d.title, d.description, d.imageUrl, d.platform, d.industry, d.angle, d.campaignGoal,
      d.adFormat, d.funnelStage, d.targetGroup, d.tags, d.createdAt, OwnerOf(user), false, None,
      Some(d.brandName), Some(d.ctaText), Some(d.targetAudience))
  }

  /** The counts before any ad is seen: every platform at 0, in tab order. */
  const InitialCounts: Counts := [
    Entry("google-ads", 0), Entry("bing-ads", 0), Entry("linkedin-ads", 0),
    Entry("meta-ads", 0), Entry("pinterest-ads", 0)]

  /** The number of ads on platform `p`. */
  function PlatformCount(ads: seq<Ad>, p: Platform): nat {
    if ads == [] then 0
    else PlatformCount(ads[..|ads| - 1], p) + (if ads[|ads| - 1].platform == p then 1 else 0)
  }

  /** The counts `getAdCounts` returns, one bump per ad in list order. */
  function CountsOf(ads: seq<Ad>): Counts {
    if ads == [] then InitialCounts
    else Bump(CountsOf(ads[..|ads| - 1]), PlatformId(ads[|ads| - 1].platform))
  }

  /** The counts have exactly the five platform keys, in tab order. */
  lemma {:induction false} CountsKeys(ads: seq<Ad>)
    ensures Keys(CountsOf(ads)) == PlatformIds
  {
    if ads != [] {
      var init, q := ads[..|ads| - 1], ads[|ads| - 1].platform;
      CountsKeys(init);
      PlatformIdRoundTrip(q);
      BumpKeys(CountsOf(init), PlatformId(q));
    }
  }

  /** No platform key occurs twice. */
  lemma {:induction false} CountsDistinct(ads: seq<Ad>)
    ensures DistinctKeys(CountsOf(ads))
  {
    if ads != [] {
      var init, q := ads[..|ads| - 1], ads[|ads| - 1].platform;
      CountsDistinct(init);
      BumpDistinct(CountsOf(init), PlatformId(q));
    }
  }

  /** Before any ad, every platform's entry is 0. */
  lemma InitialLookup(p: Platform)
    ensures Lookup(InitialCounts, PlatformId(p)) == Some(0)
  {
    match p
    case GoogleAds => assert Lookup(InitialCounts, "google-ads") == Some(0);
    case BingAds => assert Lookup(InitialCounts, "bing-ads") == Some(0);
    case LinkedInAds => assert Lookup(InitialCounts, "linkedin-ads") == Some(0);
    case MetaAds => assert Lookup(InitialCounts, "meta-ads") == Some(0);
    case PinterestAds => assert Lookup(InitialCounts, "pinterest-ads") == Some(0);
  }

  /** Each platform's entry holds the number of ads on that platform. */
  lemma {:induction false} CountsLookup(ads: seq<Ad>, p: Platform)
    ensures Lookup(CountsOf(ads), PlatformId(p)) == Some(PlatformCount(ads, p))
  {
    if ads == [] {
      InitialLookup(p);
    } else {
      var init, q := ads[..|ads| - 1], ads[|ads| - 1].platform;
      var n := PlatformCount(init, p);
      CountsLookup(init, p);
      LookupBump(CountsOf(init), PlatformId(q), PlatformId(p), n);
      PlatformIdInjective(q, p);
      assert PlatformCount(ads, p) == if q == p then n + 1 else n;
    }
  }

  /** The counts add up to the number of ads. */
  lemma {:induction false} CountsTotal(ads: seq<Ad>)
    ensures Total(CountsOf(ads)) == |ads|
  {
    if ads != [] {
      var init, q := ads[..|ads| - 1], ads[|ads| - 1].platform;
      CountsTotal(init);
      BumpTotal(CountsOf(init), PlatformId(q));
    }
  }

  /** The tab badges over the counts: the "all" badge is the number of ads,
      each platform's badge the number of ads on it. */
  lemma BadgesOfCounts(ads: seq<Ad>, p: Platform)
    ensures Badge(AllTab, CountsOf(ads)) == |ads|
    ensures Badge(PlatformId(p), CountsOf(ads)) == PlatformCount(ads, p)
  {
    CountsTotal(ads);
    CountsLookup(ads, p);
    assert PlatformId(p) != AllTab;
  }

  /** The catalogue state of the app root. The filter effect keeps
      `filteredAds` equal to the view of `ads` under `filters`. */
  class AdLibrary {
    var ads: seq<Ad>
    var filters: FilterOptions
    var filteredAds: seq<Ad>

    ghost predicate Valid()
      reads this
    {
      filteredAds == View(ads, filters)
    }

    /** The initial state: the given ads, the initial query, and the visible
        list the effect computes on mount. */
    constructor(initial: seq<Ad>)
      ensures ads == initial && filters == InitialFilters && Valid()
    {
      ads := initial;
      filters := InitialFilters;
      var visible := ApplyFilters(initial, InitialFilters);
      filteredAds := visible;
    }

    /** The effect, re-run after `ads` or `filters` changed. */
    method Refresh()
      modifies this
      ensures ads == old(ads) && filters == old(filters) && Valid()
    {
      filteredAds := ApplyFilters(ads, filters);
    }

    /** `handleBookmark(id)`. */
    method Bookmark(id: string)
      modifies this
      ensures ads == ToggleBookmark(old(ads), id) && filters == old(filters) && Valid()
    {
      ads := ToggleBookmark(ads, id);
      Refresh();
    }

    /** `handleAddAd`: the new ad goes first, the others follow unchanged. */
    method AddAd(draft: AdDraft, id: string, user: Option<string>)
      modifies this
      ensures ads == [NewAd(draft, id, user)] + old(ads) && filters == old(filters) && Valid()
    {
      ads := [NewAd(draft, id, user)] + ads;
      Refresh();
    }

    /** `onFiltersChange`: the sidebar hands over a whole new query. */
    method SetFilters(f: FilterOptions)
      modifies this
      ensures ads == old(ads) && filters == f && Valid()
    {
      filters := f;
      Refresh();
    }

    /** `onSearchChange`: only the search string changes. */
    method Search(query: string)
      modifies this
      ensures ads == old(ads) && filters == old(filters).(searchQuery := query) && Valid()
    {
      filters := filters.(searchQuery := query);
      Refresh();
    }

    /** A platform tab was clicked: the platform list becomes the tab's
        selection and the same tab is highlighted afterwards. */
    method SelectTab(value: string)
      modifies this
      ensures ads == old(ads) && filters == old(filters).(platforms := TabSelection(value)) && Valid()
      ensures ActiveTab(filters.platforms) == value
    {
      filters := filters.(platforms := TabSelection(value));
      Refresh();
    }

    /** `getActiveFiltersCount`, the same count the sidebar shows. */
    function ActiveFiltersCount(): (r: nat)
      reads this
      ensures r == ActiveCount(filters)
      ensures r == 0 <==> forall c :: Values(filters, CategoryDim(c)) == []
    {
      |filters.industries| + |filters.angles| + |filters.campaignGoals| + |filters.adFormats|
      + |filters.funnelStages| + |filters.targetGroups|
    }

    /** `getAdCounts`: one counter per platform, bumped once per ad. */
    method AdCounts() returns (counts: Counts)
      ensures counts == CountsOf(ads)
    {
      counts := InitialCounts;
      assert counts == CountsOf(ads[..0]) by { assert ads[..0] == []; }
      for i := 0 to |ads|
        invariant counts == CountsOf(ads[..i])
      {
        assert CountsOf(ads[..i + 1]) == Bump(CountsOf(ads[..i]), PlatformId(ads[i].platform)) by {
          assert ads[..i + 1][..i] == ads[..i];
        }
        counts := Bump(counts, PlatformId(ads[i].platform));
      }
      assert ads[..|ads|] == ads;
    }
  }
}
