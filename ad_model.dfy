/**
 * The entity model of the ad library: the `Ad` record and the
 * `FilterOptions` query descriptor.
 */
module AdModel {

  datatype Option<T> = None | Some(value: T)

  /** The five advertising platforms an ad can belong to. */
  datatype Platform = GoogleAds | BingAds | LinkedInAds | MetaAds | PinterestAds

  /** The platform's identifier as it appears in `Ad.platform` and in filter lists. */
  function PlatformId(p: Platform): string {
    match p
    case GoogleAds => "google-ads"
    case BingAds => "bing-ads"
    case LinkedInAds => "linkedin-ads"
    case MetaAds => "meta-ads"
    case PinterestAds => "pinterest-ads"
  }

  /** The identifiers of the five platforms, in the order the UI lists them. */
  const PlatformIds: seq<string> := ["google-ads", "bing-ads", "linkedin-ads", "meta-ads", "pinterest-ads"]

  /** Reads a platform identifier back; exactly the five identifiers are accepted. */
  function PlatformOf(s: string): (r: Option<Platform>)
    ensures r.Some? <==> s in PlatformIds
    ensures r.Some? ==> PlatformId(r.value) == s
  {
    if s == "google-ads" then Some(GoogleAds)
    else if s == "bing-ads" then Some(BingAds)
    else if s == "linkedin-ads" then Some(LinkedInAds)
    else if s == "meta-ads" then Some(MetaAds)
    else if s == "pinterest-ads" then Some(PinterestAds)
    else None
  }

  /** Every platform has one of the five identifiers, distinct platforms have
      distinct identifiers, and reading an identifier back gives the platform. */
  lemma PlatformIdRoundTrip(p: Platform)
    ensures PlatformId(p) in PlatformIds
    ensures PlatformOf(PlatformId(p)) == Some(p)
  {
  }

  /** Distinct platforms have distinct identifiers. */
  lemma PlatformIdInjective(p: Platform, q: Platform)
    ensures PlatformId(p) == PlatformId(q) <==> p == q
  {
    PlatformIdRoundTrip(p);
    PlatformIdRoundTrip(q);
  }

  /** One ad creative. `createdAt` is the creation instant as a timestamp;
      `engagementScore`, `brandName`, `ctaText` and `targetAudience` may be absent. */
  datatype Ad = Ad(
    id: string,
    title: string,
    description: string,
    imageUrl: string,
    platform: Platform,
    industry: string,
    angle: string,
    campaignGoal: string,
    adFormat: string,
    funnelStage: string,
    targetGroup: string,
    tags: seq<string>,
    createdAt: int,
    userId: string,
    isBookmarked: bool,
    engagementScore: Option<int>,
    brandName: Option<string>,
    ctaText: Option<string>,
    targetAudience: Option<string>)

  /** The record the creation form hands to the store: an ad without `id`
      and `userId`, which the store assigns. */
  datatype AdDraft = AdDraft(
    title: string,
    description: string,
    imageUrl: string,
    platform: Platform,
    industry: string,
    angle: string,
    campaignGoal: string,
    adFormat: string,
    funnelStage: string,
    targetGroup: string,
    brandName: string,
    ctaText: string,
    targetAudience: string,
    tags: seq<string>,
    createdAt: int,
    isBookmarked: bool)

  datatype SortBy = Date | Engagement | Relevance
  datatype SortOrder = Asc | Desc

  /** The six categories of the filter sidebar. */
  datatype Category = Industries | Angles | CampaignGoals | AdFormats | FunnelStages | TargetGroups

  /** The seven filter dimensions: the platform and the six categories. */
  datatype Dimension = PlatformDim | CategoryDim(c: Category)

  /** The query descriptor: seven selection lists, a search string and the sort. */
  datatype FilterOptions = FilterOptions(
    platforms: seq<string>,
    industries: seq<string>,
    angles: seq<string>,
    campaignGoals: seq<string>,
    adFormats: seq<string>,
    funnelStages: seq<string>,
    targetGroups: seq<string>,
    searchQuery: string,
    sortBy: SortBy,
    sortOrder: SortOrder)

  /** The initial query: nothing selected, no search, newest first. */
  const InitialFilters: FilterOptions := FilterOptions([], [], [], [], [], [], [], "", Date, Desc)

  /** The selection list of dimension `d`. */
  function Values(f: FilterOptions, d: Dimension): seq<string> {
    match d
    case PlatformDim => f.platforms
    case CategoryDim(Industries) => f.industries
    case CategoryDim(Angles) => f.angles
    case CategoryDim(CampaignGoals) => f.campaignGoals
    case CategoryDim(AdFormats) => f.adFormats
    case CategoryDim(FunnelStages) => f.funnelStages
    case CategoryDim(TargetGroups) => f.targetGroups
  }

  /** `{ ...f, [d]: vs }`: dimension `d` gets the list `vs`, nothing else changes. */
  function WithValues(f: FilterOptions, d: Dimension, vs: seq<string>): (r: FilterOptions)
    ensures Values(r, d) == vs
    ensures forall e :: e != d ==> Values(r, e) == Values(f, e)
    ensures r.searchQuery == f.searchQuery && r.sortBy == f.sortBy && r.sortOrder == f.sortOrder
  {
    match d
    case PlatformDim => f.(platforms := vs)
    case CategoryDim(Industries) => f.(industries := vs)
    case CategoryDim(Angles) => f.(angles := vs)
    case CategoryDim(CampaignGoals) => f.(campaignGoals := vs)
    case CategoryDim(AdFormats) => f.(adFormats := vs)
    case CategoryDim(FunnelStages) => f.(funnelStages := vs)
    case CategoryDim(TargetGroups) => f.(targetGroups := vs)
  }

  /** The value of an ad that dimension `d` tests. */
  function FieldValue(ad: Ad, d: Dimension): string {
    match d
    case PlatformDim => PlatformId(ad.platform)
    case CategoryDim(Industries) => ad.industry
    case CategoryDim(Angles) => ad.angle
    case CategoryDim(CampaignGoals) => ad.campaignGoal
    case CategoryDim(AdFormats) => ad.adFormat
    case CategoryDim(FunnelStages) => ad.funnelStage
    case CategoryDim(TargetGroups) => ad.targetGroup
  }
}
