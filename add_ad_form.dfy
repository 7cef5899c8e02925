/**
 * The "add ad" form: fourteen text fields edited one at a time, a submit
 * button enabled once the nine required fields are filled in, and a submit
 * that turns the form into a draft ad (tags parsed from one comma-separated
 * field) and clears the form.
 */
module AddAdForm {
  import opened AdModel
  import opened JsText
  import opened Seqs

  /** The form's fields, each holding a string. */
  datatype FormField =
    | Title | Description | ImageUrl | PlatformField | Industry | Angle | CampaignGoal
    | AdFormat | FunnelStage | TargetGroup | BrandName | CtaText | TargetAudience | Tags

  datatype FormData = FormData(
    title: string,
    description: string,
    imageUrl: string,
    platform: string,
    industry: string,
    angle: string,
    campaignGoal: string,
    adFormat: string,
    funnelStage: string,
    targetGroup: string,
    brandName: string,
    ctaText: string,
    targetAudience: string,
    tags: string)

  /** The form as it opens and as a submit leaves it: every field empty. */
  const EmptyForm: FormData := FormData("", "", "", "", "", "", "", "", "", "", "", "", "", "")

  /** The value of one field. */
  function Get(d: FormData, field: FormField): string {
    match field
    case Title => d.title
    case Description => d.description
    case ImageUrl => d.imageUrl
    case PlatformField => d.platform
    case Industry => d.industry
    case Angle => d.angle
    case CampaignGoal => d.campaignGoal
    case AdFormat => d.adFormat
    case FunnelStage => d.funnelStage
    case TargetGroup => d.targetGroup
    case BrandName => d.brandName
    case CtaText => d.ctaText
    case TargetAudience => d.targetAudience
    case Tags => d.tags
  }

  /** `{ ...prev, [field]: value }`: the field gets the value, every other
      field keeps its own. */
  function With(d: FormData, field: FormField, value: string): (r: FormData)
    ensures Get(r, field) == value
    ensures forall g :: g != field ==> Get(r, g) == Get(d, g)
  {
    match field
    case Title => d.(title := value)
    case Description => d.(description := value)
    case ImageUrl => d.(imageUrl := value)
    case PlatformField => d.(platform := value)
    case Industry => d.(industry := value)
    case Angle => d.(angle := value)
    case CampaignGoal => d.(campaignGoal := value)
    case AdFormat => d.(adFormat := value)
    case FunnelStage => d.(funnelStage := value)
    case TargetGroup => d.(targetGroup := value)
    case BrandName => d.(brandName := value)
    case CtaText => d.(ctaText := value)
    case TargetAudience => d.(targetAudience := value)
    case Tags => d.(tags := value)
  }

  /** The nine fields the submit button waits for. */
  predicate Required(field: FormField) {
    field !in {ImageUrl, BrandName, CtaText, TargetAudience, Tags}
  }

  /** The submit button is enabled when none of the nine required fields is empty. */
  predicate SubmitEnabled(d: FormData) {
    && d.title != "" && d.description != "" && d.platform != "" && d.industry != ""
    && d.angle != "" && d.campaignGoal != "" && d.adFormat != "" && d.funnelStage != ""
    && d.targetGroup != ""
  }

  /** Submit is enabled exactly when every required field is non-empty. */
  lemma SubmitEnabledIff(d: FormData)
    ensures SubmitEnabled(d) <==> forall g :: Required(g) ==> Get(d, g) != ""
  {
    if !SubmitEnabled(d) {
      assert exists g :: Required(g) && Get(d, g) == "" by {
        if d.title == "" { assert Required(Title) && Get(d, Title) == ""; }
        else if d.description == "" { assert Required(Description) && Get(d, Description) == ""; }
        else if d.platform == "" { assert Required(PlatformField) && Get(d, PlatformField) == ""; }
        else if d.industry == "" { assert Required(Industry) && Get(d, Industry) == ""; }
        else if d.angle == "" { assert Required(Angle) && Get(d, Angle) == ""; }
        else if d.campaignGoal == "" { assert Required(CampaignGoal) && Get(d, CampaignGoal) == ""; }
        else if d.adFormat == "" { assert Required(AdFormat) && Get(d, AdFormat) == ""; }
        else if d.funnelStage == "" { assert Required(FunnelStage) && Get(d, FunnelStage) == ""; }
        else { assert Required(TargetGroup) && Get(d, TargetGroup) == ""; }
      }
    }
  }

  /** Editing an optional field never enables or disables the submit button. */
  lemma OptionalFieldIrrelevant(d: FormData, field: FormField, value: string)
    requires !Required(field)
    ensures SubmitEnabled(With(d, field, value)) == SubmitEnabled(d)
  {
    SubmitEnabledIff(d);
    SubmitEnabledIff(With(d, field, value));
  }

  /** `parts.map(tag => tag.trim())`. */
  function TrimAll(parts: seq<string>): (r: seq<string>)
    ensures |r| == |parts|
    ensures forall i :: 0 <= i < |parts| ==> r[i] == Trim(parts[i])
  {
    seq(|parts|, i requires 0 <= i < |parts| => Trim(parts[i]))
  }

  /** The trimmed pieces of a comma split neither hold a comma nor change
      when trimmed again. */
  lemma TrimmedPieces(s: string)
    ensures forall t <- TrimAll(Split(s, ',')) :: Trim(t) == t && ',' !in t
  {
    var parts := Split(s, ',');
    var trimmed := TrimAll(parts);
    SplitNoSeparator(s, ',');
    forall i | 0 <= i < |trimmed| ensures Trim(trimmed[i]) == trimmed[i] && ',' !in trimmed[i] {
      TrimIdempotent(parts[i]);
      TrimChars(parts[i]);
      assert parts[i] in parts;
    }
  }

  /** An input made only of commas and white space trims to empty pieces. */
  lemma BlankPieces(s: string)
    requires forall i :: 0 <= i < |s| ==> s[i] == ',' || IsSpace(s[i])
    ensures forall t <- TrimAll(Split(s, ',')) :: t == ""
  {
    var parts := Split(s, ',');
    SplitChars(s, ',');
    SplitNoSeparator(s, ',');
    forall i | 0 <= i < |parts| ensures Trim(parts[i]) == "" {
      var p := parts[i];
      assert p in parts;
      TrimBlank(p);
      forall j | 0 <= j < |p| ensures IsSpace(p[j]) {
        assert p[j] in p;
      }
    }
  }

  /** `tags.split(',').map(tag => tag.trim()).filter(Boolean)`: the non-empty
      trimmed pieces between commas, in input order. No tag is empty, has
      white space at either end or holds a comma; there is at most one more tag
      than there are commas; and an input made only of commas and white space
      gives no tag at all. */
  function ParseTags(s: string): (r: seq<string>)
    ensures "" !in r
    ensures forall t <- r :: Trim(t) == t && ',' !in t
    ensures |r| <= multiset(s)[','] + 1
    ensures IsSubsequence(r, TrimAll(Split(s, ',')))
    ensures multiset(r) == multiset(TrimAll(Split(s, ',')))["" := 0]
    ensures (forall i :: 0 <= i < |s| ==> s[i] == ',' || IsSpace(s[i])) ==> r == []
  {
    var trimmed := TrimAll(Split(s, ','));
    var r := Without(trimmed, "");
    assert forall t <- r :: Trim(t) == t && ',' !in t by {
      TrimmedPieces(s);
      WithoutMembers(trimmed, "");
    }
    assert |r| <= multiset(s)[','] + 1 by {
      SplitCount(s, ',');
    }
    assert (forall i :: 0 <= i < |s| ==> s[i] == ',' || IsSpace(s[i])) ==> r == [] by {
      if forall i :: 0 <= i < |s| ==> s[i] == ',' || IsSpace(s[i]) {
        BlankPieces(s);
        WithoutOnly(trimmed, "");
      }
    }
    r
  }

  /** The draft handed to the store: the form's fields with the platform read
      back from its identifier, the parsed tags, the creation time and no
      bookmark. */
  function DraftOf(d: FormData, createdAt: int): (r: AdDraft)
    requires PlatformOf(d.platform).Some?
    ensures PlatformId(r.platform) == d.platform
    ensures r.tags == ParseTags(d.tags) && r.createdAt == createdAt && !r.isBookmarked
    ensures r.title == d.title && r.description == d.description && r.imageUrl == d.imageUrl
    ensures r.industry == d.industry && r.angle == d.angle && r.campaignGoal == d.campaignGoal
    ensures r.adFormat == d.adFormat && r.funnelStage == d.funnelStage && r.targetGroup == d.targetGroup
    ensures r.brandName == d.brandName && r.ctaText == d.ctaText && r.targetAudience == d.targetAudience
  {
    AdDraft(d.title, d.description, d.imageUrl, PlatformOf(d.platform).value, d.industry, d.angle,
      d.campaignGoal, d.adFormat, d.funnelStage, d.targetGroup, d.brandName, d.ctaText,
      d.targetAudience, ParseTags(d.tags), createdAt, false)
  }

  /** The form's state. The platform field is empty or one of the five
      identifiers, the only values its selector offers. */
  class AdForm {
    var formData: FormData

    ghost predicate Valid()
      reads this
    {
      formData.platform == "" || formData.platform in PlatformIds
    }

    constructor()
      ensures formData == EmptyForm && Valid()
    {
      formData := EmptyForm;
    }

    /** `handleInputChange(field, value)`. */
    method SetField(field: FormField, value: string)
      requires Valid()
      requires field == PlatformField ==> value in PlatformIds
      modifies this
      ensures formData == With(old(formData), field, value)
      ensures Valid()
    {
      formData := With(formData, field, value);
    }

    /** `handleSubmit`: hands over the draft, then resets every field. */
    method Submit(createdAt: int) returns (draft: AdDraft)
      requires Valid() && SubmitEnabled(formData)
      modifies this
      ensures draft == DraftOf(old(formData), createdAt)
      ensures formData == EmptyForm && Valid()
    {
      draft := DraftOf(formData, createdAt);
      formData := EmptyForm;
    }
  }
}
