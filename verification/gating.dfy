/**
 * Feature gating by plan (src/lib/features/gating.ts).
 */
module Gating {
  import opened Common
  import opened Quota
  import Deck

  datatype Feature =
    | PremiumTemplates
    | AiRewrite
    | ImageRegen
    | PanicMode
    | Branding
    | ExportPdf
    | UnlimitedSlides

  datatype FeatureInfo = FeatureInfo(name: string, planRequired: Plan)

  /** FEATURE_INFO (descriptions left out). */
  function Info(f: Feature): FeatureInfo {
    match f
    case PremiumTemplates => FeatureInfo("Premium Templates", Pro)
    case AiRewrite => FeatureInfo("AI Rewrite", Pro)
    case ImageRegen => FeatureInfo("Image Regeneration", Ultra)
    case PanicMode => FeatureInfo("Panic Mode", Ultra)
    case Branding => FeatureInfo("Custom Branding", Ultra)
    case ExportPdf => FeatureInfo("PDF Export", Pro)
    case UnlimitedSlides => FeatureInfo("Unlimited Slides", Ultra)
  }

  /** `Object.keys(FEATURE_INFO)`, in declaration order. */
  const AllFeatures: seq<Feature> :=
    [PremiumTemplates, AiRewrite, ImageRegen, PanicMode, Branding, ExportPdf, UnlimitedSlides]

  lemma AllFeaturesComplete()
    ensures forall f :: f in AllFeatures
  {
    forall f ensures f in AllFeatures {
      var i := match f
        case PremiumTemplates => 0 case AiRewrite => 1 case ImageRegen => 2 case PanicMode => 3
        case Branding => 4 case ExportPdf => 5 case UnlimitedSlides => 6;
      assert AllFeatures[i] == f;
    }
  }

  /** The per-plan access rule shared by the two functions below. */
  predicate PlanAllows(plan: Plan, f: Feature) {
    match plan
    case Ultra => true
    case Pro => Info(f).planRequired != Ultra
    case Free => Info(f).planRequired == Free
  }

  /** Keep the features of `fs` that `plan` may use, in order. */
  function Filter(fs: seq<Feature>, plan: Plan): seq<Feature> {
    if |fs| == 0 then []
    else (if PlanAllows(plan, fs[0]) then [fs[0]] else []) + Filter(fs[1..], plan)
  }

  /** Filter keeps exactly the allowed members of its input. */
  lemma {:induction false} FilterMembers(fs: seq<Feature>, plan: Plan)
    ensures forall f :: f in Filter(fs, plan) <==> f in fs && PlanAllows(plan, f)
  {
    if |fs| > 0 {
      FilterMembers(fs[1..], plan);
      assert fs == [fs[0]] + fs[1..];
    }
  }

  /** Filter of a list with no allowed member is empty. */
  lemma {:induction false} FilterNone(fs: seq<Feature>, plan: Plan)
    requires forall i :: 0 <= i < |fs| ==> !PlanAllows(plan, fs[i])
    ensures Filter(fs, plan) == []
  {
    if |fs| > 0 {
      FilterNone(fs[1..], plan);
    }
  }

  /** getAccessibleFeatures. */
  function GetAccessibleFeatures(plan: Plan): (r: seq<Feature>)
    ensures forall f :: f in r <==> PlanAllows(plan, f)
  {
    AllFeaturesComplete();
    FilterMembers(AllFeatures, plan);
    if plan == Ultra then AllFeatures else Filter(AllFeatures, plan)
  }

  /** One step of the filter over the tail of the feature list starting at `i`. */
  lemma FilterStep(plan: Plan, i: nat)
    requires i < |AllFeatures|
    ensures Filter(AllFeatures[i..], plan) ==
      (if PlanAllows(plan, AllFeatures[i]) then [AllFeatures[i]] else []) + Filter(AllFeatures[i + 1..], plan)
  {
    assert AllFeatures[i..][1..] == AllFeatures[i + 1..];
  }

  /** Pro gets exactly the three features that do not require ultra, in order. */
  lemma ProFeatures()
    ensures GetAccessibleFeatures(Pro) == [PremiumTemplates, AiRewrite, ExportPdf]
  {
    FilterStep(Pro, 6);
    assert Filter(AllFeatures[6..], Pro) == [];
    FilterStep(Pro, 5);
    assert Filter(AllFeatures[5..], Pro) == [ExportPdf];
    FilterStep(Pro, 4);
    FilterStep(Pro, 3);
    FilterStep(Pro, 2);
    assert Filter(AllFeatures[2..], Pro) == [ExportPdf];
    FilterStep(Pro, 1);
    assert Filter(AllFeatures[1..], Pro) == [AiRewrite, ExportPdf];
    FilterStep(Pro, 0);
    assert AllFeatures[0..] == AllFeatures;
  }

  /**
   * Free gets nothing, since no feature requires only the free plan, and
   * ultra gets all seven in declaration order.
   */
  lemma FreeAndUltraFeatures()
    ensures GetAccessibleFeatures(Free) == []
    ensures GetAccessibleFeatures(Ultra) == AllFeatures && |AllFeatures| == 7
  {
    FilterNone(AllFeatures, Free);
  }

  /** Accessible sets grow with the plan: free within pro within ultra. */
  lemma AccessMonotone(p: Plan, q: Plan, f: Feature)
    requires Rank(p) <= Rank(q)
    requires f in GetAccessibleFeatures(p)
    ensures f in GetAccessibleFeatures(q)
  {
  }

  /**
   * canAccessFeature: fail open when the database is missing or throws; a
   * missing user is free; an unknown stored plan falls to the free rule.
   */
  function CanAccessFeature(read: DbRead, f: Feature): (r: bool)
    ensures read.ReadError? ==> r
    ensures read.Missing? ==> (r <==> f in GetAccessibleFeatures(Free))
    ensures read.Present? && ParsePlan(OrElse(read.doc.plan, "free")).Some? ==>
      (r <==> f in GetAccessibleFeatures(ParsePlan(OrElse(read.doc.plan, "free")).value))
    ensures read.Present? && ParsePlan(OrElse(read.doc.plan, "free")).None? ==>
      (r <==> f in GetAccessibleFeatures(Free))
  {
    match read
    case ReadError => true
    case Missing => Info(f).planRequired == Free
    case Present(doc) =>
      var plan := OrElse(doc.plan, "free");
      if plan == "ultra" then true
      else if plan == "pro" then Info(f).planRequired != Ultra
      else Info(f).planRequired == Free
  }

  /** canCreateSlides: allowed up to 12 slides on free, 25 on pro and 50 on ultra. */
  function CanCreateSlides(plan: Plan, slideCount: int): (r: bool)
    ensures plan == Free ==> (r <==> slideCount <= 12)
    ensures plan == Pro ==> (r <==> slideCount <= 25)
    ensures plan == Ultra ==> (r <==> slideCount <= 50)
  {
    slideCount <= Limits(plan).maxSlides
  }

  /** Every count the creation slider offers (6 to 12) is allowed on every plan. */
  lemma SliderCountsAllowed(plan: Plan, n: int)
    requires 6 <= n <= 12
    ensures CanCreateSlides(plan, n)
  {
  }

  /** The free plan's cap is exactly 12 slides. */
  lemma FreeSlideCap()
    ensures CanCreateSlides(Free, 12)
    ensures !CanCreateSlides(Free, 13)
  {
  }

  /** A slide count allowed on a plan is allowed on every higher plan. */
  lemma CanCreateSlidesMonotone(p: Plan, q: Plan, n: int)
    requires Rank(p) <= Rank(q) && CanCreateSlides(p, n)
    ensures CanCreateSlides(q, n)
  {
    LimitsMonotone(p, q);
  }

  const PremiumTemplateIds: seq<string> := ["corporate", "creative", "startup", "minimal_pro", "academic_pro"]

  /** isTemplatePremium: membership in the five listed ids. */
  function IsTemplatePremium(templateId: string): (r: bool)
    ensures r <==> templateId in {"corporate", "creative", "startup", "minimal_pro", "academic_pro"}
  {
    templateId in PremiumTemplateIds
  }

  /**
   * The premium list and the theme registry of the deck builder disagree:
   * `corporate` and `creative` are premium with their own themes, while
   * three premium ids have no theme and render with `modern`, and the
   * registered `modern` and `minimal` are free.
   */
  lemma PremiumTemplatesAndThemes(templateId: string)
    ensures templateId in {"corporate", "creative"} ==>
      IsTemplatePremium(templateId) && Deck.GetTemplateTheme(templateId) != Deck.ModernTheme
    ensures templateId in {"startup", "minimal_pro", "academic_pro"} ==>
      IsTemplatePremium(templateId) && Deck.GetTemplateTheme(templateId) == Deck.ModernTheme
    ensures templateId in Deck.Templates() && !IsTemplatePremium(templateId) ==>
      templateId in {"modern", "minimal"}
  {
  }

  datatype UpgradeMessage = UpgradeMessage(title: string, message: string, buttonText: string)

  /**
   * getUpgradeMessage: the Ultra texts for features that need ultra, the Pro
   * texts otherwise, with the feature's name opening the message.
   */
  function GetUpgradeMessage(f: Feature): (r: UpgradeMessage)
    ensures Info(f).planRequired == Ultra ==>
      r.title == "Ultra Plan Required" && r.buttonText == "Upgrade to Ultra"
    ensures Info(f).planRequired != Ultra ==>
      r.title == "Pro Plan Required" && r.buttonText == "Upgrade to Pro"
    ensures |Info(f).name| <= |r.message| && r.message[..|Info(f).name|] == Info(f).name
  {
    var info := Info(f);
    if info.planRequired == Ultra then
      UpgradeMessage("Ultra Plan Required",
                     info.name + " is available on the Ultra plan. Upgrade to unlock this feature and more!",
                     "Upgrade to Ultra")
    else
      UpgradeMessage("Pro Plan Required",
                     info.name + " is available on the Pro plan. Upgrade to unlock this feature!",
                     "Upgrade to Pro")
  }
}
