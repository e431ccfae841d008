/**
 * The estimate panel beside the cost estimator: the price breakdown (base, features,
 * subtotal, timeline adjustment, total) and the duration in weeks.
 */
module PricingSummary {
  import opened Wrappers
  import opened JsText
  import opened JsMath
  import opened ProjectTypeSelector
  import opened FeatureSelector
  import opened TimelineSelector
  import CustomRequirements

  datatype Pricing = Pricing(
    basePrice: int,
    featuresPrice: int,
    subtotal: int,
    timelineMultiplier: real,
    timelineAdjustment: real,
    totalPrice: real)

  /** `calculatePricing`: the breakdown shown in the panel (no complexity factor). */
  function CalculatePricing(projectType: Option<ProjectType>, features: seq<Feature>, timeline: Option<TimelineOption>): (p: Pricing)
    ensures p.basePrice == if projectType.Some? then projectType.value.basePrice else 0
    ensures p.featuresPrice == SumPrices(features)
    ensures p.subtotal == p.basePrice + p.featuresPrice
    ensures p.timelineMultiplier == MultiplierOrOne(timeline)
    ensures p.totalPrice == p.subtotal as real * p.timelineMultiplier
    ensures p.subtotal as real + p.timelineAdjustment == p.totalPrice
  {
    var basePrice := if projectType.Some? then projectType.value.basePrice else 0;
    var featuresPrice := SumPrices(features);
    var subtotal := basePrice + featuresPrice;
    var m := MultiplierOrOne(timeline);
    Pricing(basePrice, featuresPrice, subtotal, m, subtotal as real * (m - 1.0), subtotal as real * m)
  }

  /** The adjustment line is shown with a '+' (a surcharge) exactly when the multiplier exceeds 1. */
  lemma AdjustmentSign(projectType: Option<ProjectType>, features: seq<Feature>, timeline: Option<TimelineOption>)
    requires CalculatePricing(projectType, features, timeline).subtotal > 0
    ensures CalculatePricing(projectType, features, timeline).timelineAdjustment > 0.0
      <==> CalculatePricing(projectType, features, timeline).timelineMultiplier > 1.0
    ensures CalculatePricing(projectType, features, timeline).timelineAdjustment == 0.0
      <==> CalculatePricing(projectType, features, timeline).timelineMultiplier == 1.0
  {
    var p := CalculatePricing(projectType, features, timeline);
    var s := p.subtotal as real;
    var d := p.timelineMultiplier - 1.0;
    assert p.timelineAdjustment == s * d;
    if d > 0.0 {
      assert s * d > 0.0;
    } else if d < 0.0 {
      assert s * d < 0.0;
    }
  }

  /** The panel's total with the requirements step's complexity factor applied, as the quote computes it. */
  function CorrectedTotal(projectType: Option<ProjectType>, features: seq<Feature>, timeline: Option<TimelineOption>, complexity: string): (r: real)
    ensures CustomRequirements.ComplexityMultiplier(complexity) == 1.0 ==> r == CalculatePricing(projectType, features, timeline).totalPrice
    ensures r == CalculatePricing(projectType, features, timeline).totalPrice * CustomRequirements.ComplexityMultiplier(complexity)
  {
    CalculatePricing(projectType, features, timeline).totalPrice * CustomRequirements.ComplexityMultiplier(complexity)
  }

  /** `isComplete`: both a project type and a timeline are chosen. */
  predicate IsComplete(projectType: Option<ProjectType>, timeline: Option<TimelineOption>)
  {
    projectType.Some? && timeline.Some?
  }

  /** The working days of a project type before any feature. */
  function BaseDays(projectType: ProjectType): (d: nat)
    ensures projectType.id == "landing-page" ==> d == 10
    ensures projectType.id == "web-app" ==> d == 35
    ensures projectType.id == "ecommerce" ==> d == 60
    ensures projectType.id !in {"landing-page", "web-app", "ecommerce"} ==> d == 14
    ensures d >= 10
  {
    match projectType.id
    case "landing-page" => 10
    case "web-app" => 35
    case "ecommerce" => 60
    case _ => 14
  }

  /** `parseInt(feature.timeline.split('-')[0]) || 3`: the lower bound of the "N-M days" text, or 3. */
  function FeatureDays(f: Feature): (d: int)
    ensures d >= 1
    ensures ParseInt(BeforeFirst(f.timeline, '-')).Some? && ParseInt(BeforeFirst(f.timeline, '-')).value != 0
      ==> d == ParseInt(BeforeFirst(f.timeline, '-')).value
    ensures ParseInt(BeforeFirst(f.timeline, '-')).None? || ParseInt(BeforeFirst(f.timeline, '-')).value == 0 ==> d == 3
  {
    var lead := BeforeFirst(f.timeline, '-');
    ParseIntWithoutMinus(lead);
    match ParseInt(lead)
    case Some(n) => if n == 0 then 3 else n
    case None => 3
  }

  /** An effort text "d-..." with a single leading digit d from 1 to 9 counts d days, read by `parseInt`. */
  lemma LeadingDigitDays(f: Feature, d: nat)
    requires 1 <= d <= 9 && |f.timeline| >= 2 && f.timeline[0] == DigitChar(d) && f.timeline[1] == '-'
    ensures ParseInt(BeforeFirst(f.timeline, '-')) == Some(d)
    ensures FeatureDays(f) == d
  {
    assert BeforeFirst(f.timeline[1..], '-') == [];
    assert BeforeFirst(f.timeline, '-') == NatToString(d) + "";
    ParseIntOfNumeral(d, "");
  }

  /** The effort text starts with a non-zero number that `parseInt` reads, and that number is the feature's days. */
  predicate ReadsLeadingDays(f: Feature)
  {
    ParseInt(BeforeFirst(f.timeline, '-')) == Some(FeatureDays(f)) && FeatureDays(f) >= 2
  }

  /** Every catalogue feature's days come from its effort text, so the fallback of 3 is never used. */
  lemma CatalogFeatureDays()
    ensures forall f :: f in AllFeatures ==> ReadsLeadingDays(f)
  {
    AuthenticationDays();
    PaymentsDays();
    AdminDays();
    ContentDays();
  }

  /** The authentication features read their days from their effort texts. */
  lemma AuthenticationDays()
    ensures forall f :: f in Authentication.features ==> ReadsLeadingDays(f)
  {
    LeadingDigitDays(BasicAuth, 3);
    LeadingDigitDays(SocialAuth, 2);
    LeadingDigitDays(TwoFactor, 2);
  }

  /** The payment features read their days from their effort texts. */
  lemma PaymentsDays()
    ensures forall f :: f in Payments.features ==> ReadsLeadingDays(f)
  {
    LeadingDigitDays(StripePayment, 4);
    LeadingDigitDays(PaypalPayment, 3);
    LeadingDigitDays(Subscription, 5);
  }

  /** The admin features read their days from their effort texts. */
  lemma AdminDays()
    ensures forall f :: f in Admin.features ==> ReadsLeadingDays(f)
  {
    LeadingDigitDays(AdminPanel, 7);
    LeadingDigitDays(UserManagement, 4);
    LeadingDigitDays(Analytics, 5);
  }

  /** The content features read their days from their effort texts. */
  lemma ContentDays()
    ensures forall f :: f in Content.features ==> ReadsLeadingDays(f)
  {
    LeadingDigitDays(Cms, 6);
    LeadingDigitDays(Blog, 4);
    LeadingDigitDays(MediaLibrary, 3);
  }

  /** The feature days summed over the selection. */
  function SumFeatureDays(features: seq<Feature>): (d: int)
    ensures d >= |features|
  {
    if features == [] then 0 else SumFeatureDays(features[..|features| - 1]) + FeatureDays(features[|features| - 1])
  }

  /** The days after the timeline's speed-up or slow-down: half for urgent, five quarters for flexible, rounded up. */
  function AdjustedDays(days: int, timeline: TimelineOption): (r: int)
    ensures timeline.id == "urgent" ==> 2 * r - 2 < days <= 2 * r
    ensures timeline.id == "flexible" ==> 4 * r - 4 < 5 * days <= 4 * r
    ensures timeline.id != "urgent" && timeline.id != "flexible" ==> r == days
    ensures days > 0 ==> r > 0
  {
    match timeline.id
    case "urgent" => CeilHalf(days); Ceil(days as real * 0.5)
    case "flexible" => CeilFiveQuarters(days); Ceil(days as real * 1.25)
    case _ => days
  }

  lemma CeilHalf(d: int)
    ensures 2 * Ceil(d as real * 0.5) - 2 < d <= 2 * Ceil(d as real * 0.5)
  {
    var c := Ceil(d as real * 0.5);
    assert d as real * 0.5 <= c as real < d as real * 0.5 + 1.0;
  }

  lemma CeilFiveQuarters(d: int)
    ensures 4 * Ceil(d as real * 1.25) - 4 < 5 * d <= 4 * Ceil(d as real * 1.25)
  {
    var c := Ceil(d as real * 1.25);
    assert d as real * 1.25 <= c as real < d as real * 1.25 + 1.0;
  }

  lemma CeilSevenths(d: int)
    ensures 7 * (Ceil(d as real / 7.0) - 1) < d <= 7 * Ceil(d as real / 7.0)
  {
    var c := Ceil(d as real / 7.0);
    assert d as real / 7.0 <= c as real < d as real / 7.0 + 1.0;
  }

  /** The number of weeks a complete estimate takes: the adjusted days over 7, rounded up. */
  function DurationWeeks(projectType: ProjectType, features: seq<Feature>, timeline: TimelineOption): (w: nat)
    ensures 7 * (w - 1) < AdjustedDays(TotalDays(projectType, features), timeline) <= 7 * w
    ensures w >= 1
  {
    WeeksOf(AdjustedDays(TotalDays(projectType, features), timeline))
  }

  /** `totalDays` before the timeline: the type's base days plus every feature's days. */
  function TotalDays(projectType: ProjectType, features: seq<Feature>): (d: int)
    ensures d >= 10 + |features|
  {
    BaseDays(projectType) + SumFeatureDays(features)
  }

  /** `Math.ceil(totalDays / 7)`: the fewest whole weeks holding the days. */
  function WeeksOf(days: int): (w: nat)
    requires days > 0
    ensures 7 * (w - 1) < days <= 7 * w
    ensures w >= 1
  {
    CeilSevenths(days);
    Ceil(days as real / 7.0)
  }

  /** "1 week" or "N weeks". */
  function WeeksLabel(w: nat): string
  {
    if w == 1 then "1 week" else NatToString(w) + " weeks"
  }

  /** `calculateTimeline`: "TBD" until the estimate is complete, then the weeks label. */
  function Duration(projectType: Option<ProjectType>, features: seq<Feature>, timeline: Option<TimelineOption>): (r: string)
    ensures r == "TBD" <==> !IsComplete(projectType, timeline)
  {
    if !IsComplete(projectType, timeline) then "TBD"
    else
      var w := DurationWeeks(projectType.value, features, timeline.value);
      assert WeeksLabel(w)[0] != 'T' by { NumeralFirst(w); }
      WeeksLabel(w)
  }

  /** A week label starts with the count's first digit. */
  lemma NumeralFirst(w: nat)
    ensures IsDigit(WeeksLabel(w)[0])
  {
    if w != 1 {
      assert WeeksLabel(w)[0] == NatToString(w)[0];
    }
  }

  /** Reading the label back with `parseInt`, as the delivery-date line does, gives the week count. */
  lemma DurationReadsBack(projectType: ProjectType, features: seq<Feature>, timeline: TimelineOption)
    ensures ParseInt(Duration(Some(projectType), features, Some(timeline))) == Some(DurationWeeks(projectType, features, timeline))
  {
    DurationIsLabel(projectType, features, timeline);
    WeeksLabelReadsBack(DurationWeeks(projectType, features, timeline));
  }

  /** A complete estimate's duration is the label of its week count. */
  lemma DurationIsLabel(projectType: ProjectType, features: seq<Feature>, timeline: TimelineOption)
    ensures Duration(Some(projectType), features, Some(timeline)) == WeeksLabel(DurationWeeks(projectType, features, timeline))
  {
  }

  /** `parseInt` of a week label is its count. */
  lemma WeeksLabelReadsBack(w: nat)
    ensures ParseInt(WeeksLabel(w)) == Some(w)
  {
    if w == 1 {
      assert NatToString(1) + " week" == "1 week";
      ParseIntOfNumeral(1, " week");
    } else {
      ParseIntOfNumeral(w, " weeks");
    }
  }

  /** Urgent delivery never takes more weeks than standard, and flexible never fewer. */
  lemma TimelineOrdersWeeks(projectType: ProjectType, features: seq<Feature>)
    ensures DurationWeeks(projectType, features, Urgent) <= DurationWeeks(projectType, features, Standard)
    ensures DurationWeeks(projectType, features, Standard) <= DurationWeeks(projectType, features, Flexible)
  {
    var days := BaseDays(projectType) + SumFeatureDays(features);
    CeilMonotone(AdjustedDays(days, Urgent) as real / 7.0, days as real / 7.0);
    CeilMonotone(days as real / 7.0, AdjustedDays(days, Flexible) as real / 7.0);
  }

  lemma CeilMonotone(x: real, y: real)
    requires x <= y
    ensures Ceil(x) <= Ceil(y)
  {
  }

  /** The Stripe gateway's "4-6 days" counts 4 days. */
  lemma StripeDays()
    ensures SumFeatureDays([StripePayment]) == 4
  {
    assert BeforeFirst(StripePayment.timeline, '-') == "4";
    assert NatToString(4) + "" == "4";
    ParseIntOfNumeral(4, "");
    assert [StripePayment][..0] == [];
  }

  /** A web application with the Stripe gateway takes 39 working days: 6 weeks standard, 3 urgent, 7 flexible. */
  lemma WebAppWithStripeDuration()
    ensures Duration(Some(WebApp), [StripePayment], Some(Standard)) == "6 weeks"
    ensures Duration(Some(WebApp), [StripePayment], Some(Urgent)) == "3 weeks"
    ensures Duration(Some(WebApp), [StripePayment], Some(Flexible)) == "7 weeks"
  {
    WebAppWithStripeWeeks();
    DurationIsLabel(WebApp, [StripePayment], Standard);
    DurationIsLabel(WebApp, [StripePayment], Urgent);
    DurationIsLabel(WebApp, [StripePayment], Flexible);
    WebAppWithStripeLabels();
  }

  /** The labels of those three week counts. */
  lemma WebAppWithStripeLabels()
    ensures WeeksLabel(6) == "6 weeks" && WeeksLabel(3) == "3 weeks" && WeeksLabel(7) == "7 weeks"
  {
    assert NatToString(6) == "6";
    assert NatToString(3) == "3";
    assert NatToString(7) == "7";
  }

  /** The week counts behind those labels: 39 days over 7, halved first for urgent, times 1.25 for flexible. */
  lemma WebAppWithStripeWeeks()
    ensures DurationWeeks(WebApp, [StripePayment], Standard) == 6
    ensures DurationWeeks(WebApp, [StripePayment], Urgent) == 3
    ensures DurationWeeks(WebApp, [StripePayment], Flexible) == 7
  {
    StripeDays();
    assert BaseDays(WebApp) + SumFeatureDays([StripePayment]) == 39;
    assert DurationWeeks(WebApp, [StripePayment], Standard) == 6 by {
      assert Ceil(39.0 / 7.0) == 6;
    }
    assert DurationWeeks(WebApp, [StripePayment], Urgent) == 3 by {
      assert Ceil(39.0 * 0.5) == 20;
      assert Ceil(20.0 / 7.0) == 3;
    }
    assert DurationWeeks(WebApp, [StripePayment], Flexible) == 7 by {
      assert Ceil(39.0 * 1.25) == 49;
      assert Ceil(49.0 / 7.0) == 7;
    }
  }

  /** A web application with the Stripe gateway costs $6,200 standard, $9,300 urgent (+$3,100), $5,270 flexible (-$930). */
  lemma WebAppWithStripePricing()
    ensures CalculatePricing(Some(WebApp), [StripePayment], Some(Standard)).totalPrice == 6200.0
    ensures CalculatePricing(Some(WebApp), [StripePayment], Some(Urgent)).totalPrice == 9300.0
    ensures CalculatePricing(Some(WebApp), [StripePayment], Some(Urgent)).timelineAdjustment == 3100.0
    ensures CalculatePricing(Some(WebApp), [StripePayment], Some(Flexible)).totalPrice == 5270.0
    ensures CalculatePricing(Some(WebApp), [StripePayment], Some(Flexible)).timelineAdjustment == -930.0
  {
    assert SumPrices([StripePayment]) == 1200 by {
      assert [StripePayment][..0] == [];
    }
  }
}
