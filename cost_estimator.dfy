/**
 * The interactive cost estimator page: a four-step wizard (project type, features, timeline,
 * requirements) that prices the selection, hands a quote to the contact page and keeps a list
 * of saved estimates.
 */
module CostEstimator {
  import opened Wrappers
  import opened JsMath
  import opened Sequences
  import opened JsValues
  import opened ProjectTypeSelector
  import opened FeatureSelector
  import opened TimelineSelector
  import CustomRequirements
  import PricingSummary

  type Requirements = CustomRequirements.Requirements

  /** The page's own `getComplexityMultiplier`; it agrees with the requirements step's on every level. */
  function ComplexityMultiplier(complexity: string): (m: real)
    ensures m > 0.0
    ensures m == CustomRequirements.ComplexityMultiplier(complexity)
  {
    match complexity
    case "simple" => 0.8
    case "medium" => 1.0
    case "complex" => 1.4
    case "enterprise" => 2.0
    case _ => 1.0
  }

  /**
   * `calculateTotalPrice` as a number: 0 (shown "$0") without a project type, otherwise the
   * summary panel's total scaled by the complexity factor and rounded half up.
   */
  function TotalPrice(projectType: Option<ProjectType>, features: seq<Feature>, timeline: Option<TimelineOption>, requirements: Requirements): (r: int)
    ensures projectType.None? ==> r == 0
    ensures projectType.Some? ==>
      r == Round(PricingSummary.CalculatePricing(projectType, features, timeline).totalPrice * ComplexityMultiplier(requirements.complexity))
  {
    if projectType.None? then 0
    else
      var subtotal := projectType.value.basePrice + SumPrices(features);
      Round(subtotal as real * MultiplierOrOne(timeline) * ComplexityMultiplier(requirements.complexity))
  }

  /** At a complexity factor of 1 the quoted total is the summary panel's total, rounded. */
  lemma TotalMatchesSummaryAtUnitComplexity(projectType: ProjectType, features: seq<Feature>, timeline: Option<TimelineOption>, requirements: Requirements)
    requires ComplexityMultiplier(requirements.complexity) == 1.0
    ensures TotalPrice(Some(projectType), features, timeline, requirements)
      == Round(PricingSummary.CalculatePricing(Some(projectType), features, timeline).totalPrice)
  {
  }

  /** The summary panel shows $5,000 for an enterprise web application that the quote prices at $10,000. */
  lemma SummaryTotalIgnoresComplexity()
    ensures PricingSummary.CalculatePricing(Some(WebApp), [], Some(Standard)).totalPrice == 5000.0
    ensures TotalPrice(Some(WebApp), [], Some(Standard), CustomRequirements.Requirements("enterprise", "", "", "")) == 10000
  {
    assert Round(10000.0) == 10000;
  }

  /** The summary total with the complexity factor applied rounds to the quoted total for every selection. */
  lemma CorrectedSummaryTotalMatchesQuote(projectType: ProjectType, features: seq<Feature>, timeline: Option<TimelineOption>, requirements: Requirements)
    ensures Round(PricingSummary.CorrectedTotal(Some(projectType), features, timeline, requirements.complexity))
      == TotalPrice(Some(projectType), features, timeline, requirements)
  {
  }

  /** The web application with the Stripe gateway at medium complexity: $6,200 standard, $9,300 urgent. */
  lemma WebAppWithStripeTotal()
    ensures TotalPrice(Some(WebApp), [StripePayment], Some(Standard), CustomRequirements.Requirements("medium", "", "", "")) == 6200
    ensures TotalPrice(Some(WebApp), [StripePayment], Some(Urgent), CustomRequirements.Requirements("medium", "", "", "")) == 9300
  {
    assert SumPrices([StripePayment]) == 1200 by {
      assert [StripePayment][..0] == [];
    }
    assert Round(6200.0) == 6200;
    assert Round(9300.0) == 9300;
  }

  /** `handleFeatureToggle`'s filter test. */
  function HasOtherFeatureId(id: string): Feature -> bool
  {
    (g: Feature) => g.id != id
  }

  /** The selection after a checkbox change: appended at the end when checked (no duplicate check), otherwise every entry with the id removed. */
  function Toggled(selected: seq<Feature>, feature: Feature, checked: bool): (r: seq<Feature>)
    ensures checked ==> |r| == |selected| + 1 && r[..|selected|] == selected && r[|selected|] == feature
    ensures !checked ==> !IsFeatureSelected(r, feature.id)
    ensures !checked ==> forall i :: 0 <= i < |selected| && selected[i].id != feature.id ==> selected[i] in r
  {
    if checked then selected + [feature]
    else
      var r := Filter(selected, HasOtherFeatureId(feature.id));
      FilterMembers(selected, HasOtherFeatureId(feature.id));
      assert forall i :: 0 <= i < |r| ==> r[i].id != feature.id by {
        forall i | 0 <= i < |r| ensures r[i].id != feature.id {
          assert HasOtherFeatureId(feature.id)(r[i]);
        }
      }
      assert forall i :: 0 <= i < |selected| && selected[i].id != feature.id ==> selected[i] in r by {
        forall i | 0 <= i < |selected| && selected[i].id != feature.id ensures selected[i] in r {
          assert HasOtherFeatureId(feature.id)(selected[i]);
        }
      }
      r
  }

  /** Unchecking removes every copy of the feature's id and keeps every other entry as often as it occurred. */
  lemma UncheckRemovesOnlyFeature(selected: seq<Feature>, feature: Feature)
    ensures forall g :: multiset(Toggled(selected, feature, false))[g] == (if g.id == feature.id then 0 else multiset(selected)[g])
  {
    FilterMultiset(selected, HasOtherFeatureId(feature.id));
  }

  /** Unchecking keeps the remaining features in their order. */
  lemma ToggleOffKeepsOrder(selected: seq<Feature>, feature: Feature)
    ensures IsSubsequence(Toggled(selected, feature, false), selected)
  {
    FilterIsSubsequence(selected, HasOtherFeatureId(feature.id));
  }

  /** Checking a feature raises the summed feature price by exactly its price. */
  lemma ToggleOnAddsPrice(selected: seq<Feature>, feature: Feature)
    ensures SumPrices(Toggled(selected, feature, true)) == SumPrices(selected) + feature.price
  {
    SumPricesAppend(selected, [feature]);
    assert [feature][..0] == [];
  }

  predicate DistinctIds(fs: seq<Feature>)
  {
    forall i, j :: 0 <= i < j < |fs| ==> fs[i].id != fs[j].id
  }

  /**
   * The checkbox of a feature reports `checked` only while it is unselected, so toggling on
   * through the selector keeps the ids of the selection distinct.
   */
  lemma ToggleOnUnselectedKeepsIdsDistinct(selected: seq<Feature>, feature: Feature)
    requires DistinctIds(selected)
    requires !IsFeatureSelected(selected, feature.id)
    ensures DistinctIds(Toggled(selected, feature, true))
  {
  }

  /** `canProceedToNext` for the step on screen. */
  predicate CanProceedToNext(step: int, projectType: Option<ProjectType>, timeline: Option<TimelineOption>)
  {
    match step
    case 1 => projectType.Some?
    case 2 => true
    case 3 => timeline.Some?
    case 4 => true
    case _ => false
  }

  /** The feature names in selection order. */
  function FeatureNames(fs: seq<Feature>): (r: seq<string>)
    ensures |r| == |fs|
    ensures forall i :: 0 <= i < |fs| ==> r[i] == fs[i].name
  {
    if fs == [] then [] else [fs[0].name] + FeatureNames(fs[1..])
  }

  /** The keys of the quote handed to the contact page. */
  const QuoteKeys: set<string> :=
    {"projectType", "budget", "timeline", "features", "customRequirements", "specialFeatures", "integrations", "complexity"}

  /** `estimateData` of `handleGetQuote`. */
  function QuotePayload(projectType: Option<ProjectType>, features: seq<Feature>, timeline: Option<TimelineOption>, requirements: Requirements): (o: Object)
    ensures o.Keys == QuoteKeys
    ensures o["budget"] == Price(TotalPrice(projectType, features, timeline, requirements))
    ensures o["features"] == Strs(FeatureNames(features))
    ensures o["projectType"] == Str(if projectType.Some? then projectType.value.name else "")
    ensures o["timeline"] == Str(if timeline.Some? then timeline.value.name else "")
    ensures o["customRequirements"] == Str(requirements.description)
    ensures o["specialFeatures"] == Str(requirements.specialFeatures)
    ensures o["integrations"] == Str(requirements.integrations)
    ensures requirements.complexity == "" ==> o["complexity"] == Str("medium")
    ensures requirements.complexity != "" ==> o["complexity"] == Str(requirements.complexity)
    ensures o["complexity"].Str? && ComplexityMultiplier(o["complexity"].s) == ComplexityMultiplier(requirements.complexity)
  {
    map[
      "projectType" := Str(if projectType.Some? then projectType.value.name else ""),
      "budget" := Price(TotalPrice(projectType, features, timeline, requirements)),
      "timeline" := Str(if timeline.Some? then timeline.value.name else ""),
      "features" := Strs(FeatureNames(features)),
      "customRequirements" := Str(requirements.description),
      "specialFeatures" := Str(requirements.specialFeatures),
      "integrations" := Str(requirements.integrations),
      "complexity" := Str(if requirements.complexity == "" then "medium" else requirements.complexity)
    ]
  }

  const ContactRoute := "/contact-inquiry-form"

  /** The navigation state the quote travels in: the payload under the key "estimateData". */
  function QuoteLocationState(payload: Object): (state: Object)
    ensures state.Keys == {"estimateData", "fromEstimator"}
    ensures state["estimateData"] == Obj(payload)
  {
    map["estimateData" := Obj(payload), "fromEstimator" := Bool(true)]
  }

  /** An entry of the saved-estimates list. */
  datatype SavedEstimate = SavedEstimate(
    projectType: Option<ProjectType>,
    selectedFeatures: seq<Feature>,
    selectedTimeline: Option<TimelineOption>,
    customRequirements: Requirements,
    totalPrice: int,
    createdAt: string)

  /** The estimator page's state, plus the saved-estimates list it appends to. */
  class Estimator {
    var currentStep: int
    var projectType: Option<ProjectType>
    var selectedFeatures: seq<Feature>
    var selectedTimeline: Option<TimelineOption>
    var customRequirements: Requirements
    var savedEstimates: seq<SavedEstimate>

    /** The step lies in 1..4, and only step 1 can be shown before a project type is chosen. */
    ghost predicate Valid()
      reads this
    {
      1 <= currentStep <= 4 && (currentStep > 1 ==> projectType.Some?)
    }

    /** A fresh page, with the saved list as previously stored. */
    constructor(saved: seq<SavedEstimate>)
      ensures Valid()
      ensures currentStep == 1 && projectType == None && selectedFeatures == [] && selectedTimeline == None
      ensures customRequirements == CustomRequirements.NoRequirements
      ensures savedEstimates == saved
    {
      currentStep := 1;
      projectType := None;
      selectedFeatures := [];
      selectedTimeline := None;
      customRequirements := CustomRequirements.NoRequirements;
      savedEstimates := saved;
    }

    /** `handleProjectTypeSelect`: sets the type and empties the feature selection. */
    method SelectProjectType(t: ProjectType)
      requires Valid()
      modifies this
      ensures Valid()
      ensures projectType == Some(t) && selectedFeatures == []
      ensures currentStep == old(currentStep) && selectedTimeline == old(selectedTimeline)
      ensures customRequirements == old(customRequirements) && savedEstimates == old(savedEstimates)
    {
      projectType := Some(t);
      selectedFeatures := [];
    }

    /** `handleFeatureToggle` */
    method ToggleFeature(feature: Feature, checked: bool)
      requires Valid()
      modifies this
      ensures Valid()
      ensures selectedFeatures == Toggled(old(selectedFeatures), feature, checked)
      ensures currentStep == old(currentStep) && projectType == old(projectType) && selectedTimeline == old(selectedTimeline)
      ensures customRequirements == old(customRequirements) && savedEstimates == old(savedEstimates)
    {
      if checked {
        selectedFeatures := selectedFeatures + [feature];
      } else {
        selectedFeatures := Filter(selectedFeatures, HasOtherFeatureId(feature.id));
      }
    }

    /** `handleTimelineSelect` */
    method SelectTimeline(t: TimelineOption)
      requires Valid()
      modifies this
      ensures Valid()
      ensures selectedTimeline == Some(t)
      ensures currentStep == old(currentStep) && projectType == old(projectType) && selectedFeatures == old(selectedFeatures)
      ensures customRequirements == old(customRequirements) && savedEstimates == old(savedEstimates)
    {
      selectedTimeline := Some(t);
    }

    /** `handleRequirementsChange` */
    method ChangeRequirements(r: Requirements)
      requires Valid()
      modifies this
      ensures Valid()
      ensures customRequirements == r
      ensures currentStep == old(currentStep) && projectType == old(projectType) && selectedFeatures == old(selectedFeatures)
      ensures selectedTimeline == old(selectedTimeline) && savedEstimates == old(savedEstimates)
    {
      customRequirements := r;
    }

    /** `handleNextStep`: one step forward, only below step 4 and when the step's choice is made. */
    method NextStep()
      requires Valid()
      modifies this
      ensures Valid()
      ensures currentStep == if old(currentStep) < 4 && CanProceedToNext(old(currentStep), projectType, selectedTimeline)
        then old(currentStep) + 1 else old(currentStep)
      ensures currentStep == 2 && old(currentStep) == 1 ==> projectType.Some?
      ensures currentStep == 4 && old(currentStep) == 3 ==> selectedTimeline.Some?
      ensures projectType == old(projectType) && selectedFeatures == old(selectedFeatures) && selectedTimeline == old(selectedTimeline)
      ensures customRequirements == old(customRequirements) && savedEstimates == old(savedEstimates)
    {
      if currentStep < 4 && CanProceedToNext(currentStep, projectType, selectedTimeline) {
        currentStep := currentStep + 1;
      }
    }

    /** `handlePreviousStep`: one step back, never below step 1. */
    method PreviousStep()
      requires Valid()
      modifies this
      ensures Valid()
      ensures currentStep == if old(currentStep) > 1 then old(currentStep) - 1 else 1
      ensures projectType == old(projectType) && selectedFeatures == old(selectedFeatures) && selectedTimeline == old(selectedTimeline)
      ensures customRequirements == old(customRequirements) && savedEstimates == old(savedEstimates)
    {
      if currentStep > 1 {
        currentStep := currentStep - 1;
      }
    }

    /**
     * The auto-advance timer firing. It is armed whenever the page is on step 1 with a type
     * chosen, and is never cancelled, so when it fires it moves to step 2 whatever the step is
     * by then; no handler clears the type again, so the type is still chosen.
     */
    method AutoAdvanceFires()
      requires Valid() && projectType.Some?
      modifies this
      ensures Valid()
      ensures currentStep == 2
      ensures projectType == old(projectType) && selectedFeatures == old(selectedFeatures) && selectedTimeline == old(selectedTimeline)
      ensures customRequirements == old(customRequirements) && savedEstimates == old(savedEstimates)
    {
      currentStep := 2;
    }

    /** `handleGetQuote`: the route and navigation state the page navigates with. */
    method GetQuote() returns (route: string, state: Object)
      ensures route == ContactRoute
      ensures state == QuoteLocationState(QuotePayload(projectType, selectedFeatures, selectedTimeline, customRequirements))
    {
      route := ContactRoute;
      state := QuoteLocationState(QuotePayload(projectType, selectedFeatures, selectedTimeline, customRequirements));
    }

    /** `handleSaveEstimate`: appends one snapshot, stamped with `createdAt`, to the saved list. */
    method SaveEstimate(createdAt: string)
      requires Valid()
      modifies this
      ensures Valid()
      ensures savedEstimates == old(savedEstimates) + [SavedEstimate(projectType, selectedFeatures, selectedTimeline,
        customRequirements, TotalPrice(projectType, selectedFeatures, selectedTimeline, customRequirements), createdAt)]
      ensures currentStep == old(currentStep) && projectType == old(projectType) && selectedFeatures == old(selectedFeatures)
      ensures selectedTimeline == old(selectedTimeline) && customRequirements == old(customRequirements)
    {
      var total := TotalPrice(projectType, selectedFeatures, selectedTimeline, customRequirements);
      savedEstimates := savedEstimates + [SavedEstimate(projectType, selectedFeatures, selectedTimeline, customRequirements, total, createdAt)];
    }
  }
}
