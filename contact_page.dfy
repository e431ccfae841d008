/**
 * The contact page: it picks the estimator's data out of the navigation state, renders the
 * four-step wizard, and shows a success modal with what the wizard submitted.
 */
module ContactInquiryPage {
  import opened Wrappers
  import opened JsValues
  import opened ContactFormSteps
  import ProjectTypeSelector
  import FeatureSelector
  import TimelineSelector
  import CostEstimator

  /** The properties a value offers when read as an object: none unless it is one. */
  function AsObject(v: Value): Object
  {
    if v.Obj? then v.fields else map[]
  }

  /** The key the page reads the estimate from. */
  const PageKey := "estimatorData"

  /** The key the estimator writes its quote under. */
  const QuoteKey := "estimateData"

  /** The navigation-state effect: a truthy `state[key]` is taken; otherwise nothing is. */
  function ReceivedEstimate(state: Option<Object>, key: string): (r: Option<Object>)
    ensures r.Some? <==> state.Some? && Truthy(Get(state.value, key))
    ensures r.Some? ==> r.value == AsObject(state.value[key])
  {
    if state.Some? && Truthy(Get(state.value, key)) then Some(AsObject(state.value[key]))
    else None
  }

  /** The estimator sends its quote under "estimateData", so the page, reading "estimatorData", never receives one. */
  lemma QuoteNeverReachesPage(payload: Object)
    ensures ReceivedEstimate(Some(CostEstimator.QuoteLocationState(payload)), PageKey) == None
  {
    var state := CostEstimator.QuoteLocationState(payload);
    assert PageKey !in state;
  }

  /** With the corrected key, the quote the estimator sends is exactly what the page receives. */
  lemma FixedIntakeDeliversQuote(payload: Object)
    ensures ReceivedEstimate(Some(CostEstimator.QuoteLocationState(payload)), QuoteKey) == Some(payload)
  {
  }

  /**
   * The wizard reads its `estimatorData` prop only in its state initializer, at the page's first
   * render, when the page's own state is still `null`: the estimate that arrives afterwards never
   * reaches the wizard's fields.
   */
  lemma FirstRenderSeedDropsEstimate(estimate: Object)
    requires Truthy(Get(estimate, "projectType"))
    ensures InitialFormData(None)["projectType"] != InitialFormData(Some(estimate))["projectType"]
  {
  }

  /** The wizard's project type, budget and timeline are the estimate's where the estimate has them. */
  predicate PrefilledFrom(d: Object, estimate: Object)
  {
    forall k :: k in {"projectType", "budget", "timeline"} && Truthy(Get(estimate, k)) ==> k in d && d[k] == estimate[k]
  }

  /** The wizard's data seeded, as evidently intended, from the estimate present on arrival. */
  function SeededWizardData(state: Option<Object>): (d: Object)
    ensures TextFieldsWellTyped(d)
    ensures ReceivedEstimate(state, QuoteKey).None? ==> d == InitialFormData(None)
    ensures ReceivedEstimate(state, QuoteKey).Some? ==> PrefilledFrom(d, ReceivedEstimate(state, QuoteKey).value)
  {
    InitialFormData(ReceivedEstimate(state, QuoteKey))
  }

  /** With both corrections, a quote prefills the wizard's project type, budget and timeline. */
  lemma FixedSeedPrefillsWizard(projectType: ProjectTypeSelector.ProjectType, features: seq<FeatureSelector.Feature>,
                                timeline: TimelineSelector.TimelineOption, requirements: CostEstimator.Requirements)
    requires projectType.name != "" && timeline.name != ""
    ensures var payload := CostEstimator.QuotePayload(Some(projectType), features, Some(timeline), requirements);
      var d := SeededWizardData(Some(CostEstimator.QuoteLocationState(payload)));
      && d["projectType"] == Str(projectType.name)
      && d["budget"] == Price(CostEstimator.TotalPrice(Some(projectType), features, Some(timeline), requirements))
      && d["timeline"] == Str(timeline.name)
  {
    var payload := CostEstimator.QuotePayload(Some(projectType), features, Some(timeline), requirements);
    FixedIntakeDeliversQuote(payload);
    assert Truthy(Get(payload, "projectType")) && Truthy(Get(payload, "budget")) && Truthy(Get(payload, "timeline"));
  }

  /** The page's state and the wizard it renders. */
  class Page {
    var estimatorData: Option<Object>
    var showSuccessModal: bool
    var submittedData: Option<Object>
    const form: Wizard

    ghost predicate Valid()
      reads this, form
    {
      form.Valid() && (showSuccessModal <==> submittedData.Some?)
    }

    /**
     * Arrival: the first render creates the wizard while `estimatorData` is still `null`; the
     * effect then takes the estimate from the navigation state.
     */
    constructor(state: Option<Object>)
      ensures Valid() && fresh(form)
      ensures estimatorData == ReceivedEstimate(state, PageKey)
      ensures form.currentStep == 1 && form.formData == InitialFormData(None)
      ensures !showSuccessModal && submittedData == None
      ensures form.pending == [] && form.submitted == []
    {
      estimatorData := None;
      showSuccessModal := false;
      submittedData := None;
      form := new Wizard(None);
      new;
      LocationStateChanges(state);
    }

    /** The effect re-runs on a new navigation state; a falsy entry leaves the previous estimate. */
    method LocationStateChanges(state: Option<Object>)
      modifies this
      ensures ReceivedEstimate(state, PageKey).Some? ==> estimatorData == ReceivedEstimate(state, PageKey)
      ensures ReceivedEstimate(state, PageKey).None? ==> estimatorData == old(estimatorData)
      ensures showSuccessModal == old(showSuccessModal) && submittedData == old(submittedData)
    {
      var received := ReceivedEstimate(state, PageKey);
      if received.Some? {
        estimatorData := received;
      }
    }

    /** `handleFormSubmit`: keeps the submitted data and opens the success modal. */
    method HandleFormSubmit(formData: Object)
      requires Valid()
      modifies this
      ensures Valid()
      ensures submittedData == Some(formData) && showSuccessModal
      ensures estimatorData == old(estimatorData)
    {
      submittedData := Some(formData);
      showSuccessModal := true;
    }

    /** `handleCloseSuccessModal`: closes the modal and forgets the data. */
    method HandleCloseSuccessModal()
      requires Valid()
      modifies this
      ensures Valid()
      ensures !showSuccessModal && submittedData == None
      ensures estimatorData == old(estimatorData)
    {
      showSuccessModal := false;
      submittedData := None;
    }

    /**
     * The wizard's oldest pending request finishes and calls the page's `onSubmit`: the modal
     * shows exactly the data the wizard queued when the button was pressed.
     */
    method DeliverSubmission()
      requires Valid() && form.pending != []
      modifies this, form
      ensures Valid()
      ensures submittedData == Some(old(form.pending[0])) && showSuccessModal
      ensures form.submitted == old(form.submitted) + [old(form.pending[0])]
      ensures form.pending == old(form.pending[1..])
      ensures estimatorData == old(estimatorData)
    {
      var delivered := form.FinishSubmit();
      HandleFormSubmit(delivered);
    }
  }
}
