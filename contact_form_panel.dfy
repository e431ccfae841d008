/**
 * The single-page contact form: every field on one screen, one validation pass on submit,
 * a success view, and a delayed reset to the blank form.
 */
module ContactFormPanel {
  import opened Wrappers
  import opened JsText
  import opened JsValues
  import opened ContactFormSteps

  /** The blank form the panel starts from and resets to. */
  function InitialPanelData(): (d: Object)
    ensures TextFieldsWellTyped(d)
    ensures d.Keys == {"name", "email", "phone", "company", "projectType", "budget", "timeline", "message",
      "preferredContact", "newsletter", "terms"}
    ensures forall k :: k in d && k !in {"preferredContact", "newsletter", "terms"} ==> d[k] == Str("")
    ensures d["preferredContact"] == Str("email") && d["newsletter"] == Bool(false) && d["terms"] == Bool(false)
  {
    map[
      "name" := Str(""),
      "email" := Str(""),
      "phone" := Str(""),
      "company" := Str(""),
      "projectType" := Str(""),
      "budget" := Str(""),
      "timeline" := Str(""),
      "message" := Str(""),
      "preferredContact" := Str("email"),
      "newsletter" := Bool(false),
      "terms" := Bool(false)
    ]
  }

  /** `validateForm`: name, email, project type, description and terms in one pass. */
  function FormErrors(d: Object): (e: Errors)
    requires TextFieldsWellTyped(d)
    ensures e.Keys <= {"name", "email", "projectType", "message", "terms"}
    ensures "name" in e <==> IsBlank(Text(d, "name"))
    ensures "email" in e <==> IsBlank(Text(d, "email")) || !EmailPatternOccurs(Text(d, "email"))
    ensures "projectType" in e <==> !Truthy(Get(d, "projectType"))
    ensures "message" in e <==> IsBlank(Text(d, "message"))
    ensures "terms" in e <==> !Truthy(Get(d, "terms"))
    ensures "email" in e ==> e["email"] == if IsBlank(Text(d, "email")) then EmailRequired else EmailInvalid
  {
    PanelErrors(Text(d, "name"), Text(d, "email"), Get(d, "projectType"), Text(d, "message"), Get(d, "terms"))
  }

  /** The panel's five checks on the values of the fields they read. */
  function PanelErrors(name: string, email: string, projectType: Value, message: string, terms: Value): (e: Errors)
    ensures e.Keys <= {"name", "email", "projectType", "message", "terms"}
    ensures "name" in e <==> IsBlank(name)
    ensures "email" in e <==> IsBlank(email) || !EmailPatternOccurs(email)
    ensures "projectType" in e <==> !Truthy(projectType)
    ensures "message" in e <==> IsBlank(message)
    ensures "terms" in e <==> !Truthy(terms)
    ensures "email" in e ==> e["email"] == if IsBlank(email) then EmailRequired else EmailInvalid
  {
    EmailPatternTestIsRegexTest(email);
    PanelVerdict(Trim(name) == "", Trim(email) == "", EmailPatternTest(email),
      Truthy(projectType), Trim(message) == "", Truthy(terms))
  }

  /** The panel's error map from the outcomes of its five checks, built in the order the source checks. */
  function PanelVerdict(nameBlank: bool, emailBlank: bool, emailMatches: bool, hasProjectType: bool,
                        messageBlank: bool, termsAccepted: bool): (e: Errors)
    ensures e.Keys <= {"name", "email", "projectType", "message", "terms"}
    ensures "name" in e <==> nameBlank
    ensures "email" in e <==> emailBlank || !emailMatches
    ensures "projectType" in e <==> !hasProjectType
    ensures "message" in e <==> messageBlank
    ensures "terms" in e <==> !termsAccepted
    ensures "email" in e ==> e["email"] == if emailBlank then EmailRequired else EmailInvalid
  {
    var e1 := PersonalVerdict(nameBlank, emailBlank, emailMatches);
    var e2 := if !hasProjectType then e1["projectType" := ProjectTypeRequired] else e1;
    var e3 := if messageBlank then e2["message" := MessageRequired] else e2;
    if !termsAccepted then e3["terms" := TermsRequired] else e3
  }

  /** Step 1 passes exactly when the name is present and the email present and well formed. */
  lemma PersonalStepPasses(d: Object)
    requires TextFieldsWellTyped(d)
    ensures StepErrors(1, d) == map[] <==>
      !IsBlank(Text(d, "name")) && !IsBlank(Text(d, "email")) && EmailPatternOccurs(Text(d, "email"))
  {
    var s := StepErrors(1, d);
    assert s == map[] <==> "name" !in s && "email" !in s;
  }

  /** Step 2 passes exactly when a project type is chosen and the description is not blank. */
  lemma ProjectStepPasses(d: Object)
    requires TextFieldsWellTyped(d)
    ensures StepErrors(2, d) == map[] <==> Truthy(Get(d, "projectType")) && !IsBlank(Text(d, "message"))
  {
    var s := StepErrors(2, d);
    assert s == map[] <==> "projectType" !in s && "message" !in s;
  }

  /** The panel rejects exactly when one of its five checks fails. */
  lemma PanelPasses(d: Object)
    requires TextFieldsWellTyped(d)
    ensures FormErrors(d) == map[] <==>
      && !IsBlank(Text(d, "name")) && !IsBlank(Text(d, "email")) && EmailPatternOccurs(Text(d, "email"))
      && Truthy(Get(d, "projectType")) && !IsBlank(Text(d, "message"))
      && Truthy(Get(d, "terms"))
  {
    var e := FormErrors(d);
    assert e == map[] <==> "name" !in e && "email" !in e && "projectType" !in e && "message" !in e && "terms" !in e;
  }

  /** Data the panel accepts passes every step of the wizard. */
  lemma PanelAcceptsOnlyValidData(d: Object)
    requires TextFieldsWellTyped(d)
    requires FormErrors(d) == map[]
    ensures AllStepsValid(d)
  {
    PersonalStepPasses(d);
    ProjectStepPasses(d);
    PanelPasses(d);
    ReviewStepPasses(d);
    forall j | 1 <= j <= 4
      ensures StepErrors(j, d) == map[]
    {
      if j == 3 {
        assert StepErrors(j, d) == map[];
      }
    }
  }

  /** Data passing every step of the wizard passes the panel. */
  lemma PanelAcceptsAllValidData(d: Object)
    requires TextFieldsWellTyped(d)
    requires AllStepsValid(d)
    ensures FormErrors(d) == map[]
  {
    PersonalStepPasses(d);
    ProjectStepPasses(d);
    PanelPasses(d);
    ReviewStepPasses(d);
    assert StepErrors(1, d) == map[];
    assert StepErrors(2, d) == map[];
    assert StepErrors(4, d) == map[];
  }

  /** The panel accepts exactly the data on which each of the wizard's validating steps passes. */
  lemma PanelAcceptsWhatWizardAccepts(d: Object)
    requires TextFieldsWellTyped(d)
    ensures FormErrors(d) == map[] <==> AllStepsValid(d)
  {
    if FormErrors(d) == map[] {
      PanelAcceptsOnlyValidData(d);
    }
    if AllStepsValid(d) {
      PanelAcceptsAllValidData(d);
    }
  }

  /** Step 4 passes exactly when the terms are accepted. */
  lemma ReviewStepPasses(d: Object)
    requires TextFieldsWellTyped(d)
    ensures StepErrors(4, d) == map[] <==> Truthy(Get(d, "terms"))
  {
    var s := StepErrors(4, d);
    assert s == map[] <==> "terms" !in s;
  }

  /** The panel's state. `pending` holds the form data of submissions whose simulated request has not finished. */
  class Panel {
    var formData: Object
    var errors: Errors
    var isSubmitting: bool
    var submitSuccess: bool
    var pending: seq<Object>
    var submitted: seq<Object>
    var resetsDue: nat

    ghost predicate Valid()
      reads this
    {
      TextFieldsWellTyped(formData)
    }

    constructor()
      ensures Valid()
      ensures formData == InitialPanelData() && errors == map[]
      ensures !isSubmitting && !submitSuccess && pending == [] && submitted == [] && resetsDue == 0
    {
      formData := InitialPanelData();
      errors := map[];
      isSubmitting := false;
      submitSuccess := false;
      pending := [];
      submitted := [];
      resetsDue := 0;
    }

    /** The prefill effect: every key of the given object overrides the form's value, unknown keys included. */
    method Prefill(prefilledData: Option<Object>)
      requires Valid()
      requires prefilledData.Some? ==> TextFieldsWellTyped(prefilledData.value)
      modifies this
      ensures Valid()
      ensures prefilledData.None? ==> formData == old(formData)
      ensures prefilledData.Some? ==> formData.Keys == old(formData).Keys + prefilledData.value.Keys
      ensures prefilledData.Some? ==> forall k :: k in formData ==>
        formData[k] == if k in prefilledData.value then prefilledData.value[k] else old(formData)[k]
      ensures errors == old(errors) && isSubmitting == old(isSubmitting) && submitSuccess == old(submitSuccess)
      ensures pending == old(pending) && submitted == old(submitted) && resetsDue == old(resetsDue)
    {
      if prefilledData.Some? {
        formData := formData + prefilledData.value;
      }
    }

    /** `handleInputChange`: sets the field and empties only that field's message, if it had one. */
    method HandleInputChange(field: string, value: Value)
      requires Valid()
      requires field in TextInputs ==> value.Str?
      modifies this
      ensures Valid()
      ensures formData == old(formData)[field := value]
      ensures errors == ClearedError(old(errors), field)
      ensures isSubmitting == old(isSubmitting) && submitSuccess == old(submitSuccess)
      ensures pending == old(pending) && submitted == old(submitted) && resetsDue == old(resetsDue)
    {
      formData := formData[field := value];
      if field in errors && errors[field] != "" {
        errors := errors[field := ""];
      }
    }

    /** `handleSubmit` up to its simulated request: an invalid form stops here with the data untouched. */
    method StartSubmit() returns (started: bool)
      requires Valid()
      modifies this
      ensures Valid()
      ensures errors == FormErrors(formData)
      ensures started <==> errors == map[]
      ensures started ==> AllStepsValid(formData)
      ensures started ==> isSubmitting && pending == old(pending) + [formData]
      ensures !started ==> isSubmitting == old(isSubmitting) && pending == old(pending)
      ensures formData == old(formData) && submitSuccess == old(submitSuccess)
      ensures submitted == old(submitted) && resetsDue == old(resetsDue)
    {
      var data := formData;
      var e := FormErrors(data);
      started := e == map[];
      errors := e;
      if started {
        isSubmitting := true;
        pending := pending + [data];
        PanelAcceptsOnlyValidData(data);
      }
    }

    /**
     * The oldest simulated request finishes. With a handler, `onSubmit` receives the data queued
     * at its click; unless it throws, the success view opens and a reset is scheduled. A thrown
     * error is only logged: the data stays. Either way the button is released.
     */
    method FinishSubmit(hasHandler: bool, handlerThrows: bool)
      requires Valid()
      requires pending != []
      modifies this
      ensures Valid()
      ensures pending == old(pending[1..])
      ensures submitted == if hasHandler then old(submitted) + [old(pending[0])] else old(submitted)
      ensures hasHandler && handlerThrows ==> submitSuccess == old(submitSuccess) && resetsDue == old(resetsDue)
      ensures !(hasHandler && handlerThrows) ==> submitSuccess && resetsDue == old(resetsDue) + 1
      ensures !isSubmitting
      ensures formData == old(formData) && errors == old(errors)
    {
      var snapshot := pending[0];
      pending := pending[1..];
      if hasHandler {
        submitted := submitted + [snapshot];
      }
      if !(hasHandler && handlerThrows) {
        submitSuccess := true;
        resetsDue := resetsDue + 1;
      }
      isSubmitting := false;
    }

    /** The reset timer fires: the blank form is back and the success view closes; the error map is kept. */
    method ResetFires()
      requires Valid()
      requires resetsDue > 0
      modifies this
      ensures Valid()
      ensures formData == InitialPanelData() && !submitSuccess
      ensures resetsDue == old(resetsDue) - 1
      ensures errors == old(errors) && isSubmitting == old(isSubmitting)
      ensures pending == old(pending) && submitted == old(submitted)
    {
      formData := InitialPanelData();
      submitSuccess := false;
      resetsDue := resetsDue - 1;
    }

    /**
     * "Send Another Message" on the success view: the view closes and the form is back, holding
     * the submitted data. The reset already scheduled stays due, so it will still blank the form.
     */
    method SendAnother()
      requires Valid()
      requires submitSuccess
      modifies this
      ensures Valid()
      ensures !submitSuccess
      ensures formData == old(formData) && errors == old(errors) && isSubmitting == old(isSubmitting)
      ensures pending == old(pending) && submitted == old(submitted) && resetsDue == old(resetsDue)
    {
      submitSuccess := false;
    }
  }
}
