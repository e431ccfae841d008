/**
 * The four-step contact wizard: personal details, project details (with attachments),
 * preferences, and review. A step is left forward only when its fields validate.
 */
module ContactFormSteps {
  import opened Wrappers
  import opened JsText
  import opened JsValues

  /** Field name to message; a cleared message stays as the empty string. */
  type Errors = map<string, string>

  const NameRequired := "Name is required"
  const EmailRequired := "Email is required"
  const EmailInvalid := "Please enter a valid email"
  const ProjectTypeRequired := "Please select a project type"
  const MessageRequired := "Please describe your project"
  const TermsRequired := "Please accept the terms and conditions"

  /** The fields whose inputs each step renders. */
  function StepFields(step: int): set<string>
  {
    match step
    case 1 => {"name", "email", "phone", "company"}
    case 2 => {"projectType", "budget", "timeline", "message", "files"}
    case 3 => {"preferredContact", "communicationFrequency", "newsletter"}
    case 4 => {"terms"}
    case _ => {}
  }

  /** Field `k` of `d` is set exactly when the estimator's data has a truthy `k`, and then holds that value. */
  predicate SeededField(d: Object, estimatorData: Option<Object>, k: string)
  {
    && k in d
    && (Truthy(d[k]) <==> estimatorData.Some? && Truthy(Get(estimatorData.value, k)))
    && (Truthy(d[k]) ==> d[k] == Get(estimatorData.value, k))
  }

  /** The form before any seeding: every field of the four steps, text empty, no files, terms unchecked. */
  function BlankFormData(): (d: Object)
    ensures TextFieldsWellTyped(d)
    ensures Text(d, "name") == "" && Text(d, "email") == "" && Text(d, "message") == ""
  {
    map[
      "name" := Str(""),
      "email" := Str(""),
      "phone" := Str(""),
      "company" := Str(""),
      "projectType" := Str(""),
      "budget" := Str(""),
      "timeline" := Str(""),
      "message" := Str(""),
      "preferredContact" := Str("email"),
      "communicationFrequency" := Str("weekly"),
      "files" := Files([]),
      "newsletter" := Bool(false),
      "terms" := Bool(false)
    ]
  }

  /** The blank form holds every field the four steps render, no files, and the terms unaccepted. */
  lemma BlankFormDataShape()
    ensures BlankFormData().Keys == StepFields(1) + StepFields(2) + StepFields(3) + StepFields(4)
    ensures BlankFormData()["files"] == Files([]) && BlankFormData()["terms"] == Bool(false)
  {
  }

  /** The initial form data; project type, budget and timeline come from the estimator's data when truthy. */
  function InitialFormData(estimatorData: Option<Object>): (d: Object)
    ensures TextFieldsWellTyped(d)
    ensures SeededField(d, estimatorData, "projectType")
    ensures SeededField(d, estimatorData, "budget")
    ensures SeededField(d, estimatorData, "timeline")
    ensures Text(d, "name") == "" && Text(d, "email") == "" && Text(d, "message") == ""
  {
    var est: Object := if estimatorData.Some? then estimatorData.value else map[];
    BlankFormData()[
      "projectType" := Or(Get(est, "projectType"), Str(""))][
      "budget" := Or(Get(est, "budget"), Str(""))][
      "timeline" := Or(Get(est, "timeline"), Str(""))]
  }

  /** The initial data holds every field the four steps render, no files, and the terms unaccepted. */
  lemma InitialFormDataShape(estimatorData: Option<Object>)
    ensures InitialFormData(estimatorData).Keys == StepFields(1) + StepFields(2) + StepFields(3) + StepFields(4)
    ensures InitialFormData(estimatorData)["files"] == Files([])
    ensures InitialFormData(estimatorData)["terms"] == Bool(false)
  {
    BlankFormDataShape();
  }

  /** The errors of step 1: a name and an email are required, and the email must contain the pattern. */
  function PersonalErrors(name: string, email: string): (e: Errors)
    ensures e.Keys <= {"name", "email"}
    ensures "name" in e <==> IsBlank(name)
    ensures "email" in e <==> IsBlank(email) || !EmailPatternOccurs(email)
    ensures "name" in e ==> e["name"] == NameRequired
    ensures "email" in e ==> e["email"] == if IsBlank(email) then EmailRequired else EmailInvalid
  {
    EmailPatternTestIsRegexTest(email);
    PersonalVerdict(Trim(name) == "", Trim(email) == "", EmailPatternTest(email))
  }

  /** Step 1's error map from the outcomes of its three checks. */
  function PersonalVerdict(nameBlank: bool, emailBlank: bool, emailMatches: bool): (e: Errors)
    ensures e.Keys <= {"name", "email"}
    ensures "name" in e <==> nameBlank
    ensures "email" in e <==> emailBlank || !emailMatches
    ensures "name" in e ==> e["name"] == NameRequired
    ensures "email" in e ==> e["email"] == if emailBlank then EmailRequired else EmailInvalid
  {
    var e: Errors := if nameBlank then map["name" := NameRequired] else map[];
    if emailBlank then e["email" := EmailRequired]
    else if !emailMatches then e["email" := EmailInvalid]
    else e
  }

  /** The errors of step 2: a project type and a non-blank description are required. */
  function ProjectErrors(projectType: Value, message: string): (e: Errors)
    ensures e.Keys <= {"projectType", "message"}
    ensures "projectType" in e <==> !Truthy(projectType)
    ensures "message" in e <==> IsBlank(message)
    ensures "projectType" in e ==> e["projectType"] == ProjectTypeRequired
    ensures "message" in e ==> e["message"] == MessageRequired
  {
    var e: Errors := if !Truthy(projectType) then map["projectType" := ProjectTypeRequired] else map[];
    if Trim(message) == "" then e["message" := MessageRequired] else e
  }

  /** The errors of step 4: the terms must be accepted. */
  function ReviewErrors(terms: Value): (e: Errors)
    ensures e.Keys <= {"terms"}
    ensures "terms" in e <==> !Truthy(terms)
    ensures "terms" in e ==> e["terms"] == TermsRequired
  {
    if !Truthy(terms) then map["terms" := TermsRequired] else map[]
  }

  /** `validateStep(step)`: the new error map, covering only the step's own fields (none for step 3). */
  function StepErrors(step: int, d: Object): (e: Errors)
    requires TextFieldsWellTyped(d)
    ensures e.Keys <= StepFields(step)
    ensures e.Keys <= {"name", "email", "projectType", "message", "terms"}
    ensures "name" in e <==> step == 1 && IsBlank(Text(d, "name"))
    ensures "email" in e <==> step == 1 && (IsBlank(Text(d, "email")) || !EmailPatternOccurs(Text(d, "email")))
    ensures "projectType" in e <==> step == 2 && !Truthy(Get(d, "projectType"))
    ensures "message" in e <==> step == 2 && IsBlank(Text(d, "message"))
    ensures "terms" in e <==> step == 4 && !Truthy(Get(d, "terms"))
    ensures "name" in e ==> e["name"] == NameRequired
    ensures "email" in e ==> e["email"] == if IsBlank(Text(d, "email")) then EmailRequired else EmailInvalid
    ensures "projectType" in e ==> e["projectType"] == ProjectTypeRequired
    ensures "message" in e ==> e["message"] == MessageRequired
    ensures "terms" in e ==> e["terms"] == TermsRequired
  {
    match step
    case 1 =>
      var e := PersonalErrors(Text(d, "name"), Text(d, "email"));
      assert "projectType" !in e && "message" !in e && "terms" !in e;
      e
    case 2 =>
      var e := ProjectErrors(Get(d, "projectType"), Text(d, "message"));
      assert "name" !in e && "email" !in e && "terms" !in e;
      e
    case 4 =>
      var e := ReviewErrors(Get(d, "terms"));
      assert "name" !in e && "email" !in e && "projectType" !in e && "message" !in e;
      e
    case _ => map[]
  }

  /** Every step validates on `d`: what the wizard holds when it submits from the last step. */
  ghost predicate AllStepsValid(d: Object)
    requires TextFieldsWellTyped(d)
  {
    forall j :: 1 <= j <= 4 ==> StepErrors(j, d) == map[]
  }

  /** A field's validation depends only on fields of its own step. */
  lemma StepErrorsIgnoreOtherSteps(step: int, d: Object, field: string, v: Value)
    requires TextFieldsWellTyped(d) && TextFieldsWellTyped(d[field := v])
    requires field !in StepFields(step)
    ensures StepErrors(step, d[field := v]) == StepErrors(step, d)
  {
    var d' := d[field := v];
    if step == 1 {
      assert Text(d', "name") == Text(d, "name") && Text(d', "email") == Text(d, "email");
    } else if step == 2 {
      assert Get(d', "projectType") == Get(d, "projectType") && Text(d', "message") == Text(d, "message");
    } else if step == 4 {
      assert Get(d', "terms") == Get(d, "terms");
    }
  }

  /** `handleInputChange`'s effect on the errors: the field's message is emptied if it was set; nothing else changes. */
  function ClearedError(errors: Errors, field: string): (r: Errors)
    ensures r.Keys == errors.Keys
    ensures field in r ==> r[field] == ""
    ensures forall k :: k in r && k != field ==> r[k] == errors[k]
  {
    if field in errors && errors[field] != "" then errors[field := ""] else errors
  }

  /** The text inputs; they always report a string. */
  const TextInputs: set<string> := {"name", "email", "phone", "company", "message"}

  /** The wizard's state. `pending` holds the form data of submissions whose simulated request has not finished; `submitted` what `onSubmit` received. */
  class Wizard {
    var currentStep: int
    var formData: Object
    var errors: Errors
    var isSubmitting: bool
    var pending: seq<Object>
    var submitted: seq<Object>

    /** The step is in range, the text fields hold strings, and every step before the current one validates. */
    ghost predicate Valid()
      reads this
    {
      && 1 <= currentStep <= 4
      && TextFieldsWellTyped(formData)
      && (forall j :: 1 <= j < currentStep ==> StepErrors(j, formData) == map[])
    }

    constructor(estimatorData: Option<Object>)
      ensures Valid()
      ensures currentStep == 1 && formData == InitialFormData(estimatorData) && errors == map[]
      ensures !isSubmitting && pending == [] && submitted == []
    {
      currentStep := 1;
      formData := InitialFormData(estimatorData);
      errors := map[];
      isSubmitting := false;
      pending := [];
      submitted := [];
    }

    /** `handleInputChange` from an input of the current step. */
    method HandleInputChange(field: string, value: Value)
      requires Valid()
      requires field in StepFields(currentStep)
      requires field in TextInputs ==> value.Str?
      modifies this
      ensures Valid()
      ensures formData == old(formData)[field := value]
      ensures errors == ClearedError(old(errors), field)
      ensures currentStep == old(currentStep) && isSubmitting == old(isSubmitting)
      ensures pending == old(pending) && submitted == old(submitted)
    {
      var updated := formData[field := value];
      forall j | 1 <= j < currentStep
        ensures StepErrors(j, updated) == map[]
      {
        StepErrorsIgnoreOtherSteps(j, formData, field, value);
      }
      formData := updated;
      if field in errors && errors[field] != "" {
        errors := errors[field := ""];
      }
    }

    /** `nextStep`: validates the current step and moves forward (at most to step 4) only when it passes. */
    method NextStep()
      requires Valid()
      modifies this
      ensures Valid()
      ensures errors == StepErrors(old(currentStep), formData)
      ensures currentStep == if errors == map[] then (if old(currentStep) < 4 then old(currentStep) + 1 else 4) else old(currentStep)
      ensures formData == old(formData) && isSubmitting == old(isSubmitting)
      ensures pending == old(pending) && submitted == old(submitted)
    {
      errors := StepErrors(currentStep, formData);
      if errors == map[] {
        currentStep := if currentStep + 1 < 4 then currentStep + 1 else 4;
      }
    }

    /** `prevStep`: one step back, never below 1, with no validation. */
    method PrevStep()
      requires Valid()
      modifies this
      ensures Valid()
      ensures currentStep == if old(currentStep) > 1 then old(currentStep) - 1 else 1
      ensures formData == old(formData) && errors == old(errors) && isSubmitting == old(isSubmitting)
      ensures pending == old(pending) && submitted == old(submitted)
    {
      currentStep := if currentStep - 1 > 1 then currentStep - 1 else 1;
    }

    /**
     * `handleSubmit` up to its simulated request: validates the current step only; when it passes
     * the form data as it is now is queued for `onSubmit`.
     */
    method StartSubmit() returns (started: bool)
      requires Valid()
      modifies this
      ensures Valid()
      ensures errors == StepErrors(currentStep, formData)
      ensures started <==> errors == map[]
      ensures started ==> isSubmitting && pending == old(pending) + [formData]
      ensures started && currentStep == 4 ==> AllStepsValid(formData)
      ensures !started ==> isSubmitting == old(isSubmitting) && pending == old(pending)
      ensures currentStep == old(currentStep) && formData == old(formData) && submitted == old(submitted)
    {
      errors := StepErrors(currentStep, formData);
      started := errors == map[];
      if started {
        isSubmitting := true;
        pending := pending + [formData];
      }
    }

    /** The oldest simulated request finishes: `onSubmit` receives the data queued at its click, and the button is released. */
    method FinishSubmit() returns (delivered: Object)
      requires Valid()
      requires pending != []
      modifies this
      ensures Valid()
      ensures delivered == old(pending[0])
      ensures pending == old(pending[1..]) && submitted == old(submitted) + [delivered]
      ensures !isSubmitting
      ensures currentStep == old(currentStep) && formData == old(formData) && errors == old(errors)
    {
      delivered := pending[0];
      pending := pending[1..];
      submitted := submitted + [delivered];
      isSubmitting := false;
    }
  }
}
