/**
 * The requirements step of the cost estimator: a complexity level and three free-text
 * fields, each edit reported to the estimator as a whole new requirements object.
 */
module CustomRequirements {

  /**
   * The estimator's requirements object. The estimator starts from `{}`; a missing key is
   * represented by the empty string, which every reader treats the same way (`|| 'medium'`,
   * `|| ''`, and the multiplier's default case).
   */
  datatype Requirements = Requirements(complexity: string, description: string, specialFeatures: string, integrations: string)

  const NoRequirements := Requirements("", "", "", "")

  /** The four keys of the object. */
  datatype Field = Complexity | Description | SpecialFeatures | Integrations

  function Get(r: Requirements, f: Field): string
  {
    match f
    case Complexity => r.complexity
    case Description => r.description
    case SpecialFeatures => r.specialFeatures
    case Integrations => r.integrations
  }

  /** `{ complexity, description, specialFeatures, integrations, ...{ [field]: value } }` */
  function Merge(current: Requirements, f: Field, value: string): (r: Requirements)
    ensures Get(r, f) == value
    ensures forall g :: g != f ==> Get(r, g) == Get(current, g)
  {
    match f
    case Complexity => current.(complexity := value)
    case Description => current.(description := value)
    case SpecialFeatures => current.(specialFeatures := value)
    case Integrations => current.(integrations := value)
  }

  /** The local values the step starts from: complexity defaults to "medium", the texts to "". */
  function InitialValues(given: Requirements): (r: Requirements)
    ensures given.complexity == "" ==> r.complexity == "medium"
    ensures given.complexity != "" ==> r.complexity == given.complexity
    ensures ComplexityMultiplier(r.complexity) == ComplexityMultiplier(given.complexity)
    ensures forall f :: f != Complexity ==> Get(r, f) == Get(given, f)
  {
    given.(complexity := if given.complexity == "" then "medium" else given.complexity)
  }

  /** The price factor of a complexity level: above 1 for complex and enterprise, below 1 for simple. */
  function ComplexityMultiplier(level: string): (m: real)
    ensures m > 1.0 <==> level == "complex" || level == "enterprise"
    ensures m < 1.0 <==> level == "simple"
    ensures m == 1.0 <==> level != "simple" && level != "complex" && level != "enterprise"
  {
    match level
    case "simple" => 0.8
    case "medium" => 1.0
    case "complex" => 1.4
    case "enterprise" => 2.0
    case _ => 1.0
  }

  /** The requirements step's local state. */
  class RequirementsForm {
    var values: Requirements

    constructor(given: Requirements)
      ensures values == InitialValues(given)
    {
      values := InitialValues(given);
    }

    /**
     * One of the four change handlers: sets the field and returns the object passed to
     * `onRequirementsChange`, which is the new local state.
     */
    method Change(f: Field, value: string) returns (emitted: Requirements)
      modifies this
      ensures values == Merge(old(values), f, value)
      ensures emitted == values
    {
      values := Merge(values, f, value);
      emitted := values;
    }
  }

  /** Editing a field twice keeps only the second value; editing two different fields commutes. */
  lemma MergeLaws(r: Requirements, f: Field, g: Field, a: string, b: string)
    ensures Merge(Merge(r, f, a), f, b) == Merge(r, f, b)
    ensures f != g ==> Merge(Merge(r, f, a), g, b) == Merge(Merge(r, g, b), f, a)
  {
  }
}
