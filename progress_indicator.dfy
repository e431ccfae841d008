/**
 * The step indicator above the estimator: which steps are listed, how far the bar is filled,
 * and the status of each step relative to the current one.
 */
module ProgressIndicator {
  import opened Wrappers

  /** A listed step; `stepLabel` is the source's `label`, the text shown under its circle. */
  datatype Step = Step(id: int, stepLabel: string, icon: string)

  /** The four steps shown when the caller passes none. */
  const DefaultSteps: seq<Step> := [
    Step(1, "Project Type", "Layers"),
    Step(2, "Requirements", "CheckSquare"),
    Step(3, "Timeline", "Calendar"),
    Step(4, "Summary", "FileText")
  ]

  /** The end `Array.prototype.slice(0, end)` uses on a list of length `len`: negative counts from the back. */
  function SliceEnd(end: int, len: nat): (r: nat)
    ensures r <= len
    ensures 0 <= end ==> r == if end < len then end else len
    ensures end < 0 ==> r == if len + end > 0 then len + end else 0
  {
    if end < 0 then (if len + end > 0 then len + end else 0)
    else if end < len then end else len
  }

  /** `progressSteps`: the given steps when there are any, otherwise a prefix of the defaults. */
  function ProgressSteps(steps: seq<Step>, totalSteps: int): (r: seq<Step>)
    ensures |steps| > 0 ==> r == steps
    ensures |steps| == 0 ==> r <= DefaultSteps
    ensures |steps| == 0 && 0 <= totalSteps <= |DefaultSteps| ==> |r| == totalSteps
    ensures |steps| == 0 && totalSteps >= |DefaultSteps| ==> r == DefaultSteps
    ensures |steps| == 0 && totalSteps < 0 ==> |r| == SliceEnd(totalSteps, |DefaultSteps|)
  {
    if |steps| > 0 then steps else DefaultSteps[..SliceEnd(totalSteps, |DefaultSteps|)]
  }

  /**
   * `progressPercentage`, the filled width of the bar. With a single step the division is by zero
   * and the value is not a finite number: `None`.
   */
  function ProgressPercentage(currentStep: int, totalSteps: int): (r: Option<real>)
    ensures r.None? <==> totalSteps == 1
    ensures r.Some? && currentStep == 1 ==> r.value == 0.0
    ensures r.Some? && currentStep == totalSteps ==> r.value == 100.0
    ensures r.Some? && 1 <= currentStep <= totalSteps ==> 0.0 <= r.value <= 100.0
  {
    if totalSteps == 1 then None
    else Some(((currentStep - 1) as real / (totalSteps - 1) as real) * 100.0)
  }

  /** The bar grows with the step: a later step is never less filled. */
  lemma PercentageMonotone(c1: int, c2: int, totalSteps: int)
    requires totalSteps > 1 && c1 <= c2
    ensures ProgressPercentage(c1, totalSteps).value <= ProgressPercentage(c2, totalSteps).value
  {
    var d := (totalSteps - 1) as real;
    assert (c1 - 1) as real / d <= (c2 - 1) as real / d;
  }

  datatype Status = Completed | Current | Upcoming

  /** `getStepStatus`. */
  function StepStatus(stepNumber: int, currentStep: int): (s: Status)
    ensures s == Completed <==> stepNumber < currentStep
    ensures s == Current <==> stepNumber == currentStep
    ensures s == Upcoming <==> stepNumber > currentStep
  {
    if stepNumber < currentStep then Completed
    else if stepNumber == currentStep then Current
    else Upcoming
  }

  /** The statuses of `n` listed steps, numbered from 1. */
  function Statuses(n: nat, currentStep: int): (r: seq<Status>)
    ensures |r| == n
    ensures forall i :: 0 <= i < n ==> r[i] == StepStatus(i + 1, currentStep)
  {
    seq(n, i requires 0 <= i < n => StepStatus(i + 1, currentStep))
  }

  function Repeat(x: Status, k: nat): (r: seq<Status>)
    ensures |r| == k
    ensures forall i :: 0 <= i < k ==> r[i] == x
  {
    seq(k, _ => x)
  }

  /** With the current step among the listed ones, the statuses read completed*, current, upcoming*. */
  lemma StatusesShape(n: nat, currentStep: int)
    requires 1 <= currentStep <= n
    ensures Statuses(n, currentStep) == Repeat(Completed, currentStep - 1) + [Current] + Repeat(Upcoming, n - currentStep)
  {
    var shape := Repeat(Completed, currentStep - 1) + [Current] + Repeat(Upcoming, n - currentStep);
    forall i | 0 <= i < n
      ensures Statuses(n, currentStep)[i] == shape[i]
    {
      if i < currentStep - 1 {
        assert shape[i] == Completed;
      } else if i == currentStep - 1 {
        assert shape[i] == Current;
      } else {
        assert shape[i] == Upcoming;
      }
    }
  }

  function Count(s: seq<Status>, x: Status): nat
  {
    if s == [] then 0 else (if s[0] == x then 1 else 0) + Count(s[1..], x)
  }

  lemma {:induction false} CountAppend(a: seq<Status>, b: seq<Status>, x: Status)
    ensures Count(a + b, x) == Count(a, x) + Count(b, x)
  {
    if a == [] {
      assert a + b == b;
    } else {
      assert (a + b)[1..] == a[1..] + b;
      CountAppend(a[1..], b, x);
    }
  }

  lemma {:induction false} CountRepeatOther(y: Status, k: nat, x: Status)
    requires y != x
    ensures Count(Repeat(y, k), x) == 0
  {
    if k > 0 {
      assert Repeat(y, k)[1..] == Repeat(y, k - 1);
      CountRepeatOther(y, k - 1, x);
    }
  }

  /** Exactly one listed step is the current one, and every step before it is completed. */
  lemma ExactlyOneCurrent(n: nat, currentStep: int)
    requires 1 <= currentStep <= n
    ensures Count(Statuses(n, currentStep), Current) == 1
    ensures Count(Statuses(n, currentStep), Completed) == currentStep - 1
  {
    StatusesShape(n, currentStep);
    var before, after := Repeat(Completed, currentStep - 1), Repeat(Upcoming, n - currentStep);
    CountAppend(before + [Current], after, Current);
    CountAppend(before, [Current], Current);
    CountRepeatOther(Completed, currentStep - 1, Current);
    CountRepeatOther(Upcoming, n - currentStep, Current);
    CountAppend(before + [Current], after, Completed);
    CountAppend(before, [Current], Completed);
    CountRepeatOther(Upcoming, n - currentStep, Completed);
    CountRepeatOfSelf(Completed, currentStep - 1);
    assert [Current][1..] == [];
  }

  lemma {:induction false} CountRepeatOfSelf(x: Status, k: nat)
    ensures Count(Repeat(x, k), x) == k
  {
    if k > 0 {
      assert Repeat(x, k)[1..] == Repeat(x, k - 1);
      CountRepeatOfSelf(x, k - 1);
    }
  }

  /** The mobile caption: the label of the current step, when there is such a listed step. */
  function CurrentLabel(steps: seq<Step>, currentStep: int): (r: Option<string>)
    ensures r.Some? <==> 1 <= currentStep <= |steps|
    ensures r.Some? ==> r.value == steps[currentStep - 1].stepLabel
  {
    if 1 <= currentStep <= |steps| then Some(steps[currentStep - 1].stepLabel) else None
  }
}
