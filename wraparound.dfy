/**
 * Cyclic navigation over a list of `n` items, the arithmetic behind every
 * "previous"/"next" control of the site: the image carousel, the testimonials
 * slider, the portfolio modal and the project detail page each write it their
 * own way, and each of those ways is proved equal to `Succ`/`Pred` on valid
 * indices in its own module.
 */
module Wraparound {

  /** The index after `i`, wrapping from the last item to the first. */
  function Succ(i: nat, n: nat): (r: nat)
    requires i < n
    ensures r < n
    ensures r == 0 <==> i == n - 1
  {
    (i + 1) % n
  }

  /** The index before `i`, wrapping from the first item to the last. */
  function Pred(i: nat, n: nat): (r: nat)
    requires i < n
    ensures r < n
    ensures r == n - 1 <==> i == 0
  {
    if i == 0 then n - 1 else i - 1
  }

  /** Stepping forward then back, or back then forward, returns to the same item. */
  lemma SuccPredInverse(i: nat, n: nat)
    requires i < n
    ensures Pred(Succ(i, n), n) == i
    ensures Succ(Pred(i, n), n) == i
  {
  }

  /** `k` steps forward from `i`. */
  function SuccIter(i: nat, n: nat, k: nat): (r: nat)
    requires i < n
    ensures r < n
  {
    if k == 0 then i else Succ(SuccIter(i, n, k - 1), n)
  }

  /** Without passing the last item, `k` steps forward move `k` places. */
  lemma {:induction false} SuccIterNoWrap(i: nat, n: nat, k: nat)
    requires i + k < n
    ensures SuccIter(i, n, k) == i + k
  {
    if k > 0 {
      SuccIterNoWrap(i, n, k - 1);
      ModOfSmall(i + k, n);
    }
  }

  lemma ModOfSmall(x: nat, n: nat)
    requires x < n
    ensures x % n == x
  {
  }

  /** Steps compose: `a + b` steps are `a` steps followed by `b` steps. */
  lemma {:induction false} SuccIterAdd(i: nat, n: nat, a: nat, b: nat)
    requires i < n
    ensures SuccIter(i, n, a + b) == SuccIter(SuccIter(i, n, a), n, b)
  {
    if b > 0 {
      SuccIterAdd(i, n, a, b - 1);
    }
  }

  /** Going forward once per item comes back to the start. */
  lemma FullCycle(i: nat, n: nat)
    requires i < n
    ensures SuccIter(i, n, n) == i
  {
    var toLast := n - 1 - i;
    SuccIterNoWrap(i, n, toLast);
    SuccIterAdd(i, n, toLast, 1);
    assert SuccIter(i, n, toLast + 1) == 0;
    SuccIterAdd(i, n, toLast + 1, i);
    SuccIterNoWrap(0, n, i);
  }
}
