/**
 * The testimonials slider of the home page: one testimonial at a time, arrows and dots to move,
 * and a five-star rating.
 */
module TestimonialsSection {
  import opened Wraparound

  /** A testimonial; the quoted text, avatar and project are display-only. */
  datatype Testimonial = Testimonial(id: int, name: string, rating: int)

  const Testimonials: seq<Testimonial> := [
    Testimonial(1, "Sarah Johnson", 5),
    Testimonial(2, "Michael Rodriguez", 5),
    Testimonial(3, "Emily Chen", 5),
    Testimonial(4, "David Thompson", 5)
  ]

  /** `renderStars`: five icons, the one at `index` filled when `index < rating`. */
  function RenderStars(rating: int): (filled: seq<bool>)
    ensures |filled| == 5
    ensures forall i :: 0 <= i < 5 ==> (filled[i] <==> i < rating)
  {
    Stars(5, rating)
  }

  function Stars(n: nat, rating: int): (filled: seq<bool>)
    ensures |filled| == n
    ensures forall i :: 0 <= i < n ==> (filled[i] <==> i < rating)
  {
    seq(n, i requires 0 <= i < n => i < rating)
  }

  /** The number of filled icons. */
  function CountFilled(s: seq<bool>): nat
  {
    if s == [] then 0 else CountFilled(s[..|s| - 1]) + (if s[|s| - 1] then 1 else 0)
  }

  function Clamp(x: int, lo: int, hi: int): int
  {
    if x < lo then lo else if x > hi then hi else x
  }

  lemma {:induction false} StarsCount(n: nat, rating: int)
    ensures CountFilled(Stars(n, rating)) == Clamp(rating, 0, n)
  {
    if n > 0 {
      assert Stars(n, rating)[..n - 1] == Stars(n - 1, rating);
      StarsCount(n - 1, rating);
    }
  }

  /** The number of filled stars is the rating clamped to 0..5. */
  lemma FilledStars(rating: int)
    ensures CountFilled(RenderStars(rating)) == Clamp(rating, 0, 5)
  {
    StarsCount(5, rating);
  }

  /** Every testimonial shows five filled stars. */
  lemma AllFiveStars()
    ensures forall i :: 0 <= i < |Testimonials| ==> CountFilled(RenderStars(Testimonials[i].rating)) == 5
  {
    FilledStars(5);
  }

  /** The slider's state. */
  class Slider {
    var currentTestimonial: int

    ghost predicate Valid()
      reads this
    {
      0 <= currentTestimonial < |Testimonials|
    }

    constructor()
      ensures Valid() && currentTestimonial == 0
    {
      currentTestimonial := 0;
    }

    /** The testimonial on display. */
    function Current(): (t: Testimonial)
      requires Valid()
      reads this
      ensures t in Testimonials
    {
      Testimonials[currentTestimonial]
    }

    /** `nextTestimonial`: the cyclic successor. */
    method NextTestimonial()
      requires Valid()
      modifies this
      ensures Valid()
      ensures currentTestimonial == Succ(old(currentTestimonial), |Testimonials|)
    {
      currentTestimonial := (currentTestimonial + 1) % |Testimonials|;
    }

    /** `prevTestimonial`: the cyclic predecessor. */
    method PrevTestimonial()
      requires Valid()
      modifies this
      ensures Valid()
      ensures currentTestimonial == Pred(old(currentTestimonial), |Testimonials|)
    {
      currentTestimonial := if currentTestimonial == 0 then |Testimonials| - 1 else currentTestimonial - 1;
    }

    /** `goToTestimonial`: the dots are rendered one per testimonial and pass their own index. */
    method GoToTestimonial(index: int)
      requires Valid() && 0 <= index < |Testimonials|
      modifies this
      ensures Valid()
      ensures currentTestimonial == index && Current() == Testimonials[index]
    {
      currentTestimonial := index;
    }
  }
}
