/** The testimonial carousel. Both copies (src/components/TestimonialsSection.tsx
    and mansong-systems-website/src/components/TestimonialsSection.tsx) keep the
    same two state slots, `currentSlide` and `isAutoPlaying`, and change them the
    same way; they differ in the auto-advance period only. */
module Carousel {

  const SrcIntervalMs := 6000
  const MansongIntervalMs := 5000

  /** `nextSlide`'s successor: `(i + 1) % n`. */
  function NextIndex(i: nat, n: nat): (r: nat)
    requires n > 0
    ensures r < n
    ensures i < n - 1 ==> r == i + 1
    ensures i == n - 1 ==> r == 0
  {
    (i + 1) % n
  }

  /** `prevSlide`'s predecessor: `(i - 1 + n) % n`. */
  function PrevIndex(i: nat, n: nat): (r: nat)
    requires n > 0
    ensures r < n
    ensures 0 < i < n ==> r == i - 1
    ensures i == 0 ==> r == n - 1
  {
    (i - 1 + n) % n
  }

  lemma NextThenPrev(i: nat, n: nat)
    requires i < n
    ensures PrevIndex(NextIndex(i, n), n) == i
  {
  }

  lemma PrevThenNext(i: nat, n: nat)
    requires i < n
    ensures NextIndex(PrevIndex(i, n), n) == i
  {
  }

  /** `k` successive advances from `i`. */
  function Advance(i: nat, n: nat, k: nat): (r: nat)
    requires n > 0
    ensures r < n || (k == 0 && r == i)
  {
    if k == 0 then i else NextIndex(Advance(i, n, k - 1), n)
  }

  /** Short of the end, `k` advances move `k` places forward. */
  lemma {:induction false} AdvanceWithinRange(i: nat, n: nat, k: nat)
    requires n > 0 && i + k < n
    ensures Advance(i, n, k) == i + k
  {
    if k > 0 {
      AdvanceWithinRange(i, n, k - 1);
    }
  }

  /** Advancing `a` and then `b` times is advancing `a + b` times. */
  lemma {:induction false} AdvanceAdds(i: nat, n: nat, a: nat, b: nat)
    requires n > 0
    ensures Advance(Advance(i, n, a), n, b) == Advance(i, n, a + b)
  {
    if b > 0 {
      AdvanceAdds(i, n, a, b - 1);
    }
  }

  /** `n` advances come back to the same testimonial. */
  lemma FullTurn(i: nat, n: nat)
    requires n > 0 && i < n
    ensures Advance(i, n, n) == i
  {
    AdvanceWithinRange(i, n, n - 1 - i);
    assert Advance(i, n, n - i) == 0;
    AdvanceAdds(i, n, n - i, i);
    if i > 0 {
      AdvanceWithinRange(0, n, i);
    }
  }

  /** The things that change the carousel's state. */
  datatype Event = Next | Prev | Indicator(index: nat) | Tick | MouseEnter | MouseLeave

  datatype State = State(slide: nat, autoPlaying: bool)

  /** One event's effect; a `Tick` (the interval firing) only advances while
      auto-playing, since the interval is cleared otherwise. */
  function Step(s: State, e: Event, n: nat): (t: State)
    requires n > 0
    ensures e.Next? || (e.Tick? && s.autoPlaying) ==> t == State(NextIndex(s.slide, n), s.autoPlaying)
    ensures e.Prev? ==> t == State(PrevIndex(s.slide, n), s.autoPlaying)
    ensures e.Indicator? ==> t == State(e.index, s.autoPlaying)
    ensures e.Tick? && !s.autoPlaying ==> t == s
    ensures e.MouseEnter? ==> t == State(s.slide, false)
    ensures e.MouseLeave? ==> t == State(s.slide, true)
  {
    match e
    case Next => State(NextIndex(s.slide, n), s.autoPlaying)
    case Prev => State(PrevIndex(s.slide, n), s.autoPlaying)
    case Indicator(k) => State(k, s.autoPlaying)
    case Tick => if s.autoPlaying then State(NextIndex(s.slide, n), true) else s
    case MouseEnter => State(s.slide, false)
    case MouseLeave => State(s.slide, true)
  }

  function Run(s: State, events: seq<Event>, n: nat): State
    requires n > 0
    decreases |events|
  {
    if events == [] then s else Run(Step(s, events[0], n), events[1..], n)
  }

  /** An indicator button exists for each index `0..n-1` only. */
  predicate IndicatorsInRange(events: seq<Event>, n: nat) {
    forall k :: 0 <= k < |events| && events[k].Indicator? ==> events[k].index < n
  }

  /** From a slide in range, any run of events keeps the slide in range. */
  lemma {:induction false} RunStaysInRange(s: State, events: seq<Event>, n: nat)
    requires n > 0 && s.slide < n && IndicatorsInRange(events, n)
    ensures Run(s, events, n).slide < n
    decreases |events|
  {
    if events != [] {
      assert IndicatorsInRange(events[1..], n) by {
        forall k | 0 <= k < |events[1..]| && events[1..][k].Indicator?
          ensures events[1..][k].index < n
        {
          assert events[1..][k] == events[k + 1];
        }
      }
      RunStaysInRange(Step(s, events[0], n), events[1..], n);
    }
  }

  /** While the pointer is over the slider, ticks change nothing. */
  lemma {:induction false} PausedTicksDoNothing(s: State, ticks: nat, n: nat)
    requires n > 0 && !s.autoPlaying
    ensures Run(s, seq(ticks, _ => Tick), n) == s
    decreases ticks
  {
    if ticks > 0 {
      assert seq(ticks, _ => Tick)[1..] == seq(ticks - 1, _ => Tick);
      PausedTicksDoNothing(s, ticks - 1, n);
    }
  }

  /** A testimonial card's `rating` can be fractional. */
  datatype StarFill = Full | Half | Empty

  /** `renderStars`: star `i` is full below `floor(rating)`, half below `rating`,
      empty otherwise. */
  function StarAt(i: nat, rating: real): StarFill {
    if i < rating.Floor then Full
    else if (i as real) < rating then Half
    else Empty
  }

  /** The five stars of a card. */
  function Stars(rating: real): (r: seq<StarFill>)
    ensures |r| == 5
    ensures forall i :: 0 <= i < 5 ==> r[i] == StarAt(i, rating)
  {
    seq(5, i requires 0 <= i => StarAt(i, rating))
  }

  /** A star is half exactly when it is the one at `floor(rating)` and the rating is
      not a whole number; so at most one star is half. */
  lemma HalfStarIsTheFractionalOne(i: nat, rating: real)
    ensures StarAt(i, rating) == Half <==> i == rating.Floor && rating != rating.Floor as real
  {
  }

  /** Full stars come first, then at most a half one, then empty ones. */
  lemma StarsAreOrdered(i: nat, j: nat, rating: real)
    requires i < j
    ensures StarAt(j, rating) == Full ==> StarAt(i, rating) == Full
    ensures StarAt(i, rating) == Empty ==> StarAt(j, rating) == Empty
    ensures StarAt(i, rating) == Half ==> StarAt(j, rating) == Empty
  {
  }

  /** The mansong copy's partner strip: `TESTIMONIALS.slice(0, 5)`. */
  function PartnerStrip<T>(testimonials: seq<T>): (r: seq<T>)
    ensures |r| == if |testimonials| < 5 then |testimonials| else 5
    ensures forall k :: 0 <= k < |r| ==> r[k] == testimonials[k]
  {
    if |testimonials| <= 5 then testimonials else testimonials[..5]
  }

  /** The carousel's state slots; `count` is `TESTIMONIALS.length`, which is never 0. */
  class TestimonialCarousel {
    const count: nat
    const intervalMs: nat
    var currentSlide: nat
    var isAutoPlaying: bool

    predicate Valid()
      reads this
    {
      count > 0 && currentSlide < count
    }

    constructor (count: nat, intervalMs: nat)
      requires count > 0
      ensures Valid()
      ensures this.count == count && this.intervalMs == intervalMs
      ensures currentSlide == 0 && isAutoPlaying
    {
      this.count := count;
      this.intervalMs := intervalMs;
      currentSlide := 0;
      isAutoPlaying := true;
    }

    method NextSlide()
      requires Valid()
      modifies this
      ensures Valid()
      ensures currentSlide == NextIndex(old(currentSlide), count)
      ensures isAutoPlaying == old(isAutoPlaying)
    {
      currentSlide := (currentSlide + 1) % count;
    }

    method PrevSlide()
      requires Valid()
      modifies this
      ensures Valid()
      ensures currentSlide == PrevIndex(old(currentSlide), count)
      ensures isAutoPlaying == old(isAutoPlaying)
    {
      currentSlide := (currentSlide - 1 + count) % count;
    }

    /** An indicator dot's `onClick`. */
    method SelectSlide(index: nat)
      requires Valid() && index < count
      modifies this
      ensures Valid()
      ensures currentSlide == index && isAutoPlaying == old(isAutoPlaying)
    {
      currentSlide := index;
    }

    /** The interval callback, which only runs while auto-playing. */
    method Tick()
      requires Valid()
      modifies this
      ensures Valid()
      ensures currentSlide == if old(isAutoPlaying) then NextIndex(old(currentSlide), count) else old(currentSlide)
      ensures isAutoPlaying == old(isAutoPlaying)
    {
      if isAutoPlaying {
        currentSlide := (currentSlide + 1) % count;
      }
    }

    method MouseEnter()
      requires Valid()
      modifies this
      ensures Valid()
      ensures !isAutoPlaying && currentSlide == old(currentSlide)
    {
      isAutoPlaying := false;
    }

    method MouseLeave()
      requires Valid()
      modifies this
      ensures Valid()
      ensures isAutoPlaying && currentSlide == old(currentSlide)
    {
      isAutoPlaying := true;
    }
  }
}
