/** The testimonial carousel (src/components/Testimonials.tsx): an index into a
    fixed list of four testimonials with wrap-around next/previous, direct
    selection through the dots, and an autoplay interval that any manual
    navigation switches off for good. The 5-second interval is a `Tick`
    event here; its timing is not modelled. */
module Carousel {

  datatype Testimonial = Testimonial(
    name: string, role: string, company: string, message: string, avatar: string, rating: real)

  const Testimonials: seq<Testimonial> := [
    Testimonial("Alice Johnson", "IT Manager", "TechNova Inc.",
      "SoftSell made it incredibly easy to sell our unused licenses. The process was smooth and transparent.",
      "https://i.pravatar.cc/150?img=3", 5.0),
    Testimonial("Joseph Paul", "Procurement Head", "NextGen Solutions",
      "We recouped value from old software thanks to SoftSell. Highly recommended for any business with surplus licenses.",
      "https://i.pravatar.cc/150?img=53", 5.0),
    Testimonial("Sarah Williams", "Operations Director", "Global Systems",
      "The ROI we've seen from using SoftSell has been tremendous. Their platform helped us optimize our software budget effectively.",
      "https://i.pravatar.cc/150?img=10", 4.0),
    Testimonial("Michael Chen", "CFO", "Innovate Corp",
      "SoftSell's marketplace is a game-changer for companies looking to manage software assets more efficiently. The transaction process is seamless.",
      "https://i.pravatar.cc/150?img=69", 5.0)
  ]

  /** `testimonials.length`. */
  const N := |Testimonials|

  /** `(i + 1) % n`: the following testimonial, wrapping from the last to the
      first. */
  function NextIndex(i: int): (j: int)
    requires 0 <= i < N
    ensures 0 <= j < N
    ensures j == if i == N - 1 then 0 else i + 1
  {
    (i + 1) % N
  }

  /** `(i - 1 + n) % n`: the preceding testimonial, wrapping from the first to
      the last; `NextIndex` undoes it. */
  function PrevIndex(i: int): (j: int)
    requires 0 <= i < N
    ensures 0 <= j < N
    ensures j == if i == 0 then N - 1 else i - 1
    ensures NextIndex(j) == i
  {
    (i - 1 + N) % N
  }

  datatype CarouselState = CarouselState(index: int, autoplay: bool)

  /** On mount: the first testimonial, autoplay on. */
  const Initial := CarouselState(0, true)

  predicate InRange(s: CarouselState) {
    0 <= s.index < N
  }

  /** A click on the next or previous arrow, on dot `k`, or one firing of the
      autoplay interval. */
  datatype CarouselEvent = Next | Prev | Dot(k: int) | Tick

  /** The dots are rendered one per testimonial, so a click names an index in
      range. */
  predicate EventInRange(e: CarouselEvent) {
    e.Dot? ==> 0 <= e.k < N
  }

  /** One event. Manual navigation turns autoplay off; the interval runs only
      while autoplay is on (it is cleared otherwise), advances like `Next`
      and leaves autoplay alone. The index stays in range and autoplay, once
      off, stays off. */
  function Step(s: CarouselState, e: CarouselEvent): (t: CarouselState)
    requires InRange(s) && EventInRange(e)
    ensures InRange(t)
    ensures !s.autoplay ==> !t.autoplay
    ensures e.Next? ==> t == CarouselState(NextIndex(s.index), false)
    ensures e.Prev? ==> t == CarouselState(PrevIndex(s.index), false)
    ensures e.Dot? ==> t == CarouselState(e.k, false)
    ensures e.Tick? ==> t == if s.autoplay then s.(index := NextIndex(s.index)) else s
  {
    match e
    case Next => CarouselState(NextIndex(s.index), false)
    case Prev => CarouselState(PrevIndex(s.index), false)
    case Dot(k) => CarouselState(k, false)
    case Tick => if s.autoplay then s.(index := NextIndex(s.index)) else s
  }

  /** A sequence of events from state `s`. Under every sequence the index
      stays in range, and autoplay is never switched back on. */
  function Run(s: CarouselState, events: seq<CarouselEvent>): (t: CarouselState)
    requires InRange(s)
    requires forall i :: 0 <= i < |events| ==> EventInRange(events[i])
    ensures InRange(t)
    ensures !s.autoplay ==> !t.autoplay
    decreases |events|
  {
    if events == [] then s else Run(Step(s, events[0]), events[1..])
  }

  /** `k` firings of the interval. */
  function Ticks(k: nat): (es: seq<CarouselEvent>)
    ensures |es| == k && forall i :: 0 <= i < k ==> es[i] == Tick
  {
    seq(k, _ => Tick)
  }

  /** `k` clicks on the next arrow. */
  function Nexts(k: nat): (es: seq<CarouselEvent>)
    ensures |es| == k && forall i :: 0 <= i < k ==> es[i] == Next
  {
    seq(k, _ => Next)
  }

  /** While autoplay is on, `k` ticks move the index `k` places forward. */
  lemma {:induction false} TicksAdvance(s: CarouselState, k: nat)
    requires InRange(s) && s.autoplay
    ensures Run(s, Ticks(k)) == s.(index := (s.index + k) % N)
    decreases k
  {
    if k > 0 {
      var t := Step(s, Tick);
      assert Ticks(k)[1..] == Ticks(k - 1);
      TicksAdvance(t, k - 1);
      assert (t.index + (k - 1)) % N == (s.index + k) % N;
    }
  }

  /** `k` clicks on the next arrow move the index `k` places forward and turn
      autoplay off. */
  lemma {:induction false} NextsAdvance(s: CarouselState, k: nat)
    requires InRange(s) && k > 0
    ensures Run(s, Nexts(k)) == CarouselState((s.index + k) % N, false)
    decreases k
  {
    var t := Step(s, Next);
    assert Nexts(k)[1..] == Nexts(k - 1);
    if k > 1 {
      NextsAdvance(t, k - 1);
      assert (t.index + (k - 1)) % N == (s.index + k) % N;
    }
  }

  /** `n` ticks, or `n` next clicks, come back to where they started. */
  lemma FullCycle(s: CarouselState)
    requires InRange(s)
    ensures s.autoplay ==> Run(s, Ticks(N)) == s
    ensures Run(s, Nexts(N)).index == s.index
  {
    if s.autoplay {
      TicksAdvance(s, N);
    }
    NextsAdvance(s, N);
  }

  /** A previous click undoes a next click, and the other way round (apart
      from autoplay, which both turn off). */
  lemma PrevUndoesNext(s: CarouselState)
    requires InRange(s)
    ensures Run(s, [Next, Prev]) == CarouselState(s.index, false)
    ensures Run(s, [Prev, Next]) == CarouselState(s.index, false)
  {
  }

  /** Dot `i` is highlighted exactly when it is the current testimonial, that
      is, exactly when clicking it would leave the index where it is. */
  predicate DotActive(s: CarouselState, i: int): (active: bool)
    ensures InRange(s) && 0 <= i < N ==> (active <==> Step(s, Dot(i)).index == s.index)
  {
    s.index == i
  }

  /** Exactly one dot is highlighted. */
  lemma ExactlyOneDotActive(s: CarouselState)
    requires InRange(s)
    ensures DotActive(s, s.index)
    ensures forall i :: 0 <= i < N && DotActive(s, i) ==> i == s.index
  {
  }

  /** The mobile indicator, "current / total", counting from one. */
  function Indicator(s: CarouselState): (pos: (int, int))
    requires InRange(s)
    ensures 1 <= pos.0 <= pos.1 == N
    ensures pos.0 - 1 == s.index
  {
    (s.index + 1, N)
  }

  /** `renderStars`: five stars, star `i` filled when `i < rating`. */
  function RenderStars(rating: real): (stars: seq<bool>)
    ensures |stars| == 5
    ensures forall i :: 0 <= i < 5 ==> stars[i] == ((i as real) < rating)
  {
    seq(5, i => (i as real) < rating)
  }

  function FilledCount(stars: seq<bool>): nat {
    if stars == [] then 0 else (if stars[0] then 1 else 0) + FilledCount(stars[1..])
  }

  /** Stars filled exactly below position `k` number `k`. */
  lemma {:induction false} FilledPrefixCount(stars: seq<bool>, k: nat)
    requires k <= |stars|
    requires forall i :: 0 <= i < |stars| ==> stars[i] == (i < k)
    ensures FilledCount(stars) == k
    decreases |stars|
  {
    if stars != [] {
      FilledPrefixCount(stars[1..], if k == 0 then 0 else k - 1);
    }
  }

  /** A whole rating from 0 to 5 shows exactly that many filled stars, and a
      rating above 5 shows all five. */
  lemma StarsShowRating(rating: nat)
    ensures FilledCount(RenderStars(rating as real)) == if rating <= 5 then rating else 5
  {
    FilledPrefixCount(RenderStars(rating as real), if rating <= 5 then rating else 5);
  }

  /** The carousel's state, updated in place by its handlers. */
  class Carousel {
    var currentIndex: int
    var autoplay: bool

    function State(): CarouselState
      reads this
    {
      CarouselState(currentIndex, autoplay)
    }

    constructor ()
      ensures State() == Initial
    {
      currentIndex := 0;
      autoplay := true;
    }

    /** `handleNext`. */
    method HandleNext()
      requires InRange(State())
      modifies this
      ensures State() == Step(old(State()), Next)
    {
      autoplay := false;
      currentIndex := (currentIndex + 1) % N;
    }

    /** `handlePrev`. */
    method HandlePrev()
      requires InRange(State())
      modifies this
      ensures State() == Step(old(State()), Prev)
    {
      autoplay := false;
      currentIndex := (currentIndex - 1 + N) % N;
    }

    /** `handleDotClick`. */
    method HandleDotClick(index: int)
      requires InRange(State()) && 0 <= index < N
      modifies this
      ensures State() == Step(old(State()), Dot(index))
    {
      autoplay := false;
      currentIndex := index;
    }

    /** One firing of the autoplay interval, which exists only while autoplay
        is on. */
    method Tick()
      requires InRange(State())
      modifies this
      ensures State() == Step(old(State()), CarouselEvent.Tick)
    {
      if autoplay {
        currentIndex := (currentIndex + 1) % N;
      }
    }
  }
}
