/** The testimonial carousel of the home page: a bounded slide index with
    wrap-around navigation, pagination dots, a drag gesture with a 50 pixel
    threshold, and an autoplay interval that a drag switches off for good. */
module Testimonials {

  datatype Testimonial = Testimonial(id: int, name: string, position: string, company: string, rating: int)

  /** The constant testimonial table (avatar URLs and quotations are left out). */
  const Table: seq<Testimonial> := [
    Testimonial(1, "Sarah Johnson", "Marketing Director", "TechCorp", 5),
    Testimonial(2, "Michael Chen", "CEO", "Innovate Solutions", 5),
    Testimonial(3, "Emily Rodriguez", "Digital Strategist", "Creative Minds", 4),
    Testimonial(4, "David Wilson", "Growth Lead", "Startup Ventures", 5),
    Testimonial(5, "Olivia Thompson", "Brand Manager", "Global Retail", 5)
  ]

  /** `testimonials.length`. */
  const Count: nat := |Table|

  /** Pixels the pointer must travel before a drag turns the slide. */
  const DragThreshold: int := 50

  /** Stars drawn for every testimonial. */
  const StarCount: nat := 5

  predicate InRange(i: int) {
    0 <= i < Count
  }

  // ---------------------------------------------------------------------------
  // index arithmetic

  /** The updater passed by `nextSlide`. */
  function Next(i: int): int {
    if i == Count - 1 then 0 else i + 1
  }

  /** The updater passed by `prevSlide`. */
  function Prev(i: int): int {
    if i == 0 then Count - 1 else i - 1
  }

  /** On the valid indices, `Next` is the successor modulo the table length. */
  lemma NextIsSuccessorModulo(i: int)
    requires InRange(i)
    ensures InRange(Next(i))
    ensures Next(i) == (i + 1) % Count
    ensures i == Count - 1 ==> Next(i) == 0
    ensures i < Count - 1 ==> Next(i) == i + 1
  {
  }

  /** On the valid indices, `Prev` is the predecessor modulo the table length. */
  lemma PrevIsPredecessorModulo(i: int)
    requires InRange(i)
    ensures InRange(Prev(i))
    ensures Prev(i) == (i - 1 + Count) % Count
    ensures i == 0 ==> Prev(i) == Count - 1
    ensures 0 < i ==> Prev(i) == i - 1
  {
  }

  /** Next and prev undo each other on the valid indices. */
  lemma NextPrevInverse(i: int)
    requires InRange(i)
    ensures Prev(Next(i)) == i
    ensures Next(Prev(i)) == i
  {
  }

  /** `k` presses of the next button. */
  function Advance(i: int, k: nat): int {
    if k == 0 then i else Next(Advance(i, k - 1))
  }

  lemma {:induction false} AdvanceIsModular(i: int, k: nat)
    requires InRange(i)
    ensures Advance(i, k) == (i + k) % Count
  {
    if k > 0 {
      AdvanceIsModular(i, k - 1);
      var j := (i + k - 1) % Count;
      assert InRange(j);
      assert Next(j) == (j + 1) % Count;
      assert (j + 1) % Count == (i + k) % Count;
    }
  }

  /** Pressing next `testimonials.length` times returns to the slide one started from. */
  lemma FullCycle(i: int)
    requires InRange(i)
    ensures Advance(i, Count) == i
    ensures forall k :: 0 < k < Count ==> Advance(i, k) != i
  {
    AdvanceIsModular(i, Count);
    forall k | 0 < k < Count
      ensures Advance(i, k) != i
    {
      AdvanceIsModular(i, k);
    }
  }

  // ---------------------------------------------------------------------------
  // stars

  /** `renderStars(rating)`: one flag per star, true when the star is highlighted. */
  function RenderStars(rating: int): (stars: seq<bool>)
    ensures |stars| == StarCount
    ensures forall k :: 0 <= k < StarCount ==> (stars[k] <==> k < rating)
  {
    seq(StarCount, k => k < rating)
  }

  function Highlighted(stars: seq<bool>): nat {
    if stars == [] then 0 else (if stars[0] then 1 else 0) + Highlighted(stars[1..])
  }

  lemma {:induction false} HighlightedPrefix(stars: seq<bool>, r: int)
    requires forall k :: 0 <= k < |stars| ==> (stars[k] <==> k < r)
    ensures Highlighted(stars) == if r <= 0 then 0 else if r >= |stars| then |stars| else r
  {
    if stars != [] {
      var tail := stars[1..];
      assert forall k :: 0 <= k < |tail| ==> (tail[k] <==> k < r - 1) by {
        forall k | 0 <= k < |tail| ensures tail[k] <==> k < r - 1 {
          assert tail[k] == stars[k + 1];
        }
      }
      HighlightedPrefix(tail, r - 1);
    }
  }

  /** The number of highlighted stars is the rating clamped to 0..5. */
  lemma StarsCountRating(rating: int)
    ensures Highlighted(RenderStars(rating)) ==
      if rating <= 0 then 0 else if rating >= StarCount then StarCount else rating
  {
    HighlightedPrefix(RenderStars(rating), rating);
  }

  /** Every testimonial of the table shows at least four highlighted stars. */
  lemma TableRatings()
    ensures forall t :: t in Table ==> 4 <= Highlighted(RenderStars(t.rating)) <= StarCount
  {
    forall t | t in Table
      ensures 4 <= Highlighted(RenderStars(t.rating)) <= StarCount
    {
      StarsCountRating(t.rating);
    }
  }

  // ---------------------------------------------------------------------------
  // the component state and its event handlers

  datatype State = State(currentIndex: int, isDragging: bool, startX: int, autoplay: bool)

  const Initial: State := State(0, false, 0, true)

  /** The events the component reacts to. `Tick` is the 5000 ms interval firing;
      `Dot(k)` is a click on the k-th pagination dot. */
  datatype Event =
    | NextButton
    | PrevButton
    | Dot(index: int)
    | MouseDown(clientX: int)
    | MouseMove(clientX: int)
    | MouseUp
    | MouseLeave
    | Tick

  function Step(s: State, e: Event): State {
    match e
    case NextButton => s.(currentIndex := Next(s.currentIndex))
    case PrevButton => s.(currentIndex := Prev(s.currentIndex))
    case Dot(k) => s.(currentIndex := k)
    case MouseDown(x) => s.(isDragging := true, startX := x, autoplay := false)
    case MouseMove(x) =>
      if !s.isDragging then s
      else
        var diff := s.startX - x;
        if diff > DragThreshold || diff < -DragThreshold then
          s.(currentIndex := if diff > 0 then Next(s.currentIndex) else Prev(s.currentIndex), isDragging := false)
        else s
    case MouseUp => s.(isDragging := false)
    case MouseLeave => if s.isDragging then s.(isDragging := false) else s
    case Tick => if s.autoplay then s.(currentIndex := Next(s.currentIndex)) else s
  }

  /** The dots are rendered from the table, so each one carries a valid index. */
  predicate Deliverable(e: Event) {
    e.Dot? ==> InRange(e.index)
  }

  function Run(s: State, events: seq<Event>): State
    decreases |events|
  {
    if events == [] then s else Run(Step(s, events[0]), events[1..])
  }

  /** The slide index stays in range under every deliverable event sequence. */
  lemma {:induction false} RunKeepsIndexInRange(s: State, events: seq<Event>)
    requires InRange(s.currentIndex)
    requires forall k :: 0 <= k < |events| ==> Deliverable(events[k])
    ensures InRange(Run(s, events).currentIndex)
    decreases |events|
  {
    if events != [] {
      assert Deliverable(events[0]);
      RunKeepsIndexInRange(Step(s, events[0]), events[1..]);
    }
  }

  /** Once autoplay is off, nothing turns it back on. */
  lemma {:induction false} AutoplayNeverResumes(s: State, events: seq<Event>)
    requires !s.autoplay
    ensures !Run(s, events).autoplay
    decreases |events|
  {
    if events != [] {
      AutoplayNeverResumes(Step(s, events[0]), events[1..]);
    }
  }

  /** A press turns autoplay off whatever came before, and later events keep it off. */
  lemma MouseDownStopsAutoplay(s: State, x: int, later: seq<Event>)
    ensures Step(s, MouseDown(x)) == s.(isDragging := true, startX := x, autoplay := false)
    ensures !Run(s, [MouseDown(x)] + later).autoplay
  {
    assert ([MouseDown(x)] + later)[1..] == later;
    AutoplayNeverResumes(Step(s, MouseDown(x)), later);
  }

  /** The interval only advances the slide while autoplay holds. */
  lemma TickAdvancesOnlyWithAutoplay(s: State)
    ensures Step(s, Tick).currentIndex == if s.autoplay then Next(s.currentIndex) else s.currentIndex
    ensures Step(s, Tick).autoplay == s.autoplay
  {
  }

  /** The drag rule: which way a pointer move turns the carousel. */
  lemma DragRule(s: State, x: int)
    ensures !s.isDragging ==> Step(s, MouseMove(x)) == s
    ensures s.isDragging && s.startX - x > DragThreshold ==>
      Step(s, MouseMove(x)) == s.(currentIndex := Next(s.currentIndex), isDragging := false)
    ensures s.isDragging && s.startX - x < -DragThreshold ==>
      Step(s, MouseMove(x)) == s.(currentIndex := Prev(s.currentIndex), isDragging := false)
    ensures -DragThreshold <= s.startX - x <= DragThreshold ==> Step(s, MouseMove(x)) == s
  {
  }

  /** Releasing or leaving ends a drag and never turns the slide. */
  lemma ReleaseKeepsSlide(s: State)
    ensures !Step(s, MouseUp).isDragging && !Step(s, MouseLeave).isDragging
    ensures Step(s, MouseUp).currentIndex == s.currentIndex
    ensures Step(s, MouseLeave).currentIndex == s.currentIndex
    ensures Step(s, MouseLeave).autoplay == s.autoplay && Step(s, MouseUp).autoplay == s.autoplay
  {
  }

  /** A drag to the left and back to the right beyond the threshold ends on the starting slide. */
  lemma DragThereAndBack(s: State, x0: int, x1: int, x2: int, x3: int)
    requires InRange(s.currentIndex)
    requires x0 - x1 > DragThreshold && x2 - x3 < -DragThreshold
    ensures Run(s, [MouseDown(x0), MouseMove(x1), MouseDown(x2), MouseMove(x3)]).currentIndex == s.currentIndex
  {
    var evs := [MouseDown(x0), MouseMove(x1), MouseDown(x2), MouseMove(x3)];
    var s1 := Step(s, MouseDown(x0));
    var s2 := Step(s1, MouseMove(x1));
    var s3 := Step(s2, MouseDown(x2));
    var s4 := Step(s3, MouseMove(x3));
    assert s2.currentIndex == Next(s.currentIndex);
    assert s4.currentIndex == Prev(Next(s.currentIndex));
    NextPrevInverse(s.currentIndex);
    assert Run(s, evs) == Run(s1, evs[1..]);
    assert evs[1..][1..] == [MouseDown(x2), MouseMove(x3)];
    assert Run(s, evs) == Run(s2, [MouseDown(x2), MouseMove(x3)]);
    assert Run(s2, [MouseDown(x2), MouseMove(x3)]) == Run(s3, [MouseMove(x3)]);
  }

  // ---------------------------------------------------------------------------
  // the component as an object with the four state fields

  class Carousel {
    var currentIndex: int
    var isDragging: bool
    var startX: int
    var autoplay: bool

    function Snapshot(): State
      reads this
    {
      State(currentIndex, isDragging, startX, autoplay)
    }

    predicate Valid()
      reads this
    {
      InRange(currentIndex)
    }

    constructor ()
      ensures Snapshot() == Initial && Valid()
    {
      currentIndex, isDragging, startX, autoplay := 0, false, 0, true;
    }

    method NextSlide()
      requires Valid()
      modifies this
      ensures Valid() && Snapshot() == Step(old(Snapshot()), NextButton)
      ensures currentIndex == (old(currentIndex) + 1) % Count
    {
      NextIsSuccessorModulo(currentIndex);
      currentIndex := if currentIndex == Count - 1 then 0 else currentIndex + 1;
    }

    method PrevSlide()
      requires Valid()
      modifies this
      ensures Valid() && Snapshot() == Step(old(Snapshot()), PrevButton)
      ensures currentIndex == (old(currentIndex) - 1 + Count) % Count
    {
      PrevIsPredecessorModulo(currentIndex);
      currentIndex := if currentIndex == 0 then Count - 1 else currentIndex - 1;
    }

    method GoToSlide(index: int)
      requires Valid() && InRange(index)
      modifies this
      ensures Valid() && Snapshot() == Step(old(Snapshot()), Dot(index))
      ensures currentIndex == index
    {
      currentIndex := index;
    }

    method HandleMouseDown(clientX: int)
      requires Valid()
      modifies this
      ensures Valid() && Snapshot() == Step(old(Snapshot()), MouseDown(clientX))
      ensures isDragging && startX == clientX && !autoplay && currentIndex == old(currentIndex)
    {
      isDragging := true;
      startX := clientX;
      autoplay := false;
    }

    method HandleMouseMove(clientX: int)
      requires Valid()
      modifies this
      ensures Valid() && Snapshot() == Step(old(Snapshot()), MouseMove(clientX))
      ensures startX == old(startX) && autoplay == old(autoplay)
    {
      if !isDragging {
        return;
      }
      var diff := startX - clientX;
      if diff > DragThreshold || diff < -DragThreshold {
        if diff > 0 {
          NextSlide();
        } else {
          PrevSlide();
        }
        isDragging := false;
      }
    }

    method HandleMouseUp()
      requires Valid()
      modifies this
      ensures Valid() && Snapshot() == Step(old(Snapshot()), MouseUp)
      ensures !isDragging && currentIndex == old(currentIndex)
    {
      isDragging := false;
    }

    method HandleMouseLeave()
      requires Valid()
      modifies this
      ensures Valid() && Snapshot() == Step(old(Snapshot()), MouseLeave)
      ensures !isDragging && currentIndex == old(currentIndex)
    {
      if isDragging {
        isDragging := false;
      }
    }

    /** The autoplay interval firing; it is only installed while `autoplay` holds. */
    method IntervalTick()
      requires Valid()
      modifies this
      ensures Valid() && Snapshot() == Step(old(Snapshot()), Tick)
    {
      if autoplay {
        NextSlide();
      }
    }

    /** The testimonial on screen and its stars. */
    method Current() returns (t: Testimonial, stars: seq<bool>)
      requires Valid()
      ensures t == Table[currentIndex]
      ensures |stars| == StarCount && forall k :: 0 <= k < StarCount ==> (stars[k] <==> k < t.rating)
    {
      t := Table[currentIndex];
      stars := RenderStars(t.rating);
    }
  }
}
