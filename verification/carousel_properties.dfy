/**
  Properties of the carousel that relate several transitions: the range
  and pagination invariant over any run of events, circular navigation,
  drag round trips and the stability of the resize handler.
 */
module CarouselProperties {
  import opened Layout
  import opened Pagination
  import opened Carousel

  // ---------------------------------------------------------------------
  // The invariant
  // ---------------------------------------------------------------------

  /** The invariant holds after any sequence of events. */
  lemma {:induction false} RunPreservesValid(s: State, events: seq<Event>)
    requires Valid(s)
    ensures Valid(Run(s, events))
    decreases |events|
  {
    if |events| > 0 {
      RunPreservesValid(Step(s, events[0]), events[1..]);
    }
  }

  /** Whatever the page does after start-up, the index stays a reachable
      slide position and exactly its dot is active. */
  lemma ReachableStatesAreValid(totalCards: nat, width: int, events: seq<Event>)
    ensures var s := Run(Init(totalCards, width), events);
      && s.totalCards == totalCards
      && 0 <= s.currentIndex <= s.MaxIndex()
      && |s.dots| == s.MaxIndex() + 1
      && CountActive(s.dots) == 1
      && s.dots[s.currentIndex]
  {
    RunPreservesValid(Init(totalCards, width), events);
    ExactlyOneActiveDot(Run(Init(totalCards, width), events));
  }

  /** In a valid state one dot, the current one, is active. */
  lemma ExactlyOneActiveDot(s: State)
    requires Valid(s)
    ensures CountActive(s.dots) == 1
    ensures s.dots[s.currentIndex]
  {
    IndicatorsActiveCount(s.MaxIndex() + 1, s.currentIndex);
  }

  /** A valid state is determined by its index and its non-derived fields. */
  lemma ValidStateDeterminedByIndex(a: State, b: State)
    requires Valid(a) && Valid(b)
    requires a.currentIndex == b.currentIndex
    requires a.(dots := b.dots) == b
    ensures a == b
  {
  }

  // ---------------------------------------------------------------------
  // Slide state
  // ---------------------------------------------------------------------

  /** The stored index is the reachable position nearest to the request. */
  lemma GoToPicksNearest(s: State, index: int)
    ensures forall j :: 0 <= j <= s.MaxIndex() ==>
      Distance(GoTo(s, index).currentIndex, index) <= Distance(j, index)
  {
  }

  /** Going to the current slide re-renders without changing the state. */
  lemma GoToCurrentIsNoOp(s: State)
    requires Valid(s)
    ensures GoTo(s, s.currentIndex) == s
  {
  }

  /** Next is the successor modulo the number of slide positions. */
  lemma NextIsSuccessorModulo(s: State)
    requires Valid(s)
    ensures Next(s).currentIndex == (s.currentIndex + 1) % (s.MaxIndex() + 1)
  {
  }

  /** Prev is the predecessor modulo the number of slide positions. */
  lemma PrevIsPredecessorModulo(s: State)
    requires Valid(s)
    ensures Prev(s).currentIndex == (s.currentIndex + s.MaxIndex()) % (s.MaxIndex() + 1)
  {
    var n := s.MaxIndex() + 1;
    if s.currentIndex == 0 {
      assert (s.currentIndex + s.MaxIndex()) % n == s.MaxIndex();
    } else {
      assert (s.currentIndex + s.MaxIndex()) % n == s.currentIndex - 1 by {
        assert s.currentIndex + s.MaxIndex() == (s.currentIndex - 1) + n;
      }
    }
  }

  /** Next followed by Prev returns to the starting state. */
  lemma PrevAfterNext(s: State)
    requires Valid(s)
    ensures Prev(Next(s)) == s
  {
  }

  /** Prev followed by Next returns to the starting state. */
  lemma NextAfterPrev(s: State)
    requires Valid(s)
    ensures Next(Prev(s)) == s
  {
  }

  /** `k` consecutive steps forward. */
  function NextTimes(s: State, k: nat): State
    decreases k
  {
    if k == 0 then s else Next(NextTimes(s, k - 1))
  }

  /** Within one cycle, `k` steps forward advance the index by `k`,
      wrapping past the last position back to the first. */
  lemma {:induction false} NextTimesAdvances(s: State, k: nat)
    requires Valid(s)
    requires k <= s.MaxIndex() + 1
    ensures Valid(NextTimes(s, k))
    ensures NextTimes(s, k).currentIndex ==
      if s.currentIndex + k <= s.MaxIndex() then s.currentIndex + k
      else s.currentIndex + k - (s.MaxIndex() + 1)
    ensures NextTimes(s, k).(dots := s.dots, currentIndex := s.currentIndex) == s
    decreases k
  {
    if k > 0 {
      NextTimesAdvances(s, k - 1);
    }
  }

  /** One step per slide position brings the carousel back to where it started. */
  lemma FullCycleReturns(s: State)
    requires Valid(s)
    ensures NextTimes(s, s.MaxIndex() + 1) == s
  {
    var t := NextTimes(s, s.MaxIndex() + 1);
    NextTimesAdvances(s, s.MaxIndex() + 1);
    ValidStateDeterminedByIndex(t, s);
  }

  /** Stepping forward reaches every slide position within one cycle. */
  lemma NextReachesEverySlide(s: State, j: int)
    requires Valid(s)
    requires 0 <= j <= s.MaxIndex()
    ensures exists k :: 0 <= k <= s.MaxIndex() && NextTimes(s, k).currentIndex == j
  {
    var k := if s.currentIndex <= j then j - s.currentIndex
             else j - s.currentIndex + s.MaxIndex() + 1;
    NextTimesAdvances(s, k);
  }

  // ---------------------------------------------------------------------
  // Drag
  // ---------------------------------------------------------------------

  /** Pressing and moving never change the slide, whatever the coordinates. */
  lemma DragGestureKeepsIndex(s: State, x0: int, x1: int)
    ensures DragMove(DragStart(s, x0), x1).currentIndex == s.currentIndex
    ensures DragMove(DragStart(s, x0), x1).dragOffset == x1 - x0
  {
  }

  /** A release without any movement snaps back to the current slide. */
  lemma ClickWithoutMoveSnapsBack(s: State, x: int)
    requires Valid(s) && !s.isDragging
    ensures DragEnd(DragStart(s, x)).currentIndex == s.currentIndex
  {
  }

  /** A release at exactly the threshold still snaps back. */
  lemma ThresholdIsStrict(s: State, x: int)
    requires Valid(s) && !s.isDragging
    ensures DragEnd(DragMove(DragStart(s, x), x - DragThreshold)).currentIndex == s.currentIndex
    ensures DragEnd(DragMove(DragStart(s, x), x + DragThreshold)).currentIndex == s.currentIndex
  {
  }

  /** A swipe left by `d` pixels followed by a swipe right by the same
      distance, beyond the threshold, returns to the starting slide. */
  lemma SwipeThereAndBack(s: State, x: int, y: int, d: int)
    requires Valid(s) && !s.isDragging
    requires d > DragThreshold
    ensures var there := DragEnd(DragMove(DragStart(s, x), x - d));
      && there.currentIndex == Next(s).currentIndex
      && DragEnd(DragMove(DragStart(there, y), y + d)) == s.(startX := y, autoPlayArmed := true)
  {
  }

  // ---------------------------------------------------------------------
  // Resize
  // ---------------------------------------------------------------------

  /** A resize that keeps the cards-per-view leaves the state unchanged. */
  lemma ResizeSameViewIsNoOp(s: State, width: int)
    requires Valid(s)
    requires CardsPerView(width) == s.cardsPerView
    ensures Resize(s, width) == s
  {
  }

  /** Settling twice at the same width is the same as settling once. */
  lemma ResizeIdempotent(s: State, width: int)
    requires Valid(s)
    ensures Resize(Resize(s, width), width) == Resize(s, width)
  {
  }

  /** After a resize that changes the layout, the dot row matches the new range. */
  lemma ResizeRebuildsDots(s: State, width: int)
    requires Valid(s)
    ensures |Resize(s, width).dots| == Layout.MaxIndex(s.totalCards, CardsPerView(width)) + 1
    ensures CountActive(Resize(s, width).dots) == 1
  {
    ExactlyOneActiveDot(Resize(s, width));
  }

  // ---------------------------------------------------------------------
  // Auto-advance during a drag
  // ---------------------------------------------------------------------

  /** Leaving the carousel with the pointer mid-drag re-arms auto-advance,
      so a timer tick can move the slide under a drag in progress. */
  lemma AutoPlayCanBeArmedDuringDrag()
    ensures var s := Run(Init(7, 1200), [Pressed(500), PointerLeft]);
      s.isDragging && s.autoPlayArmed
    ensures var s := Run(Init(7, 1200), [Pressed(500), PointerLeft, Ticked]);
      s.isDragging && s.currentIndex == 1
  {
  }

  // ---------------------------------------------------------------------
  // Worked examples
  // ---------------------------------------------------------------------

  /** Seven cards: four positions on a wide screen, five on a tablet;
      a 100-pixel swipe left from slide 2 commits, a 30-pixel one snaps back. */
  lemma WorkedExamples()
    ensures Init(7, 1200).MaxIndex() == 4
    ensures Init(7, 800).MaxIndex() == 5
    ensures var s := Run(Init(7, 1200), [NextClicked, NextClicked]);
      && s.currentIndex == 2
      && Run(s, [Pressed(400), PointerMoved(300), Released]).currentIndex == 3
      && Run(s, [Pressed(400), PointerMoved(430), Released]).currentIndex == 2
  {
  }
}
