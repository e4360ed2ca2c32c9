/**
  The reviews carousel as an immutable state record and pure transition
  functions, one per handler of the page. Rendering (the track's pixel
  translation and CSS transition toggling) is an effect on the page only
  and is not part of the state.
 */
module Carousel {
  import opened Layout
  import opened Pagination

  /** A release further than this many pixels from the press commits a slide change. */
  const DragThreshold: int := 80

  /** Cards-per-view before the first layout query. */
  const InitialCardsPerView: int := 3

  datatype State = State(
    totalCards: nat,        // number of review cards, fixed at start-up
    cardsPerView: int,      // cards visible at the last layout query
    currentIndex: int,      // first visible card
    isDragging: bool,       // between a press on the track and its release
    startX: int,            // page x-coordinate of the press
    dragOffset: int,        // pointer displacement since the press
    autoPlayArmed: bool,    // the 5-second auto-advance interval is pending
    dots: seq<bool>         // pagination dots, true = active
  )
  {
    function MaxIndex(): nat
    {
      Layout.MaxIndex(totalCards, cardsPerView)
    }
  }

  /** The invariant every handler keeps: the index is a reachable slide
      position, the dot row has one dot per position with only the current
      one active, and no drag displacement lingers outside a drag. */
  predicate Valid(s: State)
    ensures Valid(s) ==> 0 <= s.currentIndex < |s.dots| == s.MaxIndex() + 1
    ensures Valid(s) ==> s.dots[s.currentIndex]
  {
    && 1 <= s.cardsPerView
    && 0 <= s.currentIndex <= s.MaxIndex()
    && s.dots == BuildDots(s.MaxIndex(), s.currentIndex)
    && (!s.isDragging ==> s.dragOffset == 0)
  }

  // ---------------------------------------------------------------------
  // Slide state
  // ---------------------------------------------------------------------

  /** Show slide `index`, clamped into range. The dots are re-synced only
      when there is a card to measure; with no cards the handler returns
      right after storing the clamped index. */
  function GoTo(s: State, index: int): (r: State)
    ensures 0 <= r.currentIndex <= r.MaxIndex()
    ensures 0 <= index <= s.MaxIndex() ==> r.currentIndex == index
    ensures index < 0 ==> r.currentIndex == 0
    ensures s.MaxIndex() < index ==> r.currentIndex == s.MaxIndex()
    ensures r == s.(currentIndex := r.currentIndex, dots := r.dots)
    ensures Valid(s) ==> Valid(r)
  {
    var idx := Clamp(index, s.MaxIndex());
    var moved := s.(currentIndex := idx);
    if s.totalCards == 0 then moved
    else moved.(dots := UpdateDots(s.dots, idx))
  }

  /** One step forward, wrapping from the last position back to the first. */
  function Next(s: State): (r: State)
    ensures 0 <= r.currentIndex <= r.MaxIndex()
    ensures s.MaxIndex() <= s.currentIndex ==> r.currentIndex == 0
    ensures -1 <= s.currentIndex < s.MaxIndex() ==> r.currentIndex == s.currentIndex + 1
    ensures r == s.(currentIndex := r.currentIndex, dots := r.dots)
    ensures Valid(s) ==> Valid(r)
  {
    GoTo(s, if s.currentIndex >= s.MaxIndex() then 0 else s.currentIndex + 1)
  }

  /** One step back, wrapping from the first position to the last. */
  function Prev(s: State): (r: State)
    ensures 0 <= r.currentIndex <= r.MaxIndex()
    ensures s.currentIndex <= 0 ==> r.currentIndex == s.MaxIndex()
    ensures 0 < s.currentIndex <= s.MaxIndex() + 1 ==> r.currentIndex == s.currentIndex - 1
    ensures r == s.(currentIndex := r.currentIndex, dots := r.dots)
    ensures Valid(s) ==> Valid(r)
  {
    GoTo(s, if s.currentIndex <= 0 then s.MaxIndex() else s.currentIndex - 1)
  }

  // ---------------------------------------------------------------------
  // Auto-advance timer (armed flag only; the host schedules the ticks)
  // ---------------------------------------------------------------------

  function StartAutoPlay(s: State): (r: State)
    ensures r.autoPlayArmed
    ensures r.(autoPlayArmed := s.autoPlayArmed) == s
  {
    s.(autoPlayArmed := true)
  }

  function StopAutoPlay(s: State): (r: State)
    ensures !r.autoPlayArmed
    ensures r.(autoPlayArmed := s.autoPlayArmed) == s
  {
    s.(autoPlayArmed := false)
  }

  /** A tick of the auto-advance interval; none arrives while it is disarmed. */
  function TimerTick(s: State): (r: State)
    // only the index and the dots can change: the interval stays armed and
    // a drag in progress, the layout and the cards are left alone
    ensures r == s.(currentIndex := r.currentIndex, dots := r.dots)
    ensures s.autoPlayArmed ==> r.currentIndex == Next(s).currentIndex
    ensures !s.autoPlayArmed ==> r == s
    ensures Valid(s) ==> Valid(r)
  {
    if s.autoPlayArmed then Next(s) else s
  }

  // ---------------------------------------------------------------------
  // Arrow buttons: navigate, then restart the auto-advance period
  // ---------------------------------------------------------------------

  function PrevButton(s: State): (r: State)
    // the click leaves a drag in progress, the layout and the cards alone
    ensures r == Prev(s).(autoPlayArmed := true)
    ensures Valid(s) ==> Valid(r)
  {
    StartAutoPlay(StopAutoPlay(Prev(s)))
  }

  function NextButton(s: State): (r: State)
    // the click leaves a drag in progress, the layout and the cards alone
    ensures r == Next(s).(autoPlayArmed := true)
    ensures Valid(s) ==> Valid(r)
  {
    StartAutoPlay(StopAutoPlay(Next(s)))
  }

  /** Dot `i` exists only for the positions of the current row. Unlike the
      arrows, a dot click does not restart auto-advance. */
  function DotClick(s: State, i: int): (r: State)
    ensures Valid(s) && 0 <= i < |s.dots| ==> r.currentIndex == i && i < |r.dots| && r.dots[i]
    ensures !(0 <= i < |s.dots|) ==> r == s
    ensures r.autoPlayArmed == s.autoPlayArmed
    ensures r.isDragging == s.isDragging && r.dragOffset == s.dragOffset && r.startX == s.startX
    ensures r.totalCards == s.totalCards && r.cardsPerView == s.cardsPerView
    ensures Valid(s) ==> Valid(r)
  {
    if 0 <= i < |s.dots| then GoTo(s, i) else s
  }

  // ---------------------------------------------------------------------
  // Pointer / touch drag
  // ---------------------------------------------------------------------

  /** Press on the track at page coordinate `x`: start a drag and pause
      auto-advance. The displacement of any earlier drag is not reset. */
  function DragStart(s: State, x: int): (r: State)
    ensures r.isDragging && r.startX == x && !r.autoPlayArmed
    ensures r.currentIndex == s.currentIndex && r.dragOffset == s.dragOffset
    ensures r.(isDragging := s.isDragging, startX := s.startX, autoPlayArmed := s.autoPlayArmed) == s
  {
    StopAutoPlay(s.(isDragging := true, startX := x))
  }

  /** Pointer at page coordinate `x`: while dragging, record the displacement
      from the press; otherwise ignored. The index never moves. */
  function DragMove(s: State, x: int): (r: State)
    ensures s.isDragging ==> r == s.(dragOffset := x - s.startX)
    ensures !s.isDragging ==> r == s
    ensures r.currentIndex == s.currentIndex
    ensures Valid(s) ==> Valid(r)
  {
    if !s.isDragging then s else s.(dragOffset := x - s.startX)
  }

  /** Release: a displacement beyond the threshold to the left shows the next
      slide, to the right the previous one, anything else snaps back to the
      current slide. The drag ends, its displacement is cleared and
      auto-advance restarts. Ignored when no drag is in progress. */
  function DragEnd(s: State): (r: State)
    ensures !s.isDragging ==> r == s
    ensures s.isDragging ==> !r.isDragging && r.dragOffset == 0 && r.autoPlayArmed
    ensures r.totalCards == s.totalCards && r.cardsPerView == s.cardsPerView && r.startX == s.startX
    ensures s.isDragging && s.dragOffset < -DragThreshold ==>
      r.currentIndex == Next(s).currentIndex
    ensures s.isDragging && s.dragOffset > DragThreshold ==>
      r.currentIndex == Prev(s).currentIndex
    ensures (s.isDragging && -DragThreshold <= s.dragOffset <= DragThreshold
             && 0 <= s.currentIndex <= s.MaxIndex()) ==>
      r.currentIndex == s.currentIndex
    ensures Valid(s) ==> Valid(r)
  {
    if !s.isDragging then s
    else
      var released := s.(isDragging := false);
      var moved :=
        if released.dragOffset < -DragThreshold then Next(released)
        else if released.dragOffset > DragThreshold then Prev(released)
        else GoTo(released, released.currentIndex);
      StartAutoPlay(moved.(dragOffset := 0))
  }

  // ---------------------------------------------------------------------
  // Viewport resize (the body that runs after the 200 ms debounce)
  // ---------------------------------------------------------------------

  /** Re-query the layout at viewport width `width`. When the cards-per-view
      changes, the index is pulled down into the new range and the dot row is
      rebuilt; in every case the current slide is shown again. */
  function Resize(s: State, width: int): (r: State)
    ensures r.cardsPerView == CardsPerView(width)
    ensures r.totalCards == s.totalCards
    ensures 0 <= r.currentIndex <= r.MaxIndex()
    ensures 0 <= s.currentIndex ==> r.currentIndex <= s.currentIndex
    ensures 0 <= s.currentIndex <= r.MaxIndex() ==> r.currentIndex == s.currentIndex
    // an index the new layout cannot reach moves to the last reachable position
    ensures r.MaxIndex() < s.currentIndex ==> r.currentIndex == r.MaxIndex()
    ensures r == s.(cardsPerView := r.cardsPerView, currentIndex := r.currentIndex, dots := r.dots)
    ensures r.isDragging == s.isDragging && r.dragOffset == s.dragOffset
    ensures r.autoPlayArmed == s.autoPlayArmed
    ensures Valid(s) ==> Valid(r)
  {
    var perView := CardsPerView(width);
    var relaid :=
      if perView != s.cardsPerView then
        var c := s.(cardsPerView := perView);
        var clamped := if c.currentIndex > c.MaxIndex() then c.(currentIndex := c.MaxIndex()) else c;
        clamped.(dots := BuildDots(clamped.MaxIndex(), clamped.currentIndex))
      else s;
    GoTo(relaid, relaid.currentIndex)
  }

  // ---------------------------------------------------------------------
  // Start-up and the event loop
  // ---------------------------------------------------------------------

  /** Carousel over `totalCards` cards at viewport width `width`: lay out,
      build the dots, show the first slide and arm auto-advance. */
  function Init(totalCards: nat, width: int): (r: State)
    ensures Valid(r)
    ensures r.currentIndex == 0 && !r.isDragging && r.autoPlayArmed
    ensures r.totalCards == totalCards && r.dragOffset == 0
    ensures r.cardsPerView == CardsPerView(width)
    ensures |r.dots| == Layout.MaxIndex(totalCards, CardsPerView(width)) + 1
  {
    var blank := State(totalCards, InitialCardsPerView, 0, false, 0, 0, false, []);
    var laidOut := blank.(cardsPerView := CardsPerView(width));
    var withDots := laidOut.(dots := BuildDots(laidOut.MaxIndex(), laidOut.currentIndex));
    StartAutoPlay(GoTo(withDots, 0))
  }

  /** The page events the carousel listens to. */
  datatype Event =
    | PrevClicked
    | NextClicked
    | DotClicked(dot: int)
    | Pressed(x: int)             // mousedown / touchstart on the track
    | PointerMoved(x: int)        // mousemove on the window / touchmove on the track
    | Released                    // mouseup on the window / touchend on the track
    | Ticked                      // the auto-advance interval fired
    | PointerEntered              // mouseenter on the carousel
    | PointerLeft                 // mouseleave on the carousel
    | Resized(width: int)         // debounced resize settled at this width

  /** The arrow and dot clicks. */
  function ClickStep(s: State, e: Event): (r: State)
    requires e.PrevClicked? || e.NextClicked? || e.DotClicked?
    // arrows: navigate and re-arm auto-advance, leaving a drag alone
    ensures e.PrevClicked? ==> r == Prev(s).(autoPlayArmed := true)
    ensures e.NextClicked? ==> r == Next(s).(autoPlayArmed := true)
    // dots: select that dot's slide; timer and drag untouched
    ensures e.DotClicked? && Valid(s) && 0 <= e.dot < |s.dots| ==> r.currentIndex == e.dot
    ensures e.DotClicked? && !(0 <= e.dot < |s.dots|) ==> r == s
    ensures e.DotClicked? ==>
      && r.autoPlayArmed == s.autoPlayArmed && r.isDragging == s.isDragging
      && r.dragOffset == s.dragOffset && r.startX == s.startX
      && r.cardsPerView == s.cardsPerView
    ensures r.totalCards == s.totalCards
    ensures Valid(s) ==> Valid(r)
  {
    match e
    case PrevClicked => PrevButton(s)
    case NextClicked => NextButton(s)
    case DotClicked(i) => DotClick(s, i)
  }

  /** The press, move and release of a mouse or touch drag. */
  function PointerStep(s: State, e: Event): (r: State)
    requires e.Pressed? || e.PointerMoved? || e.Released?
    ensures e.Pressed? ==> r == s.(isDragging := true, startX := e.x, autoPlayArmed := false)
    ensures e.PointerMoved? ==> r == s.(dragOffset := r.dragOffset)
    ensures e.PointerMoved? && s.isDragging ==> r.dragOffset == e.x - s.startX
    ensures e.PointerMoved? && !s.isDragging ==> r == s
    ensures e.Released? && s.isDragging ==> !r.isDragging && r.dragOffset == 0 && r.autoPlayArmed
    ensures e.Released? ==> r.startX == s.startX && r.cardsPerView == s.cardsPerView
    ensures e.Released? && s.isDragging && s.dragOffset < -DragThreshold ==>
      r.currentIndex == Next(s).currentIndex
    ensures e.Released? && s.isDragging && s.dragOffset > DragThreshold ==>
      r.currentIndex == Prev(s).currentIndex
    ensures (e.Released? && -DragThreshold <= s.dragOffset <= DragThreshold
             && 0 <= s.currentIndex <= s.MaxIndex()) ==>
      r.currentIndex == s.currentIndex
    ensures e.Released? && !s.isDragging ==> r == s
    ensures r.totalCards == s.totalCards
    ensures Valid(s) ==> Valid(r)
  {
    match e
    case Pressed(x) => DragStart(s, x)
    case PointerMoved(x) => DragMove(s, x)
    case Released => DragEnd(s)
  }

  /** The timer, the hover pause and the settled resize. */
  function AmbientStep(s: State, e: Event): (r: State)
    requires e.Ticked? || e.PointerEntered? || e.PointerLeft? || e.Resized?
    ensures e.Ticked? ==> r == s.(currentIndex := r.currentIndex, dots := r.dots)
    ensures e.Ticked? && s.autoPlayArmed ==> r.currentIndex == Next(s).currentIndex
    ensures e.Ticked? && !s.autoPlayArmed ==> r == s
    ensures e.PointerEntered? ==> r == s.(autoPlayArmed := false)
    ensures e.PointerLeft? ==> r == s.(autoPlayArmed := true)
    // settled resize: new layout, index kept when still reachable
    ensures e.Resized? ==> r.cardsPerView == CardsPerView(e.width)
    ensures e.Resized? && 0 <= s.currentIndex <= r.MaxIndex() ==> r.currentIndex == s.currentIndex
    ensures e.Resized? && r.MaxIndex() < s.currentIndex ==> r.currentIndex == r.MaxIndex()
    ensures e.Resized? ==>
      r == s.(cardsPerView := r.cardsPerView, currentIndex := r.currentIndex, dots := r.dots)
    ensures r.totalCards == s.totalCards
    ensures Valid(s) ==> Valid(r)
  {
    match e
    case Ticked => TimerTick(s)
    case PointerEntered => StopAutoPlay(s)
    case PointerLeft => StartAutoPlay(s)
    case Resized(w) => Resize(s, w)
  }

  /** The handler each page event is wired to. */
  function Step(s: State, e: Event): (r: State)
    // clicks
    ensures e.PrevClicked? ==> r == Prev(s).(autoPlayArmed := true)
    ensures e.NextClicked? ==> r == Next(s).(autoPlayArmed := true)
    ensures e.DotClicked? && Valid(s) && 0 <= e.dot < |s.dots| ==> r.currentIndex == e.dot
    ensures e.DotClicked? && !(0 <= e.dot < |s.dots|) ==> r == s
    ensures e.DotClicked? ==>
      && r.autoPlayArmed == s.autoPlayArmed && r.isDragging == s.isDragging
      && r.dragOffset == s.dragOffset && r.startX == s.startX
      && r.cardsPerView == s.cardsPerView
    // drag
    ensures e.Pressed? ==> r == s.(isDragging := true, startX := e.x, autoPlayArmed := false)
    ensures e.PointerMoved? ==> r == s.(dragOffset := r.dragOffset)
    ensures e.PointerMoved? && s.isDragging ==> r.dragOffset == e.x - s.startX
    ensures e.PointerMoved? && !s.isDragging ==> r == s
    ensures e.Released? && s.isDragging ==> !r.isDragging && r.dragOffset == 0 && r.autoPlayArmed
    ensures e.Released? ==> r.startX == s.startX && r.cardsPerView == s.cardsPerView
    ensures e.Released? && s.isDragging && s.dragOffset < -DragThreshold ==>
      r.currentIndex == Next(s).currentIndex
    ensures e.Released? && s.isDragging && s.dragOffset > DragThreshold ==>
      r.currentIndex == Prev(s).currentIndex
    ensures (e.Released? && -DragThreshold <= s.dragOffset <= DragThreshold
             && 0 <= s.currentIndex <= s.MaxIndex()) ==>
      r.currentIndex == s.currentIndex
    ensures e.Released? && !s.isDragging ==> r == s
    // timer, hover and resize
    ensures e.Ticked? ==> r == s.(currentIndex := r.currentIndex, dots := r.dots)
    ensures e.Ticked? && s.autoPlayArmed ==> r.currentIndex == Next(s).currentIndex
    ensures e.Ticked? && !s.autoPlayArmed ==> r == s
    ensures e.PointerEntered? ==> r == s.(autoPlayArmed := false)
    ensures e.PointerLeft? ==> r == s.(autoPlayArmed := true)
    ensures e.Resized? ==> r.cardsPerView == CardsPerView(e.width)
    ensures e.Resized? && 0 <= s.currentIndex <= r.MaxIndex() ==> r.currentIndex == s.currentIndex
    ensures e.Resized? && r.MaxIndex() < s.currentIndex ==> r.currentIndex == r.MaxIndex()
    ensures e.Resized? ==>
      r == s.(cardsPerView := r.cardsPerView, currentIndex := r.currentIndex, dots := r.dots)
    ensures r.totalCards == s.totalCards
    ensures Valid(s) ==> Valid(r)
  {
    if e.PrevClicked? || e.NextClicked? || e.DotClicked? then ClickStep(s, e)
    else if e.Pressed? || e.PointerMoved? || e.Released? then PointerStep(s, e)
    else AmbientStep(s, e)
  }

  /** Handlers run one at a time, in arrival order. */
  function Run(s: State, events: seq<Event>): (r: State)
    ensures r.totalCards == s.totalCards
    decreases |events|
  {
    if |events| == 0 then s else Run(Step(s, events[0]), events[1..])
  }
}
