# Reviews carousel of the Hotel Gemma Ischia page — a Dafny model

The page script `js/main.js` drives a carousel of review cards. It is a small
integer state machine:

- the viewport width picks how many cards are visible (one, two or three);
- the slide index is clamped to the reachable positions `0..maxIndex`, where
  `maxIndex = max(0, totalCards - cardsPerView)`;
- the arrow buttons and a 5-second auto-advance step forward or back with
  wrap-around;
- a mouse or touch drag is released into "next", "previous" or "snap back"
  by a strict 80-pixel threshold;
- a settled resize re-clamps the index and rebuilds the pagination dots;
- one pagination dot exists per reachable position, and the current one is
  active.

A second, tiny function picks the page's initial language from the
browser's language tag.

The model is functional. `Carousel.State` is an immutable record holding
`totalCards`, `cardsPerView`, `currentIndex`, `isDragging`, `startX`,
`dragOffset`, an `autoPlayArmed` flag and the dot row. The dot row is a
`seq<bool>`: one entry per dot, `true` for the active one. Each page handler
is a pure function from state to state. `Carousel.Valid` is the invariant
they all keep. `Carousel.Step` and `Carousel.Run` replay any sequence of page
events, one handler at a time, as the browser's event loop does.

Files and modules:

- `layout.dfy`, module `Layout`: breakpoints, the highest slide index, clamping.
- `pagination.dfy`, module `Pagination`: building and updating the dot row.
- `carousel.dfy`, module `Carousel`: the state, the handlers and the event loop.
- `carousel_properties.dfy`, module `CarouselProperties`: lemmas that relate
  several handlers.
- `language.dfy`, module `Language`: browser-language detection.

Some behaviour of the code is easy to expect otherwise; the model follows
the code:

- **Auto-advance during a drag.** One might expect a drag to keep
  auto-advance disarmed until release. The `mouseleave` handler
  (js/main.js:796) re-arms it even while a drag is in progress.
  `CarouselProperties.AutoPlayCanBeArmedDuringDrag` shows a run that reaches
  this state, after which a timer tick moves the slide under the drag.
- **A carousel with no cards.** It still activates: it builds one dot, shows
  slide 0 and arms auto-advance. Only the render step of `goToSlide` returns
  early, before the dots are re-synced (js/main.js:673-674), after the index
  clamp. `Carousel.GoTo` models this early return.
- **Arrow buttons.** A click navigates first, then stops and re-arms
  auto-advance (js/main.js:744-758). Stopping first would end in the same
  state. A dot click, unlike the arrows, does not restart auto-advance.
- **A resize during a drag.** It does not cancel the drag;
  `Carousel.Resize` keeps `isDragging` and `dragOffset` as they were.

## Model

| member | source | states |
|---|---|---|
| `Layout.CardsPerView` | js/main.js:629-634 | one card at widths up to 768, two up to 1024, three above; always 1 to 3 |
| `Layout.CardsPerViewMonotone` | js/main.js:629-634 | a wider viewport never shows fewer cards |
| `Layout.MaxIndex` | js/main.js:636-638 | never negative; the view that starts there reaches the last card, and ends exactly on it unless it is position 0 |
| `Layout.MaxIndexAntitone` | js/main.js:636-638 | more cards per view never means more slide positions |
| `Layout.Clamp` | js/main.js:671 | the result is in `0..maxIndex`; an in-range index is kept; below 0 gives 0; above the maximum gives the maximum |
| `Layout.ClampIsNearest` | js/main.js:671 | the clamped index is the reachable position nearest to the requested one |
| `Pagination.Indicators` | js/main.js:643-659 | the loop creates `n` dots in order, and dot `i` is active iff `i` is the current index |
| `Pagination.BuildDots` | js/main.js:640-660 | the rebuilt row has exactly `maxIndex + 1` dots, and dot `i` is active iff `i` is the current index |
| `Pagination.UpdateDots` | js/main.js:662-667 | the dot count is kept, and dot `i` is active iff `i` is the new index |
| `Pagination.IndicatorsActiveCount` | js/main.js:640-667 | a built row has exactly one active dot when the index is in range, and none otherwise |
| `Pagination.UpdateDotsIdempotent` | js/main.js:662-667 | re-marking the same index changes nothing |
| `Carousel.GoTo` | js/main.js:669-686 | for any requested integer, the stored index lies in `0..maxIndex`; an in-range request is stored unchanged; out-of-range requests go to the nearest end; only the index and dots change; the invariant is kept |
| `Carousel.Next` | js/main.js:688-691 | from the last position (or beyond) it goes to 0, otherwise one step forward; stays in range; keeps the invariant |
| `Carousel.Prev` | js/main.js:693-696 | from position 0 (or below) it goes to `maxIndex`, otherwise one step back; stays in range; keeps the invariant |
| `Carousel.StartAutoPlay` | js/main.js:698-701 | arms auto-advance and changes nothing else |
| `Carousel.StopAutoPlay` | js/main.js:703-708 | disarms auto-advance and changes nothing else |
| `Carousel.TimerTick` | js/main.js:700 | an armed interval tick moves the index as `Next` does; only the index and dots change, so the interval stays armed and any drag (`isDragging`, `dragOffset`, `startX`), the card count and the layout are untouched; with no interval armed, nothing happens; keeps the invariant |
| `Carousel.PrevButton` | js/main.js:744-750 | exactly `Prev` with auto-advance re-armed: a drag in progress, `startX`, the card count and the layout are left as they were; keeps the invariant |
| `Carousel.NextButton` | js/main.js:752-758 | exactly `Next` with auto-advance re-armed: a drag in progress, `startX`, the card count and the layout are left as they were; keeps the invariant |
| `Carousel.DotClick` | js/main.js:650-657 | clicking dot `i` of the current row makes `i` the current index and that dot the active one; positions without a dot do nothing; auto-advance, the drag fields, the card count and the layout are unchanged; keeps the invariant |
| `Carousel.DragStart` | js/main.js:711-716 | sets `isDragging`, records `startX` and disarms auto-advance; the index and a leftover offset are untouched |
| `Carousel.DragMove` | js/main.js:718-724 | ignored unless dragging; otherwise `dragOffset = x - startX`; the index never changes; keeps the invariant |
| `Carousel.DragEnd` | js/main.js:726-741 | ignored unless dragging; below -80 acts as `Next`, above 80 as `Prev`, anything in [-80, 80] keeps the index; afterwards not dragging, offset 0, auto-advance armed; card count, layout and `startX` kept; keeps the invariant |
| `Carousel.Resize` | js/main.js:776-790 | the new cards-per-view is stored and the card count kept; the index ends in the new range and never grows; an index still in range is kept; an index beyond the new range becomes the new `maxIndex`; only the layout, index and dots change; keeps the invariant |
| `Carousel.Valid` | js/main.js:636-667 | a valid state has its index in `0..maxIndex`, one dot per position, and the current dot active |
| `Carousel.ClickStep` | js/main.js:744-758 | an arrow click is exactly `Prev`/`Next` with auto-advance re-armed; a dot click (wired at js/main.js:652-656) selects that dot's slide, a missing dot does nothing, and neither touches auto-advance, the drag or the layout; the card count and the invariant are kept |
| `Carousel.PointerStep` | js/main.js:760-768 | a press only starts a drag at its coordinate and disarms auto-advance; a move changes only the offset, and only while dragging; a release ends a drag with offset 0 and auto-advance re-armed, on the slide chosen by the strict 80-pixel threshold (beyond -80 as `Next`, beyond 80 as `Prev`, otherwise kept), keeps `startX` and the layout, and is ignored when no drag runs; the card count and the invariant are kept |
| `Carousel.AmbientStep` | js/main.js:775-797 | a tick changes only the index and dots, moving as `Next` when armed; `mouseenter` only disarms and `mouseleave` only re-arms auto-advance; a settled resize stores the new cards-per-view, keeps a still-reachable index, moves an unreachable one to the new `maxIndex`, and changes only the layout, index and dots; the card count and the invariant are kept |
| `Carousel.Step` | js/main.js:744-797 | each page event has its handler's effect, and changes nothing else: an arrow click is exactly `Prev`/`Next` with auto-advance re-armed, so a drag in progress is left alone; a dot click selects that dot's slide, a missing dot does nothing, and neither touches auto-advance, the drag or the layout; a press only starts a drag at its coordinate and disarms auto-advance; a move changes only the offset, and only while dragging; a release ends a drag with offset 0 and re-armed auto-advance on the slide chosen by the strict 80-pixel threshold (beyond -80 as `Next`, beyond 80 as `Prev`, otherwise kept), keeping `startX` and the layout, and is ignored otherwise; a tick changes only the index and dots, moving as `Next` when armed and nothing otherwise; `mouseenter` only disarms and `mouseleave` only re-arms auto-advance; a settled resize stores the new cards-per-view, keeps a still-reachable index, moves an unreachable one to the new `maxIndex`, and changes only the layout, index and dots; the card count is kept and so is the invariant |
| `Carousel.Run` | js/main.js:744-797 | handlers run one at a time in arrival order; the card count fixed at start-up never changes |
| `Carousel.Init` | js/main.js:799-803 | start-up over the given cards yields a valid state holding that card count, at index 0 with no drag offset, with one dot per position and auto-advance armed |
| `CarouselProperties.RunPreservesValid` | js/main.js:744-797 | the invariant holds after any sequence of events |
| `CarouselProperties.ReachableStatesAreValid` | js/main.js:611-804 | after start-up and any sequence of events, the card count is still the start-up count and `0 <= currentIndex <= maxIndex`; there are `maxIndex + 1` dots and exactly one, the current, is active |
| `CarouselProperties.ExactlyOneActiveDot` | js/main.js:640-667 | in a valid state exactly one dot is active, and it is the current one |
| `CarouselProperties.ValidStateDeterminedByIndex` | js/main.js:640-667 | in valid states the dot row is determined by the index and the other fields |
| `CarouselProperties.GoToPicksNearest` | js/main.js:669-671 | `goToSlide` stores the reachable position nearest to the request |
| `CarouselProperties.GoToCurrentIsNoOp` | js/main.js:669-686 | going to the current slide leaves the state unchanged |
| `CarouselProperties.NextIsSuccessorModulo` | js/main.js:688-691 | `nextSlide` is `+1` modulo the number of positions |
| `CarouselProperties.PrevIsPredecessorModulo` | js/main.js:693-696 | `prevSlide` is `-1` modulo the number of positions |
| `CarouselProperties.PrevAfterNext` | js/main.js:688-696 | prev after next returns to the starting state |
| `CarouselProperties.NextAfterPrev` | js/main.js:688-696 | next after prev returns to the starting state |
| `CarouselProperties.NextTimesAdvances` | js/main.js:688-700 | within one cycle, `k` forward steps move the index by `k` with wrap-around, and touch nothing else |
| `CarouselProperties.FullCycleReturns` | js/main.js:688-700 | `maxIndex + 1` forward steps return to the starting state |
| `CarouselProperties.NextReachesEverySlide` | js/main.js:688-700 | repeated forward steps reach every slide position within one cycle |
| `CarouselProperties.DragGestureKeepsIndex` | js/main.js:711-724 | pressing and moving never change the index; the offset is the pointer's displacement from the press |
| `CarouselProperties.ClickWithoutMoveSnapsBack` | js/main.js:726-741 | a press and release without a move keeps the index |
| `CarouselProperties.ThresholdIsStrict` | js/main.js:731-738 | a drag of exactly 80 pixels either way snaps back |
| `CarouselProperties.SwipeThereAndBack` | js/main.js:726-741 | a swipe left past the threshold acts as next; an equal swipe right then restores the starting state, apart from the press coordinate and the armed timer |
| `CarouselProperties.ResizeSameViewIsNoOp` | js/main.js:780-788 | a resize that keeps cards-per-view leaves a valid state unchanged |
| `CarouselProperties.ResizeIdempotent` | js/main.js:777-790 | settling twice at the same width equals settling once |
| `CarouselProperties.ResizeRebuildsDots` | js/main.js:781-787 | after a resize there is one dot per new position, and exactly one is active |
| `CarouselProperties.AutoPlayCanBeArmedDuringDrag` | js/main.js:792-797 | a pointer leaving the carousel mid-drag re-arms auto-advance, and a tick then moves the slide during the drag |
| `CarouselProperties.WorkedExamples` | js/main.js:629-741 | seven cards give four positions at width 1200 and five at 800; from slide 2, a 100-pixel left swipe gives 3 and a 30-pixel drag stays at 2 |
| `Language.Lower` | js/main.js:516 | the result has the same length and no capital `A`-`Z`; each capital becomes the small letter at the same alphabet position; every other character is kept |
| `Language.LowerIdempotent` | js/main.js:516 | lower-casing an already lower-cased tag changes nothing |
| `Language.Upper` | js/main.js:516 | the upper-case spelling of a tag, used to state that detection ignores case: same length, no small `a`-`z` left, each small letter becomes the capital at the same alphabet position, every other character kept |
| `Language.LowerOfUpper` | js/main.js:516 | `toLowerCase` of an upper-cased tag equals `toLowerCase` of the tag itself |
| `Language.BrowserTag` | js/main.js:514 | the standard tag if set, else the legacy tag if set, else `"it"` |
| `Language.Prefix2` | js/main.js:515 | the first two characters, or the whole tag when shorter |
| `Language.DetectBrowserLanguage` | js/main.js:513-519 | always one of `it, en, fr, de, ru`; the lower-cased two-letter prefix when it is supported, `"it"` otherwise |
| `Language.SupportedCodesAreLowerCase` | js/main.js:517 | every supported code is two letters `a`-`z`, unchanged by lower-casing |
| `Language.DetectRecognisesSupportedTag` | js/main.js:513-519 | a tag starting with a supported code, whatever subtags follow, selects that code |
| `Language.DetectIgnoresCase` | js/main.js:513-519 | any spelling of a tag, mixed, upper or lower case, selects what its lower-case spelling selects |
| `Language.DetectIdempotent` | js/main.js:513-519 | the detected language, fed back in as the tag, selects itself |
| `Language.NoTagSelectsDefault` | js/main.js:514-518 | with no browser tag at all the result is `"it"` |

## Left out

- Pixel translation in `goToSlide` (js/main.js:675-684): it measures the card width and the track gap as floating-point DOM values. Rendering is treated as an effect outside the state, and so is the live drag transform in `onDragMove`.
- The CSS transition toggling during a drag, the `dragstart` default prevention and the dots' `aria-label` text are DOM-only.
- Timers: the 5000 ms auto-advance interval and the 200 ms resize debounce are host scheduling. Auto-advance is the `autoPlayArmed` flag. A tick is the `Ticked` event, which acts only while the flag is set. A resize is the event at which the debounce settles.
- `Carousel.TimerTick`: a tick that the host delivers late, or not at all, is not modelled; the model has no clock.
- Coordinates and widths are integers. `pageX` may be fractional in a browser; the threshold comparison reads the same either way.
- Missing pointer data (a touch event without `touches[0]`) would throw in the page script; the model's events always carry a coordinate.
- `Language.Lower`, `Language.DetectBrowserLanguage`: `toLowerCase` is modelled as folding of `A`-`Z` only. The result is the same. No other character lower-cases into one of the five two-letter codes. The Kelvin sign becomes `k`, and dotted capital I becomes two characters; neither can form a supported code. `substring` counts UTF-16 units, while the model counts characters. A tag with a non-ASCII head falls back to `"it"` either way.
- The saved-language lookup in local storage (js/main.js:510-511), `applyTranslations`, `setActiveOption` and `switchLanguage` (js/main.js:521-561) are DOM writes and persistence over a translation table that is not part of this model.
- Everything else in `js/main.js` is presentation glue or floating-point animation with no integer logic to state. This covers scroll progress, the navigation toggle, reveal-on-scroll, parallax, counters, tilt and magnetic effects, the lightbox, smooth scrolling, the cursor glow, text splitting, floating elements, back-to-top and the contact form.
