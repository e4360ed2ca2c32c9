/**
  Layout resolution for the reviews carousel: how many review cards the
  viewport shows at once, and which slide positions can be reached.
 */
module Layout {

  /** Widest viewport (in CSS pixels) that shows a single card. */
  const MobileMaxWidth: int := 768

  /** Widest viewport (in CSS pixels) that shows two cards. */
  const TabletMaxWidth: int := 1024

  /** Number of cards visible side by side at viewport width `width`. */
  function CardsPerView(width: int): (n: int)
    ensures 1 <= n <= 3
    ensures n == 1 <==> width <= MobileMaxWidth
    ensures n == 2 <==> MobileMaxWidth < width <= TabletMaxWidth
    ensures n == 3 <==> TabletMaxWidth < width
  {
    if width <= MobileMaxWidth then 1
    else if width <= TabletMaxWidth then 2
    else 3
  }

  /** Highest slide position: the first card of the last full view,
      or position 0 when every card fits in one view. */
  function MaxIndex(totalCards: nat, cardsPerView: int): (m: nat)
    // the view starting at `m` reaches the last card ...
    ensures totalCards <= m + cardsPerView
    // ... and, unless it is the only position, ends exactly there
    ensures m == 0 || m + cardsPerView == totalCards
  {
    if totalCards - cardsPerView < 0 then 0 else totalCards - cardsPerView
  }

  /** `index` forced into the slide positions `0..maxIndex`. */
  function Clamp(index: int, maxIndex: nat): (r: nat)
    ensures r <= maxIndex
    ensures 0 <= index <= maxIndex ==> r == index
    ensures index < 0 ==> r == 0
    ensures maxIndex < index ==> r == maxIndex
  {
    var upper := if index < maxIndex then index else maxIndex;
    if upper < 0 then 0 else upper
  }

  function Distance(a: int, b: int): nat
  {
    if a <= b then b - a else a - b
  }

  /** Clamping picks the reachable position nearest to the request. */
  lemma ClampIsNearest(index: int, maxIndex: nat)
    ensures forall j :: 0 <= j <= maxIndex ==>
      Distance(Clamp(index, maxIndex), index) <= Distance(j, index)
  {
  }

  /** A wider viewport never shows fewer cards. */
  lemma CardsPerViewMonotone(w1: int, w2: int)
    requires w1 <= w2
    ensures CardsPerView(w1) <= CardsPerView(w2)
  {
  }

  /** Showing more cards per view never adds slide positions. */
  lemma MaxIndexAntitone(totalCards: nat, c1: int, c2: int)
    requires c1 <= c2
    ensures MaxIndex(totalCards, c2) <= MaxIndex(totalCards, c1)
  {
  }
}
