/**
  The pagination dots under the carousel. A dot is modelled by its
  "active" flag alone; dot `i` sits at position `i` of the sequence and
  navigates to slide `i` when clicked.
 */
module Pagination {

  /** `n` dots created in order, dot `i` active exactly when `i == active`. */
  function Indicators(n: nat, active: int): (dots: seq<bool>)
    ensures |dots| == n
    ensures forall i :: 0 <= i < n ==> (dots[i] <==> i == active)
    decreases n
  {
    if n == 0 then [] else Indicators(n - 1, active) + [n - 1 == active]
  }

  /** Rebuilding the dot row: one dot per slide position `0..maxIndex`. */
  function BuildDots(maxIndex: nat, active: int): (dots: seq<bool>)
    ensures |dots| == maxIndex + 1
    ensures forall i :: 0 <= i <= maxIndex ==> (dots[i] <==> i == active)
  {
    Indicators(maxIndex + 1, active)
  }

  /** Moving the active mark over the existing dots: the row keeps its
      length and only dot `active` stays marked. */
  function UpdateDots(dots: seq<bool>, active: int): (r: seq<bool>)
    ensures |r| == |dots|
    ensures forall i :: 0 <= i < |dots| ==> (r[i] <==> i == active)
  {
    Indicators(|dots|, active)
  }

  /** Number of dots carrying the active mark. */
  function CountActive(dots: seq<bool>): nat
    decreases |dots|
  {
    if |dots| == 0 then 0
    else CountActive(dots[..|dots| - 1]) + (if dots[|dots| - 1] then 1 else 0)
  }

  /** A freshly built row has exactly one active dot when the active
      position is one of its dots, and none otherwise. */
  lemma {:induction false} IndicatorsActiveCount(n: nat, active: int)
    ensures CountActive(Indicators(n, active)) == (if 0 <= active < n then 1 else 0)
    decreases n
  {
    if n > 0 {
      var dots := Indicators(n, active);
      assert dots[..n - 1] == Indicators(n - 1, active);
      IndicatorsActiveCount(n - 1, active);
    }
  }

  /** Marking the current position again changes nothing. */
  lemma UpdateDotsIdempotent(dots: seq<bool>, active: int)
    ensures UpdateDots(UpdateDots(dots, active), active) == UpdateDots(dots, active)
  {
  }
}
