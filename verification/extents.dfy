/** The `[min, max]` pair that `d3.extent` returns for a non-empty column of numbers
    (script.js lines 37-39, 42-44, 223-225, 228-230). */
module Extents {

  datatype Extent = Extent(lo: real, hi: real)

  function Min(a: real, b: real): real { if a <= b then a else b }

  function Max(a: real, b: real): real { if a >= b then a else b }

  /** The smallest and largest value of `xs`; both occur in `xs` and bound all of it. */
  function ExtentOf(xs: seq<real>): (e: Extent)
    requires |xs| > 0
    ensures e.lo in xs && e.hi in xs
    ensures forall i :: 0 <= i < |xs| ==> e.lo <= xs[i] <= e.hi
  {
    if |xs| == 1 then Extent(xs[0], xs[0])
    else
      var rest := ExtentOf(xs[1..]);
      assert forall i :: 1 <= i < |xs| ==> xs[i] == xs[1..][i - 1];
      Extent(Min(xs[0], rest.lo), Max(xs[0], rest.hi))
  }

  /** The extent depends only on which values occur, not on their order: computing it
      on the sorted array gives the same bounds as on the loaded one. */
  lemma ExtentIgnoresOrder(xs: seq<real>, ys: seq<real>)
    requires |xs| > 0
    requires multiset(xs) == multiset(ys)
    ensures |ys| > 0 && ExtentOf(xs) == ExtentOf(ys)
  {
    assert |ys| == |multiset(ys)| == |xs|;
    var ex, ey := ExtentOf(xs), ExtentOf(ys);
    assert ex.lo in multiset(ys) && ex.hi in multiset(ys);
    assert ey.lo in multiset(xs) && ey.hi in multiset(xs);
  }
}
