/** The draw order of the circles: both charts sort the loaded rows by Population,
    largest first, so that small circles are drawn over large ones (script.js lines 18 and 203).

    The comparator `(a, b) => (a.Population < b.Population) ? 1 : -1` never answers 0,
    and answers -1 for both orders of two rows with equal Population. Such a comparator
    is inconsistent, and for an inconsistent comparator the language guarantees only
    that the sort returns a permutation of the array; the whole order is then up to
    the engine. Modelling assumption: the engine's comparison sort answers every
    comparison between different Populations correctly, so the result has Population
    non-increasing, and only the order among equal Populations is open. The model
    states what every such result shares (`IsRenderOrder`), gives one such result
    (`SortByPopulation`), and proves that all of them agree on their Population
    sequence. */
module RenderOrder {
  import opened Records

  /** The comparator's verdict: it returns -1, placing `a` before `b`, exactly when
      `a.population < b.population` does not hold. */
  predicate DrawnBefore(a: Row, b: Row)
  {
    !(a.population < b.population)
  }

  /** The comparator is inconsistent on ties: it places each of two rows of equal
      Population before the other, and that is the only case where it does. */
  lemma ComparatorOnTies(a: Row, b: Row)
    ensures DrawnBefore(a, b) && DrawnBefore(b, a) <==> a.population == b.population
  {
  }

  /** `order` is a result the population sort may return for `data`: the same rows,
      Population never increasing. */
  ghost predicate IsRenderOrder(data: seq<Row>, order: seq<Row>)
  {
    multiset(order) == multiset(data) && NonIncreasing(order)
  }

  /** Places `x` in front of the first row it is drawn before. */
  function Insert(x: Row, sorted: seq<Row>): (r: seq<Row>)
    requires NonIncreasing(sorted)
    ensures multiset(r) == multiset(sorted) + multiset{x}
    ensures NonIncreasing(r)
    ensures |r| == |sorted| + 1
    ensures r[0] == x || (|sorted| > 0 && r[0] == sorted[0])
  {
    if |sorted| == 0 then [x]
    else if DrawnBefore(x, sorted[0]) then
      ConsNonIncreasing(x, sorted);
      [x] + sorted
    else
      assert sorted == [sorted[0]] + sorted[1..];
      TailNonIncreasing(sorted);
      var rest := Insert(x, sorted[1..]);
      NonIncreasingRows(sorted);
      ConsNonIncreasing(sorted[0], rest);
      [sorted[0]] + rest
  }

  /** One admissible result of the population sort (an insertion sort driven by the
      source's comparator). */
  function SortByPopulation(data: seq<Row>): (order: seq<Row>)
    ensures IsRenderOrder(data, order)
    ensures |order| == |data|
  {
    if |data| == 0 then []
    else
      assert data == [data[0]] + data[1..];
      Insert(data[0], SortByPopulation(data[1..]))
  }

  /** Whatever order the engine gives rows of equal Population, every admissible
      result of the sort has the same sequence of Population values. */
  lemma RenderOrdersAgree(data: seq<Row>, first: seq<Row>, second: seq<Row>)
    requires IsRenderOrder(data, first) && IsRenderOrder(data, second)
    ensures Populations(first) == Populations(second)
  {
    ColumnOfPermutation(first, second, Population);
    DescendingPermutationsEqual(Populations(first), Populations(second));
  }

  /** The log chart sorts the array the linear chart already sorted in place:
      re-sorting a render order leaves its Population sequence unchanged. */
  lemma ResortKeepsPopulations(order: seq<Row>, resorted: seq<Row>)
    requires NonIncreasing(order)
    requires IsRenderOrder(order, resorted)
    ensures Populations(resorted) == Populations(order)
  {
    RenderOrdersAgree(order, order, resorted);
  }
}
