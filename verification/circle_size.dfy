/** The circle radius both charts give each country: `4 + Population / 100000000`
    (script.js lines 76 and 262). */
module CircleSize {
  import opened Records

  /** The radius of a country with no population. */
  const MinRadius: real := 4.0
  /** The population that adds one unit of radius. */
  const PeoplePerUnit: real := 100000000.0

  /** The radius is at least 4 for any non-negative population, and the population
      can be read back from it. */
  function Radius(population: real): (r: real)
    ensures population >= 0.0 ==> r >= MinRadius
    ensures (r - MinRadius) * PeoplePerUnit == population
  {
    MinRadius + population / PeoplePerUnit
  }

  /** A larger population never gives a smaller circle, and a strictly larger one
      gives a strictly larger circle. */
  lemma RadiusMonotone(p: real, q: real)
    ensures p <= q ==> Radius(p) <= Radius(q)
    ensures p < q ==> Radius(p) < Radius(q)
  {
  }

  /** The radii drawn for a sequence of rows, in order. */
  function Radii(rows: seq<Row>): seq<real>
  {
    seq(|rows|, i requires 0 <= i < |rows| => Radius(rows[i].population))
  }

  /** Along the render order circles never grow, so each circle is drawn no later
      than every smaller one. */
  lemma RadiiFollowRenderOrder(order: seq<Row>)
    requires NonIncreasing(order)
    ensures forall i, j :: 0 <= i < j < |order| ==> Radii(order)[j] <= Radii(order)[i]
  {
    NonIncreasingRows(order);
  }

  /** The radii depend only on the Population sequence. */
  lemma RadiiOfPopulations(a: seq<Row>, b: seq<Row>)
    requires Populations(a) == Populations(b)
    ensures Radii(a) == Radii(b)
  {
    assert |a| == |Populations(a)| == |Populations(b)| == |b|;
    forall i | 0 <= i < |a|
      ensures Radii(a)[i] == Radii(b)[i]
    {
      assert Populations(a)[i] == Populations(b)[i];
    }
  }
}
