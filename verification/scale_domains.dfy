/** The domains of the four scales: income on x and life expectancy on y, for the
    linear chart (script.js lines 47-54) and the log chart (script.js lines 233-240).
    Only the domain endpoints are modelled; mapping values to pixels is done by the
    charting library. */
module ScaleDomains {
  import opened Records
  import opened Extents
  import opened ChartFrame

  /** The `[lo, hi]` pair passed to a scale's `.domain`. */
  datatype Domain = Domain(lo: real, hi: real)

  /** Room left below the poorest country on the linear income axis. */
  const IncomeMargin: real := 10000.0
  /** Room left around the life-expectancy values (both ends linear, top end log). */
  const LifeMargin: real := 2.0
  /** The fixed lower end of the log income axis. */
  const LogIncomeFloor: real := 400.0

  function Incomes(rows: seq<Row>): seq<real> { ColumnOf(rows, Income) }

  function LifeExpectancies(rows: seq<Row>): seq<real> { ColumnOf(rows, LifeExpectancy) }

  /** Linear x: `[minIncome - 10000, maxIncome]`. The lower end sits exactly 10000 below
      the smallest income, so every income lies strictly above it; the upper end is the
      largest income. */
  function LinearIncomeDomain(rows: seq<Row>): (d: Domain)
    requires |rows| > 0
    ensures d.lo + IncomeMargin in Incomes(rows)
    ensures d.hi in Incomes(rows)
    ensures forall i :: 0 <= i < |rows| ==> d.lo + IncomeMargin <= rows[i].income <= d.hi
    ensures forall i :: 0 <= i < |rows| ==> d.lo < rows[i].income
  {
    var e := ExtentOf(Incomes(rows));
    assert forall i :: 0 <= i < |rows| ==> Incomes(rows)[i] == rows[i].income;
    Domain(e.lo - IncomeMargin, e.hi)
  }

  /** Log x: `[400, maxIncome]`. The lower end is the constant 400 whatever the data;
      every income of at least 400 lies in the domain. */
  function LogIncomeDomain(rows: seq<Row>): (d: Domain)
    requires |rows| > 0
    ensures d.lo == LogIncomeFloor
    ensures d.hi in Incomes(rows)
    ensures forall i :: 0 <= i < |rows| ==> rows[i].income <= d.hi
    ensures forall i :: 0 <= i < |rows| && LogIncomeFloor <= rows[i].income ==>
      d.lo <= rows[i].income <= d.hi
  {
    var e := ExtentOf(Incomes(rows));
    assert forall i :: 0 <= i < |rows| ==> Incomes(rows)[i] == rows[i].income;
    Domain(LogIncomeFloor, e.hi)
  }

  /** Linear y: `[minLife - 2, maxLife + 2]`. Both ends are 2 beyond a value that
      occurs, so every life expectancy is at least 2 away from either end. */
  function LinearLifeDomain(rows: seq<Row>): (d: Domain)
    requires |rows| > 0
    ensures d.lo + LifeMargin in LifeExpectancies(rows)
    ensures d.hi - LifeMargin in LifeExpectancies(rows)
    ensures forall i :: 0 <= i < |rows| ==>
      d.lo + LifeMargin <= rows[i].lifeExpectancy <= d.hi - LifeMargin
  {
    var e := ExtentOf(LifeExpectancies(rows));
    assert forall i :: 0 <= i < |rows| ==> LifeExpectancies(rows)[i] == rows[i].lifeExpectancy;
    Domain(e.lo - LifeMargin, e.hi + LifeMargin)
  }

  /** Log chart y: `[minLife, maxLife + 2]`. The lower end is attained by some row;
      the upper end leaves 2 above the largest value. */
  function LogLifeDomain(rows: seq<Row>): (d: Domain)
    requires |rows| > 0
    ensures d.lo in LifeExpectancies(rows)
    ensures d.hi - LifeMargin in LifeExpectancies(rows)
    ensures forall i :: 0 <= i < |rows| ==>
      d.lo <= rows[i].lifeExpectancy <= d.hi - LifeMargin
  {
    var e := ExtentOf(LifeExpectancies(rows));
    assert forall i :: 0 <= i < |rows| ==> LifeExpectancies(rows)[i] == rows[i].lifeExpectancy;
    Domain(e.lo, e.hi + LifeMargin)
  }

  function IncomeDomain(kind: ChartKind, rows: seq<Row>): Domain
    requires |rows| > 0
  {
    match kind
    case Linear => LinearIncomeDomain(rows)
    case Log => LogIncomeDomain(rows)
  }

  function LifeDomain(kind: ChartKind, rows: seq<Row>): Domain
    requires |rows| > 0
  {
    match kind
    case Linear => LinearLifeDomain(rows)
    case Log => LogLifeDomain(rows)
  }

  /** The charts compute their extents on the array after sorting it; since sorting only
      permutes rows, both domains are those of the rows as loaded. */
  lemma DomainsIgnoreOrder(kind: ChartKind, a: seq<Row>, b: seq<Row>)
    requires |a| > 0
    requires multiset(a) == multiset(b)
    ensures |b| > 0
    ensures IncomeDomain(kind, a) == IncomeDomain(kind, b)
    ensures LifeDomain(kind, a) == LifeDomain(kind, b)
  {
    assert |b| == |multiset(b)| == |a|;
    ColumnOfPermutation(a, b, Income);
    ColumnOfPermutation(a, b, LifeExpectancy);
    ExtentIgnoresOrder(Incomes(a), Incomes(b));
    ExtentIgnoresOrder(LifeExpectancies(a), LifeExpectancies(b));
  }
}
