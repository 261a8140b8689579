/** One row of the wealth-health table, and the numeric columns the charts read from it.

    The loader produces rows with the fields Country, Region, Population, Income and
    LifeExpectancy. Numbers are modelled as exact `real`s, not IEEE-754 doubles. */
module Records {

  datatype Row = Row(
    country: string,
    region: string,
    population: real,
    income: real,
    lifeExpectancy: real)

  /** The numeric columns a chart reads through `info.map(d => d.<column>)`. */
  datatype Column = Population | Income | LifeExpectancy

  function Value(row: Row, column: Column): real
  {
    match column
    case Population => row.population
    case Income => row.income
    case LifeExpectancy => row.lifeExpectancy
  }

  /** The values of one column, in row order. */
  function ColumnOf(rows: seq<Row>, column: Column): seq<real>
  {
    seq(|rows|, i requires 0 <= i < |rows| => Value(rows[i], column))
  }

  function Populations(rows: seq<Row>): seq<real>
  {
    ColumnOf(rows, Population)
  }

  /** A sequence of reals that never increases. */
  ghost predicate Descending(xs: seq<real>)
  {
    forall i, j :: 0 <= i < j < |xs| ==> xs[j] <= xs[i]
  }

  /** Population never increases along `rows`: the largest circles come first. */
  ghost predicate NonIncreasing(rows: seq<Row>)
  {
    Descending(Populations(rows))
  }

  /** `NonIncreasing` read row by row. */
  lemma NonIncreasingRows(rows: seq<Row>)
    ensures NonIncreasing(rows) <==>
      forall i, j :: 0 <= i < j < |rows| ==> rows[j].population <= rows[i].population
  {
    assert forall i :: 0 <= i < |rows| ==> Populations(rows)[i] == rows[i].population;
  }

  /** Dropping the first row keeps the order non-increasing. */
  lemma TailNonIncreasing(rows: seq<Row>)
    requires NonIncreasing(rows) && |rows| > 0
    ensures NonIncreasing(rows[1..])
  {
    NonIncreasingRows(rows);
    NonIncreasingRows(rows[1..]);
  }

  /** A row no smaller than the head of a non-increasing order can be put in front. */
  lemma ConsNonIncreasing(head: Row, rows: seq<Row>)
    requires NonIncreasing(rows)
    requires |rows| > 0 ==> rows[0].population <= head.population
    ensures NonIncreasing([head] + rows)
  {
    NonIncreasingRows(rows);
    NonIncreasingRows([head] + rows);
  }

  /** Removing position `k` removes one copy of `s[k]` from the multiset. */
  lemma MultisetRemoveAt<T>(s: seq<T>, k: int)
    requires 0 <= k < |s|
    ensures multiset(s[..k] + s[k+1..]) == multiset(s) - multiset{s[k]}
  {
    assert s == s[..k] + [s[k]] + s[k+1..];
    assert multiset(s) == multiset(s[..k]) + multiset{s[k]} + multiset(s[k+1..]);
  }

  /** Dropping the head removes one copy of it from the multiset. */
  lemma MultisetTail<T>(s: seq<T>)
    requires 0 < |s|
    ensures multiset(s[1..]) == multiset(s) - multiset{s[0]}
  {
    assert s == [s[0]] + s[1..];
  }

  /** Deleting row `k` deletes one copy of its value from the column. */
  lemma ColumnOfRemoveAt(rows: seq<Row>, k: int, column: Column)
    requires 0 <= k < |rows|
    ensures multiset(ColumnOf(rows[..k] + rows[k+1..], column))
         == multiset(ColumnOf(rows, column)) - multiset{Value(rows[k], column)}
  {
    var c := ColumnOf(rows, column);
    assert ColumnOf(rows[..k] + rows[k+1..], column) == c[..k] + c[k+1..];
    MultisetRemoveAt(c, k);
  }

  /** Putting back the copy of `v` that was taken out of `m`. */
  lemma MultisetPutBack<T>(m: multiset<T>, v: T)
    requires v in m
    ensures m == (m - multiset{v}) + multiset{v}
  {
  }

  /** Putting back the row taken from the front of `a` and from position `k` of `b`
      puts back the same value in both columns. */
  lemma ColumnOfPutBack(a: seq<Row>, b: seq<Row>, k: int, column: Column)
    requires |a| > 0 && 0 <= k < |b| && b[k] == a[0]
    requires multiset(ColumnOf(a[1..], column)) == multiset(ColumnOf(b[..k] + b[k+1..], column))
    ensures multiset(ColumnOf(a, column)) == multiset(ColumnOf(b, column))
  {
    var ca, cb := ColumnOf(a, column), ColumnOf(b, column);
    assert ColumnOf(a[1..], column) == ca[1..];
    MultisetTail(ca);
    ColumnOfRemoveAt(b, k, column);
    assert cb[k] == ca[0];
    MultisetPutBack(multiset(ca), ca[0]);
    MultisetPutBack(multiset(cb), ca[0]);
  }

  /** Re-ordering the rows re-orders each column the same way: a column of a
      permutation is a permutation of the column. */
  lemma {:induction false} ColumnOfPermutation(a: seq<Row>, b: seq<Row>, column: Column)
    requires multiset(a) == multiset(b)
    ensures multiset(ColumnOf(a, column)) == multiset(ColumnOf(b, column))
    decreases |a|
  {
    if |a| == 0 {
      assert |b| == |multiset(b)| == 0;
    } else {
      assert a[0] in multiset(b);
      var k :| 0 <= k < |b| && b[k] == a[0];
      assert multiset(a[1..]) == multiset(b[..k] + b[k+1..]) by {
        MultisetTail(a);
        MultisetRemoveAt(b, k);
      }
      ColumnOfPermutation(a[1..], b[..k] + b[k+1..], column);
      ColumnOfPutBack(a, b, k, column);
    }
  }

  /** Two non-increasing sequences with the same values start with the same value. */
  lemma DescendingPermutationsSameHead(xs: seq<real>, ys: seq<real>)
    requires Descending(xs) && Descending(ys)
    requires multiset(xs) == multiset(ys)
    requires |xs| > 0
    ensures |ys| > 0 && xs[0] == ys[0]
  {
    assert |ys| == |multiset(ys)| == |xs|;
    assert xs[0] <= ys[0] by {
      assert xs[0] in multiset(ys);
      var j :| 0 <= j < |ys| && ys[j] == xs[0];
      assert j == 0 || ys[j] <= ys[0];
    }
    assert ys[0] <= xs[0] by {
      assert ys[0] in multiset(xs);
      var i :| 0 <= i < |xs| && xs[i] == ys[0];
      assert i == 0 || xs[i] <= xs[0];
    }
  }

  /** Two non-increasing sequences holding the same values are the same sequence. */
  lemma {:induction false} DescendingPermutationsEqual(xs: seq<real>, ys: seq<real>)
    requires Descending(xs) && Descending(ys)
    requires multiset(xs) == multiset(ys)
    ensures xs == ys
    decreases |xs|
  {
    if |xs| == 0 {
      assert |ys| == |multiset(ys)| == 0;
    } else {
      DescendingPermutationsSameHead(xs, ys);
      MultisetTail(xs);
      MultisetTail(ys);
      DescendingPermutationsEqual(xs[1..], ys[1..]);
      assert xs == [xs[0]] + xs[1..];
      assert ys == [ys[0]] + ys[1..];
    }
  }
}
