/** The unique-region filter (script.js lines 57-64 and 243-250): a `Set` of regions
    seen so far and an `Array.filter` that keeps a row only when its region is new.
    The filter runs on the array after the population sort, so the regions come out
    in order of first occurrence along the render order, not along the file. */
module RegionFilter {
  import opened Records

  /** Row `i` is the first row of its region: no earlier row shares it. */
  ghost predicate FirstOfRegion(rows: seq<Row>, i: int)
  {
    0 <= i < |rows| && forall j :: 0 <= j < i ==> rows[j].region != rows[i].region
  }

  /** The regions that occur in `rows`. */
  ghost function RegionsOf(rows: seq<Row>): set<string>
  {
    set row | row in rows :: row.region
  }

  /** Re-ordering the rows does not change which regions occur. */
  lemma RegionsOfPermutation(a: seq<Row>, b: seq<Row>)
    requires multiset(a) == multiset(b)
    ensures RegionsOf(a) == RegionsOf(b)
  {
    assert forall row :: row in a <==> row in multiset(a);
    assert forall row :: row in b <==> row in multiset(b);
  }

  /** After the filter has looked at `rows[..n]`: `kept` lists, in increasing order,
      exactly the positions below `n` that are first of their region; `regionNames`
      holds those rows and `uniques` their regions, which cover all of `rows[..n]`. */
  ghost predicate Scanned(rows: seq<Row>, n: int, regionNames: seq<Row>, uniques: seq<string>, kept: seq<nat>)
  {
    && 0 <= n <= |rows|
    && |kept| == |regionNames| == |uniques|
    && (forall k :: 0 <= k < |kept| ==>
          kept[k] < n && regionNames[k] == rows[kept[k]] && FirstOfRegion(rows, kept[k]))
    && (forall k, l :: 0 <= k < l < |kept| ==> kept[k] < kept[l])
    && (forall i :: 0 <= i < n && FirstOfRegion(rows, i) ==> i in kept)
    && (forall k :: 0 <= k < |uniques| ==> uniques[k] == regionNames[k].region)
    && (forall i :: 0 <= i < n ==> rows[i].region in uniques)
  }

  /** Scanning a row whose region is new keeps it. */
  lemma ScanNewRegion(rows: seq<Row>, n: int, regionNames: seq<Row>, uniques: seq<string>, kept: seq<nat>)
    requires Scanned(rows, n, regionNames, uniques, kept)
    requires n < |rows| && rows[n].region !in uniques
    ensures Scanned(rows, n + 1, regionNames + [rows[n]], uniques + [rows[n].region], kept + [n])
  {
    assert FirstOfRegion(rows, n);
  }

  /** Scanning a row whose region was seen before drops it. */
  lemma ScanSeenRegion(rows: seq<Row>, n: int, regionNames: seq<Row>, uniques: seq<string>, kept: seq<nat>)
    requires Scanned(rows, n, regionNames, uniques, kept)
    requires n < |rows| && rows[n].region in uniques
    ensures Scanned(rows, n + 1, regionNames, uniques, kept)
  {
    var k :| 0 <= k < |uniques| && uniques[k] == rows[n].region;
    assert kept[k] < n && rows[kept[k]].region == rows[n].region;
    assert !FirstOfRegion(rows, n);
  }

  /** Returns `regionNames` (the rows the filter keeps), `uniques` (the Set's contents in
      insertion order, which is the legend order) and `kept` (the positions of the kept
      rows). Exactly the first row of each region is kept, in order, and every region
      of `rows` appears in `uniques` exactly once. */
  method UniqueRegions(rows: seq<Row>) returns (regionNames: seq<Row>, uniques: seq<string>, kept: seq<nat>)
    ensures |kept| == |regionNames| == |uniques|
    ensures forall k :: 0 <= k < |kept| ==>
      kept[k] < |rows| && regionNames[k] == rows[kept[k]] && FirstOfRegion(rows, kept[k])
    ensures forall k, l :: 0 <= k < l < |kept| ==> kept[k] < kept[l]
    ensures forall i :: FirstOfRegion(rows, i) ==> i in kept
    ensures forall k :: 0 <= k < |uniques| ==> uniques[k] == regionNames[k].region
    ensures forall k, l :: 0 <= k < l < |uniques| ==> uniques[k] != uniques[l]
    ensures forall i :: 0 <= i < |rows| ==> rows[i].region in uniques
    ensures forall region :: region in uniques <==> region in RegionsOf(rows)
  {
    regionNames, uniques, kept := [], [], [];
    var n := 0;
    while n < |rows|
      invariant Scanned(rows, n, regionNames, uniques, kept)
    {
      var item := rows[n];
      if item.region !in uniques {
        ScanNewRegion(rows, n, regionNames, uniques, kept);
        regionNames := regionNames + [item];
        uniques := uniques + [item.region];
        kept := kept + [n];
      } else {
        ScanSeenRegion(rows, n, regionNames, uniques, kept);
      }
      n := n + 1;
    }
    forall k, l | 0 <= k < l < |uniques|
      ensures uniques[k] != uniques[l]
    {
      assert FirstOfRegion(rows, kept[l]);
    }
  }
}
