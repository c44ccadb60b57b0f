/**
 * minimal_rec.py: every test-location row receives the first five vendor ids of
 * the vendor file, in file order, with target 1.  Nothing is scored or filtered.
 */
module Minimal {
  import opened Basics
  import opened Ranking
  import opened Submission

  /** A parsed row of the test-location relation: only the key columns are used. */
  datatype LocationRow = LocationRow(customerId: string, locationNumber: int)

  /** One recommendation: a location row and the vendor id paired with it. */
  datatype Pick = Pick(loc: LocationRow, vendorId: int)

  const TopN: nat := 5

  /** The vendor loop: `vendors.append(int(row['id']))`, so duplicate ids are kept. */
  method LoadVendors(ids: seq<int>) returns (vendors: seq<int>)
    ensures vendors == ids
  {
    vendors := [];
    for i := 0 to |ids|
      invariant vendors == ids[..i]
    {
      vendors := vendors + [ids[i]];
      assert ids[..i + 1] == ids[..i] + [ids[i]];
    }
    TakeAll(ids);
  }

  /** The picks of one location row: the vendor ids `ids`, in order. */
  function PicksFor(loc: LocationRow, ids: seq<int>): seq<Pick>
  {
    if ids == [] then [] else PicksFor(loc, ids[..|ids| - 1]) + [Pick(loc, ids[|ids| - 1])]
  }

  lemma {:induction false} PicksForLength(loc: LocationRow, ids: seq<int>)
    ensures |PicksFor(loc, ids)| == |ids|
  {
    if ids != [] {
      PicksForLength(loc, ids[..|ids| - 1]);
    }
  }

  lemma PicksForSnoc(loc: LocationRow, ids: seq<int>, v: int)
    ensures PicksFor(loc, ids + [v]) == PicksFor(loc, ids) + [Pick(loc, v)]
  {
    assert (ids + [v])[..|ids + [v]| - 1] == ids;
  }

  lemma {:induction false} PicksForAt(loc: LocationRow, ids: seq<int>, j: int)
    requires 0 <= j < |ids|
    ensures j < |PicksFor(loc, ids)| && PicksFor(loc, ids)[j] == Pick(loc, ids[j])
  {
    PicksForLength(loc, ids);
    if j < |ids| - 1 {
      PicksForAt(loc, ids[..|ids| - 1], j);
    }
  }

  /** The picks of the location loop over `locs`, each row paired with `vendors[:5]`. */
  function Picks(vendors: seq<int>, locs: seq<LocationRow>): seq<Pick>
  {
    if locs == [] then []
    else Picks(vendors, locs[..|locs| - 1]) + PicksFor(locs[|locs| - 1], Take(vendors, TopN))
  }

  /** Each location row contributes exactly min(5, |vendors|) picks. */
  lemma {:induction false} PicksLength(vendors: seq<int>, locs: seq<LocationRow>)
    ensures |Picks(vendors, locs)| == Min(TopN, |vendors|) * |locs|
  {
    if locs != [] {
      PicksLength(vendors, locs[..|locs| - 1]);
      PicksForLength(locs[|locs| - 1], Take(vendors, TopN));
      var k := Min(TopN, |vendors|);
      assert k * |locs| == k * (|locs| - 1) + k;
    }
  }

  /** The location loop over `a + b` is the loop over `a` followed by the loop over `b`. */
  lemma {:induction false} PicksAppend(vendors: seq<int>, a: seq<LocationRow>, b: seq<LocationRow>)
    ensures Picks(vendors, a + b) == Picks(vendors, a) + Picks(vendors, b)
  {
    if b == [] {
      assert a + b == a;
    } else {
      var q := b[..|b| - 1];
      var row := PicksFor(b[|b| - 1], Take(vendors, TopN));
      PicksAppend(vendors, a, q);
      assert (a + b)[..|a + b| - 1] == a + q;
      assert (a + b)[|a + b| - 1] == b[|b| - 1];
      AppendAssoc(Picks(vendors, a), Picks(vendors, q), row);
      calc {
        Picks(vendors, a + b);
        Picks(vendors, a + q) + row;
        (Picks(vendors, a) + Picks(vendors, q)) + row;
        Picks(vendors, a) + (Picks(vendors, q) + row);
        Picks(vendors, a) + Picks(vendors, b);
      }
    }
  }

  /** The picks of location row `i` sit between those of the rows before and after it. */
  lemma PicksSplit(vendors: seq<int>, locs: seq<LocationRow>, i: int)
    requires 0 <= i < |locs|
    ensures Picks(vendors, locs)
         == Picks(vendors, locs[..i]) + PicksFor(locs[i], Take(vendors, TopN)) + Picks(vendors, locs[i + 1..])
  {
    assert locs == locs[..i + 1] + locs[i + 1..];
    TakeSnoc(locs, i);
    PicksAppend(vendors, locs[..i + 1], locs[i + 1..]);
  }

  /**
   * Output order: location rows in file order, and within each the first five
   * vendor ids in file order: the picks of row `i` start right after those of the
   * rows before it, and the `j`-th of them is vendor `j`.
   */
  lemma PicksAt(vendors: seq<int>, locs: seq<LocationRow>, i: int, j: int)
    requires 0 <= i < |locs| && 0 <= j < Min(TopN, |vendors|)
    ensures var n := |Picks(vendors, locs[..i])| + j;
      n < |Picks(vendors, locs)| && Picks(vendors, locs)[n] == Pick(locs[i], vendors[j])
  {
    var top := Take(vendors, TopN);
    var front := Picks(vendors, locs[..i]);
    var row := PicksFor(locs[i], top);
    var back := Picks(vendors, locs[i + 1..]);
    PicksSplit(vendors, locs, i);
    PicksForLength(locs[i], top);
    PicksForAt(locs[i], top, j);
    assert j < |row|;
    IndexMiddle(front, row, back, j);
    assert top[j] == vendors[j];
  }

  /** The written row of a pick: `[f"{customer_id} X {location_num} X {vendor_id}", 1]`. */
  function Cell(p: Pick): OutputRow
  {
    OutputRow(FormatKey(p.loc.customerId, p.loc.locationNumber, p.vendorId), "1")
  }

  /** `[f(x) for x in xs]`. */
  function MapSeq<A, B>(f: A -> B, xs: seq<A>): seq<B>
  {
    if xs == [] then [] else MapSeq(f, xs[..|xs| - 1]) + [f(xs[|xs| - 1])]
  }

  lemma {:induction false} MapSeqLength<A, B>(f: A -> B, xs: seq<A>)
    ensures |MapSeq(f, xs)| == |xs|
  {
    if xs != [] {
      MapSeqLength(f, xs[..|xs| - 1]);
    }
  }

  lemma {:induction false} MapSeqAt<A, B>(f: A -> B, xs: seq<A>, n: int)
    requires 0 <= n < |xs|
    ensures n < |MapSeq(f, xs)| && MapSeq(f, xs)[n] == f(xs[n])
  {
    MapSeqLength(f, xs);
    if n < |xs| - 1 {
      MapSeqAt(f, xs[..|xs| - 1], n);
    }
  }

  lemma MapSeqSnoc<A, B>(f: A -> B, xs: seq<A>, x: A)
    ensures MapSeq(f, xs + [x]) == MapSeq(f, xs) + [f(x)]
  {
    assert (xs + [x])[..|xs + [x]| - 1] == xs;
  }

  lemma {:induction false} MapSeqAppend<A, B>(f: A -> B, a: seq<A>, b: seq<A>)
    ensures MapSeq(f, a + b) == MapSeq(f, a) + MapSeq(f, b)
  {
    if b == [] {
      assert a + b == a;
    } else {
      var q := b[..|b| - 1];
      MapSeqAppend(f, a, q);
      assert (a + b)[..|a + b| - 1] == a + q;
      assert (a + b)[|a + b| - 1] == b[|b| - 1];
    }
  }

  /** Mapping the picks of one more vendor id appends the image of one more pick. */
  lemma MapPicksForStep<B>(f: Pick -> B, loc: LocationRow, ids: seq<int>, j: int)
    requires 0 <= j < |ids|
    ensures MapSeq(f, PicksFor(loc, ids[..j + 1])) == MapSeq(f, PicksFor(loc, ids[..j])) + [f(Pick(loc, ids[j]))]
  {
    assert ids[..j + 1] == ids[..j] + [ids[j]];
    PicksForSnoc(loc, ids[..j], ids[j]);
    MapSeqSnoc(f, PicksFor(loc, ids[..j]), Pick(loc, ids[j]));
  }

  /** `recommendations` after the location loop over `locs`. */
  function Emission(vendors: seq<int>, locs: seq<LocationRow>): seq<OutputRow>
  {
    MapSeq(Cell, Picks(vendors, locs))
  }

  /** Each location row contributes exactly min(5, |vendors|) rows. */
  lemma EmissionLength(vendors: seq<int>, locs: seq<LocationRow>)
    ensures |Emission(vendors, locs)| == Min(TopN, |vendors|) * |locs|
  {
    PicksLength(vendors, locs);
    MapSeqLength(Cell, Picks(vendors, locs));
  }

  /**
   * Row `k * i + j` of the output, `k` being min(5, number of vendors), is the row
   * written for location row `i` and vendor `j` of the file.
   */
  lemma EmissionAt(vendors: seq<int>, locs: seq<LocationRow>, i: int, j: int)
    requires 0 <= i < |locs| && 0 <= j < Min(TopN, |vendors|)
    ensures |Emission(vendors, locs[..i])| == Min(TopN, |vendors|) * i
    ensures var e := Emission(vendors, locs); var n := |Emission(vendors, locs[..i])| + j;
      n < |e| && e[n] == Cell(Pick(locs[i], vendors[j]))
  {
    var ps := Picks(vendors, locs);
    var front := Picks(vendors, locs[..i]);
    EmissionLength(vendors, locs[..i]);
    MapSeqLength(Cell, front);
    assert |Emission(vendors, locs[..i])| == |front|;
    var n := |front| + j;
    PicksAt(vendors, locs, i, j);
    assert n < |ps| && ps[n] == Pick(locs[i], vendors[j]);
    MapSeqAt(Cell, ps, n);
    assert Emission(vendors, locs) == MapSeq(Cell, ps);
  }

  /** A written row has target 1 and a key that decodes back to customer, location number and vendor id. */
  lemma CellDecodes(p: Pick)
    ensures Cell(p).target == "1"
    ensures ParseKey(Cell(p).key) == Some((p.loc.customerId, p.loc.locationNumber, p.vendorId))
  {
    ParseFormatKey(p.loc.customerId, p.loc.locationNumber, p.vendorId);
  }

  /** The location loop, with `vendors[:5]` rescanned for every row. */
  method GenerateRecommendations(vendors: seq<int>, locs: seq<LocationRow>) returns (recs: seq<OutputRow>)
    ensures recs == Emission(vendors, locs)
  {
    recs := [];
    for i := 0 to |locs|
      invariant recs == MapSeq(Cell, Picks(vendors, locs[..i]))
    {
      ghost var before := Picks(vendors, locs[..i]);
      var top := Take(vendors, TopN);
      recs := EmitRow(recs, locs[i], top);
      MapSeqAppend(Cell, before, PicksFor(locs[i], top));
      TakeSnoc(locs, i);
      assert Picks(vendors, locs[..i + 1]) == before + PicksFor(locs[i], top);
    }
    TakeAll(locs);
  }

  /** The inner loop: one row per vendor id of `top`, appended in order. */
  method EmitRow(recs: seq<OutputRow>, loc: LocationRow, top: seq<int>) returns (out: seq<OutputRow>)
    ensures out == recs + MapSeq(Cell, PicksFor(loc, top))
  {
    out := recs;
    for j := 0 to |top|
      invariant out == recs + MapSeq(Cell, PicksFor(loc, top[..j]))
    {
      var identifier := FormatKey(loc.customerId, loc.locationNumber, top[j]);
      var row := OutputRow(identifier, "1");
      MapPicksForStep(Cell, loc, top, j);
      assert Cell(Pick(loc, top[j])) == row;
      AppendAssoc(recs, MapSeq(Cell, PicksFor(loc, top[..j])), [row]);
      out := out + [row];
    }
    TakeAll(top);
  }

  /**
   * The whole script.  The test-customer ids are read but never consulted, so no
   * location row is filtered out.
   */
  method Run(vendorRows: seq<int>, customerIds: seq<string>, locs: seq<LocationRow>) returns (file: seq<OutputRow>)
    ensures file == [Header] + Emission(vendorRows, locs)
    ensures |file| == 1 + Min(TopN, |vendorRows|) * |locs|
  {
    var vendors := LoadVendors(vendorRows);
    var recs := GenerateRecommendations(vendors, locs);
    EmissionLength(vendors, locs);
    file := [Header] + recs;
  }
}
