/**
 * simple_recommender.py: a script that loads the vendor map and the order sets,
 * cleanses the test locations, scores every vendor for every kept location, and
 * emits, per location row, those of the five best-scored vendors whose score
 * exceeds 3.
 */
module Simple {
  import opened Basics
  import opened OrderedDict
  import opened Ranking
  import opened Submission
  import opened OrderHistory

  // ---------------------------------------------------------------------------
  // Data model
  // ---------------------------------------------------------------------------

  /** A vendor record (`vendors[int(row['id'])]`). */
  datatype Vendor = Vendor(lat: real, lon: real, rating: real, deliveryCharge: real)

  /** A parsed vendor row; `None` where the rating or the charge is missing or empty. */
  datatype VendorRow = VendorRow(id: int, latitude: real, longitude: real,
                                 rating: Option<real>, deliveryCharge: Option<real>)

  /** A raw CSV cell that should hold a number: empty, not a number, or a number. */
  datatype Field<T> = Blank | Unparsable | Parsed(value: T)

  /** A raw row of the test-location relation, before cleansing. */
  datatype LocationRecord = LocationRecord(customerId: string, locationNumber: Field<int>,
                                           latitude: Field<real>, longitude: Field<real>)

  /** An entry of `test_data`: a location row that survived cleansing. */
  datatype TestLocation = TestLocation(customerId: string, locationNumber: int, lat: real, lon: real)

  // ---------------------------------------------------------------------------
  // Vendor map and order sets
  // ---------------------------------------------------------------------------

  /** The record stored for a row; an empty or missing rating or charge counts as 0. */
  function MakeVendor(row: VendorRow): (v: Vendor)
    ensures v.lat == row.latitude && v.lon == row.longitude
    ensures v.rating == (if row.rating.Some? then row.rating.value else 0.0)
    ensures v.deliveryCharge == (if row.deliveryCharge.Some? then row.deliveryCharge.value else 0.0)
  {
    Vendor(row.latitude, row.longitude, row.rating.GetOr(0.0), row.deliveryCharge.GetOr(0.0))
  }

  function VendorEntries(rows: seq<VendorRow>): seq<(int, Vendor)>
  {
    Entries(rows, (row: VendorRow) => row.id, MakeVendor)
  }

  /** The vendor loop: one assignment per row, into an initially empty dict. */
  method LoadVendors(rows: seq<VendorRow>) returns (vendors: Dict<int, Vendor>)
    ensures OrderedDict.Valid(vendors)
    ensures vendors == PutAll(Empty(), VendorEntries(rows))
    ensures forall id :: id in vendors.values <==> exists i :: 0 <= i < |rows| && rows[i].id == id
    ensures forall j :: 0 <= j < |rows| && (forall i :: j < i < |rows| ==> rows[i].id != rows[j].id) ==>
              rows[j].id in vendors.values && vendors.values[rows[j].id] == MakeVendor(rows[j])
  {
    ghost var entries := VendorEntries(rows);
    vendors := Empty();
    for i := 0 to |rows|
      invariant OrderedDict.Valid(vendors)
      invariant vendors == PutAll(Empty(), entries[..i])
    {
      vendors := Put(vendors, rows[i].id, MakeVendor(rows[i]));
      TakeSnoc(entries, i);
    }
    TakeAll(entries);
    forall id {
      LoadedDomain(rows, (row: VendorRow) => row.id, MakeVendor, id);
    }
    forall j | 0 <= j < |rows| && (forall i :: j < i < |rows| ==> rows[i].id != rows[j].id) {
      LoadedLastWins(rows, (row: VendorRow) => row.id, MakeVendor, j);
    }
  }

  /** The order loop: `customer_orders[row['customer_id']].add(int(row['vendor_id']))`. */
  method LoadOrders(rows: seq<OrderRow>) returns (orders: map<string, set<int>>)
    ensures orders == RecordOrders(map[], rows)
  {
    orders := map[];
    for i := 0 to |rows|
      invariant orders == RecordOrders(map[], rows[..i])
    {
      orders := AddOrder(orders, rows[i]);
      TakeSnoc(rows, i);
    }
    TakeAll(rows);
  }

  /** The set built from the order file holds `v` for `c` iff some order row is `(c, v)`. */
  lemma OrderSetExact(rows: seq<OrderRow>, c: string, v: int)
    ensures v in OrderedFrom(RecordOrders(map[], rows), c) <==> exists i :: 0 <= i < |rows| && rows[i] == OrderRow(c, v)
  {
    RecordOrdersMembership(map[], rows, c, v);
  }

  // ---------------------------------------------------------------------------
  // Location cleansing
  // ---------------------------------------------------------------------------

  /**
   * One row of the location loop: skipped unless its customer is a test customer,
   * skipped when a coordinate is empty, and skipped when a coordinate or the
   * location number does not parse (the caught `ValueError`).
   */
  function Clean(testCustomers: set<string>, row: LocationRecord): Option<TestLocation>
  {
    if row.customerId !in testCustomers then None
    else if row.latitude.Blank? || row.longitude.Blank? then None
    else if row.latitude.Parsed? && row.longitude.Parsed? && row.locationNumber.Parsed? then
      Some(TestLocation(row.customerId, row.locationNumber.value, row.latitude.value, row.longitude.value))
    else None
  }

  /** A row is kept iff all three checks pass, and then its parsed values are kept unchanged. */
  lemma CleanKeeps(testCustomers: set<string>, row: LocationRecord)
    ensures Clean(testCustomers, row).Some?
        <==> row.customerId in testCustomers && row.latitude.Parsed? && row.longitude.Parsed? && row.locationNumber.Parsed?
    ensures Clean(testCustomers, row).Some? ==>
      Clean(testCustomers, row).value
        == TestLocation(row.customerId, row.locationNumber.value, row.latitude.value, row.longitude.value)
  {
  }

  /** `test_data` after the location loop over `rows`. */
  function Cleansed(testCustomers: set<string>, rows: seq<LocationRecord>): seq<TestLocation>
  {
    if rows == [] then []
    else
      var kept := Clean(testCustomers, rows[|rows| - 1]);
      Cleansed(testCustomers, rows[..|rows| - 1]) + (if kept.Some? then [kept.value] else [])
  }

  /** Cleansing keeps exactly the rows that pass, with their parsed values. */
  lemma {:induction false} CleansedMembers(testCustomers: set<string>, rows: seq<LocationRecord>, t: TestLocation)
    ensures t in Cleansed(testCustomers, rows) <==> exists i :: 0 <= i < |rows| && Clean(testCustomers, rows[i]) == Some(t)
  {
    if rows != [] {
      var p := rows[..|rows| - 1];
      CleansedMembers(testCustomers, p, t);
      if exists i :: 0 <= i < |p| && Clean(testCustomers, p[i]) == Some(t) {
        var i :| 0 <= i < |p| && Clean(testCustomers, p[i]) == Some(t);
        assert rows[i] == p[i];
      }
      if exists i :: 0 <= i < |rows| && Clean(testCustomers, rows[i]) == Some(t) {
        var i :| 0 <= i < |rows| && Clean(testCustomers, rows[i]) == Some(t);
        if i < |p| {
          assert p[i] == rows[i];
        }
      }
    }
  }

  /** Cleansing keeps file order: it distributes over concatenation of the input. */
  lemma {:induction false} CleansedAppend(testCustomers: set<string>, a: seq<LocationRecord>, b: seq<LocationRecord>)
    ensures Cleansed(testCustomers, a + b) == Cleansed(testCustomers, a) + Cleansed(testCustomers, b)
  {
    if b == [] {
      assert a + b == a;
    } else {
      var p := b[..|b| - 1];
      var kept := Clean(testCustomers, b[|b| - 1]);
      var last := if kept.Some? then [kept.value] else [];
      CleansedAppend(testCustomers, a, p);
      assert (a + b)[..|a + b| - 1] == a + p;
      assert (a + b)[|a + b| - 1] == b[|b| - 1];
      AppendAssoc(Cleansed(testCustomers, a), Cleansed(testCustomers, p), last);
      calc {
        Cleansed(testCustomers, a + b);
        Cleansed(testCustomers, a + p) + last;
        (Cleansed(testCustomers, a) + Cleansed(testCustomers, p)) + last;
        Cleansed(testCustomers, a) + (Cleansed(testCustomers, p) + last);
        Cleansed(testCustomers, a) + Cleansed(testCustomers, b);
      }
    }
  }

  /** The model of the location loop; `customerIds` are the rows of the test-customer file. */
  method CleanseLocations(customerIds: seq<string>, rows: seq<LocationRecord>) returns (testData: seq<TestLocation>)
    ensures testData == Cleansed((set c | c in customerIds), rows)
  {
    var testCustomers := set c | c in customerIds;
    testData := [];
    for i := 0 to |rows|
      invariant testData == Cleansed(testCustomers, rows[..i])
    {
      var row := rows[i];
      TakeSnoc(rows, i);
      if row.customerId in testCustomers {
        if row.latitude.Blank? || row.longitude.Blank? {
          // an empty coordinate: skipped
        } else if row.latitude.Parsed? && row.longitude.Parsed? && row.locationNumber.Parsed? {
          testData := testData + [TestLocation(row.customerId, row.locationNumber.value,
                                               row.latitude.value, row.longitude.value)];
        }
      }
    }
    TakeAll(rows);
  }

  // ---------------------------------------------------------------------------
  // Scoring
  // ---------------------------------------------------------------------------

  /** Banded distance points with strict upper bounds 1, 5 and 10 km. */
  function DistancePoints(d: real): real
  {
    if d < 1.0 then 10.0 else if d < 5.0 then 5.0 else if d < 10.0 then 2.0 else 0.0
  }

  lemma DistanceBands(d: real)
    ensures DistancePoints(d) == 10.0 <==> d < 1.0
    ensures DistancePoints(d) == 5.0 <==> 1.0 <= d < 5.0
    ensures DistancePoints(d) == 2.0 <==> 5.0 <= d < 10.0
    ensures DistancePoints(d) == 0.0 <==> 10.0 <= d
  {
  }

  lemma DistancePointsMonotone(d1: real, d2: real)
    requires d1 <= d2
    ensures DistancePoints(d2) <= DistancePoints(d1)
  {
  }

  /** Free delivery earns 3, a charge below 1 earns 1. */
  function DeliveryPoints(charge: real): real
  {
    if charge == 0.0 then 3.0 else if charge < 1.0 then 1.0 else 0.0
  }

  lemma DeliveryBands(charge: real)
    ensures DeliveryPoints(charge) == 3.0 <==> charge == 0.0
    ensures DeliveryPoints(charge) == 1.0 <==> charge != 0.0 && charge < 1.0
    ensures DeliveryPoints(charge) == 0.0 <==> 1.0 <= charge
  {
  }

  /** The score of a vendor at distance `d`; `ordered` is the customer's prior order from it. */
  function VendorScore(v: Vendor, d: real, ordered: bool): real
  {
    DistancePoints(d) + v.rating + DeliveryPoints(v.deliveryCharge) + (if ordered then 15.0 else 0.0)
  }

  /**
   * The rating is added one to one, a prior order adds exactly 15, and nothing is
   * clamped: the score lies between the rating and the rating plus 28.
   */
  lemma ScoreTerms(v: Vendor, d: real, ordered: bool, r: real)
    ensures VendorScore(v.(rating := r), d, ordered) == VendorScore(v, d, ordered) + (r - v.rating)
    ensures VendorScore(v, d, true) == VendorScore(v, d, false) + 15.0
    ensures v.rating <= VendorScore(v, d, ordered) <= v.rating + 28.0
  {
  }

  /** The score of catalogue vendor `id` for a location. */
  function ScoreOf(vendors: map<int, Vendor>, orders: map<string, set<int>>, loc: TestLocation, id: int, geo: Distance): real
    requires id in vendors
  {
    var v := vendors[id];
    VendorScore(v, geo(loc.lat, loc.lon, v.lat, v.lon), id in OrderedFrom(orders, loc.customerId))
  }

  /** `vendor_scores` before sorting: one entry per vendor id of `ids`, in order. */
  function Scores(vendors: map<int, Vendor>, orders: map<string, set<int>>, loc: TestLocation, ids: seq<int>, geo: Distance): (r: seq<Scored>)
    requires forall j :: 0 <= j < |ids| ==> ids[j] in vendors
    ensures |r| == |ids|
  {
    if ids == [] then []
    else
      var id := ids[|ids| - 1];
      Scores(vendors, orders, loc, ids[..|ids| - 1], geo) + [Scored(id, ScoreOf(vendors, orders, loc, id, geo))]
  }

  /** Scoring one more vendor id appends its entry. */
  lemma ScoresStep(vendors: map<int, Vendor>, orders: map<string, set<int>>, loc: TestLocation, ids: seq<int>, geo: Distance, j: int)
    requires forall k :: 0 <= k < |ids| ==> ids[k] in vendors
    requires 0 <= j < |ids|
    ensures Scores(vendors, orders, loc, ids[..j + 1], geo)
         == Scores(vendors, orders, loc, ids[..j], geo) + [Scored(ids[j], ScoreOf(vendors, orders, loc, ids[j], geo))]
  {
    TakeSnoc(ids, j);
  }

  /** Entry `j` is vendor `ids[j]` with its score: every vendor gets an entry, none is filtered. */
  lemma {:induction false} ScoresAt(vendors: map<int, Vendor>, orders: map<string, set<int>>, loc: TestLocation, ids: seq<int>, geo: Distance, j: int)
    requires forall k :: 0 <= k < |ids| ==> ids[k] in vendors
    requires 0 <= j < |ids|
    ensures Scores(vendors, orders, loc, ids, geo)[j] == Scored(ids[j], ScoreOf(vendors, orders, loc, ids[j], geo))
  {
    if j < |ids| - 1 {
      ScoresAt(vendors, orders, loc, ids[..|ids| - 1], geo, j);
    }
  }

  // ---------------------------------------------------------------------------
  // Selection
  // ---------------------------------------------------------------------------

  const TopN: nat := 5
  const Threshold: real := 3.0

  /** The entries of `xs` scoring strictly more than `m`, in order. */
  function Above(xs: seq<Scored>, m: real): (r: seq<Scored>)
    ensures |r| <= |xs|
  {
    if xs == [] then []
    else (if xs[0].score > m then [xs[0]] else []) + Above(xs[1..], m)
  }

  /** `for vendor_id, score, dist in vendor_scores[:5]: if score > 3: ...` on the sorted list. */
  function RowSelection(scores: seq<Scored>): seq<Scored>
  {
    Above(Take(SortByScoreDesc(scores), TopN), Threshold)
  }

  /** The rows one kept location appends. */
  function RowRecommendations(vendors: Dict<int, Vendor>, orders: map<string, set<int>>, loc: TestLocation, geo: Distance): seq<Recommendation>
    requires OrderedDict.Valid(vendors)
  {
    RecsFor(loc.customerId, loc.locationNumber, RowSelection(Scores(vendors.values, orders, loc, vendors.keys, geo)))
  }

  /** `recommendations` after the loop over `locs`. */
  function Recommendations(vendors: Dict<int, Vendor>, orders: map<string, set<int>>, locs: seq<TestLocation>, geo: Distance): seq<Recommendation>
    requires OrderedDict.Valid(vendors)
  {
    if locs == [] then []
    else Recommendations(vendors, orders, locs[..|locs| - 1], geo) + RowRecommendations(vendors, orders, locs[|locs| - 1], geo)
  }

  lemma {:induction false} AboveMembers(xs: seq<Scored>, m: real, x: Scored)
    ensures x in Above(xs, m) <==> x in xs && x.score > m
  {
    if xs != [] {
      AboveMembers(xs[1..], m, x);
      assert xs == [xs[0]] + xs[1..];
    }
  }

  lemma {:induction false} AboveSnoc(xs: seq<Scored>, x: Scored, m: real)
    ensures Above(xs + [x], m) == Above(xs, m) + (if x.score > m then [x] else [])
  {
    if xs == [] {
      assert [x][1..] == [];
    } else {
      var head := if xs[0].score > m then [xs[0]] else [];
      var tail := if x.score > m then [x] else [];
      AboveSnoc(xs[1..], x, m);
      assert (xs + [x])[0] == xs[0] && (xs + [x])[1..] == xs[1..] + [x];
      AppendAssoc(head, Above(xs[1..], m), tail);
      calc {
        Above(xs + [x], m);
        head + Above(xs[1..] + [x], m);
        head + (Above(xs[1..], m) + tail);
        (head + Above(xs[1..], m)) + tail;
        Above(xs, m) + tail;
      }
    }
  }

  lemma {:induction false} AboveSorted(xs: seq<Scored>, m: real)
    requires SortedDesc(xs)
    ensures SortedDesc(Above(xs, m))
  {
    if xs != [] {
      AboveSorted(xs[1..], m);
      var r := Above(xs[1..], m);
      forall j | 0 <= j < |r| ensures xs[0].score >= r[j].score {
        AboveMembers(xs[1..], m, r[j]);
      }
    }
  }

  lemma {:induction false} AboveNone(xs: seq<Scored>, m: real)
    requires forall j :: 0 <= j < |xs| ==> xs[j].score <= m
    ensures Above(xs, m) == []
  {
    if xs != [] {
      AboveNone(xs[1..], m);
    }
  }

  /** On a list sorted by score, the entries above `m` form a prefix, so truncating and filtering commute. */
  lemma {:induction false} AboveTake(xs: seq<Scored>, n: nat, m: real)
    requires SortedDesc(xs)
    ensures Above(Take(xs, n), m) == Take(Above(xs, m), n)
  {
    if xs == [] || n == 0 {
    } else if xs[0].score > m {
      AboveTake(xs[1..], n - 1, m);
      assert Take(xs, n) == [xs[0]] + Take(xs[1..], n - 1);
      assert Above(xs, m) == [xs[0]] + Above(xs[1..], m);
      TakeCons(xs[0], Above(xs[1..], m), n);
    } else {
      AboveNone(xs, m);
      AboveNone(Take(xs, n), m);
    }
  }

  /** Inserting one entry adds one entry above `m` exactly when it scores above `m`. */
  lemma {:induction false} AboveInsert(x: Scored, s: seq<Scored>, m: real)
    ensures |Above(Insert(x, s), m)| == |Above(s, m)| + (if x.score > m then 1 else 0)
  {
    if s != [] && s[0].score > x.score {
      AboveInsert(x, s[1..], m);
      var r := [s[0]] + Insert(x, s[1..]);
      assert r[0] == s[0] && r[1..] == Insert(x, s[1..]);
    } else {
      var r := [x] + s;
      assert r[0] == x && r[1..] == s;
    }
  }

  /** Sorting does not change how many entries score above `m`. */
  lemma {:induction false} AboveSortCount(s: seq<Scored>, m: real)
    ensures |Above(SortByScoreDesc(s), m)| == |Above(s, m)|
  {
    if s != [] {
      AboveSortCount(s[1..], m);
      AboveInsert(s[0], SortByScoreDesc(s[1..]), m);
    }
  }

  /**
   * A location row emits the first five, in descending score order with file order
   * among ties, of the entries scoring above 3: that is min(5, their number) entries,
   * each one of the input entries.
   */
  lemma RowSelectionSpec(scores: seq<Scored>)
    ensures RowSelection(scores) == Take(Above(SortByScoreDesc(scores), Threshold), TopN)
    ensures |RowSelection(scores)| == Min(TopN, |Above(scores, Threshold)|)
    ensures SortedDesc(RowSelection(scores))
    ensures forall x :: x in RowSelection(scores) ==> x in scores && x.score > Threshold
  {
    var sorted := SortByScoreDesc(scores);
    SortSorted(scores);
    SortPermutes(scores);
    AboveTake(sorted, TopN, Threshold);
    AboveSortCount(scores, Threshold);
    AboveSorted(sorted, Threshold);
    TakeSorted(Above(sorted, Threshold), TopN);
    forall x | x in RowSelection(scores) ensures x in scores && x.score > Threshold {
      AboveMembers(sorted, Threshold, x);
      assert x in multiset(sorted);
    }
  }

  /**
   * Only the top five are considered: an entry above 3 that is not emitted was
   * crowded out by five emitted entries scoring at least as much.
   */
  lemma RowSelectionCrowdedOut(scores: seq<Scored>, x: Scored)
    requires x in scores && x.score > Threshold && x !in RowSelection(scores)
    ensures |RowSelection(scores)| == TopN
    ensures forall y :: y in RowSelection(scores) ==> y.score >= x.score
  {
    var sorted := SortByScoreDesc(scores);
    var above := Above(sorted, Threshold);
    RowSelectionSpec(scores);
    SortPermutes(scores);
    assert x in multiset(scores);
    AboveMembers(sorted, Threshold, x);
    var k :| 0 <= k < |above| && above[k] == x;
    assert k >= TopN;
    SortSorted(scores);
    AboveSorted(sorted, Threshold);
    forall y | y in RowSelection(scores) ensures y.score >= x.score {
      var i :| 0 <= i < |RowSelection(scores)| && RowSelection(scores)[i] == y;
      assert y == above[i];
    }
  }

  /** The scores entry list of a row holds each catalogue vendor with its score. */
  lemma ScoresMember(vendors: Dict<int, Vendor>, orders: map<string, set<int>>, loc: TestLocation, geo: Distance, x: Scored)
    requires OrderedDict.Valid(vendors)
    requires x in Scores(vendors.values, orders, loc, vendors.keys, geo)
    ensures x.vendorId in vendors.values
    ensures x.score == ScoreOf(vendors.values, orders, loc, x.vendorId, geo)
  {
    var s := Scores(vendors.values, orders, loc, vendors.keys, geo);
    var j :| 0 <= j < |s| && s[j] == x;
    ScoresAt(vendors.values, orders, loc, vendors.keys, geo, j);
  }

  /** Row `i` of a location row's output is entry `i` of its selection, under the row's key. */
  lemma RowRecommendationAt(vendors: Dict<int, Vendor>, orders: map<string, set<int>>, loc: TestLocation, geo: Distance, i: int)
    requires OrderedDict.Valid(vendors)
    requires 0 <= i < |RowRecommendations(vendors, orders, loc, geo)|
    ensures var sel := RowSelection(Scores(vendors.values, orders, loc, vendors.keys, geo));
      && i < |sel|
      && RowRecommendations(vendors, orders, loc, geo)[i]
         == Recommendation(loc.customerId, loc.locationNumber, sel[i].vendorId, sel[i].score)
  {
    var sel := RowSelection(Scores(vendors.values, orders, loc, vendors.keys, geo));
    RecsForAt(loc.customerId, loc.locationNumber, sel, i);
  }

  /** One emitted row: its key, a catalogue vendor, that vendor's score, above 3. */
  lemma RowRecommendationQualifies(vendors: Dict<int, Vendor>, orders: map<string, set<int>>, loc: TestLocation, geo: Distance, i: int)
    requires OrderedDict.Valid(vendors)
    requires 0 <= i < |RowRecommendations(vendors, orders, loc, geo)|
    ensures var r := RowRecommendations(vendors, orders, loc, geo)[i];
      && r.customerId == loc.customerId && r.locationNumber == loc.locationNumber
      && r.vendorId in vendors.values
      && r.score == ScoreOf(vendors.values, orders, loc, r.vendorId, geo)
      && r.score > Threshold
  {
    var scores := Scores(vendors.values, orders, loc, vendors.keys, geo);
    var sel := RowSelection(scores);
    RowRecommendationAt(vendors, orders, loc, geo, i);
    RowSelectionSpec(scores);
    assert sel[i] in sel;
    ScoresMember(vendors, orders, loc, geo, sel[i]);
  }

  /**
   * Each kept location row yields at most five rows, all for its own key, each a
   * catalogue vendor with its score, which is above 3, in descending score order.
   */
  lemma RowRowsQualify(vendors: Dict<int, Vendor>, orders: map<string, set<int>>, loc: TestLocation, geo: Distance)
    requires OrderedDict.Valid(vendors)
    ensures var out := RowRecommendations(vendors, orders, loc, geo);
      && |out| <= TopN
      && (forall i, j :: 0 <= i < j < |out| ==> out[i].score >= out[j].score)
      && forall i :: 0 <= i < |out| ==>
           && out[i].customerId == loc.customerId && out[i].locationNumber == loc.locationNumber
           && out[i].vendorId in vendors.values
           && out[i].score == ScoreOf(vendors.values, orders, loc, out[i].vendorId, geo)
           && out[i].score > Threshold
  {
    var scores := Scores(vendors.values, orders, loc, vendors.keys, geo);
    var out := RowRecommendations(vendors, orders, loc, geo);
    RowSelectionSpec(scores);
    assert |out| == |RowSelection(scores)|;
    forall i, j | 0 <= i < j < |out| ensures out[i].score >= out[j].score {
      RowRecommendationAt(vendors, orders, loc, geo, i);
      RowRecommendationAt(vendors, orders, loc, geo, j);
    }
    forall i | 0 <= i < |out|
      ensures && out[i].customerId == loc.customerId && out[i].locationNumber == loc.locationNumber
              && out[i].vendorId in vendors.values
              && out[i].score == ScoreOf(vendors.values, orders, loc, out[i].vendorId, geo)
              && out[i].score > Threshold
    {
      RowRecommendationQualifies(vendors, orders, loc, geo, i);
    }
  }

  /** The output is the concatenation of the rows' selections, in location-row order. */
  lemma {:induction false} RecommendationsAppend(vendors: Dict<int, Vendor>, orders: map<string, set<int>>, a: seq<TestLocation>, b: seq<TestLocation>, geo: Distance)
    requires OrderedDict.Valid(vendors)
    ensures Recommendations(vendors, orders, a + b, geo)
         == Recommendations(vendors, orders, a, geo) + Recommendations(vendors, orders, b, geo)
  {
    if b == [] {
      assert a + b == a;
    } else {
      var p := b[..|b| - 1];
      var row := RowRecommendations(vendors, orders, b[|b| - 1], geo);
      RecommendationsAppend(vendors, orders, a, p, geo);
      assert (a + b)[..|a + b| - 1] == a + p;
      assert (a + b)[|a + b| - 1] == b[|b| - 1];
      AppendAssoc(Recommendations(vendors, orders, a, geo), Recommendations(vendors, orders, p, geo), row);
      calc {
        Recommendations(vendors, orders, a + b, geo);
        Recommendations(vendors, orders, a + p, geo) + row;
        (Recommendations(vendors, orders, a, geo) + Recommendations(vendors, orders, p, geo)) + row;
        Recommendations(vendors, orders, a, geo) + (Recommendations(vendors, orders, p, geo) + row);
        Recommendations(vendors, orders, a, geo) + Recommendations(vendors, orders, b, geo);
      }
    }
  }

  /** The cap is per row: at most five rows per kept location row over the run. */
  lemma {:induction false} RowCap(vendors: Dict<int, Vendor>, orders: map<string, set<int>>, locs: seq<TestLocation>, geo: Distance)
    requires OrderedDict.Valid(vendors)
    ensures |Recommendations(vendors, orders, locs, geo)| <= TopN * |locs|
  {
    if locs != [] {
      RowCap(vendors, orders, locs[..|locs| - 1], geo);
      RowRowsQualify(vendors, orders, locs[|locs| - 1], geo);
    }
  }

  /** The cap is not per key: a location row listed twice emits its selection twice. */
  lemma RepeatedRow(vendors: Dict<int, Vendor>, orders: map<string, set<int>>, loc: TestLocation, geo: Distance)
    requires OrderedDict.Valid(vendors)
    ensures Recommendations(vendors, orders, [loc, loc], geo)
         == RowRecommendations(vendors, orders, loc, geo) + RowRecommendations(vendors, orders, loc, geo)
  {
    assert [loc, loc][..1] == [loc];
    assert Recommendations(vendors, orders, [loc], geo) == RowRecommendations(vendors, orders, loc, geo) by {
      assert [loc][..0] == [];
    }
  }

  // ---------------------------------------------------------------------------
  // The script
  // ---------------------------------------------------------------------------

  /** The recommendation loop: score every vendor, sort, and emit from the top five. */
  method GenerateRecommendations(vendors: Dict<int, Vendor>, orders: map<string, set<int>>, testData: seq<TestLocation>, geo: Distance)
    returns (recs: seq<Recommendation>)
    requires OrderedDict.Valid(vendors)
    ensures recs == Recommendations(vendors, orders, testData, geo)
  {
    recs := [];
    for i := 0 to |testData|
      invariant recs == Recommendations(vendors, orders, testData[..i], geo)
    {
      var loc := testData[i];
      var vendorScores := ScoreVendors(vendors, orders, loc, geo);
      vendorScores := SortByScoreDesc(vendorScores);
      recs := EmitTop(recs, loc, Take(vendorScores, TopN));
      TakeSnoc(testData, i);
    }
    TakeAll(testData);
  }

  /** The scoring loop over `vendors.items()`, one score per vendor in insertion order. */
  method ScoreVendors(vendors: Dict<int, Vendor>, orders: map<string, set<int>>, loc: TestLocation, geo: Distance)
    returns (vendorScores: seq<Scored>)
    requires OrderedDict.Valid(vendors)
    ensures vendorScores == Scores(vendors.values, orders, loc, vendors.keys, geo)
  {
    vendorScores := [];
    for j := 0 to |vendors.keys|
      invariant vendorScores == Scores(vendors.values, orders, loc, vendors.keys[..j], geo)
    {
      var vendorId := vendors.keys[j];
      var v := vendors.values[vendorId];
      var dist := geo(loc.lat, loc.lon, v.lat, v.lon);
      var score := ScoreVendor(v, dist, vendorId in OrderedFrom(orders, loc.customerId));
      assert score == ScoreOf(vendors.values, orders, loc, vendorId, geo);
      ScoresStep(vendors.values, orders, loc, vendors.keys, geo, j);
      vendorScores := vendorScores + [Scored(vendorId, score)];
    }
    TakeAll(vendors.keys);
  }

  /** The body of the scoring loop: the score built term by term. */
  method ScoreVendor(v: Vendor, dist: real, ordered: bool) returns (score: real)
    ensures score == VendorScore(v, dist, ordered)
  {
    score := 0.0;
    if dist < 1.0 {
      score := score + 10.0;
    } else if dist < 5.0 {
      score := score + 5.0;
    } else if dist < 10.0 {
      score := score + 2.0;
    }
    score := score + v.rating;
    if v.deliveryCharge == 0.0 {
      score := score + 3.0;
    } else if v.deliveryCharge < 1.0 {
      score := score + 1.0;
    }
    if ordered {
      score := score + 15.0;
    }
  }

  /** The emission loop over `vendor_scores[:5]`: append each entry scoring above 3. */
  method EmitTop(recs: seq<Recommendation>, loc: TestLocation, top: seq<Scored>) returns (out: seq<Recommendation>)
    ensures out == recs + RecsFor(loc.customerId, loc.locationNumber, Above(top, Threshold))
  {
    out := recs;
    for j := 0 to |top|
      invariant out == recs + RecsFor(loc.customerId, loc.locationNumber, Above(top[..j], Threshold))
    {
      var x := top[j];
      assert top[..j + 1] == top[..j] + [x];
      AboveSnoc(top[..j], x, Threshold);
      if x.score > Threshold {
        var r := Recommendation(loc.customerId, loc.locationNumber, x.vendorId, x.score);
        RecsForAppend(loc.customerId, loc.locationNumber, Above(top[..j], Threshold), [x]);
        assert RecsFor(loc.customerId, loc.locationNumber, [x]) == [r];
        out := out + [r];
      } else {
        assert Above(top[..j + 1], Threshold) == Above(top[..j], Threshold);
      }
    }
    TakeAll(top);
  }

  /** The recommendations the whole script produces from its four input files. */
  function Pipeline(vendorRows: seq<VendorRow>, orderRows: seq<OrderRow>, customerIds: seq<string>,
                    locationRows: seq<LocationRecord>, geo: Distance): seq<Recommendation>
  {
    Recommendations(PutAll(Empty(), VendorEntries(vendorRows)), RecordOrders(map[], orderRows),
                    Cleansed((set c | c in customerIds), locationRows), geo)
  }

  /** The whole script: load, cleanse, recommend and write the submission rows. */
  method Run(vendorRows: seq<VendorRow>, orderRows: seq<OrderRow>, customerIds: seq<string>,
             locationRows: seq<LocationRecord>, geo: Distance) returns (file: seq<OutputRow>)
    ensures var recs := Pipeline(vendorRows, orderRows, customerIds, locationRows, geo);
      |file| == |recs| + 1 && file[0] == Header
      && forall i :: 0 <= i < |recs| ==> file[i + 1] == ToRow(recs[i])
  {
    var vendors := LoadVendors(vendorRows);
    var orders := LoadOrders(orderRows);
    var testData := CleanseLocations(customerIds, locationRows);
    var recs := GenerateRecommendations(vendors, orders, testData, geo);
    file := SaveSubmission(recs);
  }
}
