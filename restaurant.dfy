/**
 * restaurant_recommender.py: the vendor catalogue, the preference index, the
 * heuristic score of a vendor for a customer at a location, and the selection of
 * at most ten vendors per (customer, location number).
 */
module Restaurant {
  import opened Basics
  import opened OrderedDict
  import opened Ranking
  import opened Submission
  import opened OrderHistory

  // ---------------------------------------------------------------------------
  // Data model
  // ---------------------------------------------------------------------------

  /** A catalogue record (`self.vendors[vendor_id]`). Closed means `isOpen == 0`. */
  datatype Vendor = Vendor(lat: real, lon: real, category: string, rating: real,
                           deliveryCharge: real, servingDistance: real, isOpen: int,
                           discount: real)

  /** A parsed row of the vendor relation; `None` where an optional column is missing or empty. */
  datatype VendorRow = VendorRow(id: int, latitude: real, longitude: real, category: string,
                                 rating: Option<real>, deliveryCharge: Option<real>,
                                 servingDistance: Option<real>, isOpen: Option<int>,
                                 discount: Option<real>)

  /** A parsed row of the test-location relation. */
  datatype LocationRow = LocationRow(customerId: string, locationNumber: int, lat: real, lon: real)

  /** Per-customer category counts (`defaultdict(Counter)`). */
  type Preferences = map<string, map<string, nat>>

  /** Everything `load_data` builds: catalogue, ordered-vendor sets and category counts. */
  datatype TrainingData = TrainingData(vendors: Dict<int, Vendor>,
                                       customerOrders: map<string, set<int>>,
                                       customerPreferences: Preferences)

  // ---------------------------------------------------------------------------
  // Vendor catalogue
  // ---------------------------------------------------------------------------

  /** The record stored for a row: missing or empty optional fields take their defaults. */
  function MakeVendor(row: VendorRow): (v: Vendor)
    ensures v.lat == row.latitude && v.lon == row.longitude && v.category == row.category
    ensures v.rating == (if row.rating.Some? then row.rating.value else 0.0)
    ensures v.deliveryCharge == (if row.deliveryCharge.Some? then row.deliveryCharge.value else 0.0)
    ensures v.servingDistance == (if row.servingDistance.Some? then row.servingDistance.value else 10.0)
    ensures v.isOpen == (if row.isOpen.Some? then row.isOpen.value else 1)
    ensures v.discount == (if row.discount.Some? then row.discount.value else 0.0)
  {
    Vendor(row.latitude, row.longitude, row.category, row.rating.GetOr(0.0),
           row.deliveryCharge.GetOr(0.0), row.servingDistance.GetOr(10.0),
           row.isOpen.GetOr(1), row.discount.GetOr(0.0))
  }

  /** The assignments `self.vendors[int(row['id'])] = {...}`, one per row, in file order. */
  function VendorEntries(rows: seq<VendorRow>): seq<(int, Vendor)>
  {
    Entries(rows, (row: VendorRow) => row.id, MakeVendor)
  }

  /** A fresh catalogue holds an id iff some vendor row carries it. */
  lemma CatalogueDomain(rows: seq<VendorRow>, id: int)
    ensures id in PutAll(Empty(), VendorEntries(rows)).values
            <==> exists i :: 0 <= i < |rows| && rows[i].id == id
  {
    LoadedDomain(rows, (row: VendorRow) => row.id, MakeVendor, id);
  }

  /** In a fresh catalogue an id holds the record built from its last row. */
  lemma CatalogueLastWins(rows: seq<VendorRow>, j: int)
    requires 0 <= j < |rows|
    requires forall i :: j < i < |rows| ==> rows[i].id != rows[j].id
    ensures var catalogue := PutAll(Empty(), VendorEntries(rows)).values;
            rows[j].id in catalogue && catalogue[rows[j].id] == MakeVendor(rows[j])
  {
    LoadedLastWins(rows, (row: VendorRow) => row.id, MakeVendor, j);
  }

  // ---------------------------------------------------------------------------
  // Preference index
  // ---------------------------------------------------------------------------

  /** `self.customer_preferences[c].get(cat, 0)` when `c` has an entry, else 0. */
  function CategoryCount(prefs: Preferences, c: string, cat: string): nat
  {
    if c in prefs then (if cat in prefs[c] then prefs[c][cat] else 0) else 0
  }

  /** Category accounting for one order: only a vendor in the catalogue has a category. */
  function AddPreference(prefs: Preferences, vendors: map<int, Vendor>, o: OrderRow): Preferences
  {
    if o.vendorId in vendors then
      var cat := vendors[o.vendorId].category;
      var counter := if o.customerId in prefs then prefs[o.customerId] else map[];
      prefs[o.customerId := counter[cat := (if cat in counter then counter[cat] else 0) + 1]]
    else prefs
  }

  function RecordPreferences(prefs: Preferences, vendors: map<int, Vendor>, rows: seq<OrderRow>): Preferences
  {
    if rows == [] then prefs
    else AddPreference(RecordPreferences(prefs, vendors, rows[..|rows| - 1]), vendors, rows[|rows| - 1])
  }

  /** Reference count: the orders of `c` from a catalogue vendor whose category is `cat`. */
  function OrdersInCategory(rows: seq<OrderRow>, vendors: map<int, Vendor>, c: string, cat: string): nat
  {
    if rows == [] then 0
    else
      var o := rows[|rows| - 1];
      OrdersInCategory(rows[..|rows| - 1], vendors, c, cat)
        + (if o.customerId == c && o.vendorId in vendors && vendors[o.vendorId].category == cat then 1 else 0)
  }

  /** The category count grows by exactly the number of matching orders. */
  lemma {:induction false} PreferencesCount(prefs: Preferences, vendors: map<int, Vendor>, rows: seq<OrderRow>, c: string, cat: string)
    ensures CategoryCount(RecordPreferences(prefs, vendors, rows), c, cat)
         == CategoryCount(prefs, c, cat) + OrdersInCategory(rows, vendors, c, cat)
  {
    if rows != [] {
      PreferencesCount(prefs, vendors, rows[..|rows| - 1], c, cat);
    }
  }

  /** A customer has a counter iff it had one or ordered from some catalogue vendor. */
  lemma {:induction false} PreferencesCustomers(prefs: Preferences, vendors: map<int, Vendor>, rows: seq<OrderRow>, c: string)
    ensures c in RecordPreferences(prefs, vendors, rows)
        <==> c in prefs || exists i :: 0 <= i < |rows| && rows[i].customerId == c && rows[i].vendorId in vendors
  {
    if rows != [] {
      var p := rows[..|rows| - 1];
      PreferencesCustomers(prefs, vendors, p, c);
      if exists i :: 0 <= i < |p| && p[i].customerId == c && p[i].vendorId in vendors {
        var i :| 0 <= i < |p| && p[i].customerId == c && p[i].vendorId in vendors;
        assert rows[i] == p[i];
      }
      if exists i :: 0 <= i < |rows| && rows[i].customerId == c && rows[i].vendorId in vendors {
        var i :| 0 <= i < |rows| && rows[i].customerId == c && rows[i].vendorId in vendors;
        if i < |p| {
          assert p[i] == rows[i];
        }
      }
    }
  }

  /** An order naming a vendor outside the catalogue changes membership but no count. */
  lemma UnknownVendorOnlyMembership(orders: map<string, set<int>>, prefs: Preferences, vendors: map<int, Vendor>, o: OrderRow)
    requires o.vendorId !in vendors
    ensures AddPreference(prefs, vendors, o) == prefs
    ensures o.vendorId in OrderedFrom(AddOrder(orders, o), o.customerId)
  {
  }

  // ---------------------------------------------------------------------------
  // Scoring (calculate_vendor_score)
  // ---------------------------------------------------------------------------

  /** Banded distance points, with inclusive upper bounds 1, 3, 5 and 8 km. */
  function DistancePoints(d: real): real
  {
    if d <= 1.0 then 20.0
    else if d <= 3.0 then 15.0
    else if d <= 5.0 then 10.0
    else if d <= 8.0 then 5.0
    else 1.0
  }

  lemma DistanceBands(d: real)
    ensures DistancePoints(d) == 20.0 <==> d <= 1.0
    ensures DistancePoints(d) == 15.0 <==> 1.0 < d <= 3.0
    ensures DistancePoints(d) == 10.0 <==> 3.0 < d <= 5.0
    ensures DistancePoints(d) == 5.0 <==> 5.0 < d <= 8.0
    ensures DistancePoints(d) == 1.0 <==> 8.0 < d
  {
  }

  /** Band points never increase with distance. */
  lemma DistancePointsMonotone(d1: real, d2: real)
    requires d1 <= d2
    ensures DistancePoints(d2) <= DistancePoints(d1)
  {
  }

  /** Distance, rating, delivery-charge and discount terms. */
  function Subtotal(v: Vendor, d: real): real
  {
    DistancePoints(d) + v.rating * 3.0 - v.deliveryCharge * 2.0 + v.discount * 0.5
  }

  /** A closed vendor's subtotal is multiplied by 0.1. */
  function OpenAdjusted(v: Vendor, d: real): real
  {
    if v.isOpen == 0 then Subtotal(v, d) * 0.1 else Subtotal(v, d)
  }

  /** The score before the clamp: the bonuses are added after the closed-vendor factor. */
  function RawScore(v: Vendor, d: real, ordered: bool, categoryCount: nat): real
  {
    OpenAdjusted(v, d) + (if ordered then 50.0 else 0.0) + categoryCount as real * 2.0
  }

  /** `max(0, score)` for a vendor within its serving distance. */
  function InRangeScore(v: Vendor, d: real, ordered: bool, categoryCount: nat): (s: real)
    ensures s >= 0.0
    ensures s >= RawScore(v, d, ordered, categoryCount)
  {
    MaxReal(0.0, RawScore(v, d, ordered, categoryCount))
  }

  /** Great-circle distance from the location to vendor `v`. */
  function DistanceTo(geo: Distance, lat: real, lon: real, v: Vendor): Km
  {
    geo(lat, lon, v.lat, v.lon)
  }

  /** The model of `calculate_vendor_score`. */
  function CalculateVendorScore(data: TrainingData, c: string, lat: real, lon: real, vendorId: int, geo: Distance): (score: real)
    ensures score >= 0.0
    ensures vendorId !in data.vendors.values ==> score == 0.0
    ensures vendorId in data.vendors.values
            && DistanceTo(geo, lat, lon, data.vendors.values[vendorId]) > data.vendors.values[vendorId].servingDistance
            ==> score == 0.0
  {
    if vendorId !in data.vendors.values then 0.0
    else
      var v := data.vendors.values[vendorId];
      var d := DistanceTo(geo, lat, lon, v);
      if d > v.servingDistance then 0.0
      else InRangeScore(v, d, vendorId in OrderedFrom(data.customerOrders, c),
                        CategoryCount(data.customerPreferences, c, v.category))
  }

  /** A positive score means a catalogue vendor that serves the location. */
  lemma PositiveScoreInRange(data: TrainingData, c: string, lat: real, lon: real, vendorId: int, geo: Distance)
    requires CalculateVendorScore(data, c, lat, lon, vendorId, geo) > 0.0
    ensures vendorId in data.vendors.values
    ensures DistanceTo(geo, lat, lon, data.vendors.values[vendorId]) <= data.vendors.values[vendorId].servingDistance
  {
  }

  /** The training data with vendor `id` holding record `v`. */
  function WithVendor(data: TrainingData, id: int, v: Vendor): TrainingData
  {
    data.(vendors := Put(data.vendors, id, v))
  }

  /** All else equal, a higher rating never lowers the score. */
  lemma RatingMonotone(data: TrainingData, c: string, lat: real, lon: real, id: int, geo: Distance, v: Vendor, r1: real, r2: real)
    requires r1 <= r2
    ensures CalculateVendorScore(WithVendor(data, id, v.(rating := r1)), c, lat, lon, id, geo)
         <= CalculateVendorScore(WithVendor(data, id, v.(rating := r2)), c, lat, lon, id, geo)
  {
  }

  /**
   * Closing an open vendor lowers its score strictly when its subtotal is positive;
   * with a subtotal of 0 or less, the factor 0.1 can only raise it.
   */
  lemma ClosingEffect(v: Vendor, d: real, ordered: bool, n: nat)
    requires v.isOpen != 0
    ensures Subtotal(v, d) > 0.0 ==> InRangeScore(v.(isOpen := 0), d, ordered, n) < InRangeScore(v, d, ordered, n)
    ensures Subtotal(v, d) <= 0.0 ==> InRangeScore(v.(isOpen := 0), d, ordered, n) >= InRangeScore(v, d, ordered, n)
  {
  }

  /** For a closed vendor only the subtotal is scaled; both bonuses are added in full. */
  lemma BonusesNotScaled(v: Vendor, d: real, ordered: bool, n: nat)
    requires v.isOpen == 0
    ensures RawScore(v, d, ordered, n) == RawScore(v.(isOpen := 1), d, false, 0) * 0.1
                                          + (if ordered then 50.0 else 0.0) + n as real * 2.0
  {
  }

  /**
   * The prior-order bonus is added before the clamp: it never lowers the score, adds
   * at most 50, and adds exactly 50 when the score without it was not negative.
   */
  lemma PriorOrderBonus(v: Vendor, d: real, n: nat)
    ensures InRangeScore(v, d, false, n) <= InRangeScore(v, d, true, n) <= InRangeScore(v, d, false, n) + 50.0
    ensures RawScore(v, d, false, n) >= 0.0 ==> InRangeScore(v, d, true, n) == InRangeScore(v, d, false, n) + 50.0
  {
  }

  /** Each order in the vendor's category adds 2 before the clamp. */
  lemma CategoryBonus(v: Vendor, d: real, ordered: bool, n: nat)
    ensures InRangeScore(v, d, ordered, n) <= InRangeScore(v, d, ordered, n + 1)
    ensures RawScore(v, d, ordered, n) >= 0.0 ==> InRangeScore(v, d, ordered, n + 1) == InRangeScore(v, d, ordered, n) + 2.0
  {
  }

  /** A customer without history gets the clamped, open-adjusted subtotal only. */
  lemma NoHistoryNoBonus(data: TrainingData, c: string, lat: real, lon: real, vendorId: int, geo: Distance)
    requires c !in data.customerOrders && c !in data.customerPreferences
    requires vendorId in data.vendors.values
    requires DistanceTo(geo, lat, lon, data.vendors.values[vendorId]) <= data.vendors.values[vendorId].servingDistance
    ensures CalculateVendorScore(data, c, lat, lon, vendorId, geo)
         == MaxReal(0.0, OpenAdjusted(data.vendors.values[vendorId], DistanceTo(geo, lat, lon, data.vendors.values[vendorId])))
  {
  }

  // ---------------------------------------------------------------------------
  // Selection (generate_recommendations)
  // ---------------------------------------------------------------------------

  const MaxPerKey: nat := 10

  /** `vendor_scores` before sorting: the vendors of `ids`, in order, that score above 0. */
  function Candidates(data: TrainingData, c: string, lat: real, lon: real, ids: seq<int>, geo: Distance): seq<Scored>
  {
    if ids == [] then []
    else
      var id := ids[|ids| - 1];
      var s := CalculateVendorScore(data, c, lat, lon, id, geo);
      Candidates(data, c, lat, lon, ids[..|ids| - 1], geo) + (if s > 0.0 then [Scored(id, s)] else [])
  }

  /** The candidates are exactly the vendors of `ids` with a positive score, with that score. */
  lemma {:induction false} CandidatesExact(data: TrainingData, c: string, lat: real, lon: real, ids: seq<int>, geo: Distance, x: Scored)
    ensures x in Candidates(data, c, lat, lon, ids, geo)
        <==> x.vendorId in ids && x.score > 0.0 && x.score == CalculateVendorScore(data, c, lat, lon, x.vendorId, geo)
  {
    if ids != [] {
      var p := ids[..|ids| - 1];
      CandidatesExact(data, c, lat, lon, p, geo, x);
      assert ids == p + [ids[|ids| - 1]];
    }
  }

  /** `max(10, vendor_scores[0][1] * 0.1) if vendor_scores else 10`. */
  function MinScore(sorted: seq<Scored>): (m: real)
    ensures m >= 10.0
    ensures sorted != [] ==> m >= sorted[0].score * 0.1
  {
    if sorted == [] then 10.0 else MaxReal(10.0, sorted[0].score * 0.1)
  }

  /** `len([r for r in recommendations if r.customer_id == c and r.location_number == l])`. */
  function CountKey(recs: seq<Recommendation>, c: string, l: int): nat
  {
    if recs == [] then 0
    else
      CountKey(recs[..|recs| - 1], c, l)
        + (if recs[|recs| - 1].customerId == c && recs[|recs| - 1].locationNumber == l then 1 else 0)
  }

  /** The emission loop over the sorted candidates of one location row. */
  function EmitGroup(recs: seq<Recommendation>, c: string, l: int, xs: seq<Scored>, minScore: real): seq<Recommendation>
    decreases |xs|
  {
    if xs == [] then recs
    else
      var next := if xs[0].score >= minScore && CountKey(recs, c, l) < MaxPerKey
                  then recs + [Recommendation(c, l, xs[0].vendorId, xs[0].score)]
                  else recs;
      EmitGroup(next, c, l, xs[1..], minScore)
  }

  function SortedCandidates(data: TrainingData, loc: LocationRow, geo: Distance): seq<Scored>
  {
    SortByScoreDesc(Candidates(data, loc.customerId, loc.lat, loc.lon, data.vendors.keys, geo))
  }

  /** What one test-location row appends to `recommendations`. */
  function GroupRecommendations(data: TrainingData, recs: seq<Recommendation>, loc: LocationRow, geo: Distance): seq<Recommendation>
  {
    var sorted := SortedCandidates(data, loc, geo);
    EmitGroup(recs, loc.customerId, loc.locationNumber, sorted, MinScore(sorted))
  }

  /** The list `generate_recommendations` returns for the rows `locs`. */
  function Recommendations(data: TrainingData, locs: seq<LocationRow>, geo: Distance): seq<Recommendation>
  {
    if locs == [] then []
    else GroupRecommendations(data, Recommendations(data, locs[..|locs| - 1], geo), locs[|locs| - 1], geo)
  }

  /** The entries of `xs` scoring at least `m`, in order. */
  function AtLeast(xs: seq<Scored>, m: real): seq<Scored>
  {
    if xs == [] then []
    else (if xs[0].score >= m then [xs[0]] else []) + AtLeast(xs[1..], m)
  }

  /** The number of rows key `(c, l)` may still receive after `n` rows. */
  function Room(n: nat): nat
  {
    if n >= MaxPerKey then 0 else MaxPerKey - n
  }

  lemma {:induction false} AtLeastMembers(xs: seq<Scored>, m: real, x: Scored)
    ensures x in AtLeast(xs, m) <==> x in xs && x.score >= m
  {
    if xs != [] {
      AtLeastMembers(xs[1..], m, x);
      assert xs == [xs[0]] + xs[1..];
    }
  }

  lemma {:induction false} AtLeastSorted(xs: seq<Scored>, m: real)
    requires SortedDesc(xs)
    ensures SortedDesc(AtLeast(xs, m))
  {
    if xs != [] {
      AtLeastSorted(xs[1..], m);
      var r := AtLeast(xs[1..], m);
      forall j | 0 <= j < |r| ensures xs[0].score >= r[j].score {
        AtLeastMembers(xs[1..], m, r[j]);
      }
    }
  }

  lemma {:induction false} CountKeyAppend(recs: seq<Recommendation>, more: seq<Recommendation>, c: string, l: int)
    ensures CountKey(recs + more, c, l) == CountKey(recs, c, l) + CountKey(more, c, l)
  {
    if more == [] {
      assert recs + more == recs;
    } else {
      var p := more[..|more| - 1];
      CountKeyAppend(recs, p, c, l);
      assert (recs + more)[..|recs + more| - 1] == recs + p;
    }
  }

  lemma CountKeySingle(r: Recommendation, c: string, l: int)
    ensures CountKey([r], c, l) == if r.customerId == c && r.locationNumber == l then 1 else 0
  {
    assert [r][..0] == [];
  }

  lemma {:induction false} CountKeyRecsFor(c: string, l: int, xs: seq<Scored>, c': string, l': int)
    ensures CountKey(RecsFor(c, l, xs), c', l') == if c == c' && l == l' then |xs| else 0
  {
    if xs != [] {
      var r := Recommendation(c, l, xs[0].vendorId, xs[0].score);
      CountKeyRecsFor(c, l, xs[1..], c', l');
      assert RecsFor(c, l, xs) == [r] + RecsFor(c, l, xs[1..]);
      CountKeyAppend([r], RecsFor(c, l, xs[1..]), c', l');
      CountKeySingle(r, c', l');
    } else {
      assert RecsFor(c, l, xs) == [];
    }
  }

  /**
   * One location row appends the first `Room` entries, in order, of the candidates
   * that clear the threshold, where `Room` is what the key's earlier rows left.
   */
  lemma {:induction false} EmitGroupShape(recs: seq<Recommendation>, c: string, l: int, xs: seq<Scored>, m: real)
    ensures EmitGroup(recs, c, l, xs, m) == recs + RecsFor(c, l, Take(AtLeast(xs, m), Room(CountKey(recs, c, l))))
    decreases |xs|
  {
    if xs == [] {
      assert Take(AtLeast(xs, m), Room(CountKey(recs, c, l))) == [];
    } else {
      var x := xs[0];
      var n := CountKey(recs, c, l);
      var rest := AtLeast(xs[1..], m);
      if x.score >= m && n < MaxPerKey {
        EmitPassStep(recs, c, l, xs, m);
      } else if x.score >= m {
        EmitGroupShape(recs, c, l, xs[1..], m);
        assert Take(AtLeast(xs, m), Room(n)) == [];
        assert Take(rest, Room(n)) == [];
      } else {
        EmitGroupShape(recs, c, l, xs[1..], m);
        assert AtLeast(xs, m) == rest;
      }
    }
  }

  lemma {:induction false} EmitPassStep(recs: seq<Recommendation>, c: string, l: int, xs: seq<Scored>, m: real)
    requires xs != [] && xs[0].score >= m && CountKey(recs, c, l) < MaxPerKey
    ensures EmitGroup(recs, c, l, xs, m) == recs + RecsFor(c, l, Take(AtLeast(xs, m), Room(CountKey(recs, c, l))))
    decreases |xs|, 0
  {
    var x := xs[0];
    var n := CountKey(recs, c, l);
    var rest := AtLeast(xs[1..], m);
    var r := Recommendation(c, l, x.vendorId, x.score);
    assert EmitGroup(recs, c, l, xs, m) == EmitGroup(recs + [r], c, l, xs[1..], m);
    EmitGroupShape(recs + [r], c, l, xs[1..], m);
    CountKeyAppend(recs, [r], c, l);
    CountKeySingle(r, c, l);
    assert CountKey(recs + [r], c, l) == n + 1;
    var tail := Take(rest, Room(n + 1));
    assert AtLeast(xs, m) == [x] + rest;
    TakeCons(x, rest, Room(n));
    assert Take(AtLeast(xs, m), Room(n)) == [x] + tail;
    assert RecsFor(c, l, [x] + tail) == [r] + RecsFor(c, l, tail);
    assert EmitGroup(recs + [r], c, l, xs[1..], m) == (recs + [r]) + RecsFor(c, l, tail);
    assert (recs + [r]) + RecsFor(c, l, tail) == recs + ([r] + RecsFor(c, l, tail));
  }

  /** No (customer, location number) key ever receives more than ten rows over the whole run. */
  lemma {:induction false} PerKeyCap(data: TrainingData, locs: seq<LocationRow>, geo: Distance, c: string, l: int)
    ensures CountKey(Recommendations(data, locs, geo), c, l) <= MaxPerKey
  {
    if locs != [] {
      var prev := Recommendations(data, locs[..|locs| - 1], geo);
      var loc := locs[|locs| - 1];
      PerKeyCap(data, locs[..|locs| - 1], geo, c, l);
      var sorted := SortedCandidates(data, loc, geo);
      var n := CountKey(prev, loc.customerId, loc.locationNumber);
      var emitted := Take(AtLeast(sorted, MinScore(sorted)), Room(n));
      EmitGroupShape(prev, loc.customerId, loc.locationNumber, sorted, MinScore(sorted));
      CountKeyAppend(prev, RecsFor(loc.customerId, loc.locationNumber, emitted), c, l);
      CountKeyRecsFor(loc.customerId, loc.locationNumber, emitted, c, l);
    }
  }

  /**
   * The first row of a key emits, in descending score order with catalogue order
   * among ties, the candidates scoring at least max(10, top * 0.1), truncated to ten.
   */
  lemma FreshGroupSelection(data: TrainingData, recs: seq<Recommendation>, loc: LocationRow, geo: Distance)
    requires CountKey(recs, loc.customerId, loc.locationNumber) == 0
    ensures var sorted := SortedCandidates(data, loc, geo);
      GroupRecommendations(data, recs, loc, geo)
        == recs + RecsFor(loc.customerId, loc.locationNumber, Take(AtLeast(sorted, MinScore(sorted)), MaxPerKey))
  {
    var sorted := SortedCandidates(data, loc, geo);
    EmitGroupShape(recs, loc.customerId, loc.locationNumber, sorted, MinScore(sorted));
  }

  /** The candidates a location row appends to the output, in order. */
  function Chosen(data: TrainingData, recs: seq<Recommendation>, loc: LocationRow, geo: Distance): seq<Scored>
  {
    var sorted := SortedCandidates(data, loc, geo);
    Take(AtLeast(sorted, MinScore(sorted)), Room(CountKey(recs, loc.customerId, loc.locationNumber)))
  }

  lemma ChosenQualify(data: TrainingData, recs: seq<Recommendation>, loc: LocationRow, geo: Distance, x: Scored)
    requires x in Chosen(data, recs, loc, geo)
    ensures x.vendorId in data.vendors.values
    ensures DistanceTo(geo, loc.lat, loc.lon, data.vendors.values[x.vendorId]) <= data.vendors.values[x.vendorId].servingDistance
    ensures x.score == CalculateVendorScore(data, loc.customerId, loc.lat, loc.lon, x.vendorId, geo)
    ensures x.score >= MinScore(SortedCandidates(data, loc, geo))
  {
    var cands := Candidates(data, loc.customerId, loc.lat, loc.lon, data.vendors.keys, geo);
    var sorted := SortedCandidates(data, loc, geo);
    var m := MinScore(sorted);
    var all := AtLeast(sorted, m);
    var chosen := Chosen(data, recs, loc, geo);
    var k :| 0 <= k < |chosen| && chosen[k] == x;
    assert x == all[k];
    AtLeastMembers(sorted, m, x);
    SortPermutes(cands);
    assert x in multiset(sorted);
    CandidatesExact(data, loc.customerId, loc.lat, loc.lon, data.vendors.keys, geo, x);
    PositiveScoreInRange(data, loc.customerId, loc.lat, loc.lon, x.vendorId, geo);
  }

  lemma ChosenSorted(data: TrainingData, recs: seq<Recommendation>, loc: LocationRow, geo: Distance)
    ensures SortedDesc(Chosen(data, recs, loc, geo))
  {
    var cands := Candidates(data, loc.customerId, loc.lat, loc.lon, data.vendors.keys, geo);
    var sorted := SortedCandidates(data, loc, geo);
    SortSorted(cands);
    AtLeastSorted(sorted, MinScore(sorted));
    TakeSorted(AtLeast(sorted, MinScore(sorted)), Room(CountKey(recs, loc.customerId, loc.locationNumber)));
  }

  /** A location row appends the rows of `Chosen` to what came before. */
  lemma GroupIsChosen(data: TrainingData, recs: seq<Recommendation>, loc: LocationRow, geo: Distance)
    ensures GroupRecommendations(data, recs, loc, geo)
         == recs + RecsFor(loc.customerId, loc.locationNumber, Chosen(data, recs, loc, geo))
  {
    var sorted := SortedCandidates(data, loc, geo);
    EmitGroupShape(recs, loc.customerId, loc.locationNumber, sorted, MinScore(sorted));
  }

  /** Row `i` of the appended block is candidate `i - |recs|` of `Chosen`, under the row's key. */
  lemma GroupRowAt(data: TrainingData, recs: seq<Recommendation>, loc: LocationRow, geo: Distance, i: int)
    requires |recs| <= i < |GroupRecommendations(data, recs, loc, geo)|
    ensures var chosen := Chosen(data, recs, loc, geo);
      && i - |recs| < |chosen|
      && GroupRecommendations(data, recs, loc, geo)[i]
         == Recommendation(loc.customerId, loc.locationNumber, chosen[i - |recs|].vendorId, chosen[i - |recs|].score)
  {
    var chosen := Chosen(data, recs, loc, geo);
    var block := RecsFor(loc.customerId, loc.locationNumber, chosen);
    GroupIsChosen(data, recs, loc, geo);
    assert |block| == |chosen|;
    var k := i - |recs|;
    RecsForAt(loc.customerId, loc.locationNumber, chosen, k);
    assert (recs + block)[i] == block[k];
  }

  /** One appended row: its key, a serving catalogue vendor, that vendor's score, above the threshold. */
  lemma GroupRowQualifies(data: TrainingData, recs: seq<Recommendation>, loc: LocationRow, geo: Distance, i: int)
    requires |recs| <= i < |GroupRecommendations(data, recs, loc, geo)|
    ensures var r := GroupRecommendations(data, recs, loc, geo)[i];
      && r.customerId == loc.customerId && r.locationNumber == loc.locationNumber
      && r.vendorId in data.vendors.values
      && DistanceTo(geo, loc.lat, loc.lon, data.vendors.values[r.vendorId]) <= data.vendors.values[r.vendorId].servingDistance
      && r.score == CalculateVendorScore(data, loc.customerId, loc.lat, loc.lon, r.vendorId, geo)
      && r.score >= MinScore(SortedCandidates(data, loc, geo))
  {
    var chosen := Chosen(data, recs, loc, geo);
    GroupRowAt(data, recs, loc, geo, i);
    var x := chosen[i - |recs|];
    assert x in chosen;
    ChosenQualify(data, recs, loc, geo, x);
  }

  /**
   * Every row a location row appends is a catalogue vendor that serves the location,
   * with its score, which clears the threshold; the rows are in descending score order.
   */
  lemma GroupRowsQualify(data: TrainingData, recs: seq<Recommendation>, loc: LocationRow, geo: Distance)
    ensures var out := GroupRecommendations(data, recs, loc, geo);
      && |out| >= |recs| && out[..|recs|] == recs
      && (forall i, j :: |recs| <= i < j < |out| ==> out[i].score >= out[j].score)
      && forall i :: |recs| <= i < |out| ==>
           && out[i].customerId == loc.customerId && out[i].locationNumber == loc.locationNumber
           && out[i].vendorId in data.vendors.values
           && DistanceTo(geo, loc.lat, loc.lon, data.vendors.values[out[i].vendorId])
              <= data.vendors.values[out[i].vendorId].servingDistance
           && out[i].score == CalculateVendorScore(data, loc.customerId, loc.lat, loc.lon, out[i].vendorId, geo)
           && out[i].score >= MinScore(SortedCandidates(data, loc, geo))
  {
    var out := GroupRecommendations(data, recs, loc, geo);
    var chosen := Chosen(data, recs, loc, geo);
    GroupIsChosen(data, recs, loc, geo);
    assert out[..|recs|] == recs;
    ChosenSorted(data, recs, loc, geo);
    forall i, j | |recs| <= i < j < |out| ensures out[i].score >= out[j].score {
      GroupRowAt(data, recs, loc, geo, i);
      GroupRowAt(data, recs, loc, geo, j);
    }
    forall i | |recs| <= i < |out|
      ensures && out[i].customerId == loc.customerId && out[i].locationNumber == loc.locationNumber
              && out[i].vendorId in data.vendors.values
              && DistanceTo(geo, loc.lat, loc.lon, data.vendors.values[out[i].vendorId])
                 <= data.vendors.values[out[i].vendorId].servingDistance
              && out[i].score == CalculateVendorScore(data, loc.customerId, loc.lat, loc.lon, out[i].vendorId, geo)
              && out[i].score >= MinScore(SortedCandidates(data, loc, geo))
    {
      GroupRowQualifies(data, recs, loc, geo, i);
    }
  }

  /**
   * A location row adds a row iff some vendor reaches a score of 10 and its key has
   * room: a row whose candidates all score below 10 emits nothing.
   */
  lemma GroupEmitsIff(data: TrainingData, recs: seq<Recommendation>, loc: LocationRow, geo: Distance)
    ensures var sorted := SortedCandidates(data, loc, geo);
      (|GroupRecommendations(data, recs, loc, geo)| > |recs|)
        <==> (sorted != [] && sorted[0].score >= 10.0 && CountKey(recs, loc.customerId, loc.locationNumber) < MaxPerKey)
  {
    var cands := Candidates(data, loc.customerId, loc.lat, loc.lon, data.vendors.keys, geo);
    var sorted := SortedCandidates(data, loc, geo);
    var m := MinScore(sorted);
    var n := CountKey(recs, loc.customerId, loc.locationNumber);
    EmitGroupShape(recs, loc.customerId, loc.locationNumber, sorted, m);
    SortSorted(cands);
    SortPermutes(cands);
    if sorted != [] {
      assert sorted[0] in multiset(cands);
      CandidatesExact(data, loc.customerId, loc.lat, loc.lon, data.vendors.keys, geo, sorted[0]);
      if sorted[0].score >= 10.0 {
        assert m <= sorted[0].score;
        assert AtLeast(sorted, m) == [sorted[0]] + AtLeast(sorted[1..], m);
      } else {
        assert m == 10.0;
        forall x | x in sorted ensures x.score < m {
          var j :| 0 <= j < |sorted| && sorted[j] == x;
        }
        AtLeastEmpty(sorted, m);
      }
    }
  }

  lemma {:induction false} AtLeastEmpty(xs: seq<Scored>, m: real)
    requires forall x :: x in xs ==> x.score < m
    ensures AtLeast(xs, m) == []
  {
    if xs != [] {
      AtLeastEmpty(xs[1..], m);
    }
  }

  // ---------------------------------------------------------------------------
  // A higher rating never costs a vendor its rank
  // ---------------------------------------------------------------------------

  /** On a sorted list, the threshold filter keeps every entry up to one that clears it in place. */
  lemma {:induction false} AtLeastPrefix(xs: seq<Scored>, m: real, q: int)
    requires SortedDesc(xs)
    requires 0 <= q < |xs| && xs[q].score >= m
    ensures q < |AtLeast(xs, m)| && AtLeast(xs, m)[q] == xs[q]
  {
    assert xs[0].score >= m;
    assert AtLeast(xs, m) == [xs[0]] + AtLeast(xs[1..], m);
    if q > 0 {
      assert SortedDesc(xs[1..]);
      assert xs[1..][q - 1] == xs[q];
      AtLeastPrefix(xs[1..], m, q - 1);
    }
  }

  lemma {:induction false} AtLeastDistinct(xs: seq<Scored>, m: real)
    requires DistinctIds(xs)
    ensures DistinctIds(AtLeast(xs, m))
  {
    if xs != [] {
      var rest := AtLeast(xs[1..], m);
      assert DistinctIds(xs[1..]);
      AtLeastDistinct(xs[1..], m);
      forall b | 0 <= b < |rest| ensures rest[b].vendorId != xs[0].vendorId {
        AtLeastMembers(xs[1..], m, rest[b]);
        var j :| 0 <= j < |xs[1..]| && xs[1..][j] == rest[b];
        assert xs[j + 1] == rest[b];
      }
    }
  }

  /** Changing vendor `id`'s record leaves every other vendor's score alone. */
  lemma OtherScoresUnchanged(data: TrainingData, c: string, lat: real, lon: real, geo: Distance,
                             id: int, v1: Vendor, v2: Vendor, j: int)
    requires j != id
    ensures CalculateVendorScore(WithVendor(data, id, v1), c, lat, lon, j, geo)
         == CalculateVendorScore(WithVendor(data, id, v2), c, lat, lon, j, geo)
  {
  }

  /**
   * With vendor `id` a candidate under both records, the two candidate lists agree
   * entry by entry except that `id` carries its new score.
   */
  lemma {:induction false} CandidatesBump(data: TrainingData, c: string, lat: real, lon: real, ids: seq<int>,
                                          geo: Distance, id: int, v1: Vendor, v2: Vendor)
    requires CalculateVendorScore(WithVendor(data, id, v1), c, lat, lon, id, geo) > 0.0
    requires CalculateVendorScore(WithVendor(data, id, v2), c, lat, lon, id, geo) > 0.0
    ensures var c1 := Candidates(WithVendor(data, id, v1), c, lat, lon, ids, geo);
      var c2 := Candidates(WithVendor(data, id, v2), c, lat, lon, ids, geo);
      && |c1| == |c2|
      && forall q :: 0 <= q < |c1| ==>
           && c1[q].vendorId == c2[q].vendorId
           && (c1[q].vendorId != id ==> c1[q] == c2[q])
           && (c1[q].vendorId == id ==> c2[q] == Scored(id, CalculateVendorScore(WithVendor(data, id, v2), c, lat, lon, id, geo)))
  {
    if ids != [] {
      var last := ids[|ids| - 1];
      CandidatesBump(data, c, lat, lon, ids[..|ids| - 1], geo, id, v1, v2);
      if last != id {
        OtherScoresUnchanged(data, c, lat, lon, geo, id, v1, v2, last);
      }
    }
  }

  /** Distinct vendor ids give candidates with distinct vendors. */
  lemma {:induction false} CandidatesDistinct(data: TrainingData, c: string, lat: real, lon: real, ids: seq<int>, geo: Distance)
    requires forall i, j :: 0 <= i < j < |ids| ==> ids[i] != ids[j]
    ensures DistinctIds(Candidates(data, c, lat, lon, ids, geo))
  {
    if ids != [] {
      var p := ids[..|ids| - 1];
      var last := ids[|ids| - 1];
      var cp := Candidates(data, c, lat, lon, p, geo);
      CandidatesDistinct(data, c, lat, lon, p, geo);
      forall j | 0 <= j < |cp| ensures cp[j].vendorId != last {
        assert cp[j] in cp;
        CandidatesExact(data, c, lat, lon, p, geo, cp[j]);
        var m :| 0 <= m < |p| && p[m] == cp[j].vendorId;
        assert ids[m] == p[m];
      }
    }
  }

  /**
   * Raising vendor `id`'s rating from `r1` to `r2`, where `id` is entry `p` of the
   * candidates: the new candidates are the old ones with entry `p` carrying the new,
   * no lower, score, and the vendors are distinct.
   */
  lemma RaisedCandidates(data: TrainingData, loc: LocationRow, geo: Distance, id: int, v: Vendor, r1: real, r2: real, p: int)
    requires OrderedDict.Valid(data.vendors)
    requires r1 <= r2
    requires var d1 := WithVendor(data, id, v.(rating := r1));
      var c1 := Candidates(d1, loc.customerId, loc.lat, loc.lon, d1.vendors.keys, geo);
      0 <= p < |c1| && c1[p].vendorId == id
    ensures var d1 := WithVendor(data, id, v.(rating := r1));
      var d2 := WithVendor(data, id, v.(rating := r2));
      var c1 := Candidates(d1, loc.customerId, loc.lat, loc.lon, d1.vendors.keys, geo);
      var c2 := Candidates(d2, loc.customerId, loc.lat, loc.lon, d2.vendors.keys, geo);
      var s2 := CalculateVendorScore(d2, loc.customerId, loc.lat, loc.lon, id, geo);
      && DistinctIds(c1)
      && 0.0 < c1[p].score <= s2
      && c2 == c1[p := Scored(id, s2)]
  {
    var d1 := WithVendor(data, id, v.(rating := r1));
    var d2 := WithVendor(data, id, v.(rating := r2));
    var keys := d1.vendors.keys;
    assert d2.vendors.keys == keys;
    var c1 := Candidates(d1, loc.customerId, loc.lat, loc.lon, keys, geo);
    var c2 := Candidates(d2, loc.customerId, loc.lat, loc.lon, keys, geo);
    var s2 := CalculateVendorScore(d2, loc.customerId, loc.lat, loc.lon, id, geo);
    assert c1[p] in c1;
    CandidatesExact(d1, loc.customerId, loc.lat, loc.lon, keys, geo, c1[p]);
    RatingMonotone(data, loc.customerId, loc.lat, loc.lon, id, geo, v, r1, r2);
    CandidatesBump(data, loc.customerId, loc.lat, loc.lon, keys, geo, id, v.(rating := r1), v.(rating := r2));
    CandidatesDistinct(d1, loc.customerId, loc.lat, loc.lon, keys, geo);
    forall q | 0 <= q < |c1| && q != p ensures c1[q] == c2[q] {
      assert c1[q].vendorId != id;
    }
    UpdateAt(c1, c2, p);
  }

  /** Raising a candidate's rating never moves it later in the sorted score list. */
  lemma RatingKeepsRank(data: TrainingData, loc: LocationRow, geo: Distance, id: int, v: Vendor, r1: real, r2: real, q1: int)
    requires OrderedDict.Valid(data.vendors)
    requires r1 <= r2
    requires var sorted := SortedCandidates(WithVendor(data, id, v.(rating := r1)), loc, geo);
      0 <= q1 < |sorted| && sorted[q1].vendorId == id
    ensures var d2 := WithVendor(data, id, v.(rating := r2));
      var sorted := SortedCandidates(d2, loc, geo);
      exists q2 :: 0 <= q2 <= q1 && q2 < |sorted|
                   && sorted[q2] == Scored(id, CalculateVendorScore(d2, loc.customerId, loc.lat, loc.lon, id, geo))
  {
    var d1 := WithVendor(data, id, v.(rating := r1));
    var d2 := WithVendor(data, id, v.(rating := r2));
    var c1 := Candidates(d1, loc.customerId, loc.lat, loc.lon, d1.vendors.keys, geo);
    var c2 := Candidates(d2, loc.customerId, loc.lat, loc.lon, d2.vendors.keys, geo);
    var sorted1 := SortByScoreDesc(c1);
    var x := sorted1[q1];
    SortPermutes(c1);
    assert x in multiset(sorted1);
    var p :| 0 <= p < |c1| && c1[p] == x;
    RaisedCandidates(data, loc, geo, id, v, r1, r2, p);
    var s2 := CalculateVendorScore(d2, loc.customerId, loc.lat, loc.lon, id, geo);
    assert c2 == c1[p := c1[p].(score := s2)];
    RaiseKeepsRank(c1, p, s2, q1);
    var sorted2 := SortByScoreDesc(c2);
    var q2 :| 0 <= q2 <= q1 && q2 < |sorted2| && sorted2[q2] == c1[p].(score := s2);
    assert sorted2[q2] == Scored(id, s2);
    assert SortedCandidates(d2, loc, geo) == sorted2;
  }

  /**
   * An entry that cleared the threshold still clears it after its score rises: either
   * it is now the top entry, or the top score is unchanged.
   */
  lemma RaisedMinScore(s: seq<Scored>, p: int, b: real)
    requires 0 <= p < |s| && s[p].score <= b
    requires s[p].score >= MinScore(SortByScoreDesc(s))
    ensures MinScore(SortByScoreDesc(s[p := s[p].(score := b)])) <= b
  {
    var s2 := s[p := s[p].(score := b)];
    var sorted1 := SortByScoreDesc(s);
    var sorted2 := SortByScoreDesc(s2);
    SortedHeadIsTop(s);
    SortedHeadIsTop(s2);
    var top := sorted2[0];
    var j :| 0 <= j < |s2| && s2[j] == top;
    if j != p {
      assert top == s[j];
      assert s[j] in s;
      assert top.score <= sorted1[0].score;
    } else {
      assert top.score == b;
    }
  }

  /** The same for vendor `id` among the candidates, when its rating rises. */
  lemma RaisedThreshold(data: TrainingData, loc: LocationRow, geo: Distance, id: int, v: Vendor, r1: real, r2: real, p: int)
    requires OrderedDict.Valid(data.vendors)
    requires r1 <= r2
    requires var d1 := WithVendor(data, id, v.(rating := r1));
      var c1 := Candidates(d1, loc.customerId, loc.lat, loc.lon, d1.vendors.keys, geo);
      0 <= p < |c1| && c1[p].vendorId == id && c1[p].score >= MinScore(SortByScoreDesc(c1))
    ensures var d2 := WithVendor(data, id, v.(rating := r2));
      MinScore(SortedCandidates(d2, loc, geo)) <= CalculateVendorScore(d2, loc.customerId, loc.lat, loc.lon, id, geo)
  {
    var d1 := WithVendor(data, id, v.(rating := r1));
    var d2 := WithVendor(data, id, v.(rating := r2));
    var c1 := Candidates(d1, loc.customerId, loc.lat, loc.lon, d1.vendors.keys, geo);
    var c2 := Candidates(d2, loc.customerId, loc.lat, loc.lon, d2.vendors.keys, geo);
    var s2 := CalculateVendorScore(d2, loc.customerId, loc.lat, loc.lon, id, geo);
    RaisedCandidates(data, loc, geo, id, v, r1, r2, p);
    assert c2 == c1[p := c1[p].(score := s2)];
    RaisedMinScore(c1, p, s2);
    assert SortedCandidates(d2, loc, geo) == SortByScoreDesc(c2);
  }

  /** On a sorted list with distinct vendors, a chosen entry clears the threshold and sits within the room. */
  lemma ChosenIndex(xs: seq<Scored>, m: real, room: nat, x: Scored)
    requires SortedDesc(xs) && DistinctIds(xs)
    requires x in Take(AtLeast(xs, m), room)
    ensures x in xs && x.score >= m
    ensures forall q :: 0 <= q < |xs| && xs[q].vendorId == x.vendorId ==> q < room
  {
    var all := AtLeast(xs, m);
    var k :| 0 <= k < |Take(all, room)| && Take(all, room)[k] == x;
    assert all[k] == x;
    AtLeastMembers(xs, m, x);
    AtLeastDistinct(xs, m);
    forall q | 0 <= q < |xs| && xs[q].vendorId == x.vendorId ensures q < room {
      var q1 :| 0 <= q1 < |xs| && xs[q1] == x;
      assert q == q1;
      AtLeastPrefix(xs, m, q1);
      assert k == q1;
    }
  }

  /** On a sorted list, an entry within the room that clears the threshold is chosen. */
  lemma ChosenFromIndex(xs: seq<Scored>, m: real, room: nat, q: int)
    requires SortedDesc(xs)
    requires 0 <= q < |xs| && q < room && xs[q].score >= m
    ensures xs[q] in Take(AtLeast(xs, m), room)
  {
    AtLeastPrefix(xs, m, q);
    assert Take(AtLeast(xs, m), room)[q] == xs[q];
  }

  /** Where a chosen vendor sits: entry `p` of the candidates, index `q1 < room` of the sorted list. */
  lemma ChosenPlace(data: TrainingData, recs: seq<Recommendation>, loc: LocationRow, geo: Distance,
                    id: int, v: Vendor, r1: real, r2: real, x: Scored) returns (p: int, q1: int)
    requires OrderedDict.Valid(data.vendors)
    requires r1 <= r2
    requires x in Chosen(WithVendor(data, id, v.(rating := r1)), recs, loc, geo) && x.vendorId == id
    ensures var d1 := WithVendor(data, id, v.(rating := r1));
      var c1 := Candidates(d1, loc.customerId, loc.lat, loc.lon, d1.vendors.keys, geo);
      var sorted1 := SortByScoreDesc(c1);
      && 0 <= p < |c1| && c1[p] == x && x.score >= MinScore(sorted1)
      && 0 <= q1 < |sorted1| && sorted1[q1].vendorId == id
      && q1 < Room(CountKey(recs, loc.customerId, loc.locationNumber))
  {
    var d1 := WithVendor(data, id, v.(rating := r1));
    var c1 := Candidates(d1, loc.customerId, loc.lat, loc.lon, d1.vendors.keys, geo);
    var room := Room(CountKey(recs, loc.customerId, loc.locationNumber));
    var sorted1 := SortByScoreDesc(c1);
    assert Take(AtLeast(sorted1, MinScore(sorted1)), room) == Chosen(d1, recs, loc, geo);
    assert x in multiset(Take(AtLeast(sorted1, MinScore(sorted1)), room));
    AtLeastMembers(sorted1, MinScore(sorted1), x);
    SortPermutes(c1);
    assert x in multiset(sorted1);
    p :| 0 <= p < |c1| && c1[p] == x;
    RaisedCandidates(data, loc, geo, id, v, r1, r2, p);
    SortSorted(c1);
    SortDistinct(c1);
    ChosenIndex(sorted1, MinScore(sorted1), room, x);
    q1 :| 0 <= q1 < |sorted1| && sorted1[q1] == x;
  }

  /**
   * Raising a chosen vendor's rating keeps it chosen: the same location row, after the
   * same earlier output, still emits it, now with its new score.
   */
  lemma RatingKeepsChosen(data: TrainingData, recs: seq<Recommendation>, loc: LocationRow, geo: Distance,
                          id: int, v: Vendor, r1: real, r2: real, x: Scored)
    requires OrderedDict.Valid(data.vendors)
    requires r1 <= r2
    requires x in Chosen(WithVendor(data, id, v.(rating := r1)), recs, loc, geo) && x.vendorId == id
    ensures var d2 := WithVendor(data, id, v.(rating := r2));
      Scored(id, CalculateVendorScore(d2, loc.customerId, loc.lat, loc.lon, id, geo)) in Chosen(d2, recs, loc, geo)
  {
    var d2 := WithVendor(data, id, v.(rating := r2));
    var c2 := Candidates(d2, loc.customerId, loc.lat, loc.lon, d2.vendors.keys, geo);
    var s2 := CalculateVendorScore(d2, loc.customerId, loc.lat, loc.lon, id, geo);
    var room := Room(CountKey(recs, loc.customerId, loc.locationNumber));
    var sorted2 := SortByScoreDesc(c2);
    var p, q1 := ChosenPlace(data, recs, loc, geo, id, v, r1, r2, x);
    RatingKeepsRank(data, loc, geo, id, v, r1, r2, q1);
    assert SortedCandidates(d2, loc, geo) == sorted2;
    var q2 :| 0 <= q2 <= q1 && q2 < |sorted2| && sorted2[q2] == Scored(id, s2);
    RaisedThreshold(data, loc, geo, id, v, r1, r2, p);
    SortSorted(c2);
    ChosenFromIndex(sorted2, MinScore(sorted2), room, q2);
    assert Take(AtLeast(sorted2, MinScore(sorted2)), room) == Chosen(d2, recs, loc, geo);
  }

  // ---------------------------------------------------------------------------
  // Worked cases
  // ---------------------------------------------------------------------------

  /** An open vendor 1 of category "A" at (0, 0), rated 5, free delivery, serving 100 km. */
  const SampleVendor := Vendor(0.0, 0.0, "A", 5.0, 0.0, 100.0, 1, 0.0)

  function SampleData(v: Vendor): TrainingData
  {
    TrainingData(Put(Empty(), 1, v), map[], map[])
  }

  /** With every distance 0, the sample vendor scores 20 + 15 = 35 for customer C1. */
  lemma SampleScore(geo: Distance)
    requires forall a, b, c, d :: geo(a, b, c, d) == 0.0
    ensures CalculateVendorScore(SampleData(SampleVendor), "C1", 0.0, 0.0, 1, geo) == 35.0
  {
    var data := SampleData(SampleVendor);
    assert data.vendors.values == map[1 := SampleVendor];
    assert DistanceTo(geo, 0.0, 0.0, SampleVendor) == 0.0;
    assert CategoryCount(data.customerPreferences, "C1", "A") == 0;
    assert RawScore(SampleVendor, 0.0, false, 0) == 35.0;
  }

  /** ... and it is the only candidate of location 1. */
  lemma SampleCandidates(geo: Distance)
    requires forall a, b, c, d :: geo(a, b, c, d) == 0.0
    ensures CalculateVendorScore(SampleData(SampleVendor), "C1", 0.0, 0.0, 1, geo) == 35.0
    ensures SortedCandidates(SampleData(SampleVendor), LocationRow("C1", 1, 0.0, 0.0), geo) == [Scored(1, 35.0)]
  {
    var data := SampleData(SampleVendor);
    SampleScore(geo);
    assert data.vendors.keys == [1];
    assert Candidates(data, "C1", 0.0, 0.0, data.vendors.keys, geo) == [Scored(1, 35.0)];
    assert [Scored(1, 35.0)][1..] == [];
    assert SortByScoreDesc([Scored(1, 35.0)]) == Insert(Scored(1, 35.0), []);
  }

  /**
   * Customer C1 at location 1, standing on the vendor: score 20 + 15 = 35, the
   * threshold is max(10, 3.5) = 10, and the one output row is "C1 X 1 X 1".
   */
  lemma SingleVendorCase()
    ensures var geo: Distance := (a, b, c, d) => 0.0;
      var loc := LocationRow("C1", 1, 0.0, 0.0);
      && CalculateVendorScore(SampleData(SampleVendor), "C1", 0.0, 0.0, 1, geo) == 35.0
      && Recommendations(SampleData(SampleVendor), [loc], geo) == [Recommendation("C1", 1, 1, 35.0)]
      && ToRow(Recommendation("C1", 1, 1, 35.0)) == OutputRow("C1 X 1 X 1", "1")
  {
    var geo: Distance := (a, b, c, d) => 0.0;
    var loc := LocationRow("C1", 1, 0.0, 0.0);
    var data := SampleData(SampleVendor);
    var rec := Recommendation("C1", 1, 1, 35.0);
    SampleCandidates(geo);
    assert MinScore([Scored(1, 35.0)]) == 10.0;
    assert CountKey([], "C1", 1) == 0;
    assert EmitGroup([], "C1", 1, [Scored(1, 35.0)], 10.0) == EmitGroup([rec], "C1", 1, [], 10.0);
    assert GroupRecommendations(data, [], loc, geo) == [rec];
    assert [loc][..0] == [];
    assert Recommendations(data, [loc], geo) == GroupRecommendations(data, [], loc, geo);
    assert IntToString(1) == "1";
  }

  /** The same vendor serving only 0.0001 km, with the customer 5 km away: nothing is emitted. */
  lemma OutOfRangeCase()
    ensures var geo: Distance := (a, b, c, d) => 5.0;
      Recommendations(SampleData(SampleVendor.(servingDistance := 0.0001)), [LocationRow("C1", 1, 0.0, 0.0)], geo) == []
  {
    var geo: Distance := (a, b, c, d) => 5.0;
    var loc := LocationRow("C1", 1, 0.0, 0.0);
    var data := SampleData(SampleVendor.(servingDistance := 0.0001));
    assert data.vendors.keys == [1];
    assert Candidates(data, "C1", 0.0, 0.0, data.vendors.keys, geo) == [];
    assert [loc][..0] == [];
  }

  // ---------------------------------------------------------------------------
  // The recommender object
  // ---------------------------------------------------------------------------

  function Emitted(emitted: map<(string, int), nat>, c: string, l: int): nat
  {
    if (c, l) in emitted then emitted[(c, l)] else 0
  }

  /** The scoring loop of one location row: every catalogue vendor with a positive score, in insertion order. */
  method ScoreCandidates(data: TrainingData, loc: LocationRow, geo: Distance) returns (vendorScores: seq<Scored>)
    ensures vendorScores == Candidates(data, loc.customerId, loc.lat, loc.lon, data.vendors.keys, geo)
  {
    var ids := data.vendors.keys;
    vendorScores := [];
    for j := 0 to |ids|
      invariant vendorScores == Candidates(data, loc.customerId, loc.lat, loc.lon, ids[..j], geo)
    {
      var vendorId := ids[j];
      var score := CalculateVendorScore(data, loc.customerId, loc.lat, loc.lon, vendorId, geo);
      TakeSnoc(ids, j);
      if score > 0.0 {
        vendorScores := vendorScores + [Scored(vendorId, score)];
      }
    }
    TakeAll(ids);
  }

  /**
   * The emission loop of one location row over the sorted candidates, with the
   * per-key counts kept in `emitted` instead of rescanning the output.
   */
  method EmitCandidates(recs: seq<Recommendation>, emitted: map<(string, int), nat>, c: string, l: int,
                        vendorScores: seq<Scored>, minScore: real)
    returns (out: seq<Recommendation>, counts: map<(string, int), nat>)
    requires forall c', l' :: CountKey(recs, c', l') == Emitted(emitted, c', l')
    ensures out == EmitGroup(recs, c, l, vendorScores, minScore)
    ensures forall c', l' :: CountKey(out, c', l') == Emitted(counts, c', l')
  {
    out, counts := recs, emitted;
    for j := 0 to |vendorScores|
      invariant EmitGroup(out, c, l, vendorScores[j..], minScore) == EmitGroup(recs, c, l, vendorScores, minScore)
      invariant forall c', l' :: CountKey(out, c', l') == Emitted(counts, c', l')
    {
      var x := vendorScores[j];
      assert vendorScores[j..][0] == x && vendorScores[j..][1..] == vendorScores[j + 1..];
      var count := if (c, l) in counts then counts[(c, l)] else 0;
      assert count == CountKey(out, c, l);
      if x.score >= minScore && count < MaxPerKey {
        var r := Recommendation(c, l, x.vendorId, x.score);
        forall c', l' ensures CountKey(out + [r], c', l') == CountKey(out, c', l') + (if c' == c && l' == l then 1 else 0) {
          assert (out + [r])[..|out|] == out;
        }
        out := out + [r];
        counts := counts[(c, l) := count + 1];
      }
    }
    assert vendorScores[|vendorScores|..] == [];
  }

  class RestaurantRecommender {
    var vendors: Dict<int, Vendor>
    var customerOrders: map<string, set<int>>
    var customerPreferences: Preferences

    ghost predicate Valid()
      reads this
    {
      OrderedDict.Valid(vendors)
    }

    function Data(): TrainingData
      reads this
    {
      TrainingData(vendors, customerOrders, customerPreferences)
    }

    constructor ()
      ensures Valid()
      ensures vendors == Empty() && customerOrders == map[] && customerPreferences == map[]
    {
      vendors := Empty();
      customerOrders := map[];
      customerPreferences := map[];
    }

    /** The model of `load_data`: the vendor pass, then the order pass over the full catalogue. */
    method LoadData(vendorRows: seq<VendorRow>, orderRows: seq<OrderRow>)
      requires Valid()
      modifies this
      ensures Valid()
      ensures vendors == PutAll(old(vendors), VendorEntries(vendorRows))
      ensures customerOrders == RecordOrders(old(customerOrders), orderRows)
      ensures customerPreferences == RecordPreferences(old(customerPreferences), vendors.values, orderRows)
    {
      LoadVendors(vendorRows);
      LoadOrders(orderRows);
    }

    /** The first pass of `load_data`: every vendor row is stored under its id, a later row replacing an earlier one. */
    method LoadVendors(vendorRows: seq<VendorRow>)
      requires Valid()
      modifies this
      ensures Valid()
      ensures vendors == PutAll(old(vendors), VendorEntries(vendorRows))
      ensures customerOrders == old(customerOrders) && customerPreferences == old(customerPreferences)
    {
      ghost var entries := VendorEntries(vendorRows);
      for i := 0 to |vendorRows|
        invariant OrderedDict.Valid(vendors)
        invariant vendors == PutAll(old(vendors), entries[..i])
        invariant customerOrders == old(customerOrders) && customerPreferences == old(customerPreferences)
      {
        var row := vendorRows[i];
        vendors := Put(vendors, row.id, MakeVendor(row));
        TakeSnoc(entries, i);
      }
      assert entries[..|vendorRows|] == entries;
    }

    /**
     * The second pass of `load_data`: each order adds its vendor to the customer's set and,
     * when the vendor is in the catalogue, counts one more order in its category.
     */
    method LoadOrders(orderRows: seq<OrderRow>)
      modifies this
      ensures vendors == old(vendors)
      ensures customerOrders == RecordOrders(old(customerOrders), orderRows)
      ensures customerPreferences == RecordPreferences(old(customerPreferences), vendors.values, orderRows)
    {
      for i := 0 to |orderRows|
        invariant vendors == old(vendors)
        invariant customerOrders == RecordOrders(old(customerOrders), orderRows[..i])
        invariant customerPreferences == RecordPreferences(old(customerPreferences), vendors.values, orderRows[..i])
      {
        var o := orderRows[i];
        TakeSnoc(orderRows, i);
        ghost var prefs := customerPreferences;
        customerOrders := AddOrder(customerOrders, o);
        if o.vendorId in vendors.values {
          var category := vendors.values[o.vendorId].category;
          var counter := if o.customerId in customerPreferences then customerPreferences[o.customerId] else map[];
          var count := if category in counter then counter[category] else 0;
          customerPreferences := customerPreferences[o.customerId := counter[category := count + 1]];
        }
        assert customerPreferences == AddPreference(prefs, vendors.values, o);
      }
      TakeAll(orderRows);
    }

    /**
     * The model of `generate_recommendations`.  The per-key count is kept in a map
     * instead of rescanning the output; the invariant ties the two together.
     */
    method GenerateRecommendations(locations: seq<LocationRow>, geo: Distance) returns (recs: seq<Recommendation>)
      ensures recs == Recommendations(Data(), locations, geo)
    {
      var data := Data();
      recs := [];
      var emitted: map<(string, int), nat> := map[];
      for i := 0 to |locations|
        invariant recs == Recommendations(data, locations[..i], geo)
        invariant forall c, l :: CountKey(recs, c, l) == Emitted(emitted, c, l)
      {
        var loc := locations[i];
        var vendorScores := ScoreCandidates(data, loc, geo);
        vendorScores := SortByScoreDesc(vendorScores);
        var minScore := MinScore(vendorScores);
        recs, emitted := EmitCandidates(recs, emitted, loc.customerId, loc.locationNumber, vendorScores, minScore);
        TakeSnoc(locations, i);
      }
      TakeAll(locations);
    }

    /** The model of `run`: load, generate, and write the submission rows. */
    method Run(vendorRows: seq<VendorRow>, orderRows: seq<OrderRow>, locations: seq<LocationRow>, geo: Distance)
      returns (file: seq<OutputRow>)
      requires Valid()
      modifies this
      ensures Valid()
      ensures vendors == PutAll(old(vendors), VendorEntries(vendorRows))
      ensures customerOrders == RecordOrders(old(customerOrders), orderRows)
      ensures customerPreferences == RecordPreferences(old(customerPreferences), vendors.values, orderRows)
      ensures var recs := Recommendations(Data(), locations, geo);
        |file| == |recs| + 1 && file[0] == Header
        && forall i :: 0 <= i < |recs| ==> file[i + 1] == ToRow(recs[i])
    {
      LoadData(vendorRows, orderRows);
      var recs := GenerateRecommendations(locations, geo);
      file := SaveSubmission(recs);
    }
  }
}
