# Heuristic restaurant recommender, modelled in Dafny

The repository scores delivery vendors for customer locations with hand-written rules.
It writes a submission file with one row `"{customer_id} X {location_number} X {vendor_id}", 1` per
recommended vendor. There are three scripts, and this project models each of them:

- `restaurant_recommender.py` is the main engine, an object that does four things:
  - it loads a vendor catalogue (a dict from vendor id to record, with defaults for missing fields);
  - it builds a preference index (per customer, the vendors ordered from and a count per category);
  - it scores a vendor for a location: a hard serving-radius filter, banded distance points, rating,
    delivery-charge and discount terms, a factor 0.1 for closed vendors, history bonuses, and a clamp at 0;
  - for each test-location row, it emits the candidates, best first, that clear `max(10, top * 0.1)`.
    A `(customer, location number)` key gets at most 10 rows over the whole run.
- `simple_recommender.py` is a script with stricter distance bands and no radius filter. It cleanses
  the location rows, then emits, per location row, those of the five best-scored vendors scoring above 3.
- `minimal_rec.py` emits the first five vendor ids of the vendor file for every location row.

## Modules
- `Basics` holds shared vocabulary:
  - `Option` stands for a CSV field that is present, or missing or empty.
  - `Km` is a non-negative distance.
  - `Distance` is the distance oracle `(lat1, lon1, lat2, lon2) -> Km`, which stands in for the haversine formula.
- `OrderedDict` is Python's insertion-ordered `dict`: a key sequence in first-insertion order and a map.
- `Ranking` is `list.sort(key=score, reverse=True)`, modelled as a stable insertion sort, with the slice `s[:n]`.
  `Ahead` is an independent definition of the index the sort gives an entry.
- `Submission` holds:
  - the recommendation record;
  - the key format `c + " X " + str(l) + " X " + str(v)`, with a parser that inverts it;
  - `save_submission`.
- `OrderHistory` is `customer_orders = defaultdict(set)`, shared by two of the scripts.
- `Restaurant` is the main engine. It has a class `RestaurantRecommender` whose fields are the three
  dicts of the Python object. Its methods change them in loops, and pure functions specify each method.
- `Simple` and `Minimal` model the two scripts. Each module-level loop is a method proved equal to a
  specification function.

Scores are exact `real` numbers. Integers are unbounded, which matches Python's `int`. The distance is a
parameter of every operation that needs one.

## Model

| member | source | states |
|---|---|---|
| OrderedDict.Put | restaurant_recommender.py:35-44 | `d[k] = v` keeps the dict well formed (distinct keys, the key list matching the map's domain) and maps `k` to `v` |
| OrderedDict.PutAll | restaurant_recommender.py:33-44 | performing the assignments one by one keeps the dict well formed |
| OrderedDict.PutAllDomain | restaurant_recommender.py:33-44 | after the assignments a key is present iff it was present before or some row assigns it |
| OrderedDict.PutAllLastWins | restaurant_recommender.py:33-44 | a duplicate id holds the record of its last row |
| OrderedDict.PutAllUntouched | restaurant_recommender.py:33-44 | a key no row assigns keeps its value |
| OrderedDict.PutAllKeys | restaurant_recommender.py:33-44 | iteration order is the old keys, then each new id at its first-insertion position; a later row for an id does not move it |
| Restaurant.MakeVendor | restaurant_recommender.py:35-44 | missing or empty optional fields default to rating 0, delivery charge 0, serving distance 10, is_open 1, discount 0; the other fields are copied |
| OrderedDict.LoadedDomain | restaurant_recommender.py:33-35 | after one assignment per row into an empty dict, a key is present iff some row carries it, in both directions |
| OrderedDict.LoadedLastWins | restaurant_recommender.py:33-35 | after one assignment per row into an empty dict, a key holds the value built from the last row carrying it |
| Restaurant.CatalogueDomain | restaurant_recommender.py:31-44 | a freshly loaded catalogue holds an id iff some vendor row has that id |
| Restaurant.CatalogueLastWins | restaurant_recommender.py:31-44 | in a freshly loaded catalogue an id holds the record (with defaults) built from its last vendor row |
| Restaurant.RestaurantRecommender.constructor | restaurant_recommender.py:12-15 | a new recommender has an empty catalogue, no order sets and no category counts |
| Restaurant.RestaurantRecommender.LoadData | restaurant_recommender.py:26-60 | the catalogue is the old one after the vendor rows' assignments; the order sets and category counts are the old ones after the order rows, counted against the final catalogue |
| Restaurant.RestaurantRecommender.LoadVendors | restaurant_recommender.py:31-44 | the vendor loop performs exactly the rows' assignments, in order, and changes nothing else |
| Restaurant.RestaurantRecommender.LoadOrders | restaurant_recommender.py:49-60 | the order loop adds each order to the customer's set and counts its category only when the vendor is in the catalogue; the catalogue is unchanged |
| OrderHistory.RecordOrdersMembership | restaurant_recommender.py:55 | `v` is in customer `c`'s set iff it was before or some order row is `(c, v)` |
| OrderHistory.RecordOrdersCustomers | restaurant_recommender.py:55 | a customer has a set iff it had one or has at least one order row |
| Restaurant.PreferencesCount | restaurant_recommender.py:58-60 | the count of category `cat` for `c` grows by exactly the number of `c`'s orders from catalogue vendors of that category |
| Restaurant.PreferencesCustomers | restaurant_recommender.py:58-60 | a customer has a counter iff it had one or ordered from some catalogue vendor |
| Restaurant.UnknownVendorOnlyMembership | restaurant_recommender.py:55-60 | an order for a vendor outside the catalogue changes no count but still enters the customer's set |
| Restaurant.DistanceBands | restaurant_recommender.py:85-94 | 20/15/10/5/1 points, each band exactly its interval with inclusive upper bounds 1, 3, 5, 8 |
| Restaurant.DistancePointsMonotone | restaurant_recommender.py:85-94 | band points never increase with distance |
| Restaurant.InRangeScore | restaurant_recommender.py:119 | the clamped score is never negative and never below the unclamped one |
| Restaurant.CalculateVendorScore | restaurant_recommender.py:64-119 | the score is never negative; it is 0 for an id outside the catalogue and for a vendor farther away than its serving distance |
| Restaurant.PositiveScoreInRange | restaurant_recommender.py:66-79 | a positive score implies a catalogue vendor within its serving distance |
| Restaurant.RatingMonotone | restaurant_recommender.py:97-119 | all else equal, a higher rating never lowers the score |
| Restaurant.RatingKeepsRank | restaurant_recommender.py:145-156 | raising a candidate's rating never moves it to a later index of the sorted score list; it reappears there with its new score |
| Restaurant.RatingKeepsChosen | restaurant_recommender.py:145-171 | a vendor a location row emits is still emitted, with its new score, after its rating rises, all else (catalogue, history, earlier output) equal |
| Restaurant.RaisedCandidates | restaurant_recommender.py:147-153 | raising vendor `id`'s rating changes only `id`'s candidate entry, to a score no lower; the candidates name distinct vendors |
| Restaurant.CandidatesDistinct | restaurant_recommender.py:147-153 | iterating distinct catalogue keys gives candidates for distinct vendors |
| Restaurant.RaisedMinScore | restaurant_recommender.py:159 | an entry that cleared `max(10, top * 0.1)` still clears the recomputed threshold after its own score rises |
| Restaurant.RaisedThreshold | restaurant_recommender.py:159 | the same for a candidate whose rating rises |
| Restaurant.ClosingEffect | restaurant_recommender.py:106-107 | closing a vendor lowers its score strictly when its subtotal is positive, and never lowers it otherwise |
| Restaurant.BonusesNotScaled | restaurant_recommender.py:96-117 | for a closed vendor only the distance, rating, charge and discount subtotal is scaled by 0.1; +50 and count×2 are added in full |
| Restaurant.PriorOrderBonus | restaurant_recommender.py:109-119 | a prior order never lowers the score, adds at most 50, and adds exactly 50 when the score without it is not negative |
| Restaurant.CategoryBonus | restaurant_recommender.py:113-119 | one more order in the category never lowers the score, and adds exactly 2 when the score before the clamp is not negative |
| Restaurant.NoHistoryNoBonus | restaurant_recommender.py:109-119 | a customer with no history gets exactly the clamped, open-adjusted subtotal |
| Restaurant.CandidatesExact | restaurant_recommender.py:147-153 | an entry is a candidate iff its vendor is in the catalogue and its score, which it carries, is positive |
| Ranking.SortPermutes | restaurant_recommender.py:156 | the sort is a permutation of the candidates |
| Ranking.SortSorted | restaurant_recommender.py:156 | the sorted list is in descending score order |
| Ranking.SortStable | restaurant_recommender.py:156 | entries with equal scores keep their catalogue order |
| Ranking.SortedHeadIsTop | restaurant_recommender.py:156-159 | the head of the sorted list carries the highest candidate score |
| Ranking.SortRank | restaurant_recommender.py:156 | the stable descending sort puts entry `i` at the index counting the earlier entries scoring at least as much and the later entries scoring more |
| Ranking.RaiseAhead | restaurant_recommender.py:156 | raising one entry's score never increases that count |
| Ranking.RaiseKeepsRank | restaurant_recommender.py:156 | with distinct vendors, an entry whose score rises lands at an index no later than before |
| Ranking.SortDistinct | restaurant_recommender.py:156 | sorting keeps the vendors distinct |
| Ranking.Take | simple_recommender.py:115 | `s[:n]` has `min(n, len(s))` entries, the first ones of `s` |
| Restaurant.MinScore | restaurant_recommender.py:159 | the threshold is at least 10 and at least a tenth of the top score |
| Restaurant.EmitGroupShape | restaurant_recommender.py:161-171 | one location row appends, in order, the first `10 - n` candidates clearing the threshold, where `n` counts ALL earlier output rows of its key |
| Restaurant.PerKeyCap | restaurant_recommender.py:162-171 | no `(customer, location number)` key has more than 10 rows in the whole output, even when it appears on several location rows |
| Restaurant.FreshGroupSelection | restaurant_recommender.py:156-171 | the first row of a key emits the candidates scoring at least `max(10, top*0.1)`, in descending order with ties in catalogue order, truncated to 10 |
| Restaurant.GroupIsChosen | restaurant_recommender.py:156-171 | a location row appends, after the earlier output, one recommendation per chosen candidate |
| Restaurant.GroupRowAt | restaurant_recommender.py:161-171 | appended row `i` carries the row's key and the vendor and score of chosen candidate `i - len(earlier output)` |
| Restaurant.GroupRowQualifies | restaurant_recommender.py:145-171 | one appended row is for its own key, names a catalogue vendor within serving distance, carries its score and clears the threshold |
| Restaurant.GroupRowsQualify | restaurant_recommender.py:145-171 | each appended row is for its own key, names a catalogue vendor within serving distance, carries that vendor's score, clears the threshold; the rows are in descending score order; earlier output is untouched |
| Restaurant.GroupEmitsIff | restaurant_recommender.py:159-164 | a location row adds a row iff its best candidate scores at least 10 and its key has fewer than 10 rows |
| Restaurant.ScoreCandidates | restaurant_recommender.py:145-153 | the scoring loop of one location row returns the catalogue vendors with a positive score, in insertion order |
| Restaurant.EmitCandidates | restaurant_recommender.py:161-171 | the emission loop appends what the specification prescribes and keeps the counter map equal to the per-key count of the output |
| Restaurant.RestaurantRecommender.GenerateRecommendations | restaurant_recommender.py:121-173 | the method, which keeps a per-key counter map instead of rescanning, returns exactly the specified recommendation list |
| Restaurant.SingleVendorCase | restaurant_recommender.py:64-184 | an open vendor rated 5 on the customer's spot scores 35 and yields the single row `"C1 X 1 X 1", 1` |
| Restaurant.OutOfRangeCase | restaurant_recommender.py:78-79 | a vendor serving 0.0001 km with the customer 5 km away yields no row |
| Restaurant.RestaurantRecommender.Run | restaurant_recommender.py:189-201 | load, generate and save: the file is the header then one row per specified recommendation |
| Submission.RecsFor | restaurant_recommender.py:166-171 | one recommendation per selected entry |
| Submission.RecsForAt | restaurant_recommender.py:166-171 | recommendation `i` carries the key and entry `i`'s vendor and score |
| Submission.RecsForAppend | restaurant_recommender.py:161-171 | emitting two runs of entries is emitting their concatenation |
| Submission.NatToStringDigits | restaurant_recommender.py:184 | `str(n)` of a natural number is non-empty and all digits |
| Submission.IntToStringRoundTrip | restaurant_recommender.py:184 | `str(n)` of an integer contains no space and parses back to `n` |
| Submission.ParseJoined | restaurant_recommender.py:184 | three fields joined by `" X "`, the last two integer texts without spaces, parse back to the first field and the two integers |
| Submission.ParseFormatKey | restaurant_recommender.py:184 | a key parses back to its customer id, location number and vendor id, whatever the customer id holds |
| Submission.SaveSubmission | restaurant_recommender.py:179-185 | the file is the header row, then row `i + 1` is recommendation `i`'s key with target 1 |
| Submission.RowsDecode | restaurant_recommender.py:183-185 | every written row has target 1 and decodes back to its recommendation |
| Simple.MakeVendor | simple_recommender.py:21-26 | an empty or missing rating or delivery charge counts as 0; coordinates are copied |
| Simple.LoadVendors | simple_recommender.py:17-26 | the vendor loop yields a well-formed dict: the rows' assignments into an empty dict; an id is present iff some row has it, and holds the record built from its last row |
| Simple.LoadOrders | simple_recommender.py:31-35 | the order loop yields the order sets of all rows |
| Simple.OrderSetExact | simple_recommender.py:31-35 | customer `c`'s set holds `v` iff some order row is `(c, v)` |
| Simple.CleanKeeps | simple_recommender.py:48-64 | a location row is kept iff its customer is a test customer and both coordinates and the location number parse; it is kept with its parsed values |
| Simple.CleansedMembers | simple_recommender.py:45-64 | `test_data` holds exactly the kept rows |
| Simple.CleansedAppend | simple_recommender.py:45-64 | cleansing keeps file order |
| Simple.CleanseLocations | simple_recommender.py:40-64 | the location loop returns the cleansed rows, against the test-customer ids |
| Simple.DistanceBands | simple_recommender.py:89-94 | 10/5/2/0 points, each band exactly its interval with strict upper bounds 1, 5, 10 |
| Simple.DistancePointsMonotone | simple_recommender.py:89-94 | band points never increase with distance |
| Simple.DeliveryBands | simple_recommender.py:100-103 | +3 iff the charge is 0; +1 iff the charge is non-zero and below 1; otherwise 0 |
| Simple.ScoreTerms | simple_recommender.py:86-107 | the rating is added 1:1; a prior order adds exactly 15; with no clamp, the score lies between the rating and the rating plus 28 |
| Simple.Scores | simple_recommender.py:79-109 | one entry per catalogue vendor |
| Simple.ScoresAt | simple_recommender.py:81-109 | entry `j` is vendor `j` of the iteration order with its score: no vendor is filtered |
| Simple.ScoresMember | simple_recommender.py:81-109 | every entry names a catalogue vendor and carries its score |
| Simple.Above | simple_recommender.py:116 | the filter `score > 3` never lengthens the list |
| Simple.AboveMembers | simple_recommender.py:116 | an entry passes iff it is in the list and scores strictly above 3 |
| Simple.AboveTake | simple_recommender.py:112-116 | on a sorted list, filtering the first five equals taking the first five of the filtered list |
| Simple.AboveSortCount | simple_recommender.py:112 | sorting does not change how many entries score above 3 |
| Simple.RowSelectionSpec | simple_recommender.py:111-122 | a row emits the first five entries above 3 in stable descending order: `min(5, number above 3)` entries, each an input entry above 3 |
| Simple.RowSelectionCrowdedOut | simple_recommender.py:115-116 | an entry above 3 that is not emitted was crowded out by five emitted entries scoring at least as much |
| Simple.RowRecommendationAt | simple_recommender.py:115-122 | emitted row `i` of a location row carries its key and the vendor and score of selected entry `i` |
| Simple.RowRecommendationQualifies | simple_recommender.py:72-122 | one emitted row is for its own key, names a catalogue vendor with its score, above 3 |
| Simple.RowRowsQualify | simple_recommender.py:72-122 | a kept location row emits at most five rows, for its own key, naming catalogue vendors with their scores, all above 3, best first |
| Simple.RecommendationsAppend | simple_recommender.py:72-122 | the output is the rows' selections in location-row order |
| Simple.RowCap | simple_recommender.py:115-122 | the cap is per row: at most five rows per kept location row |
| Simple.RepeatedRow | simple_recommender.py:72-122 | the cap is not per key: a location row listed twice emits its selection twice |
| Simple.ScoreVendor | simple_recommender.py:86-107 | the score built term by term equals distance points plus rating plus delivery points plus 15 for a prior order |
| Simple.ScoreVendors | simple_recommender.py:79-109 | the scoring loop returns the specified list, one entry per vendor in insertion order |
| Simple.EmitTop | simple_recommender.py:115-122 | the emission loop appends exactly the entries of the top five scoring above 3 |
| Simple.GenerateRecommendations | simple_recommender.py:68-122 | the recommendation loop returns exactly the specified list |
| Simple.Run | simple_recommender.py:13-132 | the file is the header, then one row per recommendation of the whole script |
| Minimal.LoadVendors | minimal_rec.py:5-9 | the vendor list is the ids in file order, duplicates kept |
| Minimal.EmissionLength | minimal_rec.py:17-26 | every location row contributes exactly `min(5, len(vendors))` rows |
| Minimal.PicksLength | minimal_rec.py:19-26 | the location loop pairs every location row with exactly `min(5, len(vendors))` vendor ids |
| Minimal.PicksAppend | minimal_rec.py:19-26 | the location loop over two runs of rows is the loop over the first run followed by the loop over the second |
| Minimal.PicksAt | minimal_rec.py:19-26 | the picks of location row `i` follow those of the rows before it, and the `j`-th of them is vendor `j` of the file |
| Minimal.EmissionAt | minimal_rec.py:19-26 | the rows before location row `i` number `k*i`, with `k = min(5, len(vendors))`, and row `k*i + j` is the row for location row `i` and vendor `j`: location order first, then vendor order |
| Minimal.CellDecodes | minimal_rec.py:25-26 | each row has target 1 and its key decodes back to customer, location number and vendor id |
| Minimal.EmitRow | minimal_rec.py:24-26 | the inner loop appends one row per vendor id of `vendors[:5]`, in order |
| Minimal.GenerateRecommendations | minimal_rec.py:17-26 | the nested loop returns exactly the specified rows |
| Minimal.Run | minimal_rec.py:5-32 | the file is the header then the rows: `1 + rows * min(5, len(vendors))` rows, whatever the test-customer ids are |

## Left out
- The haversine formula (`restaurant_recommender.py:17-24`, `simple_recommender.py:5-11`). It is trigonometric
  floating-point work, so every operation takes a distance oracle as a parameter instead.
- File I/O and output:
  - CSV reading and writing, the fixed paths and the progress prints are not modelled. The inputs are sequences of parsed rows.
  - The output is the sequence of written rows, header first.
  - The sample printout in `run` is not modelled.
- String-to-number parsing:
  - In the vendor, order and location files, `int()` and `float()` are taken to succeed on required fields.
    When they fail, the script raises and stops. This happens at `restaurant_recommender.py:34-42` (vendor
    id and fields), `:53` (order vendor id) and `:140-142` (location number and coordinates);
    `simple_recommender.py:21-22` (vendor id and coordinates) and `:35` (order vendor id); and
    `minimal_rec.py:9,21` (vendor id and location number). The model follows the code, not a drop-the-row
    rule, and does not model the crash.
  - Optional vendor fields are `Option`s, with `None` for missing or empty.
  - In `simple_recommender.py` a location cell is `Blank`, `Unparsable` or `Parsed`. Only that outcome is modelled.
- Floating point:
  - Scores are exact reals, so the rounding of `* 0.1` and `* 0.5` in IEEE doubles is not reproduced.
  - NaN and infinite coordinates or fields are not modelled.
- The test-customer file:
  - It is read in `restaurant_recommender.py:128-132` and `minimal_rec.py:13-15`, and never consulted afterwards,
    so those models take no customer list. `Minimal.Run` takes the ids and ignores them.
  - In `simple_recommender.py` it does filter locations, and the model uses it there.
- `list.sort` works in place on a local list. The model applies a pure stable sort to that list's value.
  Nothing else can observe the list, so no aliasing is involved.
- The third tuple component `dist` in `simple_recommender.py:109` is never read, so it is dropped.
- `recommendation_engine.py` and `explore.py` are not part of this model.
- The quadratic rescan of the output (`restaurant_recommender.py:162-164`) is kept, in the method, as a per-key
  counter map. Its loop invariant proves the counter equals the rescan's count for every key, and the
  specification functions count over the output as the code does, so the result is the rescan's.

## Behaviour worth knowing

- `restaurant_recommender.py:159-162` never emits a candidate scoring below 10: the threshold is
  `max(10, top * 0.1)`, so a location row whose candidates all score between 0 and 10 emits nothing.
  `Restaurant.GroupEmitsIff` makes that exact.
- `restaurant_recommender.py:110-119` adds the prior-order +50 before the `max(0, ...)` clamp, so the bonus
  is exactly 50 only when the score without it is not negative; otherwise the clamp absorbs part of it
  (`Restaurant.PriorOrderBonus`).
- Required fields are converted with `int`/`float`, which raise on an unparsable value, so such a row stops
  the script rather than being dropped: `restaurant_recommender.py:34-42`, `:53` and `:140-142`;
  `simple_recommender.py:21-22` and `:35`; `minimal_rec.py:9,21`. The model takes those fields as already
  parsed. Only the location cells of `simple_recommender.py:48-64`, parsed inside a `try`, are dropped on
  failure.
