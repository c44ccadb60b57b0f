/**
 * Python's `dict`: a finite map whose iteration order is the order in which keys
 * were FIRST inserted.  Assigning to an existing key replaces its value and leaves
 * its position alone.
 */
module OrderedDict {

  datatype Dict<K, V> = Dict(keys: seq<K>, values: map<K, V>)

  /** The keys are distinct and are exactly the domain of the map. */
  ghost predicate Valid<K, V>(d: Dict<K, V>)
  {
    && (forall i, j :: 0 <= i < j < |d.keys| ==> d.keys[i] != d.keys[j])
    && d.values.Keys == (set k | k in d.keys)
  }

  function Empty<K, V>(): (d: Dict<K, V>)
    ensures Valid(d) && d.keys == [] && d.values == map[]
  {
    Dict([], map[])
  }

  /** `d[k] = v`. */
  function Put<K, V>(d: Dict<K, V>, k: K, v: V): (r: Dict<K, V>)
    ensures Valid(d) ==> Valid(r)
    ensures r.values == d.values[k := v]
  {
    if k in d.values then Dict(d.keys, d.values[k := v])
    else Dict(d.keys + [k], d.values[k := v])
  }

  /** The assignments `d[k] = v` for each `(k, v)` of `es`, in order. */
  function PutAll<K, V>(d: Dict<K, V>, es: seq<(K, V)>): (r: Dict<K, V>)
    ensures Valid(d) ==> Valid(r)
  {
    if es == [] then d
    else
      var last := es[|es| - 1];
      Put(PutAll(d, es[..|es| - 1]), last.0, last.1)
  }

  ghost predicate Mentions<K, V>(es: seq<(K, V)>, k: K)
  {
    exists i :: 0 <= i < |es| && es[i].0 == k
  }

  /**
   * Reference definition of the keys `es` adds to a dict whose keys are `seen`:
   * each new key once, at its first occurrence, in order.
   */
  function NewKeys<K, V>(seen: set<K>, es: seq<(K, V)>): seq<K>
    decreases |es|
  {
    if es == [] then []
    else if es[0].0 in seen then NewKeys(seen, es[1..])
    else [es[0].0] + NewKeys(seen + {es[0].0}, es[1..])
  }

  /** The keys of the result are those of `d` plus every key `es` mentions. */
  lemma {:induction false} PutAllDomain<K, V>(d: Dict<K, V>, es: seq<(K, V)>, k: K)
    ensures k in PutAll(d, es).values <==> k in d.values || Mentions(es, k)
  {
    if es != [] {
      var p := es[..|es| - 1];
      PutAllDomain(d, p, k);
      if Mentions(es, k) && !Mentions(p, k) {
        var i :| 0 <= i < |es| && es[i].0 == k;
        assert i == |es| - 1;
      }
      if Mentions(p, k) {
        var i :| 0 <= i < |p| && p[i].0 == k;
        assert es[i].0 == k;
      }
    }
  }

  /** The last assignment to a key decides its value ("last seen wins"). */
  lemma {:induction false} PutAllLastWins<K, V>(d: Dict<K, V>, es: seq<(K, V)>, j: int)
    requires 0 <= j < |es|
    requires forall i :: j < i < |es| ==> es[i].0 != es[j].0
    ensures es[j].0 in PutAll(d, es).values && PutAll(d, es).values[es[j].0] == es[j].1
  {
    if j < |es| - 1 {
      var p := es[..|es| - 1];
      assert forall i :: j < i < |p| ==> p[i].0 != p[j].0 by {
        forall i | j < i < |p| ensures p[i].0 != p[j].0 {
          assert p[i] == es[i];
        }
      }
      PutAllLastWins(d, p, j);
    }
  }

  /** A key no assignment mentions keeps its old value. */
  lemma {:induction false} PutAllUntouched<K, V>(d: Dict<K, V>, es: seq<(K, V)>, k: K)
    requires k in d.values && !Mentions(es, k)
    ensures k in PutAll(d, es).values && PutAll(d, es).values[k] == d.values[k]
  {
    if es != [] {
      PutAllUntouched(d, es[..|es| - 1], k);
    }
  }

  /** The assignments `d[key(row)] = make(row)`, one per row, in row order. */
  function Entries<R, K, V>(rows: seq<R>, key: R -> K, make: R -> V): (es: seq<(K, V)>)
    ensures |es| == |rows|
    ensures forall i :: 0 <= i < |rows| ==> es[i] == (key(rows[i]), make(rows[i]))
  {
    seq(|rows|, i requires 0 <= i < |rows| => (key(rows[i]), make(rows[i])))
  }

  /** Loading rows into an empty dict: a key is present iff some row carries it. */
  lemma LoadedDomain<R, K, V>(rows: seq<R>, key: R -> K, make: R -> V, k: K)
    ensures k in PutAll(Empty(), Entries(rows, key, make)).values
            <==> exists i :: 0 <= i < |rows| && key(rows[i]) == k
  {
    var es := Entries(rows, key, make);
    PutAllDomain(Empty(), es, k);
    if Mentions(es, k) {
      var i :| 0 <= i < |es| && es[i].0 == k;
      assert key(rows[i]) == k;
    }
    if exists i :: 0 <= i < |rows| && key(rows[i]) == k {
      var i :| 0 <= i < |rows| && key(rows[i]) == k;
      assert es[i].0 == k;
    }
  }

  /** Loading rows into an empty dict: the last row carrying a key decides its value. */
  lemma LoadedLastWins<R, K, V>(rows: seq<R>, key: R -> K, make: R -> V, j: int)
    requires 0 <= j < |rows|
    requires forall i :: j < i < |rows| ==> key(rows[i]) != key(rows[j])
    ensures var d := PutAll(Empty(), Entries(rows, key, make));
            key(rows[j]) in d.values && d.values[key(rows[j])] == make(rows[j])
  {
    var es := Entries(rows, key, make);
    assert forall i :: j < i < |es| ==> es[i].0 != es[j].0;
    PutAllLastWins(Empty(), es, j);
  }

  lemma {:induction false} NewKeysSnoc<K, V>(seen: set<K>, es: seq<(K, V)>, e: (K, V))
    ensures NewKeys(seen, es + [e])
         == NewKeys(seen, es) + (if e.0 in seen || Mentions(es, e.0) then [] else [e.0])
    decreases |es|
  {
    if es == [] {
      assert ([e])[1..] == [];
    } else {
      assert (es + [e])[0] == es[0];
      assert (es + [e])[1..] == es[1..] + [e];
      var x := es[0];
      var rest := es[1..];
      if x.0 in seen {
        NewKeysSnoc(seen, rest, e);
        assert Mentions(es, e.0) <==> e.0 == x.0 || Mentions(rest, e.0) by {
          MentionsCons(es, e.0);
        }
      } else {
        NewKeysSnoc(seen + {x.0}, rest, e);
        assert Mentions(es, e.0) <==> e.0 == x.0 || Mentions(rest, e.0) by {
          MentionsCons(es, e.0);
        }
      }
    }
  }

  lemma MentionsCons<K, V>(es: seq<(K, V)>, k: K)
    requires es != []
    ensures Mentions(es, k) <==> es[0].0 == k || Mentions(es[1..], k)
  {
    if Mentions(es, k) && es[0].0 != k {
      var i :| 0 <= i < |es| && es[i].0 == k;
      assert es[1..][i - 1].0 == k;
    }
    if Mentions(es[1..], k) {
      var i :| 0 <= i < |es[1..]| && es[1..][i].0 == k;
      assert es[i + 1].0 == k;
    }
  }

  /**
   * Iteration order: the old keys, then each key `es` introduces, at the position of
   * its first insertion.  A later assignment to a key does not move it.
   */
  lemma {:induction false} PutAllKeys<K, V>(d: Dict<K, V>, es: seq<(K, V)>)
    requires Valid(d)
    ensures PutAll(d, es).keys == d.keys + NewKeys(d.values.Keys, es)
  {
    if es != [] {
      var p := es[..|es| - 1];
      var e := es[|es| - 1];
      assert es == p + [e];
      PutAllKeys(d, p);
      NewKeysSnoc(d.values.Keys, p, e);
      PutAllDomain(d, p, e.0);
    }
  }
}
