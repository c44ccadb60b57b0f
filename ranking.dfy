/**
 * Ranking of scored vendors: Python's `list.sort(key=lambda x: x[1], reverse=True)`,
 * a stable sort by score, highest first, in which equal scores keep their input order.
 */
module Ranking {

  /** One `(vendor_id, score)` entry of a per-location score list. */
  datatype Scored = Scored(vendorId: int, score: real)

  ghost predicate SortedDesc(s: seq<Scored>)
  {
    forall i, j :: 0 <= i < j < |s| ==> s[i].score >= s[j].score
  }

  /** The entries of `s` whose score is exactly `k`, in their order in `s`. */
  function WithScore(s: seq<Scored>, k: real): seq<Scored>
  {
    if s == [] then []
    else (if s[0].score == k then [s[0]] else []) + WithScore(s[1..], k)
  }

  /**
   * Places `x` after every entry scoring strictly more and before the first entry
   * scoring at most as much, so that `x` precedes the equal entries of `s`.
   */
  function Insert(x: Scored, s: seq<Scored>): seq<Scored>
  {
    if s == [] || s[0].score <= x.score then [x] + s
    else [s[0]] + Insert(x, s[1..])
  }

  /** The model of `vendor_scores.sort(key=lambda x: x[1], reverse=True)`. */
  function SortByScoreDesc(s: seq<Scored>): seq<Scored>
  {
    if s == [] then [] else Insert(s[0], SortByScoreDesc(s[1..]))
  }

  lemma {:induction false} InsertPermutes(x: Scored, s: seq<Scored>)
    ensures multiset(Insert(x, s)) == multiset(s) + multiset{x}
  {
    if s != [] && s[0].score > x.score {
      InsertPermutes(x, s[1..]);
      assert s == [s[0]] + s[1..];
    }
  }

  lemma {:induction false} InsertSorted(x: Scored, s: seq<Scored>)
    requires SortedDesc(s)
    ensures SortedDesc(Insert(x, s))
  {
    if s != [] && s[0].score > x.score {
      var t := s[1..];
      InsertSorted(x, t);
      InsertPermutes(x, t);
      var r := Insert(x, t);
      forall j | 0 <= j < |r| ensures s[0].score >= r[j].score {
        assert r[j] in multiset(r);
        assert r[j] in multiset(t) || r[j] == x;
        if r[j] != x {
          var m :| 0 <= m < |t| && t[m] == r[j];
          assert s[m + 1] == t[m];
        }
      }
    }
  }

  lemma {:induction false} InsertWithScore(x: Scored, s: seq<Scored>, k: real)
    ensures WithScore(Insert(x, s), k) == (if x.score == k then [x] else []) + WithScore(s, k)
  {
    var own: seq<Scored> := if x.score == k then [x] else [];
    if s != [] && s[0].score > x.score {
      var t := s[1..];
      var head: seq<Scored> := if s[0].score == k then [s[0]] else [];
      InsertWithScore(x, t, k);
      var r := [s[0]] + Insert(x, t);
      assert r[0] == s[0] && r[1..] == Insert(x, t);
      calc {
        WithScore(r, k);
        head + WithScore(Insert(x, t), k);
        head + (own + WithScore(t, k));
        { assert x.score == k ==> head == []; }
        own + (head + WithScore(t, k));
        own + WithScore(s, k);
      }
    } else {
      var r := [x] + s;
      assert r[0] == x && r[1..] == s;
    }
  }

  /** The sort rearranges its input: same entries, same multiplicities. */
  lemma {:induction false} SortPermutes(s: seq<Scored>)
    ensures multiset(SortByScoreDesc(s)) == multiset(s)
  {
    if s != [] {
      SortPermutes(s[1..]);
      InsertPermutes(s[0], SortByScoreDesc(s[1..]));
      assert s == [s[0]] + s[1..];
    }
  }

  /** The result is ordered by score, highest first. */
  lemma {:induction false} SortSorted(s: seq<Scored>)
    ensures SortedDesc(SortByScoreDesc(s))
  {
    if s != [] {
      SortSorted(s[1..]);
      InsertSorted(s[0], SortByScoreDesc(s[1..]));
    }
  }

  /** Stability: the entries of any one score keep their relative input order. */
  lemma {:induction false} SortStable(s: seq<Scored>, k: real)
    ensures WithScore(SortByScoreDesc(s), k) == WithScore(s, k)
  {
    if s != [] {
      SortStable(s[1..], k);
      InsertWithScore(s[0], SortByScoreDesc(s[1..]), k);
    }
  }

  /** The first entry of the sorted list carries the highest score of the input. */
  lemma SortedHeadIsTop(s: seq<Scored>)
    requires s != []
    ensures |SortByScoreDesc(s)| == |s|
    ensures SortByScoreDesc(s)[0] in s
    ensures forall x :: x in s ==> x.score <= SortByScoreDesc(s)[0].score
  {
    var r := SortByScoreDesc(s);
    SortPermutes(s);
    SortSorted(s);
    assert |multiset(r)| == |r| && |multiset(s)| == |s|;
    assert r[0] in multiset(r);
    forall x | x in s ensures x.score <= r[0].score {
      assert x in multiset(s);
      var j :| 0 <= j < |r| && r[j] == x;
    }
  }

  // ---------------------------------------------------------------------------
  // Rank: where the sort puts an entry
  // ---------------------------------------------------------------------------

  /** The number of entries of `s` scoring more than `k`. */
  function CountAbove(s: seq<Scored>, k: real): nat
  {
    if s == [] then 0 else (if s[0].score > k then 1 else 0) + CountAbove(s[1..], k)
  }

  /** The number of entries of `s` scoring at least `k`. */
  function CountAtLeast(s: seq<Scored>, k: real): nat
  {
    if s == [] then 0 else (if s[0].score >= k then 1 else 0) + CountAtLeast(s[1..], k)
  }

  /**
   * Reference definition of the rank of entry `i`: the entries before it that score
   * at least as much, and the entries after it that score more.
   */
  function Ahead(s: seq<Scored>, i: int): nat
    requires 0 <= i < |s|
  {
    CountAtLeast(s[..i], s[i].score) + CountAbove(s[i + 1..], s[i].score)
  }

  /** How many leading entries of `t` `Insert` steps over. */
  function InsertPos(x: Scored, t: seq<Scored>): nat
  {
    if t == [] || t[0].score <= x.score then 0 else 1 + InsertPos(x, t[1..])
  }

  lemma {:induction false} InsertAt(x: Scored, t: seq<Scored>)
    ensures InsertPos(x, t) <= |t|
    ensures Insert(x, t) == t[..InsertPos(x, t)] + [x] + t[InsertPos(x, t)..]
  {
    if t != [] && t[0].score > x.score {
      InsertAt(x, t[1..]);
      var r := InsertPos(x, t[1..]);
      assert t[..r + 1] == [t[0]] + t[1..][..r];
      assert t[r + 1..] == t[1..][r..];
    }
  }

  lemma {:induction false} InsertPosBefore(x: Scored, t: seq<Scored>, q: int)
    requires 0 <= q < InsertPos(x, t)
    ensures q < |t| && t[q].score > x.score
  {
    if q > 0 {
      InsertPosBefore(x, t[1..], q - 1);
    }
  }

  lemma {:induction false} InsertPosPast(x: Scored, t: seq<Scored>, q: int)
    requires 0 <= q < |t|
    requires forall j :: 0 <= j <= q ==> t[j].score > x.score
    ensures InsertPos(x, t) > q
  {
    if q > 0 {
      InsertPosPast(x, t[1..], q - 1);
    }
  }

  lemma {:induction false} CountAboveNone(t: seq<Scored>, k: real)
    requires forall j :: 0 <= j < |t| ==> t[j].score <= k
    ensures CountAbove(t, k) == 0
  {
    if t != [] {
      CountAboveNone(t[1..], k);
    }
  }

  /** On a sorted list, `Insert` steps over exactly the entries scoring more. */
  lemma {:induction false} InsertPosCount(x: Scored, t: seq<Scored>)
    requires SortedDesc(t)
    ensures InsertPos(x, t) == CountAbove(t, x.score)
  {
    if t != [] {
      if t[0].score <= x.score {
        CountAboveNone(t, x.score);
      } else {
        InsertPosCount(x, t[1..]);
      }
    }
  }

  lemma {:induction false} CountAboveInsert(x: Scored, t: seq<Scored>, k: real)
    ensures CountAbove(Insert(x, t), k) == CountAbove(t, k) + (if x.score > k then 1 else 0)
  {
    if t != [] && t[0].score > x.score {
      CountAboveInsert(x, t[1..], k);
      var r := [t[0]] + Insert(x, t[1..]);
      assert r[1..] == Insert(x, t[1..]);
    } else {
      var r := [x] + t;
      assert r[1..] == t;
    }
  }

  lemma {:induction false} CountAboveSort(s: seq<Scored>, k: real)
    ensures CountAbove(SortByScoreDesc(s), k) == CountAbove(s, k)
  {
    if s != [] {
      CountAboveSort(s[1..], k);
      CountAboveInsert(s[0], SortByScoreDesc(s[1..]), k);
    }
  }

  lemma SortLength(s: seq<Scored>)
    ensures |SortByScoreDesc(s)| == |s|
  {
    SortPermutes(s);
    assert |multiset(SortByScoreDesc(s))| == |multiset(s)|;
  }

  /** On a sorted list, `Insert` places `x` after exactly the entries scoring more. */
  lemma InsertFront(x: Scored, t: seq<Scored>)
    requires SortedDesc(t)
    ensures CountAbove(t, x.score) < |Insert(x, t)| && Insert(x, t)[CountAbove(t, x.score)] == x
  {
    InsertAt(x, t);
    InsertPosCount(x, t);
    var r := InsertPos(x, t);
    assert (t[..r] + [x] + t[r..])[r] == x;
  }

  /** On a sorted list, `Insert` shifts entry `q` by one iff `x` scores at least as much. */
  lemma InsertShift(x: Scored, t: seq<Scored>, q: int)
    requires SortedDesc(t) && 0 <= q < |t|
    ensures |Insert(x, t)| == |t| + 1
    ensures x.score >= t[q].score ==> q + 1 < |Insert(x, t)| && Insert(x, t)[q + 1] == t[q]
    ensures x.score < t[q].score ==> Insert(x, t)[q] == t[q]
  {
    InsertAt(x, t);
    var r := InsertPos(x, t);
    var out := t[..r] + [x] + t[r..];
    if x.score >= t[q].score {
      if r > q {
        InsertPosBefore(x, t, q);
      }
      assert out[q + 1] == t[q];
    } else {
      InsertPosPast(x, t, q);
      assert out[q] == t[q];
    }
  }

  /** The rank of a later entry counts the first entry iff it scores at least as much. */
  lemma AheadCons(s: seq<Scored>, i: int)
    requires 0 < i < |s|
    ensures Ahead(s, i) == (if s[0].score >= s[i].score then 1 else 0) + Ahead(s[1..], i - 1)
  {
    var rest := s[1..];
    assert s[..i] == [s[0]] + rest[..i - 1];
    assert ([s[0]] + rest[..i - 1])[1..] == rest[..i - 1];
    assert s[i + 1..] == rest[i..];
  }

  /** The stable descending sort puts entry `i` at index `Ahead(s, i)`. */
  lemma {:induction false} SortRank(s: seq<Scored>, i: int)
    requires 0 <= i < |s|
    ensures |SortByScoreDesc(s)| == |s|
    ensures Ahead(s, i) < |s| && SortByScoreDesc(s)[Ahead(s, i)] == s[i]
  {
    SortLength(s);
    var rest := s[1..];
    SortSorted(rest);
    if i == 0 {
      InsertFront(s[0], SortByScoreDesc(rest));
      CountAboveSort(rest, s[0].score);
      assert s[..0] == [];
    } else {
      SortRank(rest, i - 1);
      AheadCons(s, i);
      InsertShift(s[0], SortByScoreDesc(rest), Ahead(rest, i - 1));
    }
  }

  lemma {:induction false} CountAboveAnti(t: seq<Scored>, k1: real, k2: real)
    requires k1 <= k2
    ensures CountAbove(t, k2) <= CountAbove(t, k1)
  {
    if t != [] {
      CountAboveAnti(t[1..], k1, k2);
    }
  }

  lemma {:induction false} CountAtLeastAnti(t: seq<Scored>, k1: real, k2: real)
    requires k1 <= k2
    ensures CountAtLeast(t, k2) <= CountAtLeast(t, k1)
  {
    if t != [] {
      CountAtLeastAnti(t[1..], k1, k2);
    }
  }

  /** Raising one entry's score never gives it a later rank. */
  lemma RaiseAhead(s: seq<Scored>, i: int, b: real)
    requires 0 <= i < |s| && s[i].score <= b
    ensures Ahead(s[i := s[i].(score := b)], i) <= Ahead(s, i)
  {
    var s2 := s[i := s[i].(score := b)];
    assert s2[..i] == s[..i];
    assert s2[i + 1..] == s[i + 1..];
    CountAtLeastAnti(s[..i], s[i].score, b);
    CountAboveAnti(s[i + 1..], s[i].score, b);
  }

  /** No two entries name the same vendor. */
  ghost predicate DistinctIds(s: seq<Scored>)
  {
    forall i, j :: 0 <= i < j < |s| ==> s[i].vendorId != s[j].vendorId
  }

  lemma {:induction false} InsertDistinct(x: Scored, t: seq<Scored>)
    requires DistinctIds(t)
    requires forall j :: 0 <= j < |t| ==> t[j].vendorId != x.vendorId
    ensures DistinctIds(Insert(x, t))
  {
    if t != [] && t[0].score > x.score {
      var tail := t[1..];
      var rest := Insert(x, tail);
      InsertDistinct(x, tail);
      InsertPermutes(x, tail);
      var out := [t[0]] + rest;
      forall b | 1 <= b < |out| ensures out[b].vendorId != t[0].vendorId {
        assert out[b] == rest[b - 1];
        assert rest[b - 1] in multiset(rest);
        if rest[b - 1] != x {
          assert rest[b - 1] in multiset(tail);
          var j :| 0 <= j < |tail| && tail[j] == rest[b - 1];
          assert t[j + 1] == tail[j];
        }
      }
      assert Insert(x, t) == out;
    }
  }

  /** With distinct vendors in the input, the sorted list has distinct vendors. */
  lemma {:induction false} SortDistinct(s: seq<Scored>)
    requires DistinctIds(s)
    ensures DistinctIds(SortByScoreDesc(s))
  {
    if s != [] {
      var rest := s[1..];
      var t := SortByScoreDesc(rest);
      SortDistinct(rest);
      SortPermutes(rest);
      forall j | 0 <= j < |t| ensures t[j].vendorId != s[0].vendorId {
        assert t[j] in multiset(t);
        var m :| 0 <= m < |rest| && rest[m] == t[j];
        assert s[m + 1] == rest[m];
      }
      InsertDistinct(s[0], t);
    }
  }

  /**
   * With distinct vendors, raising entry `p`'s score to `b` never moves it later in
   * the sorted list: if it sat at index `q1`, it now sits at an index at most `q1`.
   */
  lemma RaiseKeepsRank(s: seq<Scored>, p: int, b: real, q1: int)
    requires DistinctIds(s)
    requires 0 <= p < |s| && s[p].score <= b
    requires 0 <= q1 < |SortByScoreDesc(s)| && SortByScoreDesc(s)[q1].vendorId == s[p].vendorId
    ensures var sorted := SortByScoreDesc(s[p := s[p].(score := b)]);
      exists q2 :: 0 <= q2 <= q1 && q2 < |sorted| && sorted[q2] == s[p].(score := b)
  {
    var s2 := s[p := s[p].(score := b)];
    SortRank(s, p);
    SortDistinct(s);
    assert Ahead(s, p) == q1;
    RaiseAhead(s, p, b);
    SortRank(s2, p);
    var q2 := Ahead(s2, p);
    assert SortByScoreDesc(s2)[q2] == s[p].(score := b);
  }

  /** Two lists that agree everywhere but at `p` differ by an update at `p`. */
  lemma UpdateAt(s1: seq<Scored>, s2: seq<Scored>, p: int)
    requires |s1| == |s2| && 0 <= p < |s1|
    requires forall q :: 0 <= q < |s1| && q != p ==> s1[q] == s2[q]
    ensures s2 == s1[p := s2[p]]
  {
  }

  /** Python's slice `s[:n]`. */
  function Take<T>(s: seq<T>, n: nat): (r: seq<T>)
    ensures |r| == if n < |s| then n else |s|
    ensures forall i :: 0 <= i < |r| ==> r[i] == s[i]
  {
    if n < |s| then s[..n] else s
  }

  /** Taking from a list with one more entry in front. */
  lemma TakeCons<T>(x: T, rest: seq<T>, k: nat)
    requires k >= 1
    ensures Take([x] + rest, k) == [x] + Take(rest, k - 1)
  {
  }

  lemma TakeSorted(s: seq<Scored>, n: nat)
    requires SortedDesc(s)
    ensures SortedDesc(Take(s, n))
  {
  }
}
