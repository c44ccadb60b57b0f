/**
 * The submission file: one row `"{customer_id} X {location_number} X {vendor_id}", 1`
 * per recommendation, after the header row.
 */
module Submission {
  import opened Basics
  import opened Ranking

  /** One emitted recommendation (the dict appended to `recommendations`). */
  datatype Recommendation = Recommendation(customerId: string, locationNumber: int, vendorId: int, score: real)

  /** One CSV row of two cells, as the csv writer renders it. */
  datatype OutputRow = OutputRow(key: string, target: string)

  const Header := OutputRow("CID X LOC_NUM X VENDOR", "target")

  /** The recommendations for one customer-location, one per scored entry, in order. */
  function RecsFor(c: string, l: int, xs: seq<Scored>): (r: seq<Recommendation>)
    ensures |r| == |xs|
  {
    if xs == [] then [] else [Recommendation(c, l, xs[0].vendorId, xs[0].score)] + RecsFor(c, l, xs[1..])
  }

  lemma {:induction false} RecsForAt(c: string, l: int, xs: seq<Scored>, i: int)
    requires 0 <= i < |xs|
    ensures RecsFor(c, l, xs)[i] == Recommendation(c, l, xs[i].vendorId, xs[i].score)
  {
    if i > 0 {
      RecsForAt(c, l, xs[1..], i - 1);
    }
  }

  lemma {:induction false} RecsForAppend(c: string, l: int, xs: seq<Scored>, ys: seq<Scored>)
    ensures RecsFor(c, l, xs + ys) == RecsFor(c, l, xs) + RecsFor(c, l, ys)
  {
    if xs == [] {
      assert xs + ys == ys;
    } else {
      var zs := xs + ys;
      assert zs != [] && zs[0] == xs[0] && zs[1..] == xs[1..] + ys;
      RecsForAppend(c, l, xs[1..], ys);
      var h := [Recommendation(c, l, xs[0].vendorId, xs[0].score)];
      calc {
        RecsFor(c, l, zs);
        h + RecsFor(c, l, xs[1..] + ys);
        h + (RecsFor(c, l, xs[1..]) + RecsFor(c, l, ys));
        (h + RecsFor(c, l, xs[1..])) + RecsFor(c, l, ys);
        RecsFor(c, l, xs) + RecsFor(c, l, ys);
      }
    }
  }

  // ---- Decimal rendering of integers (Python's str(int)) ----

  function DigitChar(d: nat): char
    requires d < 10
  {
    ('0' as int + d) as char
  }

  predicate IsDigit(ch: char)
  {
    '0' <= ch <= '9'
  }

  function DigitValue(ch: char): nat
    requires IsDigit(ch)
  {
    (ch - '0') as nat
  }

  function NatToString(n: nat): string
    decreases n
  {
    if n < 10 then [DigitChar(n)] else NatToString(n / 10) + [DigitChar(n % 10)]
  }

  /** `str(n)` of a natural number is a non-empty run of decimal digits. */
  lemma {:induction false} NatToStringDigits(n: nat)
    ensures |NatToString(n)| > 0 && AllDigits(NatToString(n))
    decreases n
  {
    if n >= 10 {
      NatToStringDigits(n / 10);
    }
  }

  function IntToString(n: int): string
  {
    if n < 0 then "-" + NatToString(-n) else NatToString(n)
  }

  predicate AllDigits(s: string)
  {
    forall i :: 0 <= i < |s| ==> IsDigit(s[i])
  }

  function ParseNat(s: string): nat
    requires AllDigits(s)
  {
    if s == [] then 0 else ParseNat(s[..|s| - 1]) * 10 + DigitValue(s[|s| - 1])
  }

  /** An optional minus sign followed by at least one digit. */
  predicate IsIntText(s: string)
  {
    if |s| > 0 && s[0] == '-' then |s| > 1 && AllDigits(s[1..]) else |s| > 0 && AllDigits(s)
  }

  function ParseInt(s: string): int
    requires IsIntText(s)
  {
    if s[0] == '-' then -(ParseNat(s[1..]) as int) else ParseNat(s)
  }

  lemma {:induction false} ParseNatToString(n: nat)
    ensures AllDigits(NatToString(n)) && ParseNat(NatToString(n)) == n
    decreases n
  {
    var s := NatToString(n);
    NatToStringDigits(n);
    if n >= 10 {
      NatToStringDigits(n / 10);
      ParseNatToString(n / 10);
      assert s[..|s| - 1] == NatToString(n / 10);
    }
  }

  /** Rendering an integer and reading it back gives the integer; the text has no space. */
  lemma IntToStringRoundTrip(n: int)
    ensures IsIntText(IntToString(n)) && ParseInt(IntToString(n)) == n
    ensures NoSpace(IntToString(n))
  {
    var s := IntToString(n);
    if n < 0 {
      NatToStringDigits(-n);
      ParseNatToString(-n);
      Negated(NatToString(-n));
    } else {
      NatToStringDigits(n);
      ParseNatToString(n);
      DigitsNoSpace(s);
    }
  }

  /** A minus sign in front of a run of digits. */
  lemma Negated(d: string)
    requires |d| > 0 && AllDigits(d)
    ensures IsIntText("-" + d) && ("-" + d)[1..] == d && NoSpace("-" + d)
  {
    var s := "-" + d;
    assert s[1..] == d;
    forall k | 0 <= k < |s| ensures s[k] != ' ' {
      if k > 0 {
        assert s[k] == d[k - 1];
        assert IsDigit(d[k - 1]);
      }
    }
  }

  lemma DigitsNoSpace(s: string)
    requires AllDigits(s)
    ensures NoSpace(s)
  {
    forall k | 0 <= k < |s| ensures s[k] != ' ' {
      assert IsDigit(s[k]);
    }
  }

  // ---- The composite key ----

  const Separator := " X "

  /** `f"{customer_id} X {location_number} X {vendor_id}"`. */
  function FormatKey(c: string, l: int, v: int): string
  {
    c + Separator + IntToString(l) + Separator + IntToString(v)
  }

  /** The start of the run of non-space characters that ends at `e`. */
  function WordStart(s: string, e: nat): (b: nat)
    requires e <= |s|
    ensures b <= e
    decreases e
  {
    if e == 0 || s[e - 1] == ' ' then e else WordStart(s, e - 1)
  }

  /**
   * The inverse of FormatKey: the vendor and location fields are read from the
   * right, so a customer id may itself contain " X ".
   */
  function ParseKey(key: string): Option<(string, int, int)>
  {
    var j := WordStart(key, |key|);
    if j < 3 || key[j - 3..j] != Separator then None
    else
      var i := WordStart(key, j - 3);
      if i < 3 || key[i - 3..i] != Separator then None
      else
        var l := key[i..j - 3];
        var v := key[j..];
        if IsIntText(l) && IsIntText(v) then Some((key[..i - 3], ParseInt(l), ParseInt(v)))
        else None
  }

  lemma {:induction false} WordStartAt(s: string, b: nat, e: nat)
    requires 0 < b <= e <= |s| && s[b - 1] == ' '
    requires forall k :: b <= k < e ==> s[k] != ' '
    ensures WordStart(s, e) == b
    decreases e
  {
    if e > b {
      WordStartAt(s, b, e - 1);
    }
  }

  lemma Parts(a: string, b: string)
    ensures |a + Separator + b| == |a| + 3 + |b|
    ensures (a + Separator + b)[..|a|] == a
    ensures (a + Separator + b)[|a|..|a| + 3] == Separator
    ensures (a + Separator + b)[|a| + 3..] == b
  {
    var s := a + Separator + b;
    assert s == a + (Separator + b);
  }

  lemma ParseKeyAt(key: string, i: nat, j: nat)
    requires 3 <= i <= j - 3 && j <= |key|
    requires WordStart(key, |key|) == j && key[j - 3..j] == Separator
    requires WordStart(key, j - 3) == i && key[i - 3..i] == Separator
    requires IsIntText(key[i..j - 3]) && IsIntText(key[j..])
    ensures ParseKey(key) == Some((key[..i - 3], ParseInt(key[i..j - 3]), ParseInt(key[j..])))
  {
  }

  lemma TrailingWord(pre: string, w: string)
    requires NoSpace(w)
    ensures |pre + Separator + w| == |pre| + 3 + |w|
    ensures WordStart(pre + Separator + w, |pre + Separator + w|) == |pre| + 3
    ensures (pre + Separator + w)[|pre|..|pre| + 3] == Separator
    ensures (pre + Separator + w)[..|pre|] == pre
    ensures (pre + Separator + w)[|pre| + 3..] == w
  {
    var s := pre + Separator + w;
    Parts(pre, w);
    forall k | |pre| + 3 <= k < |s| ensures s[k] != ' ' {
      assert s[k] == s[|pre| + 3..][k - |pre| - 3] == w[k - |pre| - 3];
    }
    assert s[|pre| + 2] == Separator[2];
    WordStartAt(s, |pre| + 3, |s|);
  }

  lemma WordStartPrefixStep(s: string, e: nat, n: nat)
    requires e <= n <= |s|
    ensures WordStart(s[..n], e) == WordStart(s, e)
    decreases e
  {
    if e > 0 {
      WordStartPrefixStep(s, e - 1, n);
    }
  }

  predicate NoSpace(w: string)
  {
    forall k :: 0 <= k < |w| ==> w[k] != ' '
  }

  /** Where the three fields of `c X ls X vs` sit, and that ParseKey finds them. */
  lemma KeyFields(c: string, ls: string, vs: string)
    requires NoSpace(ls) && NoSpace(vs) && |ls| > 0
    ensures var key := c + Separator + ls + Separator + vs;
      var i, j := |c| + 3, |c| + |ls| + 6;
      && 3 <= i <= j - 3 && j <= |key|
      && WordStart(key, |key|) == j && key[j - 3..j] == Separator
      && WordStart(key, j - 3) == i && key[i - 3..i] == Separator
      && key[..i - 3] == c && key[i..j - 3] == ls && key[j..] == vs
  {
    var pre := c + Separator + ls;
    var key := pre + Separator + vs;
    TrailingWord(c, ls);
    TrailingWord(pre, vs);
    var i, j := |c| + 3, |c| + |ls| + 6;
    assert key[..|pre|] == pre;
    WordStartPrefixStep(key, |pre|, |pre|);
    assert key[i..j - 3] == pre[i..];
    assert key[i - 3..i] == pre[i - 3..i];
    assert key[..i - 3] == pre[..i - 3];
  }

  /** Joining three fields whose last two are integer texts without spaces decodes back to them. */
  lemma ParseJoined(c: string, ls: string, vs: string)
    requires IsIntText(ls) && IsIntText(vs) && NoSpace(ls) && NoSpace(vs)
    ensures ParseKey(c + Separator + ls + Separator + vs) == Some((c, ParseInt(ls), ParseInt(vs)))
  {
    var key := c + Separator + ls + Separator + vs;
    KeyFields(c, ls, vs);
    var i, j := |c| + 3, |c| + |ls| + 6;
    assert key[..i - 3] == c && key[i..j - 3] == ls && key[j..] == vs;
    ParseKeyAt(key, i, j);
  }

  /** The key always decodes to the customer, location and vendor it was made from. */
  lemma ParseFormatKey(c: string, l: int, v: int)
    ensures ParseKey(FormatKey(c, l, v)) == Some((c, l, v))
  {
    IntToStringRoundTrip(l);
    IntToStringRoundTrip(v);
    ParseJoined(c, IntToString(l), IntToString(v));
  }

  /** The written row for one recommendation; the target is always 1. */
  function ToRow(r: Recommendation): OutputRow
  {
    OutputRow(FormatKey(r.customerId, r.locationNumber, r.vendorId), "1")
  }

  /** The model of `save_submission`: the header, then one row per recommendation in order. */
  method SaveSubmission(recs: seq<Recommendation>) returns (file: seq<OutputRow>)
    ensures |file| == |recs| + 1 && file[0] == Header
    ensures forall i :: 0 <= i < |recs| ==> file[i + 1] == ToRow(recs[i])
  {
    file := [Header];
    for i := 0 to |recs|
      invariant |file| == i + 1 && file[0] == Header
      invariant forall k :: 0 <= k < i ==> file[k + 1] == ToRow(recs[k])
    {
      file := file + [ToRow(recs[i])];
    }
  }

  /** Every row of a written file decodes back to the recommendation it came from. */
  lemma RowsDecode(recs: seq<Recommendation>, file: seq<OutputRow>, i: int)
    requires |file| == |recs| + 1
    requires forall k :: 0 <= k < |recs| ==> file[k + 1] == ToRow(recs[k])
    requires 0 <= i < |recs|
    ensures file[i + 1].target == "1"
    ensures ParseKey(file[i + 1].key) == Some((recs[i].customerId, recs[i].locationNumber, recs[i].vendorId))
  {
    ParseFormatKey(recs[i].customerId, recs[i].locationNumber, recs[i].vendorId);
  }
}
