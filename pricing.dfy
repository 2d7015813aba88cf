/**
 * The mass-production figures of a quotation (parser.py:133-153): the lead
 * times ("6-8" weeks) and the MOQ/price pairs ("20 $228.91").
 */
module Pricing {
  import opened PyStr
  import opened PyRe
  import opened Schema

  /** `\b(\d{1,2}\s*-\s*\d{1,2})\b`; the group spans items 1 to 5. */
  const LeadTimeRange: Pattern :=
    [Boundary, Rep(Digits, 1, AtMost(2)), Rep(Whitespace, 0, Unbounded), Lit("-"),
     Rep(Whitespace, 0, Unbounded), Rep(Digits, 1, AtMost(2)), Boundary]

  /** The lead-time ranges `re.findall` returns, each with its plain spaces removed. */
  function LeadTimeTokens(text: string): (r: seq<string>)
    ensures forall k :: 0 <= k < |r| ==> ' ' !in r[k] && '-' in r[k]
  {
    var ms := FindAll(LeadTimeRange, text, 0, false);
    seq(|ms|, k requires 0 <= k < |ms| => RangeText(text, ms[k]))
  }

  /** The range of one match, its plain spaces removed; it keeps the dash. */
  function RangeText(text: string, m: seq<nat>): (r: string)
    requires IsMatch(LeadTimeRange, text, m, false)
    ensures ' ' !in r && '-' in r
  {
    assert Conforms(LeadTimeRange[3], text, m[3], m[4], false);
    var g := Group(text, m, 1, 6);
    assert SameChar(text[m[3] + 0], "-"[0], false);
    assert m[1] <= m[3] < m[4] <= m[6];
    assert g[m[3] - m[1]] == '-';
    Remove(g, ' ')
  }

  /** `xs` without repetitions, each element kept where it first occurs. */
  function Dedup(xs: seq<string>): seq<string> {
    if xs == [] then []
    else
      var init := Dedup(xs[..|xs| - 1]);
      var last := xs[|xs| - 1];
      if last in init then init else init + [last]
  }

  /**
   * `_extract_lead_times` (parser.py:133-142): the lead-time ranges of the
   * text, spaces removed, each one once, in order of first appearance.
   */
  method ExtractLeadTimes(text: string) returns (out: seq<string>)
    ensures out == Dedup(LeadTimeTokens(text))
  {
    var lts := LeadTimeTokens(text);
    out := [];
    var i := 0;
    while i < |lts|
      invariant 0 <= i <= |lts|
      invariant out == Dedup(lts[..i])
    {
      var x := lts[i];
      DedupStep(lts, i);
      if x !in out {
        out := out + [x];
      }
      i := i + 1;
    }
    assert lts[..|lts|] == lts;
  }

  lemma DedupStep(xs: seq<string>, i: nat)
    requires i < |xs|
    ensures Dedup(xs[..i + 1]) ==
      if xs[i] in Dedup(xs[..i]) then Dedup(xs[..i]) else Dedup(xs[..i]) + [xs[i]]
  {
    assert xs[..i + 1][..i] == xs[..i];
  }

  /** `Dedup` keeps every element and adds none. */
  lemma {:induction false} DedupMembers(xs: seq<string>)
    ensures forall x :: x in Dedup(xs) <==> x in xs
  {
    if xs != [] {
      var init := xs[..|xs| - 1];
      DedupMembers(init);
      assert xs == init + [xs[|xs| - 1]];
    }
  }

  /** `Dedup` leaves no element twice. */
  lemma {:induction false} DedupDistinct(xs: seq<string>)
    ensures forall i, j :: 0 <= i < j < |Dedup(xs)| ==> Dedup(xs)[i] != Dedup(xs)[j]
  {
    if xs != [] {
      DedupDistinct(xs[..|xs| - 1]);
    }
  }

  /** Position of the first occurrence of `x` in `xs`. */
  function FirstPos(xs: seq<string>, x: string): (k: nat)
    requires x in xs
    ensures k < |xs| && xs[k] == x && x !in xs[..k]
  {
    if xs[0] == x then 0 else 1 + FirstPos(xs[1..], x)
  }

  /** Appending to a list does not move the first occurrence of an element already in it. */
  lemma FirstPosPrefix(xs: seq<string>, ys: seq<string>, x: string)
    requires x in xs
    ensures x in xs + ys && FirstPos(xs + ys, x) == FirstPos(xs, x)
  {
    var k := FirstPos(xs, x);
    var zs := xs + ys;
    assert zs[k] == x;
    assert zs[..k] == xs[..k];
  }

  /** An element new to a list first occurs where it is appended. */
  lemma FirstPosAppended(xs: seq<string>, x: string)
    requires x !in xs
    ensures FirstPos(xs + [x], x) == |xs|
  {
  }

  /** Appending one element moves the first occurrence of no element already present. */
  lemma FirstPosKept(init: seq<string>, last: string, r: seq<string>)
    requires forall i :: 0 <= i < |r| ==> r[i] in init
    ensures forall i :: 0 <= i < |r| ==>
      r[i] in init + [last] && FirstPos(init + [last], r[i]) == FirstPos(init, r[i]) < |init|
  {
    forall i | 0 <= i < |r|
      ensures r[i] in init + [last] && FirstPos(init + [last], r[i]) == FirstPos(init, r[i]) < |init|
    {
      FirstPosPrefix(init, [last], r[i]);
    }
  }

  /** Ordered by first occurrence in `xs`. */
  predicate FirstOccurrenceOrder(xs: seq<string>, d: seq<string>)
    requires forall i :: 0 <= i < |d| ==> d[i] in xs
  {
    forall i, j :: 0 <= i < j < |d| ==> FirstPos(xs, d[i]) < FirstPos(xs, d[j])
  }

  /** Keeping the order of `r` when one element is appended to `init`, or to both. */
  lemma OrderAppended(init: seq<string>, last: string, r: seq<string>)
    requires forall i :: 0 <= i < |r| ==> r[i] in init
    requires FirstOccurrenceOrder(init, r)
    ensures forall i :: 0 <= i < |r| ==> r[i] in init + [last]
    ensures FirstOccurrenceOrder(init + [last], r)
    ensures last !in init ==> FirstOccurrenceOrder(init + [last], r + [last])
  {
    var xs := init + [last];
    FirstPosKept(init, last, r);
    if last !in init {
      FirstPosAppended(init, last);
      var d := r + [last];
      forall i, j | 0 <= i < j < |d| ensures FirstPos(xs, d[i]) < FirstPos(xs, d[j]) {
        assert d[i] == r[i];
        if j < |r| {
          assert d[j] == r[j];
        }
      }
    }
  }

  /** `Dedup` lists the elements in the order of their first occurrence. */
  lemma {:induction false} DedupOrder(xs: seq<string>)
    ensures forall i :: 0 <= i < |Dedup(xs)| ==> Dedup(xs)[i] in xs
    ensures FirstOccurrenceOrder(xs, Dedup(xs))
  {
    if xs != [] {
      var init := xs[..|xs| - 1];
      var last := xs[|xs| - 1];
      var r := Dedup(init);
      DedupOrder(init);
      DedupMembers(init);
      assert xs == init + [last];
      OrderAppended(init, last, r);
      if last in r {
        assert Dedup(xs) == r;
      } else {
        assert Dedup(xs) == r + [last];
      }
    }
  }

  /** `\b(\d{1,6})\s+\$([\d,]+\.\d{2})\b`: MOQ in items 1, price in items 4 to 6. */
  const MoqPrice: Pattern :=
    [Boundary, Rep(Digits, 1, AtMost(6)), Rep(Whitespace, 1, Unbounded), Lit("$"),
     Rep(DigitsCommas, 1, Unbounded), Lit("."), Rep(Digits, 2, AtMost(2)), Boundary]

  /** A minimum order quantity and its unit price, in cents. */
  datatype Pair = Pair(moq: nat, cents: nat)

  /**
   * A price of digits and commas, a point and two digits, read as a number
   * in cents: the digits before the point are dollars, the two after it cents.
   */
  function Cents(dollars: string, fraction: string): (r: nat)
    requires forall i :: 0 <= i < |dollars| ==> IsDigit(dollars[i])
    requires |fraction| == 2 && IsDigit(fraction[0]) && IsDigit(fraction[1])
    ensures r / 100 == DecimalValue(dollars) && r % 100 == DecimalValue(fraction)
  {
    DecimalValueBound(fraction, 2);
    100 * DecimalValue(dollars) + DecimalValue(fraction)
  }

  /** Dropping the commas from a run of digits and commas leaves digits only. */
  lemma CommasRemoved(s: string)
    requires forall i :: 0 <= i < |s| ==> IsDigit(s[i]) || s[i] == ','
    ensures forall i :: 0 <= i < |Remove(s, ',')| ==> IsDigit(Remove(s, ',')[i])
  {
    var r := Remove(s, ',');
    forall i | 0 <= i < |r| ensures IsDigit(r[i]) {
      assert r[i] in r;
      var j :| 0 <= j < |s| && s[j] == r[i];
    }
  }

  /** The whole part of a price: its digits, thousands commas dropped, read as a number. */
  function WholeValue(s: string): nat
    requires forall i :: 0 <= i < |s| ==> IsDigit(s[i]) || s[i] == ','
  {
    CommasRemoved(s);
    DecimalValue(Remove(s, ','))
  }

  /**
   * The price a match captured with `([\d,]+\.\d{2})` in items `a` to
   * `a + 2` of pattern `p`, in cents.
   */
  function PriceAt(text: string, p: Pattern, m: seq<nat>, a: nat, ignoreCase: bool): nat
    requires IsMatch(p, text, m, ignoreCase) && a + 2 < |p|
    requires p[a] == Rep(DigitsCommas, 1, Unbounded) && p[a + 1] == Lit(".") && p[a + 2] == Rep(Digits, 2, AtMost(2))
  {
    assert Conforms(p[a], text, m[a], m[a + 1], ignoreCase);
    assert Conforms(p[a + 2], text, m[a + 2], m[a + 3], ignoreCase);
    var whole := Group(text, m, a, a + 1);
    var fraction := Group(text, m, a + 2, a + 3);
    CommasRemoved(whole);
    Cents(Remove(whole, ','), fraction)
  }

  /**
   * The captured price in cents: the whole part, commas dropped, is its
   * quotient by 100, and the two decimals are its remainder.
   */
  lemma PriceAtValue(text: string, p: Pattern, m: seq<nat>, a: nat, ignoreCase: bool)
    requires IsMatch(p, text, m, ignoreCase) && a + 2 < |p|
    requires p[a] == Rep(DigitsCommas, 1, Unbounded) && p[a + 1] == Lit(".") && p[a + 2] == Rep(Digits, 2, AtMost(2))
    ensures PriceAt(text, p, m, a, ignoreCase) / 100 == WholeValue(Group(text, m, a, a + 1))
    ensures PriceAt(text, p, m, a, ignoreCase) % 100 == DecimalValue(Group(text, m, a + 2, a + 3))
  {
    assert Conforms(p[a], text, m[a], m[a + 1], ignoreCase);
    assert Conforms(p[a + 2], text, m[a + 2], m[a + 3], ignoreCase);
  }

  /**
   * `pr` holds the values of match `m`: the quantity's digits as a number,
   * and the price's whole part (commas dropped) and two decimals as cents.
   */
  predicate PairMatches(text: string, m: seq<nat>, pr: Pair)
    requires IsMatch(MoqPrice, text, m, false)
  {
    pr.moq == DecimalValue(Group(text, m, 1, 2)) &&
    pr.cents / 100 == WholeValue(Group(text, m, 4, 5)) &&
    pr.cents % 100 == DecimalValue(Group(text, m, 6, 7))
  }

  /** The (MOQ, price) pair of one match: the quantity as an integer and the price as a number. */
  function PairOf(text: string, m: seq<nat>): (r: Pair)
    requires IsMatch(MoqPrice, text, m, false)
    ensures r.moq < 1000000
  {
    assert Conforms(MoqPrice[1], text, m[1], m[2], false);
    var moq := Group(text, m, 1, 2);
    DecimalValueBound(moq, 6);
    Pair(DecimalValue(moq), PriceAt(text, MoqPrice, m, 4, false))
  }

  /** A pair holds the values its match captured. */
  lemma PairOfValues(text: string, m: seq<nat>)
    requires IsMatch(MoqPrice, text, m, false)
    ensures PairMatches(text, m, PairOf(text, m))
  {
    PriceAtValue(text, MoqPrice, m, 4, false);
  }

  /** The pair of each match in `ms`, in order. */
  function PairsOf(text: string, ms: seq<seq<nat>>): (r: seq<Pair>)
    requires forall k :: 0 <= k < |ms| ==> IsMatch(MoqPrice, text, ms[k], false)
    ensures |r| == |ms|
    ensures forall k :: 0 <= k < |r| ==> r[k].moq < 1000000
  {
    seq(|ms|, k requires 0 <= k < |ms| => PairOf(text, ms[k]))
  }

  /** What `_extract_moq_price_pairs` returns: one pair per match, in text order. */
  function MoqPricePairs(text: string): (r: seq<Pair>)
    ensures |r| == |FindAll(MoqPrice, text, 0, false)|
    ensures forall k :: 0 <= k < |r| ==> r[k].moq < 1000000
  {
    PairsOf(text, FindAll(MoqPrice, text, 0, false))
  }

  /** Pair `k` holds the quantity and price captured by match `k` of `findall`. */
  lemma MoqPricePairsValues(text: string)
    ensures forall k :: 0 <= k < |MoqPricePairs(text)| ==>
      PairMatches(text, FindAll(MoqPrice, text, 0, false)[k], MoqPricePairs(text)[k])
  {
    var ms := FindAll(MoqPrice, text, 0, false);
    forall k | 0 <= k < |ms| ensures PairMatches(text, ms[k], MoqPricePairs(text)[k]) {
      PairOfValues(text, ms[k]);
    }
  }

  /** The loop of parser.py:148-152 over the matches `ms`. */
  method ConvertPairs(text: string, ms: seq<seq<nat>>) returns (out: seq<Pair>)
    requires forall k :: 0 <= k < |ms| ==> IsMatch(MoqPrice, text, ms[k], false)
    ensures out == PairsOf(text, ms)
  {
    out := [];
    var i := 0;
    while i < |ms|
      invariant 0 <= i <= |ms|
      invariant |out| == i && forall k :: 0 <= k < i ==> out[k] == PairOf(text, ms[k])
    {
      out := out + [PairOf(text, ms[i])];
      i := i + 1;
    }
  }

  /**
   * `_extract_moq_price_pairs` (parser.py:144-153): every "MOQ $price" pair
   * of the text, in order.
   */
  method ExtractMoqPricePairs(text: string) returns (out: seq<Pair>)
    ensures out == MoqPricePairs(text)
  {
    var ms := FindAll(MoqPrice, text, 0, false);
    out := ConvertPairs(text, ms);
  }

  /**
   * The lead time of each delivery term (parser.py:244-252): the first three
   * ranges; with two, the first again for the third term; with one, that one
   * for all; with none, nothing.
   */
  function TermLeadTimes(lts: seq<string>): (r: seq<string>)
    ensures |r| == 3
    ensures forall k :: 0 <= k < 3 ==> r[k] == if lts == [] then "" else lts[k % |lts|]
  {
    if |lts| >= 3 then lts[..3]
    else if |lts| == 2 then [lts[0], lts[1], lts[0]]
    else if |lts| == 1 then [lts[0], lts[0], lts[0]]
    else ["", "", ""]
  }
}
