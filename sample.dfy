/**
 * Sample quotations (parser.py:155-202): how a quotation is recognised as a
 * sample quote, and the per-term rows read from its normalised text.
 */
module SampleQuote {
  import opened PyStr
  import opened PyRe
  import opened Wrappers
  import opened Schema
  import opened Pricing

  /** `\b1\b` */
  const StandaloneOne: Pattern := [Boundary, Lit("1"), Boundary]

  /** `_is_sample_quote` (parser.py:155-158) */
  predicate IsSampleQuote(text: string) {
    Contains(Lower(text), "sample") && Search(StandaloneOne, text, 0, false).Some?
  }

  /** A "1" with no word character on either side. */
  predicate OneAt(text: string, i: nat) {
    i < |text| && text[i] == '1'
    && (i == 0 || !IsWordChar(text[i - 1]))
    && (i + 1 == |text| || !IsWordChar(text[i + 1]))
  }

  lemma MatchBoundaryAt(text: string, j: nat)
    requires j <= |text|
    ensures MatchAt([Boundary], text, j, false).Some? <==> AtBoundary(text, j)
  {
    assert [Boundary][1..] == [];
  }

  lemma MatchOneThenBoundary(text: string, i: nat)
    requires i <= |text|
    ensures MatchAt([Lit("1"), Boundary], text, i, false).Some? <==>
      i < |text| && text[i] == '1' && AtBoundary(text, i + 1)
  {
    var p: Pattern := [Lit("1"), Boundary];
    assert p[0] == Lit("1") && p[1..] == [Boundary];
    if i < |text| {
      MatchBoundaryAt(text, i + 1);
      assert |"1"| == 1 && "1"[0] == '1';
      assert SameChar(text[i + 0], "1"[0], false) <==> text[i] == '1';
    }
  }

  lemma MatchOneAt(text: string, i: nat)
    requires i <= |text|
    ensures MatchAt(StandaloneOne, text, i, false).Some? <==> OneAt(text, i)
  {
    assert StandaloneOne[1..] == [Lit("1"), Boundary];
    MatchOneThenBoundary(text, i);
  }

  /**
   * A text is a sample quote exactly when its lower-case form contains
   * "sample" and it holds a "1" standing alone between non-word characters.
   */
  lemma SampleQuoteIff(text: string)
    ensures IsSampleQuote(text) <==>
      Contains(Lower(text), "sample") && exists i :: 0 <= i < |text| && OneAt(text, i)
  {
    var r := Search(StandaloneOne, text, 0, false);
    if r.Some? {
      MatchOneAt(text, r.value[0]);
    } else {
      forall i | 0 <= i < |text| ensures !OneAt(text, i) {
        MatchOneAt(text, i);
      }
    }
  }

  /** `\b1\s+(FOB SH)\s+Sample\s+\$([\d,]+\.\d{2})\s+(\d{1,2}-\d{1,2})\b`, case-insensitive. */
  const SampleOneLine: Pattern :=
    [Boundary, Lit("1"), Rep(Whitespace, 1, Unbounded), Lit("FOB SH"), Rep(Whitespace, 1, Unbounded),
     Lit("Sample"), Rep(Whitespace, 1, Unbounded), Lit("$"),
     Rep(DigitsCommas, 1, Unbounded), Lit("."), Rep(Digits, 2, AtMost(2)), Rep(Whitespace, 1, Unbounded),
     Rep(Digits, 1, AtMost(2)), Lit("-"), Rep(Digits, 1, AtMost(2)), Boundary]

  /** `\b<term>\s+\$([\d,]+\.\d{2})\s+(\d{1,2}-\d{1,2})\b`, case-insensitive (parser.py:184-188). */
  function TermPattern(term: string): Pattern {
    [Boundary, Lit(term), Rep(Whitespace, 1, Unbounded), Lit("$"),
     Rep(DigitsCommas, 1, Unbounded), Lit("."), Rep(Digits, 2, AtMost(2)), Rep(Whitespace, 1, Unbounded),
     Rep(Digits, 1, AtMost(2)), Lit("-"), Rep(Digits, 1, AtMost(2)), Boundary]
  }

  /** One row of a sample quote: delivery term, MOQ, price in cents and lead time. */
  datatype SampleRow = SampleRow(term: string, moq: nat, cents: nat, leadTime: string)

  /** The row for `term` when its line occurs in the flattened text (parser.py:190-194). */
  function TermRow(flat: string, term: string): (r: Option<SampleRow>)
    ensures r.Some? <==> Search(TermPattern(term), flat, 0, true).Some?
    ensures r.Some? ==> r.value.term == term && r.value.moq == 1
  {
    var p := TermPattern(term);
    match Search(p, flat, 0, true)
    case None => None
    case Some(m) => Some(SampleRow(term, 1, PriceAt(flat, p, m, 4, true), Remove(Group(flat, m, 8, 11), ' ')))
  }

  /** The values present in `opts`, in order. */
  function Somes(opts: seq<Option<SampleRow>>): (r: seq<SampleRow>)
    ensures |r| <= |opts|
  {
    if opts == [] then []
    else
      Somes(opts[..|opts| - 1]) +
      match opts[|opts| - 1]
      case Some(row) => [row]
      case None => []
  }

  /** The lookups of the three delivery terms, in canonical order (parser.py:189-194). */
  function TermLookups(flat: string): (r: seq<Option<SampleRow>>)
    ensures |r| == 3
  {
    seq(3, k requires 0 <= k < 3 => TermRow(flat, DeliveryTermsCanon[k]))
  }

  /** The rows of the delivery terms whose lines occur (parser.py:189-194). */
  function TermRows(flat: string): seq<SampleRow> {
    Somes(TermLookups(flat))
  }

  /** The single row of the one-line form (parser.py:169-179). */
  function OneLineRow(flat: string, m: seq<nat>): SampleRow
    requires IsMatch(SampleOneLine, flat, m, true)
  {
    SampleRow(Upper(Norm(Group(flat, m, 3, 4))), 1, PriceAt(flat, SampleOneLine, m, 8, true),
      Remove(Group(flat, m, 12, 15), ' '))
  }

  /** A per-term row holds the price that its line's match `m` captured. */
  lemma TermRowPrice(flat: string, term: string, m: seq<nat>)
    requires Search(TermPattern(term), flat, 0, true) == Some(m)
    ensures IsMatch(TermPattern(term), flat, m, true)
    ensures TermRow(flat, term).Some?
    ensures TermRow(flat, term).value.cents / 100 == WholeValue(Group(flat, m, 4, 5))
    ensures TermRow(flat, term).value.cents % 100 == DecimalValue(Group(flat, m, 6, 7))
  {
    PriceAtValue(flat, TermPattern(term), m, 4, true);
  }

  /** The one-line form's row has MOQ 1 and holds the price its match captured. */
  lemma OneLineRowPrice(flat: string, m: seq<nat>)
    requires IsMatch(SampleOneLine, flat, m, true)
    ensures OneLineRow(flat, m).moq == 1
    ensures OneLineRow(flat, m).cents / 100 == WholeValue(Group(flat, m, 8, 9))
    ensures OneLineRow(flat, m).cents % 100 == DecimalValue(Group(flat, m, 10, 11))
  {
    PriceAtValue(flat, SampleOneLine, m, 8, true);
  }

  /** What `_extract_sample_rows` (parser.py:160-202) returns. */
  function SampleRows(text: string): seq<SampleRow> {
    var flat := Norm(text);
    match Search(SampleOneLine, flat, 0, true)
    case Some(m) => [OneLineRow(flat, m)]
    case None =>
      var rows := TermRows(flat);
      if rows != [] then rows
      else
        match TermRow(flat, "FOB SH")
        case Some(row) => [row]
        case None => []
  }

  /** The loop of parser.py:189-194 over the three delivery terms. */
  method CollectTermRows(flat: string) returns (rows: seq<SampleRow>)
    ensures rows == TermRows(flat)
  {
    var lookups := TermLookups(flat);
    rows := [];
    for k := 0 to 3
      invariant rows == Somes(lookups[..k])
    {
      assert lookups[..k + 1][..k] == lookups[..k];
      if lookups[k].Some? {
        rows := rows + [lookups[k].value];
      }
    }
    assert lookups[..3] == lookups;
  }

  /**
   * `_extract_sample_rows` (parser.py:160-202): the one-line form if it
   * occurs, otherwise a row for each delivery term whose line occurs, and
   * last a second try for the FOB line.
   */
  method ExtractSampleRows(text: string) returns (rows: seq<SampleRow>)
    ensures rows == SampleRows(text)
  {
    var flat := Norm(text);
    var m := Search(SampleOneLine, flat, 0, true);
    if m.Some? {
      return [OneLineRow(flat, m.value)];
    }
    rows := CollectTermRows(flat);
    if rows == [] {
      var row := TermRow(flat, "FOB SH");
      if row.Some? {
        rows := rows + [row.value];
      }
    }
  }

  // Properties of the sample rows

  /** The values of `opts` are exactly the members of `Somes(opts)`. */
  lemma {:induction false} SomesMembers(opts: seq<Option<SampleRow>>)
    ensures forall row :: row in Somes(opts) <==> Some(row) in opts
  {
    if opts != [] {
      var init := opts[..|opts| - 1];
      SomesMembers(init);
      assert opts == init + [opts[|opts| - 1]];
    }
  }

  /** Position of a delivery term in the canonical order; 3 for any other text. */
  function TermRank(term: string): nat {
    if term == DeliveryTermsCanon[0] then 0
    else if term == DeliveryTermsCanon[1] then 1
    else if term == DeliveryTermsCanon[2] then 2
    else 3
  }

  /**
   * When the `k`-th lookup can only hold a row of rank `k`, the rows come
   * out in strictly increasing rank.
   */
  lemma {:induction false} SomesRanked(opts: seq<Option<SampleRow>>)
    requires forall k :: 0 <= k < |opts| && opts[k].Some? ==> TermRank(opts[k].value.term) == k
    ensures forall i :: 0 <= i < |Somes(opts)| ==> TermRank(Somes(opts)[i].term) < |opts|
    ensures forall i, j :: 0 <= i < j < |Somes(opts)| ==> TermRank(Somes(opts)[i].term) < TermRank(Somes(opts)[j].term)
  {
    if opts != [] {
      var init := opts[..|opts| - 1];
      SomesRanked(init);
    }
  }

  /** The term lookups hold each term's own row, and these rows have MOQ 1. */
  lemma TermLookupsRanked(flat: string)
    ensures forall k :: 0 <= k < 3 && TermLookups(flat)[k].Some? ==>
      TermLookups(flat)[k].value.term == DeliveryTermsCanon[k] && TermLookups(flat)[k].value.moq == 1
      && TermRank(TermLookups(flat)[k].value.term) == k
  {
  }

  /** The per-term rows come in canonical order, so there are at most three and no term repeats. */
  lemma TermRowsOrdered(flat: string)
    ensures |TermRows(flat)| <= 3
    ensures forall i, j :: 0 <= i < j < |TermRows(flat)| ==> TermRank(TermRows(flat)[i].term) < TermRank(TermRows(flat)[j].term)
  {
    TermLookupsRanked(flat);
    SomesRanked(TermLookups(flat));
  }

  /** Every per-term row is for a canonical delivery term and has MOQ 1. */
  lemma TermRowsTerms(flat: string)
    ensures forall row :: row in TermRows(flat) ==> row.term in DeliveryTermsCanon && row.moq == 1
  {
    var opts := TermLookups(flat);
    TermLookupsRanked(flat);
    SomesMembers(opts);
    forall row | row in TermRows(flat) ensures row.term in DeliveryTermsCanon && row.moq == 1 {
      var k :| 0 <= k < 3 && opts[k] == Some(row);
    }
  }

  /** A delivery term has a row exactly when its line occurs in the flattened text. */
  lemma TermRowsPresence(flat: string, k: nat)
    requires k < 3
    ensures (exists row :: row in TermRows(flat) && row.term == DeliveryTermsCanon[k])
      <==> TermRow(flat, DeliveryTermsCanon[k]).Some?
  {
    var opts := TermLookups(flat);
    TermLookupsRanked(flat);
    SomesMembers(opts);
    if opts[k].Some? {
      assert opts[k].value in TermRows(flat);
    }
    if row :| row in TermRows(flat) && row.term == DeliveryTermsCanon[k] {
      var j :| 0 <= j < 3 && opts[j] == Some(row);
      assert TermRank(row.term) == j;
    }
  }

  /** A character that matches an upper-case letter other than I and K, ignoring case, upper-cases to it. */
  lemma FoldedLetter(c: char, upper: char)
    requires 'A' <= upper <= 'Z' && upper != 'I' && upper != 'K'
    requires FoldCase(c) == FoldCase(upper)
    ensures UpperChar(c) == upper && !IsSpace(c)
  {
  }

  /** The delivery term the one-line form captures is always `FOB SH`. */
  lemma OneLineTerm(flat: string, m: seq<nat>)
    requires IsMatch(SampleOneLine, flat, m, true)
    ensures Upper(Norm(Group(flat, m, 3, 4))) == "FOB SH"
  {
    var lit := "FOB SH";
    assert Conforms(SampleOneLine[3], flat, m[3], m[4], true);
    var g := Group(flat, m, 3, 4);
    assert |g| == 6;
    forall k | 0 <= k < 6 ensures UpperChar(g[k]) == lit[k] && (IsSpace(g[k]) <==> k == 3) && (k == 3 ==> g[k] == ' ') {
      assert SameChar(flat[m[3] + k], lit[k], true);
      if k != 3 { FoldedLetter(g[k], lit[k]); }
    }
    assert IsNormal(g);
    NormFixesNormal(g);
  }

  /**
   * The second try for the FOB line never adds a row: it runs only when no
   * term matched, and FOB SH is the first of those terms.
   */
  lemma FallbackAddsNothing(text: string)
    ensures Search(SampleOneLine, Norm(text), 0, true).None? ==> SampleRows(text) == TermRows(Norm(text))
  {
    var flat := Norm(text);
    var opts := TermLookups(flat);
    SomesMembers(opts);
    if opts[0].Some? {
      assert opts[0].value in TermRows(flat);
    }
  }

  /**
   * At most three rows, each for one of the canonical delivery terms, in
   * canonical order, each with MOQ 1; the one-line form gives exactly one
   * row, for FOB SH.
   */
  lemma SampleRowsProperties(text: string)
    ensures Search(SampleOneLine, Norm(text), 0, true).Some? ==>
      |SampleRows(text)| == 1 && SampleRows(text)[0].term == "FOB SH"
    ensures |SampleRows(text)| <= 3
    ensures forall row :: row in SampleRows(text) ==> row.term in DeliveryTermsCanon && row.moq == 1
    ensures forall i, j :: 0 <= i < j < |SampleRows(text)| ==> TermRank(SampleRows(text)[i].term) < TermRank(SampleRows(text)[j].term)
  {
    var flat := Norm(text);
    match Search(SampleOneLine, flat, 0, true)
    case Some(m) =>
      OneLineTerm(flat, m);
    case None =>
      FallbackAddsNothing(text);
      TermRowsOrdered(flat);
      TermRowsTerms(flat);
  }
}
