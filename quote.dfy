/**
 * `parse_sinbon_quote` (parser.py:204-276): the rows of one quotation, in
 * the shape of the output sheet.
 */
module Quote {
  import opened PyStr
  import opened Wrappers
  import opened Schema
  import opened Header
  import opened ProductSpecs
  import opened Pricing
  import opened SampleQuote

  /** No extracted text reads as the empty text (parser.py:208). */
  function TextOf(extracted: Option<string>): (text: string)
    ensures extracted.Some? ==> text == extracted.value
    ensures extracted.None? ==> text == ""
  {
    match extracted
    case Some(s) => s
    case None => ""
  }

  /** The normalised, non-blank specification bullets that make up the description (parser.py:214). */
  function DescriptionParts(others: seq<string>): (parts: seq<string>)
    ensures |parts| <= |others|
  {
    if others == [] then []
    else
      var init := DescriptionParts(others[..|others| - 1]);
      var t := Norm(others[|others| - 1]);
      if t == "" then init else init + [t]
  }

  /** The description column: the remaining bullets joined with "; " (parser.py:214). */
  function Description(others: seq<string>): string {
    Join("; ", DescriptionParts(others))
  }

  /** The L/T column: the lead time with "wks" appended, or empty when there is none (parser.py:232, 272). */
  function LeadTimeCell(lt: string): (cell: string)
    ensures cell == "" <==> lt == ""
    ensures cell != "" ==> |cell| == |lt| + 3 && cell[..|lt|] == lt && cell[|lt|..] == "wks"
  {
    if lt != "" then lt + "wks" else ""
  }

  /** The columns that every row of one quotation shares. */
  datatype Common = Common(
    date: string, customer: string, planner: string, product: string,
    rated: string, cable: string, description: string)

  /** The shared columns of `text` (parser.py:209-214). */
  function CommonOf(text: string, parse: DateParser): Common {
    var (customer, planner) := CustomerPlanner(text);
    var spec := ProductAndSpecs(text);
    Common(ExtractDate(text, parse), customer, planner, spec.product, spec.rated, spec.cable,
      Description(spec.others))
  }

  /** One output row; the remark column is always empty. */
  function RowOf(c: Common, term: string, moq: nat, cents: nat, lt: string): Row {
    Row(c.date, c.customer, c.planner, c.product, c.rated, c.cable, c.description,
      term, moq, cents, LeadTimeCell(lt), "")
  }

  /** The output rows of a sample quote, one per sample row (parser.py:217-235). */
  function SampleOut(c: Common, rs: seq<SampleRow>): seq<Row> {
    seq(|rs|, k requires 0 <= k < |rs| => RowOf(c, rs[k].term, rs[k].moq, rs[k].cents, rs[k].leadTime))
  }

  function Min(a: nat, b: nat): nat {
    if a <= b then a else b
  }

  /** Row `k` of a mass quote: pair `k` under delivery term `k / 2`. */
  function MassRow(c: Common, pairs: seq<Pair>, termLts: seq<string>, k: nat): Row
    requires k < |pairs| && k < 6 && |termLts| == 3
  {
    RowOf(c, DeliveryTermsCanon[k / 2], pairs[k].moq, pairs[k].cents, termLts[k / 2])
  }

  /**
   * The output rows of a mass quote (parser.py:238-276): the pairs two by
   * two under the three delivery terms, as far as the pairs go.
   */
  function MassOut(c: Common, pairs: seq<Pair>, termLts: seq<string>): seq<Row>
    requires |termLts| == 3
  {
    seq(Min(|pairs|, 6), k requires 0 <= k < Min(|pairs|, 6) => MassRow(c, pairs, termLts, k))
  }

  /** What `parse_sinbon_quote` returns for the extracted text of one quotation. */
  function Rows(extracted: Option<string>, parse: DateParser): seq<Row> {
    var text := TextOf(extracted);
    var c := CommonOf(text, parse);
    if IsSampleQuote(text) then SampleOut(c, SampleRows(text))
    else MassOut(c, MoqPricePairs(text), TermLeadTimes(Dedup(LeadTimeTokens(text))))
  }

  /** The loop of parser.py:219-234 over the sample rows. */
  method SampleOutLoop(c: Common, sampleRows: seq<SampleRow>) returns (rows: seq<Row>)
    ensures rows == SampleOut(c, sampleRows)
  {
    rows := [];
    for k := 0 to |sampleRows|
      invariant |rows| == k
      invariant forall i :: 0 <= i < k ==> rows[i] == SampleOut(c, sampleRows)[i]
    {
      var r := sampleRows[k];
      rows := rows + [RowOf(c, r.term, r.moq, r.cents, r.leadTime)];
    }
  }

  /**
   * The inner loop of parser.py:258-274: the rows of term `t`, one for each
   * pair of its chunk, appended to the rows of the terms before it.
   */
  method AppendChunk(c: Common, pairs: seq<Pair>, termLts: seq<string>, t: nat, before: seq<Row>)
    returns (rows: seq<Row>)
    requires t < 3 && |termLts| == 3
    requires before == MassOut(c, pairs[..Min(|pairs|, 2 * t)], termLts)
    ensures rows == MassOut(c, pairs[..Min(|pairs|, 2 * t + 2)], termLts)
  {
    var start := Min(|pairs|, 2 * t);
    var chunk := pairs[start..Min(|pairs|, 2 * t + 2)];
    rows := before;
    for j := 0 to |chunk|
      invariant rows == MassOut(c, pairs[..start + j], termLts)
    {
      MassOutStep(c, pairs, termLts, 2 * t + j);
      MassRowInChunk(c, pairs, termLts, t, j);
      assert chunk[j] == pairs[2 * t + j];
      rows := rows + [RowOf(c, DeliveryTermsCanon[t], chunk[j].moq, chunk[j].cents, termLts[t])];
    }
  }

  /** The outer loop of parser.py:257-274: term by term, the next two pairs. */
  method MassOutLoop(c: Common, pairs: seq<Pair>, termLts: seq<string>) returns (rows: seq<Row>)
    requires |termLts| == 3
    ensures rows == MassOut(c, pairs, termLts)
  {
    rows := [];
    for t := 0 to 3
      invariant rows == MassOut(c, pairs[..Min(|pairs|, 2 * t)], termLts)
    {
      rows := AppendChunk(c, pairs, termLts, t, rows);
    }
    MassOutClamp(c, pairs, termLts);
  }

  /** One more pair adds its row at the end. */
  lemma MassOutStep(c: Common, pairs: seq<Pair>, termLts: seq<string>, n: nat)
    requires n < |pairs| && n < 6 && |termLts| == 3
    ensures MassOut(c, pairs[..n + 1], termLts) == MassOut(c, pairs[..n], termLts) + [MassRow(c, pairs, termLts, n)]
  {
    var a := MassOut(c, pairs[..n + 1], termLts);
    var b := MassOut(c, pairs[..n], termLts) + [MassRow(c, pairs, termLts, n)];
    assert |a| == |b|;
    forall k | 0 <= k < |a| ensures a[k] == b[k] {
      assert pairs[..n + 1][k] == pairs[k];
      if k < n {
        assert pairs[..n][k] == pairs[k];
      }
    }
  }

  /** Pairs after the sixth give no row. */
  lemma MassOutClamp(c: Common, pairs: seq<Pair>, termLts: seq<string>)
    requires |termLts| == 3
    ensures MassOut(c, pairs[..Min(|pairs|, 6)], termLts) == MassOut(c, pairs, termLts)
  {
    var a := MassOut(c, pairs[..Min(|pairs|, 6)], termLts);
    var b := MassOut(c, pairs, termLts);
    assert |a| == |b|;
    forall k | 0 <= k < |a| ensures a[k] == b[k] {
      assert pairs[..Min(|pairs|, 6)][k] == pairs[k];
    }
  }

  /** Row `2 * t + j` of a mass quote is pair `2 * t + j` under term `t`. */
  lemma MassRowInChunk(c: Common, pairs: seq<Pair>, termLts: seq<string>, t: nat, j: nat)
    requires t < 3 && j < 2 && 2 * t + j < |pairs| && |termLts| == 3
    ensures MassRow(c, pairs, termLts, 2 * t + j) ==
      RowOf(c, DeliveryTermsCanon[t], pairs[2 * t + j].moq, pairs[2 * t + j].cents, termLts[t])
  {
    assert (2 * t + j) / 2 == t;
  }

  /** `parse_sinbon_quote` (parser.py:204-276). */
  method ParseSinbonQuote(extracted: Option<string>, parse: DateParser) returns (rows: seq<Row>)
    ensures rows == Rows(extracted, parse)
  {
    var text := TextOf(extracted);
    var date := ExtractDate(text, parse);
    var customer, planner := ExtractCustomerPlanner(text);
    var product, rated, cable, others := ExtractProductAndSpecs(text);
    var c := Common(date, customer, planner, product, rated, cable, Description(others));
    assert c == CommonOf(text, parse);
    if IsSampleQuote(text) {
      var sampleRows := ExtractSampleRows(text);
      rows := SampleOutLoop(c, sampleRows);
    } else {
      var pairs := ExtractMoqPricePairs(text);
      var lts := ExtractLeadTimes(text);
      rows := MassOutLoop(c, pairs, TermLeadTimes(lts));
    }
  }

  // Properties of the output rows

  /** Every part of the description is normalised and not empty, and the parts are the non-blank bullets. */
  lemma {:induction false} DescriptionPartsProperties(others: seq<string>)
    ensures forall p :: p in DescriptionParts(others) ==> p != "" && IsNormal(p)
    ensures forall x :: x in others && Norm(x) != "" ==> Norm(x) in DescriptionParts(others)
    ensures forall p :: p in DescriptionParts(others) ==> exists x :: x in others && p == Norm(x)
    ensures DescriptionParts(others) == [] <==> forall x :: x in others ==> Norm(x) == ""
  {
    if others != [] {
      var init := others[..|others| - 1];
      var last := others[|others| - 1];
      DescriptionPartsProperties(init);
      NormProperties(last);
      assert others == init + [last];
    }
  }

  /** The parts of two runs of bullets are the parts of the first followed by those of the second. */
  lemma {:induction false} DescriptionPartsConcat(a: seq<string>, b: seq<string>)
    ensures DescriptionParts(a + b) == DescriptionParts(a) + DescriptionParts(b)
    decreases |b|
  {
    if b == [] {
      assert a + b == a;
    } else {
      var b' := b[..|b| - 1];
      assert (a + b)[..|a + b| - 1] == a + b';
      assert (a + b)[|a + b| - 1] == b[|b| - 1];
      DescriptionPartsConcat(a, b');
    }
  }

  /**
   * Every part of the Description column is the normalised text of a bullet
   * of the product block that carries neither the rated-current nor the
   * cable-length label (parser.py:122-129, 214).
   */
  lemma DescriptionFromOtherBullets(text: string)
    ensures forall p :: p in DescriptionParts(ProductAndSpecs(text).others) ==>
      exists b :: b in Bullets(ProductBlock(text)) && !IsRatedCurrent(b) && !IsCableLength(b) && p == Norm(b)
  {
    var bullets := Bullets(ProductBlock(text));
    var others := ProductAndSpecs(text).others;
    assert others == OtherSpecs(bullets);
    OtherSpecsMembers(bullets);
    DescriptionPartsProperties(others);
  }

  /** Joining non-empty parts gives the empty text only when there are no parts. */
  lemma {:induction false} JoinEmpty(sep: string, parts: seq<string>)
    requires forall k :: 0 <= k < |parts| ==> parts[k] != ""
    ensures Join(sep, parts) == "" <==> parts == []
  {
    if |parts| > 1 {
      assert |Join(sep, parts)| >= |parts[0]|;
    }
  }

  /** The description is empty exactly when every remaining bullet is blank. */
  lemma DescriptionEmptyIff(others: seq<string>)
    ensures Description(others) == "" <==> forall x :: x in others ==> Norm(x) == ""
  {
    var parts := DescriptionParts(others);
    DescriptionPartsProperties(others);
    assert forall k :: 0 <= k < |parts| ==> parts[k] in parts;
    JoinEmpty("; ", parts);
  }

  /**
   * A mass quote carries the first six pairs at most, in order, two to a
   * delivery term in canonical order, with the lead time of that term.
   */
  lemma MassOutProperties(c: Common, pairs: seq<Pair>, termLts: seq<string>)
    requires |termLts| == 3
    ensures |MassOut(c, pairs, termLts)| == Min(|pairs|, 6)
    ensures forall k :: 0 <= k < |MassOut(c, pairs, termLts)| ==>
      var row := MassOut(c, pairs, termLts)[k];
      Pair(row.moq, row.priceCents) == pairs[k] && TermRank(row.deliveryTerm) == k / 2
      && row.leadTime == LeadTimeCell(termLts[k / 2])
    ensures forall i, j :: 0 <= i < j < |MassOut(c, pairs, termLts)| ==>
      TermRank(MassOut(c, pairs, termLts)[i].deliveryTerm) <= TermRank(MassOut(c, pairs, termLts)[j].deliveryTerm)
  {
  }

  /** The rows of a sample quote keep the sample rows' terms and MOQs, one for one. */
  lemma SampleOutProperties(c: Common, rs: seq<SampleRow>)
    ensures |SampleOut(c, rs)| == |rs|
    ensures forall k :: 0 <= k < |rs| ==>
      var row := SampleOut(c, rs)[k];
      row.deliveryTerm == rs[k].term && row.moq == rs[k].moq && row.priceCents == rs[k].cents
      && row.leadTime == LeadTimeCell(rs[k].leadTime)
  {
  }

  /** The columns every row of `rows` shares with `c`, and its empty remark. */
  predicate CarriesCommon(rows: seq<Row>, c: Common) {
    forall row :: row in rows ==>
      row.date == c.date && row.customer == c.customer && row.planner == c.planner
      && row.product == c.product && row.ratedCurrent == c.rated && row.cableLength == c.cable
      && row.description == c.description && row.remark == ""
  }

  /** The L/T column is empty or ends in "wks". */
  predicate WeeksCell(cell: string) {
    cell == "" || (|cell| >= 3 && cell[|cell| - 3..] == "wks")
  }

  /** A sample quote has at most three rows, each for a canonical delivery term and with MOQ 1. */
  lemma SampleRowsOut(text: string, c: Common)
    ensures CarriesCommon(SampleOut(c, SampleRows(text)), c)
    ensures |SampleOut(c, SampleRows(text))| <= 3
    ensures forall row :: row in SampleOut(c, SampleRows(text)) ==>
      row.deliveryTerm in DeliveryTermsCanon && row.moq == 1 && WeeksCell(row.leadTime)
  {
    var rs := SampleRows(text);
    SampleRowsProperties(text);
    forall row | row in SampleOut(c, rs)
      ensures row.deliveryTerm in DeliveryTermsCanon && row.moq == 1 && WeeksCell(row.leadTime)
    {
      var k :| 0 <= k < |rs| && row == SampleOut(c, rs)[k];
      assert rs[k] in rs;
    }
  }

  /** A mass quote has at most six rows, each for a canonical delivery term. */
  lemma MassRowsOut(c: Common, pairs: seq<Pair>, termLts: seq<string>)
    requires |termLts| == 3
    ensures CarriesCommon(MassOut(c, pairs, termLts), c)
    ensures |MassOut(c, pairs, termLts)| <= 6
    ensures forall row :: row in MassOut(c, pairs, termLts) ==>
      row.deliveryTerm in DeliveryTermsCanon && WeeksCell(row.leadTime)
  {
    var rows := MassOut(c, pairs, termLts);
    forall row | row in rows ensures row.deliveryTerm in DeliveryTermsCanon && WeeksCell(row.leadTime) {
      var k :| 0 <= k < |rows| && row == rows[k];
      assert row.deliveryTerm == DeliveryTermsCanon[k / 2];
    }
  }

  /**
   * Every row of a quotation carries the quotation's shared columns and an
   * empty remark; its delivery term is one of the canonical three; its L/T
   * is empty or ends in "wks". A sample quote has at most three rows, each
   * with MOQ 1; any other quotation has at most six.
   */
  lemma RowsProperties(extracted: Option<string>, parse: DateParser)
    ensures CarriesCommon(Rows(extracted, parse), CommonOf(TextOf(extracted), parse))
    ensures forall row :: row in Rows(extracted, parse) ==>
      row.deliveryTerm in DeliveryTermsCanon && WeeksCell(row.leadTime)
    ensures IsSampleQuote(TextOf(extracted)) ==>
      |Rows(extracted, parse)| <= 3 && forall row :: row in Rows(extracted, parse) ==> row.moq == 1
    ensures |Rows(extracted, parse)| <= 6
  {
    var text := TextOf(extracted);
    var c := CommonOf(text, parse);
    if IsSampleQuote(text) {
      SampleRowsOut(text, c);
    } else {
      MassRowsOut(c, MoqPricePairs(text), TermLeadTimes(Dedup(LeadTimeTokens(text))));
    }
  }
}
