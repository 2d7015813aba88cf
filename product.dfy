/**
 * The product block of a quotation and its segmentation into product name,
 * rated current, cable length and the remaining specification bullets
 * (parser.py:70-131).
 */
module ProductSpecs {
  import opened PyStr
  import opened PyRe
  import opened Wrappers

  /** Every line of the text with its trailing whitespace stripped (parser.py:74). */
  function RStripAll(lines: seq<string>): seq<string> {
    seq(|lines|, k requires 0 <= k < |lines| => RStrip(lines[k]))
  }

  function Lines(text: string): seq<string> {
    RStripAll(SplitLines(text))
  }

  /** The line that opens the product section: it normalises to "product" in any case. */
  predicate IsProductHeading(line: string) {
    Lower(Norm(line)) == "product"
  }

  /** The line that closes the product section: it normalises to something starting "notes:" in any case. */
  predicate IsNotesLine(line: string) {
    var t := Lower(Norm(line));
    |t| >= 6 && t[..6] == "notes:"
  }

  /** Index of the first line at or after `i` that satisfies `p`, or `|lines|` if there is none. */
  function FirstWhere(lines: seq<string>, i: nat, p: string -> bool): (k: nat)
    requires i <= |lines|
    ensures i <= k <= |lines|
    ensures forall j :: i <= j < k ==> !p(lines[j])
    ensures k < |lines| ==> p(lines[k])
    decreases |lines| - i
  {
    if i == |lines| || p(lines[i]) then i else FirstWhere(lines, i + 1, p)
  }

  /** The lines that are not blank once whitespace is normalised, in order. */
  function NonBlank(lines: seq<string>): seq<string> {
    if lines == [] then []
    else
      var last := lines[|lines| - 1];
      NonBlank(lines[..|lines| - 1]) + (if AllSpace(last) then [] else [last])
  }

  /** The product block of the rstripped `lines`: see `ProductBlock`. */
  function BlockOf(lines: seq<string>): seq<string> {
    var h := FirstWhere(lines, 0, IsProductHeading);
    if h == |lines| then [] else NonBlank(lines[h + 1..FirstWhere(lines, h + 1, IsNotesLine)])
  }

  /** What `_extract_product_block_lines` (parser.py:70-89) returns. */
  function ProductBlock(text: string): seq<string> {
    BlockOf(Lines(text))
  }

  /**
   * `_extract_product_block_lines` (parser.py:70-89): the non-blank lines
   * after the first "product" heading, up to the first "notes:" line.
   */
  method ExtractProductBlockLines(text: string) returns (block: seq<string>)
    ensures block == ProductBlock(text)
  {
    var lines := Lines(text);
    var i := 0;
    while i < |lines| && !IsProductHeading(lines[i])
      invariant 0 <= i <= |lines|
      invariant FirstWhere(lines, 0, IsProductHeading) == FirstWhere(lines, i, IsProductHeading)
    {
      i := i + 1;
    }
    if i == |lines| {
      return [];
    }
    var j := i + 1;
    while j < |lines| && !IsNotesLine(lines[j])
      invariant i + 1 <= j <= |lines|
      invariant FirstWhere(lines, i + 1, IsNotesLine) == FirstWhere(lines, j, IsNotesLine)
    {
      j := j + 1;
    }
    block := NonBlank(lines[i + 1..j]);
  }

  /** Blank in the sense of `_norm_ws(line) == ""`. */
  lemma BlankIffNormEmpty(line: string)
    ensures AllSpace(line) <==> Norm(line) == ""
  {
    NormProperties(line);
  }

  /** `NonBlank` keeps exactly the non-blank lines. */
  lemma {:induction false} NonBlankMembers(lines: seq<string>)
    ensures forall x :: x in NonBlank(lines) <==> x in lines && !AllSpace(x)
  {
    if lines != [] {
      var init := lines[..|lines| - 1];
      NonBlankMembers(init);
      assert lines == init + [lines[|lines| - 1]];
    }
  }

  /** `NonBlank` keeps the order of the lines: filtering a concatenation filters each part. */
  lemma {:induction false} NonBlankConcat(xs: seq<string>, ys: seq<string>)
    ensures NonBlank(xs + ys) == NonBlank(xs) + NonBlank(ys)
    decreases |ys|
  {
    if ys == [] {
      assert xs + ys == xs;
    } else {
      var init := ys[..|ys| - 1];
      NonBlankConcat(xs, init);
      assert (xs + ys)[..|xs + ys| - 1] == xs + init;
    }
  }

  /** Without a product heading there is no product block. */
  lemma NoHeadingNoBlock(lines: seq<string>)
    requires forall i :: 0 <= i < |lines| ==> !IsProductHeading(lines[i])
    ensures BlockOf(lines) == []
  {
    var h := FirstWhere(lines, 0, IsProductHeading);
  }

  /**
   * With `h` the first product heading and `e` the first notes line after it
   * (or the end of the text), the product block holds exactly the non-blank
   * lines strictly between them, in their order.
   */
  lemma BlockBetweenHeadingAndNotes(lines: seq<string>, h: nat, e: nat)
    requires h < e <= |lines|
    requires IsProductHeading(lines[h]) && forall i :: 0 <= i < h ==> !IsProductHeading(lines[i])
    requires e == |lines| || IsNotesLine(lines[e])
    requires forall i :: h < i < e ==> !IsNotesLine(lines[i])
    ensures BlockOf(lines) == NonBlank(lines[h + 1..e])
    ensures forall x :: x in BlockOf(lines) <==> x in lines[h + 1..e] && !AllSpace(x)
  {
    var h' := FirstWhere(lines, 0, IsProductHeading);
    assert h' == h;
    var e' := FirstWhere(lines, h + 1, IsNotesLine);
    assert e' == e;
    NonBlankMembers(lines[h + 1..e]);
  }

  /** `str.isdigit()`: non-empty and all digits. */
  predicate IsDigitLine(t: string) {
    |t| > 0 && forall i :: 0 <= i < |t| ==> IsDigit(t[i])
  }

  predicate IsBullet(t: string) {
    StartsWith(t, "-")
  }

  /** A block line that can name the product: after normalising, neither all digits nor a bullet. */
  predicate IsNameLine(line: string) {
    !IsDigitLine(Norm(line)) && !IsBullet(Norm(line))
  }

  /** The product name (parser.py:101-109): the first name line, normalised, or "". */
  function ProductName(block: seq<string>): string {
    if block == [] then ""
    else if IsNameLine(block[0]) then Norm(block[0])
    else ProductName(block[1..])
  }

  /**
   * The product name is the normalised first name line of the block, and
   * "" when every line is all digits or a bullet.
   */
  lemma {:induction false} ProductNameIsFirstNameLine(block: seq<string>, i: nat)
    requires i <= |block|
    ensures var k := FirstWhere(block, i, IsNameLine);
      ProductName(block[i..]) == if k < |block| then Norm(block[k]) else ""
    decreases |block| - i
  {
    if i < |block| {
      assert block[i..][0] == block[i];
      if !IsNameLine(block[i]) {
        assert block[i..][1..] == block[i + 1..];
        ProductNameIsFirstNameLine(block, i + 1);
      }
    }
  }

  /** The stripped text after the bullet character of a normalised bullet line (parser.py:116). */
  function BulletText(line: string): string
    requires IsBullet(Norm(line))
  {
    Strip(Norm(line)[1..])
  }

  /** The bullets of the block, their dash removed (parser.py:112-116). */
  function Bullets(block: seq<string>): seq<string> {
    if block == [] then []
    else
      var last := block[|block| - 1];
      Bullets(block[..|block| - 1]) + (if IsBullet(Norm(last)) then [BulletText(last)] else [])
  }

  /** `(?i)^rated\s*current\s*:` */
  const RatedCurrentLabel: Pattern :=
    [Lit("rated"), Rep(Whitespace, 0, Unbounded), Lit("current"), Rep(Whitespace, 0, Unbounded), Lit(":")]

  /** `(?i)^cable\s*length\s*:` */
  const CableLengthLabel: Pattern :=
    [Lit("cable"), Rep(Whitespace, 0, Unbounded), Lit("length"), Rep(Whitespace, 0, Unbounded), Lit(":")]

  /** `re.match(marker, b)`: the bullet starts with the marker, in any case. */
  predicate HasLabel(b: string, marker: Pattern) {
    MatchAt(marker, b, 0, true).Some?
  }

  predicate IsRatedCurrent(b: string) { HasLabel(b, RatedCurrentLabel) }

  predicate IsCableLength(b: string) { HasLabel(b, CableLengthLabel) }

  /** A labelled bullet holds a colon. */
  lemma LabelHasColon(b: string, marker: Pattern)
    requires marker == RatedCurrentLabel || marker == CableLengthLabel
    requires HasLabel(b, marker)
    ensures ':' in b
  {
    var ps := MatchAt(marker, b, 0, true).value;
    assert marker[4] == Lit(":");
    assert Conforms(marker[4], b, ps[4], ps[5], true);
    assert SameChar(b[ps[4] + 0], ":"[0], true);
    assert b[ps[4]] == ':';
  }

  /** A bullet carrying a label starts with the label's first letter, in either case. */
  lemma LabelFirstLetter(b: string, marker: Pattern)
    requires marker == RatedCurrentLabel || marker == CableLengthLabel
    requires HasLabel(b, marker)
    ensures |b| > 0 && FoldCase(b[0]) == marker[0].text[0]
  {
    var ps := MatchAt(marker, b, 0, true).value;
    assert Conforms(marker[0], b, 0, ps[1], true);
    assert SameChar(b[0 + 0], marker[0].text[0], true);
  }

  /** No bullet carries both labels: one starts with "r", the other with "c". */
  lemma LabelsExclusive(b: string)
    ensures !(IsRatedCurrent(b) && IsCableLength(b))
  {
    if IsRatedCurrent(b) {
      LabelFirstLetter(b, RatedCurrentLabel);
    }
    if IsCableLength(b) {
      LabelFirstLetter(b, CableLengthLabel);
    }
  }

  /** The normalised text after the first colon of a labelled bullet. */
  function LabelValue(b: string): string
    requires ':' in b
  {
    Norm(b[IndexOf(b, ':') + 1..])
  }

  /** The value of the last bullet carrying `marker`, or "" (parser.py:122-126). */
  function LastLabelValue(bullets: seq<string>, marker: Pattern): string
    requires marker == RatedCurrentLabel || marker == CableLengthLabel
  {
    if bullets == [] then ""
    else
      var last := bullets[|bullets| - 1];
      if HasLabel(last, marker) then LabelHasColon(last, marker); LabelValue(last)
      else LastLabelValue(bullets[..|bullets| - 1], marker)
  }

  /** The rated-current value (parser.py:123-124). */
  function RatedValue(bullets: seq<string>): string {
    LastLabelValue(bullets, RatedCurrentLabel)
  }

  /** The cable-length value (parser.py:125-126). */
  function CableValue(bullets: seq<string>): string {
    LastLabelValue(bullets, CableLengthLabel)
  }

  /** A bullet that goes to the description: neither rated current nor cable length. */
  predicate IsOtherSpec(b: string) {
    !IsRatedCurrent(b) && !IsCableLength(b)
  }

  /** The bullets that are neither rated current nor cable length, in order (parser.py:127-129). */
  function OtherSpecs(bullets: seq<string>): seq<string> {
    if bullets == [] then []
    else
      var last := bullets[|bullets| - 1];
      OtherSpecs(bullets[..|bullets| - 1]) + (if IsOtherSpec(last) then [last] else [])
  }

  /** With no bullet carrying the label, its value is "". */
  lemma {:induction false} LastLabelValueAbsent(bullets: seq<string>, marker: Pattern)
    requires marker == RatedCurrentLabel || marker == CableLengthLabel
    requires forall k :: 0 <= k < |bullets| ==> !HasLabel(bullets[k], marker)
    ensures LastLabelValue(bullets, marker) == ""
  {
    if bullets != [] {
      var init := bullets[..|bullets| - 1];
      assert forall k :: 0 <= k < |init| ==> init[k] == bullets[k];
      LastLabelValueAbsent(init, marker);
    }
  }

  /** The labelled value is the text after the colon of the last bullet carrying the label. */
  lemma {:induction false} LastLabelValueIsLast(bullets: seq<string>, marker: Pattern, k: nat)
    requires marker == RatedCurrentLabel || marker == CableLengthLabel
    requires k < |bullets| && HasLabel(bullets[k], marker)
    requires forall j :: k < j < |bullets| ==> !HasLabel(bullets[j], marker)
    ensures ':' in bullets[k] && LastLabelValue(bullets, marker) == LabelValue(bullets[k])
  {
    LabelHasColon(bullets[k], marker);
    if k < |bullets| - 1 {
      var init := bullets[..|bullets| - 1];
      assert forall j :: 0 <= j < |init| ==> init[j] == bullets[j];
      LastLabelValueIsLast(init, marker, k);
    }
  }

  /** The description bullets are exactly the bullets that carry neither label, in order. */
  lemma {:induction false} OtherSpecsMembers(bullets: seq<string>)
    ensures forall x :: x in OtherSpecs(bullets) <==> x in bullets && !IsRatedCurrent(x) && !IsCableLength(x)
    ensures |OtherSpecs(bullets)| <= |bullets|
  {
    if bullets != [] {
      var init := bullets[..|bullets| - 1];
      OtherSpecsMembers(init);
      assert bullets == init + [bullets[|bullets| - 1]];
    }
  }

  /** Every bullet text comes from a bullet line of the block, with its dash and surrounding whitespace gone. */
  lemma {:induction false} BulletsFromBlock(block: seq<string>)
    ensures |Bullets(block)| <= |block|
    ensures forall x :: x in Bullets(block) ==>
      exists line :: line in block && IsBullet(Norm(line)) && x == BulletText(line)
    ensures forall line :: line in block && IsBullet(Norm(line)) ==> BulletText(line) in Bullets(block)
  {
    if block != [] {
      var init := block[..|block| - 1];
      BulletsFromBlock(init);
      assert block == init + [block[|block| - 1]];
    }
  }

  /** What `_extract_product_and_specs` returns: (product, rated, cable, others). */
  datatype ProductSpec = ProductSpec(product: string, rated: string, cable: string, others: seq<string>)

  function ProductAndSpecs(text: string): ProductSpec {
    var block := ProductBlock(text);
    var bullets := Bullets(block);
    ProductSpec(ProductName(block), RatedValue(bullets), CableValue(bullets), OtherSpecs(bullets))
  }

  /** The product-name loop of parser.py:101-109. */
  method FindProductName(block: seq<string>) returns (product: string)
    ensures product == ProductName(block)
  {
    product := "";
    var i := 0;
    while i < |block|
      invariant 0 <= i <= |block|
      invariant ProductName(block) == ProductName(block[i..])
    {
      var t := Norm(block[i]);
      if !IsDigitLine(t) && !IsBullet(t) {
        product := t;
        break;
      }
      assert block[i..][1..] == block[i + 1..];
      i := i + 1;
    }
  }

  /** The bullet loop of parser.py:112-116. */
  method CollectBullets(block: seq<string>) returns (bullets: seq<string>)
    ensures bullets == Bullets(block)
  {
    bullets := [];
    var i := 0;
    while i < |block|
      invariant 0 <= i <= |block|
      invariant bullets == Bullets(block[..i])
    {
      var t := Norm(block[i]);
      BulletsStep(block, i);
      if IsBullet(t) {
        bullets := bullets + [BulletText(block[i])];
      }
      i := i + 1;
    }
    assert block[..|block|] == block;
  }

  /** The label loop of parser.py:118-129. */
  method SplitBullets(bullets: seq<string>) returns (rated: string, cable: string, others: seq<string>)
    ensures rated == RatedValue(bullets) && cable == CableValue(bullets) && others == OtherSpecs(bullets)
  {
    rated := "";
    cable := "";
    others := [];
    var i := 0;
    while i < |bullets|
      invariant 0 <= i <= |bullets|
      invariant rated == RatedValue(bullets[..i])
      invariant cable == CableValue(bullets[..i])
      invariant others == OtherSpecs(bullets[..i])
    {
      var b := bullets[i];
      LabelStep(bullets, i, RatedCurrentLabel);
      LabelStep(bullets, i, CableLengthLabel);
      OtherSpecsStep(bullets, i);
      LabelsExclusive(b);
      if IsRatedCurrent(b) {
        LabelHasColon(b, RatedCurrentLabel);
        rated := LabelValue(b);
      } else if IsCableLength(b) {
        LabelHasColon(b, CableLengthLabel);
        cable := LabelValue(b);
      } else {
        others := others + [b];
      }
      i := i + 1;
    }
    assert bullets[..|bullets|] == bullets;
  }

  /**
   * `_extract_product_and_specs` (parser.py:91-131): the product name, the
   * rated current and cable length from their bullets, and every other
   * bullet for the description.
   */
  method ExtractProductAndSpecs(text: string) returns (product: string, rated: string, cable: string, others: seq<string>)
    ensures ProductSpec(product, rated, cable, others) == ProductAndSpecs(text)
  {
    var block := ExtractProductBlockLines(text);
    product := FindProductName(block);
    var bullets := CollectBullets(block);
    rated, cable, others := SplitBullets(bullets);
  }

  lemma BulletsStep(block: seq<string>, i: nat)
    requires i < |block|
    ensures Bullets(block[..i + 1]) ==
      Bullets(block[..i]) + (if IsBullet(Norm(block[i])) then [BulletText(block[i])] else [])
  {
    assert block[..i + 1][..i] == block[..i];
  }

  lemma LabelStep(bullets: seq<string>, i: nat, marker: Pattern)
    requires i < |bullets|
    requires marker == RatedCurrentLabel || marker == CableLengthLabel
    ensures LastLabelValue(bullets[..i + 1], marker) ==
      if HasLabel(bullets[i], marker) then LastLabelValue([bullets[i]], marker) else LastLabelValue(bullets[..i], marker)
  {
    assert bullets[..i + 1][..i] == bullets[..i];
  }

  lemma OtherSpecsStep(bullets: seq<string>, i: nat)
    requires i < |bullets|
    ensures OtherSpecs(bullets[..i + 1]) == OtherSpecs(bullets[..i]) + (if IsOtherSpec(bullets[i]) then [bullets[i]] else [])
  {
    assert bullets[..i + 1][..i] == bullets[..i];
  }
}
