/**
 * Header fields of a quotation (parser.py:22-68): the document date and the
 * customer and planner names.
 */
module Header {
  import opened PyStr
  import opened PyRe
  import opened Wrappers
  import opened Schema

  /** A calendar date as `dateutil` returns it. */
  datatype Date = Date(year: nat, month: nat, day: nat)

  /**
   * The date library's parser, called day-first and tolerant of surrounding
   * words: a date, or `None` where the library raises.
   */
  type DateParser = string -> Option<Date>

  /** `n` in decimal, zero-padded on the left to at least `width` characters. */
  function Padded(n: nat, width: nat): (r: string)
    ensures |r| >= width && |r| >= 1
    ensures forall i :: 0 <= i < |r| ==> IsDigit(r[i])
  {
    var d := DecimalText(n);
    if |d| >= width then d else seq(width - |d|, _ => '0') + d
  }

  /**
   * Padding gives back the number, and a number below `10^width` takes
   * exactly `width` characters.
   */
  lemma PaddedRoundTrip(n: nat, width: nat)
    ensures DecimalValue(Padded(n, width)) == n
    ensures width >= 1 && n < Pow10(width) ==> |Padded(n, width)| == width
  {
    var d := DecimalText(n);
    DecimalRoundTrip(n);
    if |d| < width {
      var z := seq(width - |d|, _ => '0');
      DecimalValueConcat(z, d);
      ZerosValue(width - |d|);
      assert DecimalValue(z) * Pow10(|d|) == 0;
      assert Padded(n, width) == z + d;
    }
    if width >= 1 && n < Pow10(width) {
      DecimalTextLength(n, width);
    }
  }

  /** The date rendered as year, month and day, each zero-padded, joined by dashes. */
  function IsoFormat(d: Date): (r: string)
    ensures |r| >= 10
  {
    Padded(d.year, 4) + "-" + Padded(d.month, 2) + "-" + Padded(d.day, 2)
  }

  /**
   * A date with a year of at most four digits renders as YYYY-MM-DD, and the
   * three fields read back from their positions.
   */
  lemma IsoFormatRoundTrip(d: Date)
    requires d.year < 10000 && 1 <= d.month <= 12 && 1 <= d.day <= 31
    ensures |IsoFormat(d)| == 10 && IsoFormat(d)[4] == '-' && IsoFormat(d)[7] == '-'
    ensures DecimalValue(IsoFormat(d)[..4]) == d.year
    ensures DecimalValue(IsoFormat(d)[5..7]) == d.month
    ensures DecimalValue(IsoFormat(d)[8..]) == d.day
  {
    var y, m, dd := Padded(d.year, 4), Padded(d.month, 2), Padded(d.day, 2);
    assert Pow10(2) == 100 && Pow10(4) == 10000;
    PaddedRoundTrip(d.year, 4);
    PaddedRoundTrip(d.month, 2);
    PaddedRoundTrip(d.day, 2);
    var r := IsoFormat(d);
    assert r == y + "-" + m + "-" + dd;
    assert r[..4] == y && r[5..7] == m && r[8..] == dd;
  }

  /**
   * `_to_iso_date` (parser.py:22-31): the normalised raw text, rendered as
   * YYYY-MM-DD when the date parser accepts it and returned as it is when the
   * parser fails; empty text stays empty.
   */
  function ToIsoDate(raw: string, parse: DateParser): (r: string)
    ensures r == "" <==> Norm(raw) == ""
    ensures Norm(raw) != "" && parse(Norm(raw)).None? ==> r == Norm(raw)
    ensures Norm(raw) != "" && parse(Norm(raw)).Some? ==> r == IsoFormat(parse(Norm(raw)).value)
  {
    var t := Norm(raw);
    if t == "" then ""
    else
      match parse(t)
      case Some(d) => IsoFormat(d)
      case None => t
  }

  /** `\b(\d{1,2}-[A-Za-z]{3}-\d{2})\b`, as in "16-Dec-25" */
  const DayMonthYear: Pattern :=
    [Boundary, Rep(Digits, 1, AtMost(2)), Lit("-"), Rep(Letters, 3, AtMost(3)), Lit("-"),
     Rep(Digits, 2, AtMost(2)), Boundary]

  /** `\b([A-Za-z]{3}\.? \d{1,2}, \d{4})\b`, as in "Nov. 19, 2025" */
  const MonthDayYear: Pattern :=
    [Boundary, Rep(Letters, 3, AtMost(3)), Rep(Class(false, false, "."), 0, AtMost(1)), Lit(" "),
     Rep(Digits, 1, AtMost(2)), Lit(", "), Rep(Digits, 4, AtMost(4)), Boundary]

  /** `\b(\d{4}-\d{2}-\d{2})\b`, as in "2025-12-16" */
  const YearMonthDay: Pattern :=
    [Boundary, Rep(Digits, 4, AtMost(4)), Lit("-"), Rep(Digits, 2, AtMost(2)), Lit("-"),
     Rep(Digits, 2, AtMost(2)), Boundary]

  /** The three date shapes, in the order `_extract_date` tries them. */
  const DatePatterns: seq<Pattern> := [DayMonthYear, MonthDayYear, YearMonthDay]

  /** Whether date shape `k` occurs anywhere in `text`. */
  predicate HasDateShape(text: string, k: nat)
    requires k < 3
  {
    Search(DatePatterns[k], text, 0, false).Some?
  }

  /**
   * The text of a match of a pattern that opens with `\b` and a repetition
   * of letters or digits is never blank.
   */
  lemma MatchedDateNotBlank(p: Pattern, s: string, ps: seq<nat>)
    requires IsMatch(p, s, ps, false) && |p| >= 2 && p[0] == Boundary
    requires p[1].Rep? && p[1].lo >= 1 && (p[1].cls == Digits || p[1].cls == Letters)
    ensures Norm(Group(s, ps, 0, |p|)) != ""
  {
    assert Conforms(p[0], s, ps[0], ps[1], false);
    assert Conforms(p[1], s, ps[1], ps[2], false);
    assert ps[0] == ps[1] < ps[2] <= ps[|p|];
    var g := Group(s, ps, 0, |p|);
    assert g[0] == s[ps[1]] && !IsSpace(g[0]);
    NormProperties(g);
  }

  /**
   * `_extract_date` (parser.py:33-46): the leftmost occurrence of the first
   * date shape that occurs at all, interpreted by `ToIsoDate`. The result is
   * empty exactly when no date shape occurs.
   */
  function ExtractDate(text: string, parse: DateParser): (r: string)
    ensures r == "" <==> !HasDateShape(text, 0) && !HasDateShape(text, 1) && !HasDateShape(text, 2)
    ensures HasDateShape(text, 0) ==>
      var m := Search(DayMonthYear, text, 0, false).value;
      r == ToIsoDate(Group(text, m, 0, |DayMonthYear|), parse)
    ensures !HasDateShape(text, 0) && HasDateShape(text, 1) ==>
      var m := Search(MonthDayYear, text, 0, false).value;
      r == ToIsoDate(Group(text, m, 0, |MonthDayYear|), parse)
    ensures !HasDateShape(text, 0) && !HasDateShape(text, 1) && HasDateShape(text, 2) ==>
      var m := Search(YearMonthDay, text, 0, false).value;
      r == ToIsoDate(Group(text, m, 0, |YearMonthDay|), parse)
  {
    match Search(DayMonthYear, text, 0, false)
    case Some(m) =>
      MatchedDateNotBlank(DayMonthYear, text, m);
      ToIsoDate(Group(text, m, 0, |DayMonthYear|), parse)
    case None =>
      match Search(MonthDayYear, text, 0, false)
      case Some(m) =>
        MatchedDateNotBlank(MonthDayYear, text, m);
        ToIsoDate(Group(text, m, 0, |MonthDayYear|), parse)
      case None =>
        match Search(YearMonthDay, text, 0, false)
        case Some(m) =>
          MatchedDateNotBlank(YearMonthDay, text, m);
          ToIsoDate(Group(text, m, 0, |YearMonthDay|), parse)
        case None => ""
  }

  /** `[A-Za-z0-9 ,.&()\-]` */
  const CompanyChars := Class(true, true, " ,.&()-")
  /** `[A-Za-z ,.\-]` */
  const PersonChars := Class(true, false, " ,.-")

  /** `([A-Za-z0-9 ,.&()\-]+Co\., Ltd\.)\s+([A-Za-z ,.\-]+)`: a company name followed by a person's name. */
  const CompanyThenPerson: Pattern :=
    [Rep(CompanyChars, 1, Unbounded), Lit("Co., Ltd."), Rep(Whitespace, 1, Unbounded), Rep(PersonChars, 1, Unbounded)]

  /** `([A-Za-z0-9 ,.&()\-]+Co\., Ltd\.)`: a company name. */
  const Company: Pattern := [Rep(CompanyChars, 1, Unbounded), Lit("Co., Ltd.")]

  /** The planner name parser.py prefers whenever it occurs. */
  const KnownPlanner := "Sherry Liu"

  /** A company name that is the issuer's own (parser.py:63). */
  predicate IsIssuer(name: string) {
    Contains(Upper(name), "SINBON") || Contains(Upper(name), "JIANGYIN")
  }

  /** The texts of the group spanning items `a` to `b - 1` of each match. */
  function Groups(p: Pattern, s: string, ms: seq<seq<nat>>, a: nat, b: nat): (gs: seq<string>)
    requires a <= b <= |p|
    requires forall k :: 0 <= k < |ms| ==> IsMatch(p, s, ms[k], false)
    ensures |gs| == |ms|
    ensures forall k :: 0 <= k < |ms| ==> IsMatch(p, s, ms[k], false) && gs[k] == Group(s, ms[k], a, b)
  {
    if ms == [] then []
    else
      assert IsMatch(p, s, ms[0], false);
      [Group(s, ms[0], a, b)] + Groups(p, s, ms[1..], a, b)
  }

  /** `re.findall` of the company pattern (parser.py:60). */
  function CompanyCandidates(text: string): seq<string> {
    var ms := FindAll(Company, text, 0, false);
    Groups(Company, text, ms, 0, |Company|)
  }

  /** Index of the first candidate that is not the issuer's name, or `|cands|` if there is none. */
  function FirstNonIssuer(cands: seq<string>): (k: nat)
    ensures k <= |cands|
    ensures forall j :: 0 <= j < k ==> IsIssuer(cands[j])
    ensures k < |cands| ==> !IsIssuer(cands[k])
  {
    if cands == [] || !IsIssuer(cands[0]) then 0 else 1 + FirstNonIssuer(cands[1..])
  }

  /** What `_extract_customer_planner` (parser.py:48-68) returns. */
  function CustomerPlanner(text: string): (string, string) {
    var planner := if Contains(text, KnownPlanner) then KnownPlanner else "";
    match Search(CompanyThenPerson, text, 0, false)
    case Some(m) =>
      (Norm(Group(text, m, 0, 2)), if Contains(text, KnownPlanner) then KnownPlanner else Norm(Group(text, m, 3, 4)))
    case None => (FallbackCustomer(CompanyCandidates(text)), planner)
  }

  /** The first candidate that is not the issuer's, normalised, or "" (parser.py:61-65). */
  function FallbackCustomer(cands: seq<string>): string {
    var k := FirstNonIssuer(cands);
    if k < |cands| then Norm(cands[k]) else ""
  }

  /** The denylist loop of parser.py:61-65. */
  method FirstCustomer(candidates: seq<string>) returns (customer: string)
    ensures customer == FallbackCustomer(candidates)
  {
    customer := "";
    var i := 0;
    while i < |candidates|
      invariant 0 <= i <= |candidates|
      invariant forall j :: 0 <= j < i ==> IsIssuer(candidates[j])
      invariant customer == ""
    {
      if !IsIssuer(candidates[i]) {
        customer := Norm(candidates[i]);
        break;
      }
      i := i + 1;
    }
    FirstNonIssuerUnique(candidates, i);
  }

  /**
   * `_extract_customer_planner` (parser.py:48-68). A company name followed by
   * a person's name gives both fields; otherwise the customer is the first
   * company name that is not the issuer's.
   */
  method ExtractCustomerPlanner(text: string) returns (customer: string, planner: string)
    ensures (customer, planner) == CustomerPlanner(text)
  {
    var m := Search(CompanyThenPerson, text, 0, false);
    if m.Some? {
      customer := Norm(Group(text, m.value, 0, 2));
      planner := Norm(Group(text, m.value, 3, 4));
      if Contains(text, KnownPlanner) {
        planner := KnownPlanner;
      }
      return;
    }
    var candidates := CompanyCandidates(text);
    customer := FirstCustomer(candidates);
    planner := if Contains(text, KnownPlanner) then KnownPlanner else "";
  }

  /** The first index whose candidate is not the issuer's is the one `FirstNonIssuer` gives. */
  lemma FirstNonIssuerUnique(cands: seq<string>, i: nat)
    requires i <= |cands|
    requires forall j :: 0 <= j < i ==> IsIssuer(cands[j])
    requires i < |cands| ==> !IsIssuer(cands[i])
    ensures FirstNonIssuer(cands) == i
  {
    var k := FirstNonIssuer(cands);
    assert !(k < i) && !(i < k);
  }

  /**
   * Whenever "Sherry Liu" occurs in the text it is the planner; in the
   * fallback branch the customer is never a name of the issuer's, and is
   * empty only when every company name found is the issuer's.
   */
  lemma CustomerPlannerProperties(text: string)
    ensures Contains(text, KnownPlanner) ==> CustomerPlanner(text).1 == KnownPlanner
    ensures Search(CompanyThenPerson, text, 0, false).None? ==>
      var cands := CompanyCandidates(text);
      (CustomerPlanner(text).0 == "" <==> forall j :: 0 <= j < |cands| ==> IsIssuer(cands[j]))
      && (CustomerPlanner(text).0 != "" ==>
            exists j :: 0 <= j < |cands| && !IsIssuer(cands[j]) && CustomerPlanner(text).0 == Norm(cands[j])
              && (forall i :: 0 <= i < j ==> IsIssuer(cands[i])))
  {
    if Search(CompanyThenPerson, text, 0, false).None? {
      var cands := CompanyCandidates(text);
      var k := FirstNonIssuer(cands);
      if k < |cands| {
        CompanyNotBlank(text, k);
      }
    }
  }

  /** Every company name found ends in "Co., Ltd.", so it is never blank. */
  lemma CompanyNotBlank(text: string, k: nat)
    requires k < |CompanyCandidates(text)|
    ensures Norm(CompanyCandidates(text)[k]) != ""
  {
    var m := FindAll(Company, text, 0, false)[k];
    var g := CompanyCandidates(text)[k];
    assert g == Group(text, m, 0, 2);
    CompanyEndsWithDot(text, m);
    NotBlankWithDot(g);
  }

  lemma NotBlankWithDot(g: string)
    requires |g| > 0 && g[|g| - 1] == '.'
    ensures Norm(g) != ""
  {
    NormProperties(g);
  }

  lemma CompanyEndsWithDot(text: string, m: seq<nat>)
    requires IsMatch(Company, text, m, false)
    ensures m[0] < m[2] && text[m[2] - 1] == '.'
  {
    assert Conforms(Company[1], text, m[1], m[2], false);
    assert SameChar(text[m[1] + 8], "Co., Ltd."[8], false);
  }
}
