/** The Option type shared by the modules of this model. */
module Wrappers {
  datatype Option<+T> = None | Some(value: T)
}

/**
 * The part of Python's `re` module that parser.py uses: patterns that are a
 * concatenation of word boundaries (`\b`), literal text, and greedy
 * repetitions (`{m,n}`, `?`, `*`, `+`) of one character class, matched
 * leftmost-first with backtracking, as `re.match`, `re.search` and
 * `re.findall` do. Case-insensitive matching (`re.I`) applies to literal text.
 *
 * A match is reported as the positions in the subject before each item of
 * the pattern, followed by the end of the match, so a capture group that
 * spans items a..b-1 is the slice between positions a and b.
 */
module PyRe {
  import opened PyStr
  import opened Wrappers

  /** `\s`, or a bracketed class built from `A-Za-z`, `\d`/`0-9` and single characters. */
  datatype CharClass = Whitespace | Class(letters: bool, digits: bool, others: string)

  /** Upper bound of a repetition: `{m,n}` or unbounded (`*`, `+`). */
  datatype Bound = AtMost(n: nat) | Unbounded

  datatype Item =
    | Boundary                                 // \b
    | Rep(cls: CharClass, lo: nat, hi: Bound)  // cls{lo,hi}, greedy
    | Lit(text: string)                        // literal text

  type Pattern = seq<Item>

  predicate InClass(c: CharClass, x: char) {
    match c
    case Whitespace => IsSpace(x)
    case Class(letters, digits, others) => (letters && IsAsciiLetter(x)) || (digits && IsDigit(x)) || x in others
  }

  /**
   * The character `re.I` compares: the simple lowercase mapping, with
   * `ſ` ~ `s` and `ı` ~ `i` as Python's `re` adds them.
   */
  function FoldCase(c: char): char {
    if 'A' <= c <= 'Z' then (c as int + 32) as char
    else if c == '\U{017F}' then 's'
    else if c == '\U{0131}' || c == '\U{0130}' then 'i'
    else if c == '\U{212A}' then 'k'
    else c
  }

  predicate SameChar(x: char, y: char, ignoreCase: bool) {
    if ignoreCase then FoldCase(x) == FoldCase(y) else x == y
  }

  /** `\b` at position `i`: exactly one of the characters around `i` is a word character. */
  predicate AtBoundary(s: string, i: nat)
    requires i <= |s|
  {
    (i > 0 && IsWordChar(s[i - 1])) != (i < |s| && IsWordChar(s[i]))
  }

  predicate WithinBound(k: nat, hi: Bound) {
    hi.Unbounded? || k <= hi.n
  }

  function Decrement(hi: Bound): Bound {
    match hi
    case AtMost(n) => AtMost(if n == 0 then 0 else n - 1)
    case Unbounded => Unbounded
  }

  /** The slice `s[a..b]` is what item `it` may consume. */
  predicate Conforms(it: Item, s: string, a: nat, b: nat, ignoreCase: bool) {
    a <= b <= |s| &&
    match it
    case Boundary => a == b && AtBoundary(s, a)
    case Rep(cls, lo, hi) =>
      lo <= b - a && WithinBound(b - a, hi) && forall k :: a <= k < b ==> InClass(cls, s[k])
    case Lit(text) =>
      b - a == |text| && forall k :: 0 <= k < |text| ==> SameChar(s[a + k], text[k], ignoreCase)
  }

  /** Positions into `s` that never go backwards. */
  predicate Positions(s: string, ps: seq<nat>) {
    |ps| > 0 && ps[|ps| - 1] <= |s| && forall j, k :: 0 <= j <= k < |ps| ==> ps[j] <= ps[k]
  }

  /** `ps` is a way for pattern `p` to match `s`, item by item. */
  predicate IsMatch(p: Pattern, s: string, ps: seq<nat>, ignoreCase: bool) {
    |ps| == |p| + 1 && Positions(s, ps)
    && forall j :: 0 <= j < |p| ==> Conforms(p[j], s, ps[j], ps[j + 1], ignoreCase)
  }

  lemma ConsMatch(p: Pattern, s: string, i: nat, ps: seq<nat>, ignoreCase: bool)
    requires p != []
    requires IsMatch(p[1..], s, ps, ignoreCase)
    requires i <= ps[0] && Conforms(p[0], s, i, ps[0], ignoreCase)
    ensures IsMatch(p, s, [i] + ps, ignoreCase)
  {
    var qs := [i] + ps;
    forall j | 0 <= j < |p| ensures Conforms(p[j], s, qs[j], qs[j + 1], ignoreCase) {
      if j > 0 { assert p[j] == p[1..][j - 1]; }
    }
  }

  /** The longest run of `cls` characters at `i`, at most `hi` of them. */
  function Run(cls: CharClass, s: string, i: nat, hi: Bound): (k: nat)
    requires i <= |s|
    ensures i + k <= |s| && WithinBound(k, hi)
    ensures forall j :: i <= j < i + k ==> InClass(cls, s[j])
    decreases |s| - i
  {
    if i == |s| || !InClass(cls, s[i]) || hi == AtMost(0) then 0
    else 1 + Run(cls, s, i + 1, Decrement(hi))
  }

  /**
   * Leftmost-first match of `p` starting exactly at `i`, as Python's
   * backtracking engine finds it: a repetition first takes as many
   * characters as it can and gives them back one at a time.
   */
  function MatchAt(p: Pattern, s: string, i: nat, ignoreCase: bool): (r: Option<seq<nat>>)
    requires i <= |s|
    ensures r.Some? ==> IsMatch(p, s, r.value, ignoreCase) && r.value[0] == i
    decreases |p|, 1, 0
  {
    if p == [] then Some([i])
    else
      match p[0]
      case Boundary =>
        if !AtBoundary(s, i) then None
        else
          (match MatchAt(p[1..], s, i, ignoreCase)
           case None => None
           case Some(ps) => ConsMatch(p, s, i, ps, ignoreCase); Some([i] + ps))
      case Lit(text) =>
        if i + |text| <= |s| && forall k :: 0 <= k < |text| ==> SameChar(s[i + k], text[k], ignoreCase) then
          (match MatchAt(p[1..], s, i + |text|, ignoreCase)
           case None => None
           case Some(ps) => ConsMatch(p, s, i, ps, ignoreCase); Some([i] + ps))
        else None
      case Rep(cls, lo, hi) => Backtrack(p, s, i, Run(cls, s, i, hi), ignoreCase)
  }

  /** Tries the repetition `p[0]` with `k`, `k-1`, ... down to its minimum count of characters. */
  function Backtrack(p: Pattern, s: string, i: nat, k: nat, ignoreCase: bool): (r: Option<seq<nat>>)
    requires p != [] && p[0].Rep?
    requires i + k <= |s| && WithinBound(k, p[0].hi)
    requires forall j :: i <= j < i + k ==> InClass(p[0].cls, s[j])
    ensures r.Some? ==> IsMatch(p, s, r.value, ignoreCase) && r.value[0] == i
    decreases |p|, 0, k
  {
    if k < p[0].lo then None
    else
      match MatchAt(p[1..], s, i + k, ignoreCase)
      case Some(ps) => ConsMatch(p, s, i, ps, ignoreCase); Some([i] + ps)
      case None =>
        if k == 0 then None
        else
          assert WithinBound(k - 1, p[0].hi);
          Backtrack(p, s, i, k - 1, ignoreCase)
  }

  /** `re.search`: the match at the leftmost position at or after `from`. */
  function Search(p: Pattern, s: string, from: nat, ignoreCase: bool): (r: Option<seq<nat>>)
    requires from <= |s|
    ensures r.Some? ==> IsMatch(p, s, r.value, ignoreCase) && from <= r.value[0]
    ensures r.Some? ==> MatchAt(p, s, r.value[0], ignoreCase) == r
    ensures r.Some? ==> forall i :: from <= i < r.value[0] ==> MatchAt(p, s, i, ignoreCase).None?
    ensures r.None? ==> forall i :: from <= i <= |s| ==> MatchAt(p, s, i, ignoreCase).None?
    decreases |s| - from
  {
    match MatchAt(p, s, from, ignoreCase)
    case Some(ps) => Some(ps)
    case None => if from == |s| then None else Search(p, s, from + 1, ignoreCase)
  }

  /**
   * `re.findall`: successive non-overlapping leftmost matches, each search
   * resuming where the previous match ended (one position later after an
   * empty match).
   */
  function FindAll(p: Pattern, s: string, from: nat, ignoreCase: bool): (ms: seq<seq<nat>>)
    requires from <= |s|
    ensures forall k :: 0 <= k < |ms| ==> IsMatch(p, s, ms[k], ignoreCase) && from <= ms[k][0]
    decreases |s| - from
  {
    match Search(p, s, from, ignoreCase)
    case None => []
    case Some(ps) =>
      assert ps[0] <= ps[|p|];
      var next := if ps[|p|] > ps[0] then ps[|p|] else ps[0] + 1;
      if next > |s| then [ps]
      else
        var rest := FindAll(p, s, next, ignoreCase);
        var ms := [ps] + rest;
        assert forall k :: 1 <= k < |ms| ==> ms[k] == rest[k - 1];
        ms
  }

  /** The text of the capture group that spans items `a` to `b - 1` of a match. */
  function Group(s: string, ps: seq<nat>, a: nat, b: nat): string
    requires Positions(s, ps) && a <= b < |ps|
  {
    s[ps[a]..ps[b]]
  }
}
