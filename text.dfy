/**
 * The Python string built-ins that parser.py relies on: character classes,
 * `strip`, `rstrip`, whitespace collapsing (`re.sub(r"\s+", " ", ...)`),
 * `splitlines`, `lower`, `upper`, `in`, `startswith`, `replace` and `join`.
 * Strings are sequences of Unicode scalar values, as Python's `str` is.
 */
module PyStr {

  /** The characters `str.isspace()` accepts; the same set is `\s` in a `str` pattern. */
  const SpaceChars: set<char> :=
    {' ', '\t', '\n', '\r', '\U{000B}', '\U{000C}', '\U{001C}', '\U{001D}', '\U{001E}', '\U{001F}',
     '\U{0085}', '\U{00A0}', '\U{1680}', '\U{2000}', '\U{2001}', '\U{2002}', '\U{2003}', '\U{2004}',
     '\U{2005}', '\U{2006}', '\U{2007}', '\U{2008}', '\U{2009}', '\U{200A}', '\U{2028}', '\U{2029}',
     '\U{202F}', '\U{205F}', '\U{3000}'}

  /** `str.isspace()` for one character. */
  predicate IsSpace(c: char) {
    c in SpaceChars
  }

  /** The characters at which `str.splitlines()` breaks a line (`\r\n` counts once). */
  predicate IsLineBreak(c: char) {
    c == '\n' || c == '\r' || c == '\U{000B}' || c == '\U{000C}' || c == '\U{001C}' || c == '\U{001D}'
    || c == '\U{001E}' || c == '\U{0085}' || c == '\U{2028}' || c == '\U{2029}'
  }

  /** `\d` and the digits `str.isdigit()` accepts, restricted to ASCII. */
  predicate IsDigit(c: char) { '0' <= c <= '9' }

  /** `[A-Za-z]` */
  predicate IsAsciiLetter(c: char) { ('a' <= c <= 'z') || ('A' <= c <= 'Z') }

  /**
   * `\w`: ASCII letters, digits and `_`, Latin-1 letters, Hangul, CJK ideographs
   * and fullwidth letters and digits.
   */
  predicate IsWordChar(c: char) {
    IsAsciiLetter(c) || IsDigit(c) || c == '_'
    || c == '\U{00AA}' || c == '\U{00B5}' || c == '\U{00BA}'
    || ('\U{00C0}' <= c <= '\U{00FF}' && c != '\U{00D7}' && c != '\U{00F7}')
    || ('\U{1100}' <= c <= '\U{11FF}') || ('\U{3131}' <= c <= '\U{318E}')
    || ('\U{3400}' <= c <= '\U{4DBF}') || ('\U{4E00}' <= c <= '\U{9FFF}')
    || ('\U{AC00}' <= c <= '\U{D7A3}')
    || ('\U{FF10}' <= c <= '\U{FF19}') || ('\U{FF21}' <= c <= '\U{FF3A}') || ('\U{FF41}' <= c <= '\U{FF5A}')
  }

  function LowerChar(c: char): char {
    if 'A' <= c <= 'Z' then (c as int + 32) as char else c
  }

  function UpperChar(c: char): char {
    if 'a' <= c <= 'z' then (c as int - 32) as char
    else if c == '\U{017F}' then 'S'   // LATIN SMALL LETTER LONG S
    else if c == '\U{0131}' then 'I'   // LATIN SMALL LETTER DOTLESS I
    else c
  }

  /** `str.lower()` on the ASCII letters. */
  function Lower(s: string): (r: string)
    ensures |r| == |s|
    ensures forall i :: 0 <= i < |s| ==> r[i] == LowerChar(s[i])
  {
    seq(|s|, i requires 0 <= i < |s| => LowerChar(s[i]))
  }

  /** `str.upper()` on the ASCII letters, long s and dotless i. */
  function Upper(s: string): (r: string)
    ensures |r| == |s|
    ensures forall i :: 0 <= i < |s| ==> r[i] == UpperChar(s[i])
  {
    seq(|s|, i requires 0 <= i < |s| => UpperChar(s[i]))
  }

  /** `sub in s` */
  predicate Contains(s: string, sub: string) {
    exists i :: 0 <= i <= |s| - |sub| && sub <= s[i..]
  }

  /** `s.startswith(prefix)` */
  predicate StartsWith(s: string, prefix: string) {
    prefix <= s
  }

  /** Length of the run of whitespace at the front of `s`. */
  function LeadingSpaces(s: string): (n: nat)
    ensures n <= |s|
  {
    if s == [] || !IsSpace(s[0]) then 0 else 1 + LeadingSpaces(s[1..])
  }

  /** `LeadingSpaces` measures the maximal whitespace run at the front. */
  lemma {:induction false} LeadingSpacesRun(s: string)
    ensures forall i :: 0 <= i < LeadingSpaces(s) ==> IsSpace(s[i])
    ensures LeadingSpaces(s) < |s| ==> !IsSpace(s[LeadingSpaces(s)])
  {
    if s != [] && IsSpace(s[0]) {
      LeadingSpacesRun(s[1..]);
    }
  }

  /** Length of the run of whitespace at the end of `s`. */
  function TrailingSpaces(s: string): (n: nat)
    ensures n <= |s|
  {
    if s == [] || !IsSpace(s[|s| - 1]) then 0 else 1 + TrailingSpaces(s[..|s| - 1])
  }

  /** `TrailingSpaces` measures the maximal whitespace run at the end. */
  lemma {:induction false} TrailingSpacesRun(s: string)
    ensures forall i :: |s| - TrailingSpaces(s) <= i < |s| ==> IsSpace(s[i])
    ensures TrailingSpaces(s) < |s| ==> !IsSpace(s[|s| - 1 - TrailingSpaces(s)])
  {
    if s != [] && IsSpace(s[|s| - 1]) {
      TrailingSpacesRun(s[..|s| - 1]);
    }
  }

  /** `s.rstrip()` */
  function RStrip(s: string): string {
    s[..|s| - TrailingSpaces(s)]
  }

  /** `s.strip()` */
  function Strip(s: string): string {
    RStrip(s[LeadingSpaces(s)..])
  }

  /**
   * `strip` leaves nothing exactly when `s` is all whitespace, leaves no
   * whitespace at either end, and keeps only characters of `s`.
   */
  lemma StripProperties(s: string)
    ensures Strip(s) == [] <==> forall i :: 0 <= i < |s| ==> IsSpace(s[i])
    ensures Strip(s) != [] ==> !IsSpace(Strip(s)[0]) && !IsSpace(Strip(s)[|Strip(s)| - 1])
    ensures forall i :: 0 <= i < |Strip(s)| ==> Strip(s)[i] in s
  {
    var r := Strip(s);
    LeadingSpacesRun(s);
    TrailingSpacesRun(s[LeadingSpaces(s)..]);
    assert forall i :: 0 <= i < |r| ==> r[i] == s[LeadingSpaces(s) + i];
  }

  /** `re.sub(r"\s+", " ", s)`: every maximal run of whitespace becomes one space. */
  function Collapse(s: string): string
    decreases |s|
  {
    if s == [] then []
    else if IsSpace(s[0]) then " " + Collapse(s[LeadingSpaces(s)..])
    else [s[0]] + Collapse(s[1..])
  }

  /**
   * Collapsing leaves nothing only from nothing, keeps whether the text
   * starts and ends with whitespace, and leaves single plain spaces only.
   */
  lemma {:induction false} CollapseProperties(s: string)
    ensures Collapse(s) == [] <==> s == []
    ensures Collapse(s) != [] ==> (IsSpace(Collapse(s)[0]) <==> IsSpace(s[0]))
    ensures Collapse(s) != [] ==> (IsSpace(Collapse(s)[|Collapse(s)| - 1]) <==> IsSpace(s[|s| - 1]))
    ensures SingleSpaced(Collapse(s))
    decreases |s|
  {
    if s != [] {
      if IsSpace(s[0]) {
        var rest := s[LeadingSpaces(s)..];
        LeadingSpacesRun(s);
        CollapseProperties(rest);
        assert rest != [] ==> rest[|rest| - 1] == s[|s| - 1];
      } else {
        CollapseProperties(s[1..]);
      }
    }
  }

  /** The only whitespace is the plain space, and no two spaces are adjacent. */
  predicate SingleSpaced(t: string) {
    (forall i :: 0 <= i < |t| && IsSpace(t[i]) ==> t[i] == ' ')
    && (forall i :: 0 <= i < |t| - 1 && IsSpace(t[i]) ==> !IsSpace(t[i + 1]))
  }

  /** What `_norm_ws` returns: no whitespace at either end, and only single plain spaces inside. */
  predicate IsNormal(t: string) {
    SingleSpaced(t) && (t != [] ==> !IsSpace(t[0]) && !IsSpace(t[|t| - 1]))
  }

  /** `_norm_ws` (parser.py:19-20): strip, then collapse every whitespace run to one space. */
  function Norm(s: string): string {
    Collapse(Strip(s))
  }

  /** `_norm_ws` yields a normal string, and an empty one exactly for all-whitespace input. */
  lemma NormProperties(s: string)
    ensures IsNormal(Norm(s))
    ensures Norm(s) == [] <==> forall i :: 0 <= i < |s| ==> IsSpace(s[i])
  {
    StripProperties(s);
    CollapseProperties(Strip(s));
  }

  lemma {:induction false} CollapseFixesSingleSpaced(t: string)
    requires SingleSpaced(t)
    requires t != [] ==> !IsSpace(t[|t| - 1])
    ensures Collapse(t) == t
    decreases |t|
  {
    if t != [] {
      assert SingleSpaced(t[1..]);
      if IsSpace(t[0]) {
        assert |t| > 1 && !IsSpace(t[1]);
        assert LeadingSpaces(t) == 1;
        CollapseFixesSingleSpaced(t[1..]);
        assert t == " " + t[1..];
      } else {
        CollapseFixesSingleSpaced(t[1..]);
        assert t == [t[0]] + t[1..];
      }
    }
  }

  /** A string that is already normal is left unchanged by `_norm_ws`. */
  lemma NormFixesNormal(t: string)
    requires IsNormal(t)
    ensures Norm(t) == t
  {
    assert LeadingSpaces(t) == 0;
    assert TrailingSpaces(t) == 0;
    assert Strip(t) == t;
    CollapseFixesSingleSpaced(t);
  }

  /** `_norm_ws` is idempotent. */
  lemma NormIdempotent(s: string)
    ensures Norm(Norm(s)) == Norm(s)
  {
    NormProperties(s);
    NormFixesNormal(Norm(s));
  }

  /** `s` without its whitespace characters. */
  function Unspaced(s: string): string {
    if s == [] then [] else (if IsSpace(s[0]) then [] else [s[0]]) + Unspaced(s[1..])
  }

  lemma {:induction false} UnspacedConcat(a: string, b: string)
    ensures Unspaced(a + b) == Unspaced(a) + Unspaced(b)
  {
    if a != [] {
      assert (a + b)[1..] == a[1..] + b;
      UnspacedConcat(a[1..], b);
    } else {
      assert a + b == b;
    }
  }

  /** Dropping leading whitespace does not change the text without whitespace. */
  lemma {:induction false} UnspacedDropFront(s: string, l: nat)
    requires l <= |s| && forall i :: 0 <= i < l ==> IsSpace(s[i])
    ensures Unspaced(s[l..]) == Unspaced(s)
  {
    if l > 0 {
      UnspacedDropFront(s[1..], l - 1);
      assert s[1..][l - 1..] == s[l..];
    }
  }

  /** Dropping trailing whitespace does not change the text without whitespace. */
  lemma {:induction false} UnspacedDropBack(s: string, n: nat)
    requires n <= |s| && forall i :: n <= i < |s| ==> IsSpace(s[i])
    ensures Unspaced(s[..n]) == Unspaced(s)
    decreases |s|
  {
    if n < |s| {
      var s' := s[..|s| - 1];
      UnspacedDropBack(s', n);
      assert s'[..n] == s[..n];
      assert s == s' + [s[|s| - 1]];
      UnspacedConcat(s', [s[|s| - 1]]);
      assert Unspaced([s[|s| - 1]]) == [];
    } else {
      assert s[..n] == s;
    }
  }

  lemma StripKeepsContent(s: string)
    ensures Unspaced(Strip(s)) == Unspaced(s)
  {
    var l := LeadingSpaces(s);
    LeadingSpacesRun(s);
    UnspacedDropFront(s, l);
    var t := s[l..];
    TrailingSpacesRun(t);
    UnspacedDropBack(t, |t| - TrailingSpaces(t));
  }

  lemma {:induction false} CollapseKeepsContent(s: string)
    ensures Unspaced(Collapse(s)) == Unspaced(s)
    decreases |s|
  {
    if s != [] {
      if IsSpace(s[0]) {
        var l := LeadingSpaces(s);
        LeadingSpacesRun(s);
        CollapseKeepsContent(s[l..]);
        UnspacedDropFront(s, l);
        UnspacedConcat(" ", Collapse(s[l..]));
        assert Unspaced(" ") == [];
      } else {
        CollapseKeepsContent(s[1..]);
        UnspacedConcat([s[0]], Collapse(s[1..]));
        assert Unspaced([s[0]]) == [s[0]];
      }
    }
  }

  /**
   * `_norm_ws` only rewrites whitespace: with the whitespace taken out, its
   * result and its input are the same text.
   */
  lemma NormKeepsContent(s: string)
    ensures Unspaced(Norm(s)) == Unspaced(s)
  {
    StripKeepsContent(s);
    CollapseKeepsContent(Strip(s));
  }

  /** Every character of `s` is whitespace. */
  predicate AllSpace(s: string) {
    forall i :: 0 <= i < |s| ==> IsSpace(s[i])
  }

  /** Whitespace in front of a non-space character is exactly the leading run. */
  lemma {:induction false} LeadingSpacesPrefix(p: string, r: string)
    requires AllSpace(p) && r != [] && !IsSpace(r[0])
    ensures LeadingSpaces(p + r) == |p|
  {
    if p != [] {
      assert (p + r)[1..] == p[1..] + r;
      LeadingSpacesPrefix(p[1..], r);
    } else {
      assert p + r == r;
    }
  }

  /** Whitespace after a non-space character is exactly the trailing run. */
  lemma {:induction false} TrailingSpacesSuffix(r: string, q: string)
    requires AllSpace(q) && r != [] && !IsSpace(r[|r| - 1])
    ensures TrailingSpaces(r + q) == |q|
    decreases |q|
  {
    if q != [] {
      var q' := q[..|q| - 1];
      assert (r + q)[..|r + q| - 1] == r + q';
      TrailingSpacesSuffix(r, q');
    } else {
      assert r + q == r;
    }
  }

  lemma LeadingRunAllSpace(s: string)
    ensures AllSpace(s[..LeadingSpaces(s)])
  {
    LeadingSpacesRun(s);
    var f := s[..LeadingSpaces(s)];
    forall i | 0 <= i < |f| ensures IsSpace(f[i]) {
      assert f[i] == s[i];
    }
  }

  lemma TrailingRunAllSpace(r: string)
    ensures AllSpace(r[|r| - TrailingSpaces(r)..])
  {
    TrailingSpacesRun(r);
    var n := |r| - TrailingSpaces(r);
    var b := r[n..];
    forall i | 0 <= i < |b| ensures IsSpace(b[i]) {
      assert b[i] == r[n + i];
    }
  }

  /** A text is its leading whitespace, its stripped core and its trailing whitespace. */
  lemma StripSplit(s: string) returns (front: string, back: string)
    ensures s == front + (Strip(s) + back)
    ensures AllSpace(front) && AllSpace(back)
  {
    var l := LeadingSpaces(s);
    var r := s[l..];
    var n := |r| - TrailingSpaces(r);
    LeadingRunAllSpace(s);
    TrailingRunAllSpace(r);
    front := s[..l];
    back := r[n..];
    assert Strip(s) == r[..n];
    assert r == r[..n] + back;
    assert s == front + r;
  }

  /** Stripping whitespace around a core that starts and ends with non-space gives the core. */
  lemma StripPadded(p: string, c: string, q: string)
    requires AllSpace(p) && AllSpace(q)
    requires c != [] && !IsSpace(c[0]) && !IsSpace(c[|c| - 1])
    ensures Strip(p + (c + q)) == c
  {
    LeadingSpacesPrefix(p, c + q);
    assert (p + (c + q))[|p|..] == c + q;
    TrailingSpacesSuffix(c, q);
  }

  /** A whitespace run cannot span the end of a text ending in non-space, so collapsing splits there. */
  lemma {:induction false} CollapseConcat(a: string, b: string)
    requires a == [] || !IsSpace(a[|a| - 1])
    ensures Collapse(a + b) == Collapse(a) + Collapse(b)
    decreases |a|
  {
    if a == [] {
      assert a + b == b;
    } else if IsSpace(a[0]) {
      var l := LeadingSpaces(a);
      LeadingSpacesRun(a);
      CollapseRunAhead(a, b, l);
      CollapseConcat(a[l..], b);
    } else {
      assert (a + b)[1..] == a[1..] + b;
      CollapseConcat(a[1..], b);
    }
  }

  /** The leading run of `a + b`, when `a` does not consist of it, is the leading run of `a`. */
  lemma CollapseRunAhead(a: string, b: string, l: nat)
    requires a != [] && IsSpace(a[0]) && l == LeadingSpaces(a)
    requires AllSpace(a[..l]) && l < |a| && !IsSpace(a[l])
    ensures Collapse(a + b) == " " + Collapse(a[l..] + b)
    ensures Collapse(a) == " " + Collapse(a[l..])
  {
    assert a + b == a[..l] + (a[l..] + b);
    LeadingSpacesPrefix(a[..l], a[l..] + b);
    assert (a + b)[l..] == a[l..] + b;
  }

  /** A non-empty whitespace run in front of a non-space character collapses to one space. */
  lemma CollapseLeadingRun(w: string, b: string)
    requires w != [] && AllSpace(w)
    requires b != [] && !IsSpace(b[0])
    ensures Collapse(w + b) == " " + Collapse(b)
  {
    LeadingSpacesPrefix(w, b);
    assert (w + b)[|w|..] == b;
  }

  lemma AllSpaceConcat(a: string, b: string)
    requires AllSpace(a) && AllSpace(b)
    ensures AllSpace(a + b)
  {
    forall i | 0 <= i < |a + b| ensures IsSpace((a + b)[i]) {
      if i >= |a| {
        assert (a + b)[i] == b[i - |a|];
      }
    }
  }

  lemma Regroup(x1: string, xc: string, x2: string, w: string, y1: string, yc: string, y2: string)
    ensures (x1 + (xc + x2)) + w + (y1 + (yc + y2)) == x1 + ((xc + (x2 + w + y1) + yc) + y2)
  {
  }

  /**
   * Stripping text with non-blank parts on either side of a whitespace run
   * keeps both stripped parts and a whitespace run between them.
   */
  lemma StripAcrossSpaces(x: string, w: string, y: string) returns (mid: string)
    requires w != [] && AllSpace(w)
    requires Strip(x) != [] && Strip(y) != []
    ensures mid != [] && AllSpace(mid)
    ensures Strip(x + w + y) == Strip(x) + mid + Strip(y)
  {
    var x1, x2 := StripSplit(x);
    var y1, y2 := StripSplit(y);
    var xc, yc := Strip(x), Strip(y);
    mid := x2 + w + y1;
    AllSpaceConcat(x2, w);
    AllSpaceConcat(x2 + w, y1);
    Regroup(x1, xc, x2, w, y1, yc, y2);
    StripProperties(x);
    StripProperties(y);
    var core := xc + mid + yc;
    assert core[0] == xc[0] && core[|core| - 1] == yc[|yc| - 1];
    StripPadded(x1, core, y2);
  }

  /**
   * `_norm_ws` turns any whitespace run between two non-blank texts into a
   * single space.
   */
  lemma NormAcrossSpaces(x: string, w: string, y: string)
    requires w != [] && AllSpace(w)
    requires Norm(x) != "" && Norm(y) != ""
    ensures Norm(x + w + y) == Norm(x) + " " + Norm(y)
  {
    var xc, yc := Strip(x), Strip(y);
    assert xc != [] && yc != [];
    StripProperties(x);
    StripProperties(y);
    var mid := StripAcrossSpaces(x, w, y);
    assert xc + mid + yc == xc + (mid + yc);
    CollapseConcat(xc, mid + yc);
    CollapseLeadingRun(mid, yc);
  }

  /** Length of the text before the first line break at or after position 0. */
  function LineLength(s: string): (n: nat)
    ensures n <= |s|
    ensures forall i :: 0 <= i < n ==> !IsLineBreak(s[i])
    ensures n < |s| ==> IsLineBreak(s[n])
  {
    if s == [] || IsLineBreak(s[0]) then 0 else 1 + LineLength(s[1..])
  }

  /**
   * `s.splitlines()`: the lines between line breaks; a final line break
   * does not start an empty line, and `\r\n` is one break.
   */
  function SplitLines(s: string): seq<string>
    decreases |s|
  {
    if s == [] then []
    else
      var n := LineLength(s);
      if n == |s| then [s]
      else
        var width := if s[n] == '\r' && n + 1 < |s| && s[n + 1] == '\n' then 2 else 1;
        [s[..n]] + SplitLines(s[n + width..])
  }

  /** `t` holds no line break. */
  predicate NoLineBreak(t: string) {
    forall i :: 0 <= i < |t| ==> !IsLineBreak(t[i])
  }

  lemma FirstLineNoBreak(s: string)
    ensures NoLineBreak(s[..LineLength(s)])
  {
    var first := s[..LineLength(s)];
    forall i | 0 <= i < |first| ensures !IsLineBreak(first[i]) {
      assert first[i] == s[i];
    }
  }

  /** No line of `s.splitlines()` holds a line break. */
  lemma {:induction false} SplitLinesNoBreak(s: string)
    ensures forall k :: 0 <= k < |SplitLines(s)| ==> NoLineBreak(SplitLines(s)[k])
    decreases |s|
  {
    if s != [] {
      var n := LineLength(s);
      var first := s[..n];
      FirstLineNoBreak(s);
      if n < |s| {
        var width := if s[n] == '\r' && n + 1 < |s| && s[n + 1] == '\n' then 2 else 1;
        var rest := SplitLines(s[n + width..]);
        SplitLinesNoBreak(s[n + width..]);
        var lines := SplitLines(s);
        assert lines == [first] + rest;
        forall k | 0 <= k < |lines| ensures NoLineBreak(lines[k]) {
          if k > 0 {
            assert lines[k] == rest[k - 1];
          }
        }
      } else {
        assert first == s;
        assert SplitLines(s) == [s];
      }
    }
  }

  /** `s.replace(c, "")` for one character `c`. */
  function Remove(s: string, c: char): (r: string)
    ensures forall x :: x in r <==> x in s && x != c
  {
    if s == [] then [] else (if s[0] == c then [] else [s[0]]) + Remove(s[1..], c)
  }

  /** From a single character, removing `c` removes that character or nothing. */
  lemma RemoveSingle(x: char, c: char)
    ensures Remove([x], c) == if x == c then [] else [x]
  {
    assert [x][1..] == [];
  }

  /**
   * Removing `c` from a concatenation removes it from each part, keeping
   * order and multiplicity of everything else.
   */
  lemma {:induction false} RemoveConcat(a: string, b: string, c: char)
    ensures Remove(a + b, c) == Remove(a, c) + Remove(b, c)
  {
    if a != [] {
      assert (a + b)[1..] == a[1..] + b;
      RemoveConcat(a[1..], b, c);
    } else {
      assert a + b == b;
    }
  }

  /** Text without `c` is left as it is. */
  lemma {:induction false} RemoveAbsent(s: string, c: char)
    requires c !in s
    ensures Remove(s, c) == s
  {
    if s != [] {
      assert s[0] != c && c !in s[1..];
      RemoveAbsent(s[1..], c);
      assert s == [s[0]] + s[1..];
    }
  }

  /** `sep.join(parts)` */
  function Join(sep: string, parts: seq<string>): string {
    if parts == [] then ""
    else if |parts| == 1 then parts[0]
    else parts[0] + sep + Join(sep, parts[1..])
  }

  /** Joining one more part adds the separator and that part at the end. */
  lemma {:induction false} JoinAppend(sep: string, parts: seq<string>, p: string)
    requires parts != []
    ensures Join(sep, parts + [p]) == Join(sep, parts) + sep + p
    decreases |parts|
  {
    var all := parts + [p];
    assert all[0] == parts[0] && all[1..] == parts[1..] + [p];
    if |parts| > 1 {
      JoinAppend(sep, parts[1..], p);
    } else {
      assert all[1..] == [p];
    }
  }

  /** Position of the first `c` in `s`. */
  function IndexOf(s: string, c: char): (k: nat)
    requires c in s
    ensures k < |s| && s[k] == c
    ensures c !in s[..k]
  {
    if s[0] == c then 0 else 1 + IndexOf(s[1..], c)
  }

  /** `str(n)`: the decimal digits of `n`, without leading zeros ("0" for zero). */
  function DecimalText(n: nat): (r: string)
    ensures |r| >= 1
    ensures forall i :: 0 <= i < |r| ==> IsDigit(r[i])
  {
    var last := ['0' + (n % 10) as char];
    if n < 10 then last else DecimalText(n / 10) + last
  }

  /** `int(s)` for a string of decimal digits; the empty string counts as zero. */
  function DecimalValue(s: string): nat
    requires forall i :: 0 <= i < |s| ==> IsDigit(s[i])
  {
    if s == [] then 0
    else
      assert IsDigit(s[|s| - 1]);
      10 * DecimalValue(s[..|s| - 1]) + (s[|s| - 1] as int - '0' as int)
  }

  /** `int(str(n)) == n` */
  lemma {:induction false} DecimalRoundTrip(n: nat)
    ensures DecimalValue(DecimalText(n)) == n
  {
    var r := DecimalText(n);
    if n >= 10 {
      DecimalRoundTrip(n / 10);
      assert r[..|r| - 1] == DecimalText(n / 10);
    }
  }

  function Pow10(k: nat): (r: nat)
    ensures r >= 1
  {
    if k == 0 then 1 else 10 * Pow10(k - 1)
  }

  /** The value of digits `a` followed by digits `b`. */
  lemma {:induction false} DecimalValueConcat(a: string, b: string)
    requires forall i :: 0 <= i < |a| ==> IsDigit(a[i])
    requires forall i :: 0 <= i < |b| ==> IsDigit(b[i])
    ensures DecimalValue(a + b) == DecimalValue(a) * Pow10(|b|) + DecimalValue(b)
    decreases |b|
  {
    if b == [] {
      assert a + b == a;
    } else {
      var c := a + b;
      var b' := b[..|b| - 1];
      var last := b[|b| - 1] as int - '0' as int;
      assert c[..|c| - 1] == a + b';
      assert c[|c| - 1] == b[|b| - 1];
      DecimalValueConcat(a, b');
      var x, p', y := DecimalValue(a), Pow10(|b'|), DecimalValue(b');
      calc {
        DecimalValue(c);
        10 * DecimalValue(a + b') + last;
        10 * (x * p' + y) + last;
        { DistributeTen(x, p', y); }
        x * (10 * p') + (10 * y + last);
        x * Pow10(|b|) + DecimalValue(b);
      }
    }
  }

  lemma DistributeTen(x: int, p: int, y: int)
    ensures 10 * (x * p + y) == x * (10 * p) + 10 * y
  {
  }

  /** Leading zeros do not change a number's value. */
  lemma {:induction false} ZerosValue(k: nat)
    ensures DecimalValue(seq(k, _ => '0')) == 0
  {
    if k > 0 {
      var z := seq(k, _ => '0');
      assert z[..k - 1] == seq(k - 1, _ => '0');
      ZerosValue(k - 1);
    }
  }

  /** A number below `10^k`, `k >= 1`, has at most `k` digits. */
  lemma {:induction false} DecimalTextLength(n: nat, k: nat)
    requires k >= 1 && n < Pow10(k)
    ensures |DecimalText(n)| <= k
  {
    assert Pow10(1) == 10;
    if n >= 10 {
      DecimalTextLength(n / 10, k - 1);
    }
  }

  /** A number written with at most `k` digits is below `10^k`. */
  lemma {:induction false} DecimalValueBound(s: string, k: nat)
    requires forall i :: 0 <= i < |s| ==> IsDigit(s[i])
    requires |s| <= k
    ensures DecimalValue(s) < Pow10(k)
  {
    if s != [] {
      DecimalValueBound(s[..|s| - 1], k - 1);
    }
  }
}
