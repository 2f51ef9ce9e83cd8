/**
 * The few pieces of Python string handling the scraped-data code relies on:
 * whitespace (`str.strip`, `str.split()`, `re.sub(r'\s+', ' ', ...)`),
 * digits (`str.isdigit`, `int(...)`), substring tests (`in`,
 * `startswith`) and lower-casing of ASCII and Latin-1 capitals. Other
 * characters are compared as they are.
 */
module StringUtil {
  import opened Wrappers

  /** Python's `str.isspace` on ASCII: space, tab, newline, carriage return, vertical tab, form feed. */
  predicate IsSpace(c: char) {
    c == ' ' || c == '\t' || c == '\n' || c == '\r' || c == '\U{000B}' || c == '\U{000C}'
  }

  predicate IsDigit(c: char) {
    '0' <= c <= '9'
  }

  /** `s.isdigit()`: non-empty and every character a digit. */
  predicate IsDigitString(s: string) {
    |s| > 0 && forall i :: 0 <= i < |s| ==> IsDigit(s[i])
  }

  function DigitValue(c: char): (r: nat)
    requires IsDigit(c)
    ensures r < 10
  {
    (c as int) - ('0' as int)
  }

  /** The number a string of decimal digits denotes. */
  function DigitsValue(s: string): (r: nat)
    requires forall i :: 0 <= i < |s| ==> IsDigit(s[i])
  {
    if s == [] then 0 else DigitsValue(s[..|s| - 1]) * 10 + DigitValue(s[|s| - 1])
  }

  /** `s.lstrip()` */
  function StripLeft(s: string): (r: string)
    ensures |r| <= |s| && r == s[|s| - |r|..]
    ensures r != [] ==> !IsSpace(r[0])
    ensures forall i :: 0 <= i < |s| - |r| ==> IsSpace(s[i])
  {
    if s == [] || !IsSpace(s[0]) then s
    else
      var r := StripLeft(s[1..]);
      assert s[1..][|s| - 1 - |r|..] == s[|s| - |r|..];
      r
  }

  /** `s.rstrip()` */
  function StripRight(s: string): (r: string)
    ensures |r| <= |s| && r == s[..|r|]
    ensures r != [] ==> !IsSpace(r[|r| - 1])
    ensures forall i :: |r| <= i < |s| ==> IsSpace(s[i])
  {
    if s == [] || !IsSpace(s[|s| - 1]) then s else StripRight(s[..|s| - 1])
  }

  /** `s.strip()` */
  function Strip(s: string): (r: string)
    ensures |r| <= |s|
    ensures r != [] ==> !IsSpace(r[0]) && !IsSpace(r[|r| - 1])
    ensures (forall i :: 0 <= i < |s| ==> IsSpace(s[i])) <==> r == []
  {
    var l := StripLeft(s);
    var r := StripRight(l);
    StripRightKeepsFirst(l);
    assert l != [] ==> l[0] == s[|s| - |l|];
    r
  }

  /** Stripping the right of a string that starts with a non-space keeps that first character. */
  lemma StripRightKeepsFirst(l: string)
    requires l != [] ==> !IsSpace(l[0])
    ensures l != [] ==> StripRight(l) != [] && StripRight(l)[0] == l[0]
  {
    if l != [] {
      assert IsSpace(l[0]) || |StripRight(l)| > 0;
    }
  }

  /** Every maximal run of whitespace replaced by one space (`re.sub(r'\s+', ' ', s)`). */
  function CollapseSpaces(s: string): (r: string)
    ensures |r| <= |s|
    ensures forall i :: 0 <= i < |r| ==> (IsSpace(r[i]) ==> r[i] == ' ')
    ensures forall i :: 0 <= i < |r| - 1 ==> !(IsSpace(r[i]) && IsSpace(r[i + 1]))
    ensures r != [] ==> (IsSpace(r[0]) <==> IsSpace(s[0]))
    ensures r == [] <==> s == []
    decreases |s|
  {
    if s == [] then []
    else if IsSpace(s[0]) then [' '] + CollapseSpaces(StripLeft(s))
    else
      var rest := CollapseSpaces(s[1..]);
      [s[0]] + rest
  }

  /** `' '.join(s.split())` and `re.sub(r'\s+', ' ', s).strip()`: words separated by single spaces. */
  function NormalizeSpaces(s: string): (r: string)
    ensures |r| <= |s|
    ensures r != [] ==> !IsSpace(r[0]) && !IsSpace(r[|r| - 1])
    ensures forall i :: 0 <= i < |r| - 1 ==> !(IsSpace(r[i]) && IsSpace(r[i + 1]))
    ensures forall i :: 0 <= i < |r| ==> (IsSpace(r[i]) ==> r[i] == ' ')
  {
    var t := Strip(s);
    CollapseKeepsEnds(t);
    CollapseSpaces(t)
  }

  lemma {:induction false} CollapseKeepsEnds(s: string)
    ensures s != [] && !IsSpace(s[|s| - 1]) ==> CollapseSpaces(s) != [] && !IsSpace(CollapseSpaces(s)[|CollapseSpaces(s)| - 1])
    decreases |s|
  {
    if s != [] && !IsSpace(s[|s| - 1]) {
      if IsSpace(s[0]) {
        var l := StripLeft(s);
        assert l != [] && l[|l| - 1] == s[|s| - 1];
        CollapseKeepsEnds(l);
      } else if |s| > 1 {
        CollapseKeepsEnds(s[1..]);
      }
    }
  }

  /**
   * Python's digit groups in an integer literal: digits, with single
   * underscores allowed between two digits (`1_000`).
   */
  predicate IsDigitGroups(s: string) {
    && |s| > 0 && IsDigit(s[0]) && IsDigit(s[|s| - 1])
    && (forall i :: 0 <= i < |s| ==> IsDigit(s[i]) || s[i] == '_')
    && (forall i :: 0 <= i < |s| - 1 ==> !(s[i] == '_' && s[i + 1] == '_'))
  }

  /** The digits of a literal with its underscores dropped. */
  function DropUnderscores(s: string): (r: string)
    ensures |r| <= |s|
    ensures (forall i :: 0 <= i < |s| ==> IsDigit(s[i]) || s[i] == '_') ==> forall i :: 0 <= i < |r| ==> IsDigit(r[i])
    ensures (forall i :: 0 <= i < |s| ==> IsDigit(s[i])) ==> r == s
  {
    if s == [] then []
    else
      var front := DropUnderscores(s[..|s| - 1]);
      if s[|s| - 1] == '_' then front else front + [s[|s| - 1]]
  }

  /** The texts `int(...)` accepts: after stripping, an optional sign and then digit groups. */
  predicate IsIntLiteral(t: string) {
    IsDigitGroups(t) || (|t| > 1 && (t[0] == '-' || t[0] == '+') && IsDigitGroups(t[1..]))
  }

  /** `int(s)` on text: surrounding whitespace, an optional sign, then decimal digits in groups. */
  function ParseInt(s: string): (r: Option<int>)
    ensures r.Some? <==> IsIntLiteral(Strip(s))
    ensures IsDigitString(s) ==> r == Some(DigitsValue(s))
  {
    var t := Strip(s);
    if IsDigitString(s) then
      assert t == s by { NoSpaceStripped(s); }
      assert IsDigitGroups(t) by { assert IsDigit(s[0]) && IsDigit(s[|s| - 1]); }
      Some(DigitsValue(s))
    else if |t| > 1 && (t[0] == '-' || t[0] == '+') && IsDigitGroups(t[1..]) then
      var v: int := DigitsValue(DropUnderscores(t[1..]));
      Some(if t[0] == '-' then -v else v)
    else if IsDigitGroups(t) then Some(DigitsValue(DropUnderscores(t)))
    else None
  }

  /** Dropping underscores distributes over concatenation. */
  lemma {:induction false} DropUnderscoresAppend(a: string, b: string)
    ensures DropUnderscores(a + b) == DropUnderscores(a) + DropUnderscores(b)
    decreases |b|
  {
    if b != [] {
      var front := b[..|b| - 1];
      assert (a + b)[..|a + b| - 1] == a + front;
      DropUnderscoresAppend(a, front);
    } else {
      assert a + b == a;
    }
  }

  /** Two digit strings joined by an underscore parse as the digits written together. */
  lemma UnderscoreGroupsParse(a: string, b: string)
    requires IsDigitString(a) && IsDigitString(b)
    ensures ParseInt(a + "_" + b) == Some(DigitsValue(a + b))
  {
    var s := a + "_" + b;
    JoinedGroups(a, b);
    assert !IsDigitString(s) by { assert s[|a|] == '_'; }
    assert Strip(s) == s by {
      assert !IsSpace(s[0]) && !IsSpace(s[|s| - 1]);
      assert StripLeft(s) == s;
    }
    assert ParseInt(s) == Some(DigitsValue(DropUnderscores(s)));
    DropUnderscoresAppend(a + "_", b);
    DropUnderscoresAppend(a, "_");
    assert DropUnderscores("_") == [];
  }

  /** Two digit strings joined by an underscore form digit groups. */
  lemma JoinedGroups(a: string, b: string)
    requires IsDigitString(a) && IsDigitString(b)
    ensures IsDigitGroups(a + "_" + b)
  {
    var s := a + "_" + b;
    assert IsDigit(s[0]) && IsDigit(s[|s| - 1]);
    forall i | 0 <= i < |s| - 1 ensures !(s[i] == '_' && s[i + 1] == '_') {
      if i < |a| { assert IsDigit(s[i]); } else { assert IsDigit(s[i + 1]); }
    }
  }

  lemma NoSpaceStripped(s: string)
    requires IsDigitString(s)
    ensures Strip(s) == s
  {
    assert !IsSpace(s[0]) && !IsSpace(s[|s| - 1]);
    assert StripLeft(s) == s;
  }

  /** The digit character for a value below ten. */
  function DigitChar(d: nat): (r: char)
    requires d < 10
    ensures IsDigit(r) && DigitValue(r) == d
  {
    (('0' as int) + d) as char
  }

  /** `str(n)` for a natural number: its decimal digits, read back as n. */
  function NatToString(n: nat): (r: string)
    ensures IsDigitString(r) && DigitsValue(r) == n
    decreases n
  {
    if n < 10 then [DigitChar(n)]
    else
      var front := NatToString(n / 10);
      var r := front + [DigitChar(n % 10)];
      assert r[..|r| - 1] == front;
      r
  }

  /** `str(i)`, which `int(...)` reads back. */
  function IntToString(i: int): (r: string)
    ensures ParseInt(r) == Some(i)
  {
    if i >= 0 then NatToString(i)
    else
      var d := NatToString(-i);
      var r := "-" + d;
      assert Strip(r) == r by {
        assert !IsSpace(r[0]) && !IsSpace(r[|r| - 1]);
        assert StripLeft(r) == r;
      }
      assert r[1..] == d;
      r
  }

  /** `sub` occurs in `s` starting at index `i`. */
  predicate OccursAt(s: string, sub: string, i: int) {
    0 <= i <= |s| - |sub| && s[i..i + |sub|] == sub
  }

  /** `sub in s` */
  predicate Contains(s: string, sub: string) {
    exists i | 0 <= i <= |s| - |sub| :: OccursAt(s, sub, i)
  }

  /** `s.startswith(p)` */
  predicate StartsWith(s: string, p: string) {
    |p| <= |s| && s[..|p|] == p
  }

  /** Lower-case of one character: ASCII and the Latin-1 capitals À..Þ (except ×). */
  function LowerChar(c: char): (r: char)
    ensures 'A' <= c <= 'Z' ==> r as int == c as int + 32
    ensures !('A' <= c <= 'Z') && !('À' <= c <= 'Þ' && c != '×') ==> r == c
  {
    if 'A' <= c <= 'Z' then (c as int + 32) as char
    else if 'À' <= c <= 'Þ' && c != '×' then (c as int + 32) as char
    else c
  }

  /** `s.lower()` */
  function Lower(s: string): (r: string)
    ensures |r| == |s| && forall i :: 0 <= i < |s| ==> r[i] == LowerChar(s[i])
  {
    seq(|s|, i requires 0 <= i < |s| => LowerChar(s[i]))
  }

  /** `s.split(sep)[0]`: the text before the first occurrence of the one-character separator. */
  function BeforeFirst(s: string, sep: char): (r: string)
    ensures |r| <= |s| && r == s[..|r|]
    ensures sep !in r
    ensures |r| < |s| ==> s[|r|] == sep
  {
    if s == [] || s[0] == sep then [] else [s[0]] + BeforeFirst(s[1..], sep)
  }
}
