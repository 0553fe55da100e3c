/** String helpers with Python's meaning: whitespace as `str.isspace` and the
    regular-expression class `\s` see it, `strip`, `lstrip`, ASCII `lower`,
    `startswith`, substring `in`, `split`, file-line iteration with universal
    newlines, and `str()` of an integer. */
module Text {

  /** Python's `str.isspace` (and `\s` in a `str` pattern): the C0 separators,
      the space, NEL, NBSP and the Unicode space separators. */
  predicate IsSpace(c: char) {
    || ('\t' <= c <= '\r')
    || ('\U{001C}' <= c <= '\U{001F}')
    || c == ' ' || c == '\U{0085}' || c == '\U{00A0}' || c == '\U{1680}'
    || ('\U{2000}' <= c <= '\U{200A}')
    || c == '\U{2028}' || c == '\U{2029}' || c == '\U{202F}' || c == '\U{205F}' || c == '\U{3000}'
  }

  predicate StartsWith(s: string, p: string) {
    |p| <= |s| && s[..|p|] == p
  }

  predicate EndsWith(s: string, p: string) {
    |p| <= |s| && s[|s| - |p|..] == p
  }

  predicate InfixAt(s: string, p: string, i: nat) {
    i + |p| <= |s| && s[i..i + |p|] == p
  }

  /** Python's `p in s` for strings. */
  predicate Contains(s: string, p: string) {
    exists i: nat | i <= |s| :: InfixAt(s, p, i)
  }

  /** An occurrence in a suffix is an occurrence in the whole string. */
  lemma {:induction false} ContainsInSuffix(s: string, k: nat, p: string)
    requires k <= |s|
    requires Contains(s[k..], p)
    ensures Contains(s, p)
  {
    var i: nat :| i <= |s[k..]| && InfixAt(s[k..], p, i);
    assert s[k..][i..i + |p|] == s[k + i..k + i + |p|];
    assert InfixAt(s, p, k + i);
  }

  /** `s.lstrip()` for whitespace. */
  function LStrip(s: string): (r: string)
    ensures r == [] || !IsSpace(r[0])
    ensures EndsWith(s, r)
  {
    if s != [] && IsSpace(s[0]) then
      var r := LStrip(s[1..]);
      assert s[1..][|s| - 1 - |r|..] == s[|s| - |r|..];
      r
    else s
  }

  /** `s.rstrip()` for whitespace. */
  function RStrip(s: string): (r: string)
    ensures r == [] || !IsSpace(r[|r| - 1])
    ensures StartsWith(s, r)
  {
    if s != [] && IsSpace(s[|s| - 1]) then RStrip(s[..|s| - 1]) else s
  }

  /** `s.strip()`: no leading or trailing whitespace is left. */
  function Strip(s: string): (r: string)
    ensures r == [] || (!IsSpace(r[0]) && !IsSpace(r[|r| - 1]))
  {
    var l := LStrip(s);
    var r := RStrip(l);
    assert r != [] ==> r[0] == l[..|r|][0] == l[0];
    r
  }

  /** What `strip` leaves is a contiguous piece of the input. */
  lemma StripIsInfix(s: string)
    ensures exists i: nat | i <= |s| :: InfixAt(s, Strip(s), i)
  {
    var l := LStrip(s);
    var r := RStrip(l);
    var i: nat := |s| - |l|;
    assert s[i..] == l;
    assert l[..|r|] == r;
    assert s[i..i + |r|] == s[i..][..|r|];
    assert InfixAt(s, Strip(s), i);
  }

  /** `s.lstrip(c)` for one character. */
  function LStripChar(s: string, c: char): (r: string)
    ensures r == [] || r[0] != c
    ensures EndsWith(s, r)
    ensures forall k :: 0 <= k < |s| - |r| ==> s[k] == c
  {
    if s != [] && s[0] == c then
      var r := LStripChar(s[1..], c);
      assert s[1..][|s| - 1 - |r|..] == s[|s| - |r|..];
      r
    else s
  }

  /** `str.lower()` on ASCII letters; every other character is kept. */
  function LowerChar(c: char): char {
    if 'A' <= c <= 'Z' then (c as int + 32) as char else c
  }

  function Lower(s: string): (r: string)
    ensures |r| == |s|
    ensures forall k :: 0 <= k < |s| ==> r[k] == LowerChar(s[k])
  {
    seq(|s|, k requires 0 <= k < |s| => LowerChar(s[k]))
  }

  lemma LowerIdempotent(s: string)
    ensures Lower(Lower(s)) == Lower(s)
  {
  }

  /** Lower-casing works character by character. */
  lemma LowerJoin(a: string, b: string)
    ensures Lower(a + b) == Lower(a) + Lower(b)
  {
    assert forall k :: 0 <= k < |a| + |b| ==> Lower(a + b)[k] == (Lower(a) + Lower(b))[k];
  }

  lemma {:induction false} LowerSlice(s: string, i: nat, j: nat)
    requires i <= j <= |s|
    ensures Lower(s)[i..j] == Lower(s[i..j])
  {
    assert |Lower(s)[i..j]| == j - i;
    forall k | 0 <= k < j - i ensures Lower(s)[i..j][k] == Lower(s[i..j])[k] {
    }
  }

  /** A pattern that is its own lower-case form and occurs in `s` also occurs
      in `s.lower()`: lowering cannot destroy a match of a lower-case pattern. */
  lemma {:induction false} ContainsLower(s: string, p: string)
    requires Lower(p) == p
    requires Contains(s, p)
    ensures Contains(Lower(s), p)
  {
    var i: nat :| i <= |s| && InfixAt(s, p, i);
    LowerSlice(s, i, i + |p|);
    assert InfixAt(Lower(s), p, i);
  }

  // ---------------------------------------------------------------------
  // str.split(sep) and its inverse

  /** `s.split(sep)` for a one-character separator: always at least one piece,
      and no piece holds the separator. */
  function Split(s: string, sep: char): (r: seq<string>)
    ensures |r| >= 1
    ensures forall k :: 0 <= k < |r| ==> sep !in r[k]
    decreases |s|
  {
    if s == [] then [""]
    else
      var t := Split(s[1..], sep);
      if s[0] == sep then [""] + t else [[s[0]] + t[0]] + t[1..]
  }

  /** `sep.join(pieces)`. */
  function Join(pieces: seq<string>, sep: char): string {
    if pieces == [] then ""
    else if |pieces| == 1 then pieces[0]
    else pieces[0] + [sep] + Join(pieces[1..], sep)
  }

  /** Splitting loses nothing: joining the pieces back gives the input. */
  lemma {:induction false} JoinSplit(s: string, sep: char)
    ensures Join(Split(s, sep), sep) == s
    decreases |s|
  {
    if s != [] {
      JoinSplit(s[1..], sep);
      var t := Split(s[1..], sep);
      if s[0] == sep {
        assert Split(s, sep) == [""] + t;
        assert ([""] + t)[1..] == t;
      } else {
        var u := [[s[0]] + t[0]] + t[1..];
        assert Split(s, sep) == u;
        if |t| == 1 {
          assert Join(u, sep) == [s[0]] + t[0];
        } else {
          assert u[1..] == t[1..];
          assert Join(t, sep) == t[0] + [sep] + Join(t[1..], sep);
        }
      }
    }
  }

  // ---------------------------------------------------------------------
  // Reading a text file: universal newlines and `for line in f`

  /** A file opened in text mode with the default newline handling reads
      "\r\n" and a lone "\r" as "\n". */
  function TranslateNewlines(s: string): (r: string)
    ensures '\r' !in r
    ensures |r| <= |s|
    decreases |s|
  {
    if s == [] then []
    else if s[0] == '\r' then
      "\n" + TranslateNewlines(if |s| > 1 && s[1] == '\n' then s[2..] else s[1..])
    else [s[0]] + TranslateNewlines(s[1..])
  }

  /** The lines `for line in f` yields: each keeps its terminating "\n",
      only the last may lack it, and an empty file has no lines. */
  function IterLines(s: string): (r: seq<string>)
    decreases |s|
  {
    if s == [] then []
    else
      var t := IterLines(s[1..]);
      if s[0] == '\n' || t == [] then [[s[0]]] + t
      else [[s[0]] + t[0]] + t[1..]
  }

  function Concat(pieces: seq<string>): string {
    if pieces == [] then "" else pieces[0] + Concat(pieces[1..])
  }

  predicate WellFormedLine(line: string, last: bool) {
    && line != []
    && (forall k :: 0 <= k < |line| - 1 ==> line[k] != '\n')
    && (!last ==> line[|line| - 1] == '\n')
  }

  /** Line iteration cuts the content into non-empty lines, each ending with
      its only newline except possibly the last, and loses nothing. */
  lemma {:induction false} IterLinesSound(s: string)
    ensures Concat(IterLines(s)) == s
    ensures forall k :: 0 <= k < |IterLines(s)| ==> WellFormedLine(IterLines(s)[k], k == |IterLines(s)| - 1)
    decreases |s|
  {
    if s != [] {
      IterLinesSound(s[1..]);
      var t := IterLines(s[1..]);
      var r := IterLines(s);
      if s[0] == '\n' || t == [] {
        assert r == [[s[0]]] + t;
        assert r[1..] == t;
        forall k | 0 <= k < |r| ensures WellFormedLine(r[k], k == |r| - 1) {
          if k > 0 { assert r[k] == t[k - 1]; }
        }
      } else {
        assert r == [[s[0]] + t[0]] + t[1..];
        assert r[1..] == t[1..];
        assert Concat(t) == t[0] + Concat(t[1..]);
        assert WellFormedLine(t[0], 0 == |t| - 1);
        forall k | 0 <= k < |r| ensures WellFormedLine(r[k], k == |r| - 1) {
          if k > 0 { assert r[k] == t[k]; }
        }
      }
    }
  }

  /** Text without carriage returns reads back unchanged. */
  lemma {:induction false} TranslateNoCarriageReturn(s: string)
    requires '\r' !in s
    ensures TranslateNewlines(s) == s
    decreases |s|
  {
    if s != [] {
      assert '\r' !in s[1..] by {
        forall k | 0 <= k < |s| - 1 ensures s[1..][k] != '\r' {
          assert s[1..][k] == s[k + 1];
        }
      }
      TranslateNoCarriageReturn(s[1..]);
      assert s == [s[0]] + s[1..];
    }
  }

  /** A line without a newline inside, followed by one, is the first line
      of what it starts. */
  lemma {:induction false} IterLinesPrefix(u: string, rest: string)
    requires '\n' !in u
    ensures IterLines(u + "\n" + rest) == [u + "\n"] + IterLines(rest)
    decreases |u|
  {
    var s := u + "\n" + rest;
    if u == [] {
      assert s[0] == '\n' && s[1..] == rest;
      assert u + "\n" == [s[0]];
    } else {
      assert '\n' !in u[1..] by {
        forall k | 0 <= k < |u| - 1 ensures u[1..][k] != '\n' {
          assert u[1..][k] == u[k + 1];
        }
      }
      IterLinesPrefix(u[1..], rest);
      assert s[0] == u[0] && s[1..] == u[1..] + "\n" + rest;
      var t := IterLines(s[1..]);
      assert t != [] && t[0] == u[1..] + "\n" && t[1..] == IterLines(rest);
      assert s[0] != '\n';
      assert [s[0]] + t[0] == u + "\n";
    }
  }

  // ---------------------------------------------------------------------
  // str() of an integer

  function DigitChar(d: nat): char
    requires d < 10
  {
    ('0' as int + d) as char
  }

  /** The decimal digits of `n`, most significant first, without leading zeros. */
  function NatDigits(n: nat): (r: string)
    ensures |r| >= 1
    ensures forall k :: 0 <= k < |r| ==> '0' <= r[k] <= '9'
    ensures r[0] == '0' ==> n == 0
  {
    if n < 10 then [DigitChar(n)] else NatDigits(n / 10) + [DigitChar(n % 10)]
  }

  /** Python's `str(i)` for an `int`. */
  function DecimalString(i: int): string {
    if i < 0 then "-" + NatDigits(-i) else NatDigits(i)
  }

  /** The value a string of decimal digits denotes. */
  function DigitsValue(s: string): nat
    requires forall k :: 0 <= k < |s| ==> '0' <= s[k] <= '9'
  {
    if s == [] then 0
    else DigitsValue(s[..|s| - 1]) * 10 + (s[|s| - 1] as int - '0' as int)
  }

  /** Reading the digits back gives the number: `int(str(n)) == n`. */
  lemma {:induction false} NatDigitsRoundTrip(n: nat)
    ensures DigitsValue(NatDigits(n)) == n
  {
    if n >= 10 {
      NatDigitsRoundTrip(n / 10);
      var r := NatDigits(n);
      assert r[..|r| - 1] == NatDigits(n / 10);
    }
  }
}
