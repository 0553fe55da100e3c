/** The three URL-finding regular expressions of the source, written out as
    explicit left-to-right, maximal-munch scanners with the meaning of
    Python's `re.findall`. */
module Scanner {
  import opened Text

  /** Which `re.findall` pattern is meant. */
  datatype Pattern =
    | TextFileUrl   // https?://[^\s<>"]+|www\.[^\s<>"]+   (lines of a text file)
    | CsvUrl        // https?://[^\s,;"]+                  (lines of a CSV file)
    | FreeTextUrl   // https?://[^\s,;"]+|www\.[^\s,;"]+   (free text)

  /** The characters the pattern's `[^...]` body class refuses. */
  predicate Excluded(p: Pattern, c: char) {
    || IsSpace(c)
    || c == '"'
    || (if p.TextFileUrl? then c == '<' || c == '>' else c == ',' || c == ';')
  }

  /** Whether the pattern has the `www\.` alternative. */
  predicate AllowsWww(p: Pattern) {
    !p.CsvUrl?
  }

  /** The length of the run of body characters `s` starts with (the greedy `+`). */
  function BodyRun(p: Pattern, s: string): (n: nat)
    ensures n <= |s|
    ensures forall k :: 0 <= k < n ==> !Excluded(p, s[k])
    ensures n < |s| ==> Excluded(p, s[n])
  {
    if s != [] && !Excluded(p, s[0]) then 1 + BodyRun(p, s[1..]) else 0
  }

  /** The length of the literal head `s` starts with: `https://`, `http://`
      (the optional `s` tried greedily first), or `www.` when the pattern has
      that alternative; 0 when none. The three heads cannot overlap, so trying
      the alternatives in order amounts to this one test. */
  function HeadLen(p: Pattern, s: string): nat {
    if StartsWith(s, "https://") then 8
    else if StartsWith(s, "http://") then 7
    else if AllowsWww(p) && StartsWith(s, "www.") then 4
    else 0
  }

  /** The length of the match at the start of `s`, 0 when there is none: a
      head followed by at least one body character, the body taken greedily. */
  function MatchLen(p: Pattern, s: string): (n: nat)
    ensures n <= |s|
  {
    var k := HeadLen(p, s);
    if k > 0 && BodyRun(p, s[k..]) > 0 then k + BodyRun(p, s[k..]) else 0
  }

  /** A string the pattern matches in full. */
  predicate IsToken(p: Pattern, u: string) {
    && HeadLen(p, u) > 0
    && |u| > HeadLen(p, u)
    && forall k :: 0 <= k < |u| ==> !Excluded(p, u[k])
  }

  /** `re.findall(pattern, s)`: scan from the left; where a match starts, take
      it whole and resume after it, otherwise move on one character. */
  function FindAll(p: Pattern, s: string): (r: seq<string>)
    ensures forall u :: u in r ==> IsToken(p, u) && Contains(s, u)
    decreases |s|
  {
    if s == [] then []
    else
      var n := MatchLen(p, s);
      if n > 0 then
        var rest := FindAll(p, s[n..]);
        MatchIsToken(p, s);
        assert InfixAt(s, s[..n], 0);
        forall u | u in rest ensures Contains(s, u) {
          ContainsInSuffix(s, n, u);
        }
        [s[..n]] + rest
      else
        var rest := FindAll(p, s[1..]);
        forall u | u in rest ensures Contains(s, u) {
          ContainsInSuffix(s, 1, u);
        }
        rest
  }

  /** The heads are made of characters no body class refuses. */
  lemma HeadNotExcluded(p: Pattern, s: string)
    requires HeadLen(p, s) > 0
    ensures forall k :: 0 <= k < HeadLen(p, s) ==> !Excluded(p, s[k])
  {
    var k := HeadLen(p, s);
    var h := if k == 8 then "https://" else if k == 7 then "http://" else "www.";
    assert s[..k] == h;
    forall i | 0 <= i < k ensures !Excluded(p, s[i]) {
      assert s[i] == h[i];
    }
  }

  /** A string and any longer string it starts with have the same head. */
  lemma {:induction false} HeadLenPrefix(p: Pattern, s: string, n: nat)
    requires HeadLen(p, s) <= n <= |s|
    requires HeadLen(p, s) > 0 || n >= 8
    ensures HeadLen(p, s[..n]) == HeadLen(p, s)
  {
    var t := s[..n];
    assert |"https://"| <= n ==> t[..8] == s[..8];
    assert |"http://"| <= n ==> t[..7] == s[..7];
    assert t[..4] == s[..4] by {
      assert 4 <= n;
    }
  }

  /** Appending to a string that has a head keeps that head. */
  lemma HeadLenExtend(p: Pattern, u: string, t: string)
    requires HeadLen(p, u) > 0
    ensures HeadLen(p, u + t) == HeadLen(p, u)
  {
    var s := u + t;
    var k := HeadLen(p, u);
    assert s[..k] == u[..k];
    if k == 7 {
      assert u[4] == ':' && s[4] == ':';
      assert !StartsWith(s, "https://") by { assert "https://"[4] == 's'; }
    } else if k == 4 {
      assert s[0] == 'w';
      assert !StartsWith(s, "https://") && !StartsWith(s, "http://") by {
        assert "https://"[0] == 'h' && "http://"[0] == 'h';
      }
    }
  }

  /** What a non-empty match takes is a token. */
  lemma MatchIsToken(p: Pattern, s: string)
    requires MatchLen(p, s) > 0
    ensures IsToken(p, s[..MatchLen(p, s)])
  {
    var k := HeadLen(p, s);
    var n := MatchLen(p, s);
    HeadNotExcluded(p, s);
    HeadLenPrefix(p, s, n);
    forall i | 0 <= i < n ensures !Excluded(p, s[..n][i]) {
      if i >= k { assert s[i] == s[k..][i - k]; }
    }
  }

  lemma {:induction false} BodyRunAll(p: Pattern, a: string)
    requires forall k :: 0 <= k < |a| ==> !Excluded(p, a[k])
    ensures BodyRun(p, a) == |a|
  {
    if a != [] {
      BodyRunAll(p, a[1..]);
    }
  }

  lemma {:induction false} BodyRunStops(p: Pattern, a: string, c: char, rest: string)
    requires forall k :: 0 <= k < |a| ==> !Excluded(p, a[k])
    requires Excluded(p, c)
    ensures BodyRun(p, a + [c] + rest) == |a|
  {
    if a != [] {
      assert (a + [c] + rest)[1..] == a[1..] + [c] + rest;
      BodyRunStops(p, a[1..], c, rest);
    }
  }

  /** A string made of one URL yields exactly that URL. */
  lemma TokenAlone(p: Pattern, u: string)
    requires IsToken(p, u)
    ensures FindAll(p, u) == [u]
  {
    var k := HeadLen(p, u);
    assert forall i :: 0 <= i < |u[k..]| ==> u[k..][i] == u[k + i];
    BodyRunAll(p, u[k..]);
    assert MatchLen(p, u) == |u|;
    assert u[..|u|] == u;
    assert u[|u|..] == [];
  }

  /** The match at the start of a URL followed by a refused character is that URL. */
  lemma MatchLenToken(p: Pattern, u: string, c: char, rest: string)
    requires IsToken(p, u)
    requires Excluded(p, c)
    ensures MatchLen(p, u + [c] + rest) == |u|
  {
    var s := u + [c] + rest;
    var k := HeadLen(p, u);
    HeadLenExtend(p, u, [c] + rest);
    assert u + ([c] + rest) == s;
    assert s[k..] == u[k..] + [c] + rest;
    assert forall i :: 0 <= i < |u[k..]| ==> u[k..][i] == u[k + i];
    BodyRunStops(p, u[k..], c, rest);
  }

  /** No match starts at a refused character, so the scan steps over it. */
  lemma SkipSeparator(p: Pattern, c: char, rest: string)
    requires Excluded(p, c)
    ensures FindAll(p, [c] + rest) == FindAll(p, rest)
  {
    var t := [c] + rest;
    assert HeadLen(p, t) == 0 by {
      assert t[0] == c;
      assert "https://"[0] == 'h' && "http://"[0] == 'h' && "www."[0] == 'w';
    }
    assert t[1..] == rest;
  }

  /** A URL followed by a character the body refuses is found whole, and the
      scan resumes after that character: URLs separated by whitespace, quotes
      or the pattern's delimiters are found one by one, with nothing glued on. */
  lemma TokenThenSeparator(p: Pattern, u: string, c: char, rest: string)
    requires IsToken(p, u)
    requires Excluded(p, c)
    ensures FindAll(p, u + [c] + rest) == [u] + FindAll(p, rest)
  {
    var s := u + [c] + rest;
    MatchLenToken(p, u, c, rest);
    assert s[..|u|] == u;
    assert s[|u|..] == [c] + rest;
    SkipSeparator(p, c, rest);
  }

  /** Every match starts with `h` or `w`: a string holding neither character
      yields nothing. */
  lemma {:induction false} NoHeadCharNoMatch(p: Pattern, s: string)
    requires 'h' !in s && 'w' !in s
    ensures FindAll(p, s) == []
    decreases |s|
  {
    if s != [] {
      assert HeadLen(p, s) == 0 by {
        assert s[0] != 'h' && s[0] != 'w';
        assert "https://"[0] == 'h' && "http://"[0] == 'h' && "www."[0] == 'w';
      }
      assert forall c :: c in s[1..] ==> c in s;
      NoHeadCharNoMatch(p, s[1..]);
    }
  }
}
