/** String primitives of Python 2 byte strings that the scraper relies on:
    whitespace, `str.replace`, `str.split()`, `str.strip()`, `' '.join`,
    substring tests and the decimal rendering of integers. */
module Text {

  /** The characters Python's `str.split()` and `str.strip()` treat as whitespace. */
  predicate IsWhitespace(c: char) {
    c == ' ' || 9 <= c as int <= 13
  }

  /** `str.isdigit()` on one byte. */
  predicate IsDigit(c: char) {
    '0' <= c <= '9'
  }

  predicate AllDigits(s: string) {
    forall i :: 0 <= i < |s| ==> IsDigit(s[i])
  }

  /** `str.lower()` on one byte: only ASCII capitals change. */
  function Lower(c: char): char {
    if 'A' <= c <= 'Z' then (c as int + 32) as char else c
  }

  function LowerString(s: string): (r: string)
    ensures |r| == |s|
    ensures forall i :: 0 <= i < |s| ==> r[i] == Lower(s[i])
    ensures forall i :: 0 <= i < |s| ==> !('A' <= r[i] <= 'Z')
  {
    seq(|s|, i requires 0 <= i < |s| => Lower(s[i]))
  }

  // ---------------------------------------------------------------------------
  // str.replace with a one-character pattern

  /** `s.replace(c, r)` for a one-character pattern `c`. */
  function ReplaceChar(s: string, c: char, r: string): string
  {
    if s == [] then [] else (if s[0] == c then r else [s[0]]) + ReplaceChar(s[1..], c, r)
  }

  /** Every occurrence is rewritten: none survives unless the replacement brings it back. */
  lemma {:induction false} ReplaceCharRemovesAll(s: string, c: char, r: string)
    requires c !in r
    ensures c !in ReplaceChar(s, c, r)
  {
    if s != [] {
      ReplaceCharRemovesAll(s[1..], c, r);
    }
  }

  /** A string without the pattern is returned unchanged. */
  lemma {:induction false} ReplaceCharIdentity(s: string, c: char, r: string)
    requires c !in s
    ensures ReplaceChar(s, c, r) == s
  {
    if s != [] {
      assert s == [s[0]] + s[1..];
      ReplaceCharIdentity(s[1..], c, r);
    }
  }

  /** Every other character survives, as often as before. */
  lemma {:induction false} ReplaceCharKeepsOthers(s: string, c: char, r: string, x: char)
    requires x != c && x !in r
    ensures multiset(ReplaceChar(s, c, r))[x] == multiset(s)[x]
  {
    if s != [] {
      ReplaceCharKeepsOthers(s[1..], c, r, x);
      assert s == [s[0]] + s[1..];
    }
  }

  /** Each occurrence of the pattern grows the string by `|r| - 1`. */
  lemma {:induction false} ReplaceCharLength(s: string, c: char, r: string)
    ensures |ReplaceChar(s, c, r)| == |s| + multiset(s)[c] * (|r| - 1)
  {
    if s != [] {
      ReplaceCharLength(s[1..], c, r);
      assert s == [s[0]] + s[1..];
      assert multiset(s) == multiset{s[0]} + multiset(s[1..]);
      var head := if s[0] == c then r else [s[0]];
      assert ReplaceChar(s, c, r) == head + ReplaceChar(s[1..], c, r);
      if s[0] == c {
        MultiplyStep(multiset(s[1..])[c], |r| - 1);
      }
    }
  }

  lemma MultiplyStep(m: int, k: int)
    ensures (m + 1) * k == m * k + k
  {
  }

  // ---------------------------------------------------------------------------
  // Substrings and prefixes

  predicate StartsWith(s: string, p: string) {
    |p| <= |s| && s[..|p|] == p
  }

  /** Python's `t in s` for strings. */
  predicate Contains(s: string, t: string)
    decreases |s|
  {
    StartsWith(s, t) || (s != [] && Contains(s[1..], t))
  }

  lemma {:induction false} ContainsInfix(a: string, t: string, b: string)
    ensures Contains(a + t + b, t)
  {
    if a == [] {
      assert a + t + b == t + b;
      assert (t + b)[..|t|] == t;
    } else {
      ContainsInfix(a[1..], t, b);
      assert (a + t + b)[1..] == a[1..] + t + b;
    }
  }

  /** `s.replace(pat, rep)`: leftmost, non-overlapping, no rescanning of the output. */
  function ReplaceAll(s: string, pat: string, rep: string): string
    requires pat != []
    decreases |s|
  {
    if s == [] then []
    else if StartsWith(s, pat) then rep + ReplaceAll(s[|pat|..], pat, rep)
    else [s[0]] + ReplaceAll(s[1..], pat, rep)
  }

  lemma {:induction false} ReplaceAllIdentity(s: string, pat: string, rep: string)
    requires pat != [] && !Contains(s, pat)
    ensures ReplaceAll(s, pat, rep) == s
  {
    if s != [] {
      ReplaceAllIdentity(s[1..], pat, rep);
      assert s == [s[0]] + s[1..];
    }
  }

  /** A leading occurrence that does not recur is simply cut off. */
  lemma ReplaceAllLeading(s: string, pat: string)
    requires pat != [] && StartsWith(s, pat) && !Contains(s[|pat|..], pat)
    ensures ReplaceAll(s, pat, "") == s[|pat|..]
  {
    ReplaceAllIdentity(s[|pat|..], pat, "");
  }

  // ---------------------------------------------------------------------------
  // str.split(), ' '.join and str.strip()

  /** Length of the run of non-whitespace characters that starts `s`. */
  function WordLen(s: string): (n: nat)
    ensures n <= |s|
    ensures forall i :: 0 <= i < n ==> !IsWhitespace(s[i])
    ensures n < |s| ==> IsWhitespace(s[n])
  {
    if s == [] || IsWhitespace(s[0]) then 0 else 1 + WordLen(s[1..])
  }

  /** `s.split()`: the maximal runs of non-whitespace characters, in order. */
  function Words(s: string): seq<string>
    decreases |s|
  {
    if s == [] then []
    else if IsWhitespace(s[0]) then Words(s[1..])
    else
      var n := WordLen(s);
      assert n >= 1;
      [s[..n]] + Words(s[n..])
  }

  /** `sep.join(parts)`. */
  function Join(sep: string, parts: seq<string>): string
  {
    if parts == [] then "" else if |parts| == 1 then parts[0] else parts[0] + sep + Join(sep, parts[1..])
  }

  predicate IsWord(w: string) {
    w != [] && forall i :: 0 <= i < |w| ==> !IsWhitespace(w[i])
  }

  predicate AllBlank(s: string) {
    forall i :: 0 <= i < |s| ==> IsWhitespace(s[i])
  }

  /** Every piece `split()` returns is a non-empty run without whitespace. */
  lemma {:induction false} WordsAreWords(s: string)
    ensures forall k :: 0 <= k < |Words(s)| ==> IsWord(Words(s)[k])
    decreases |s|
  {
    if s == [] {
    } else if IsWhitespace(s[0]) {
      WordsAreWords(s[1..]);
    } else {
      var n := WordLen(s);
      WordsAreWords(s[n..]);
    }
  }

  /** `split()` finds nothing exactly when the string is blank. */
  lemma {:induction false} WordsEmptyIffBlank(s: string)
    ensures Words(s) == [] <==> AllBlank(s)
    decreases |s|
  {
    if s != [] {
      if IsWhitespace(s[0]) {
        WordsEmptyIffBlank(s[1..]);
        assert AllBlank(s) <==> AllBlank(s[1..]) by {
          if AllBlank(s[1..]) {
            forall i | 0 <= i < |s| ensures IsWhitespace(s[i]) {
              if i > 0 { assert s[i] == s[1..][i - 1]; }
            }
          }
        }
      }
    }
  }

  /** A string is collapsed when its only whitespace are single inner spaces. */
  predicate Collapsed(t: string) {
    forall i :: 0 <= i < |t| && IsWhitespace(t[i]) ==> t[i] == ' ' && 0 < i < |t| - 1 && t[i + 1] != ' '
  }

  lemma {:induction false} JoinWordsCollapsed(parts: seq<string>)
    requires forall k :: 0 <= k < |parts| ==> IsWord(parts[k])
    ensures Collapsed(Join(" ", parts))
    ensures parts != [] ==> Join(" ", parts) != [] && !IsWhitespace(Join(" ", parts)[0])
  {
    if |parts| > 1 {
      JoinWordsCollapsed(parts[1..]);
      var rest := Join(" ", parts[1..]);
      var t := parts[0] + " " + rest;
      forall i | 0 <= i < |t| && IsWhitespace(t[i])
        ensures t[i] == ' ' && 0 < i < |t| - 1 && t[i + 1] != ' '
      {
        if i > |parts[0]| {
          assert t[i] == rest[i - |parts[0]| - 1];
        } else {
          assert t[i + 1] == rest[0];
        }
      }
      assert t[0] == parts[0][0];
    }
  }

  /** `split()` undoes `' '.join` of words: the round trip of the pair. */
  lemma {:induction false} WordsOfJoin(parts: seq<string>)
    requires forall k :: 0 <= k < |parts| ==> IsWord(parts[k])
    ensures Words(Join(" ", parts)) == parts
  {
    if parts == [] {
    } else {
      var p := parts[0];
      if |parts| == 1 {
        WordLenOfWord(p, "");
        assert p + "" == p;
        assert p[..|p|] == p;
        assert p[|p|..] == [];
      } else {
        var rest := Join(" ", parts[1..]);
        var t := p + " " + rest;
        WordLenOfWord(p, " " + rest);
        assert p + (" " + rest) == t;
        assert t[..|p|] == p;
        assert t[|p|..] == " " + rest;
        assert (" " + rest)[1..] == rest;
        WordsOfJoin(parts[1..]);
      }
    }
  }

  lemma {:induction false} WordLenOfWord(w: string, tail: string)
    requires IsWord(w)
    requires tail == [] || IsWhitespace(tail[0])
    ensures WordLen(w + tail) == |w|
  {
    if |w| > 1 {
      assert (w + tail)[1..] == w[1..] + tail;
      WordLenOfWord(w[1..], tail);
    } else {
      assert (w + tail)[1..] == tail;
    }
  }

  /** `' '.join(s.split())`: whitespace runs collapse to one space, ends are trimmed. */
  function Collapse(s: string): string {
    Join(" ", Words(s))
  }

  lemma CollapseShape(s: string)
    ensures Collapsed(Collapse(s))
    ensures Collapse(s) == [] <==> AllBlank(s)
  {
    WordsAreWords(s);
    JoinWordsCollapsed(Words(s));
    WordsEmptyIffBlank(s);
  }

  /** Collapsing twice is collapsing once. */
  lemma CollapseIdempotent(s: string)
    ensures Collapse(Collapse(s)) == Collapse(s)
  {
    WordsAreWords(s);
    WordsOfJoin(Words(s));
  }

  function StripLeft(s: string): string
  {
    if s != [] && IsWhitespace(s[0]) then StripLeft(s[1..]) else s
  }

  function StripRight(s: string): string
  {
    if s != [] && IsWhitespace(s[|s| - 1]) then StripRight(s[..|s| - 1]) else s
  }

  /** `s.strip()`. */
  function Strip(s: string): string {
    StripRight(StripLeft(s))
  }

  predicate Trimmed(t: string) {
    t == [] || (!IsWhitespace(t[0]) && !IsWhitespace(t[|t| - 1]))
  }

  lemma {:induction false} StripLeftShape(s: string)
    ensures var r := StripLeft(s); |r| <= |s| && r == s[|s| - |r|..] && (r == [] || !IsWhitespace(r[0]))
    ensures AllBlank(s[..|s| - |StripLeft(s)|])
  {
    if s != [] && IsWhitespace(s[0]) {
      StripLeftShape(s[1..]);
      var r := StripLeft(s[1..]);
      forall i | 0 <= i < |s| - |r| ensures IsWhitespace(s[i]) {
        if i > 0 { assert s[i] == s[1..][..|s| - 1 - |r|][i - 1]; }
      }
    }
  }

  lemma {:induction false} StripRightShape(s: string)
    ensures var r := StripRight(s); |r| <= |s| && r == s[..|r|] && (r == [] || !IsWhitespace(r[|r| - 1]))
    ensures AllBlank(s[|StripRight(s)|..])
  {
    if s != [] && IsWhitespace(s[|s| - 1]) {
      var s' := s[..|s| - 1];
      StripRightShape(s');
      var r := StripRight(s');
      forall i | |r| <= i < |s| ensures IsWhitespace(s[i]) {
        if i < |s| - 1 { assert s[i] == s'[|r|..][i - |r|]; }
      }
    }
  }

  /** `strip()` removes exactly the blank margins: the result is a trimmed slice of `s`
      with only whitespace around it. */
  lemma StripShape(s: string)
    ensures Trimmed(Strip(s))
    ensures exists i, j :: 0 <= i <= j <= |s| && Strip(s) == s[i..j] && AllBlank(s[..i]) && AllBlank(s[j..])
  {
    StripLeftShape(s);
    var l := StripLeft(s);
    StripRightShape(l);
    var r := StripRight(l);
    var i := |s| - |l|;
    var j := i + |r|;
    assert s[i..j] == l[..|r|];
    assert s[j..] == l[|r|..];
    if r != [] {
      assert r[0] == l[0];
    }
  }

  /** A trimmed string is left alone by `strip()`. */
  lemma StripTrimmed(s: string)
    requires Trimmed(s)
    ensures Strip(s) == s
  {
  }

  // ---------------------------------------------------------------------------
  // str.title()

  predicate IsLetter(c: char) {
    'a' <= c <= 'z' || 'A' <= c <= 'Z'
  }

  /** `str.upper()` on one byte. */
  function Upper(c: char): char {
    if 'a' <= c <= 'z' then (c as int - 32) as char else c
  }

  /** The byte `str.title()` puts at position `i`: lower case after a letter, upper case
      elsewhere. */
  function TitleChar(s: string, i: nat): char
    requires i < |s|
  {
    if i > 0 && IsLetter(s[i - 1]) then Lower(s[i]) else Upper(s[i])
  }

  /** `s.title()`. */
  function Title(s: string): (r: string)
    ensures |r| == |s| && forall i :: 0 <= i < |s| ==> r[i] == TitleChar(s, i)
  {
    seq(|s|, i requires 0 <= i < |s| => TitleChar(s, i))
  }

  /** `title()` changes only the case of letters: whitespace stays where it was, so a
      collapsed or trimmed string stays so, and titling twice is titling once. */
  lemma TitleShape(s: string)
    ensures forall i :: 0 <= i < |s| ==> (IsWhitespace(Title(s)[i]) <==> IsWhitespace(s[i]))
    ensures forall i :: 0 <= i < |s| ==> (IsLetter(Title(s)[i]) <==> IsLetter(s[i]))
    ensures forall i :: 0 <= i < |s| && !IsLetter(s[i]) ==> Title(s)[i] == s[i]
    ensures Collapsed(s) ==> Collapsed(Title(s))
    ensures Trimmed(s) ==> Trimmed(Title(s))
    ensures Title(Title(s)) == Title(s)
  {
    var r := Title(s);
    assert forall i :: 0 <= i < |s| ==> (IsWhitespace(r[i]) <==> IsWhitespace(s[i]));
    forall i | 0 <= i < |s| ensures Title(r)[i] == r[i] {
      if i > 0 && IsLetter(s[i - 1]) {
        assert IsLetter(r[i - 1]);
      } else if i > 0 {
        assert !IsLetter(r[i - 1]);
      }
    }
  }

  // ---------------------------------------------------------------------------
  // Decimal rendering of integers (`str(n)`, `'%d' % n`) and `int(s)`

  function DigitChar(d: nat): char
    requires d < 10
  {
    ('0' as int + d) as char
  }

  /** `str(n)` for a natural number. */
  function NatToString(n: nat): string
    decreases n
  {
    if n < 10 then [DigitChar(n)] else NatToString(n / 10) + [DigitChar(n % 10)]
  }

  /** `int(s)` on a string of decimal digits. */
  function ParseNat(s: string): nat
    requires AllDigits(s)
  {
    if s == [] then 0 else ParseNat(s[..|s| - 1]) * 10 + (s[|s| - 1] as int - '0' as int)
  }

  /** `int(str(n)) == n`: rendering never loses information. */
  lemma {:induction false} ParseNatToString(n: nat)
    ensures NatToString(n) != [] && AllDigits(NatToString(n))
    ensures ParseNat(NatToString(n)) == n
    decreases n
  {
    if n >= 10 {
      ParseNatToString(n / 10);
      var s := NatToString(n);
      assert s[..|s| - 1] == NatToString(n / 10);
    }
  }

  lemma NatToStringInjective(a: nat, b: nat)
    requires NatToString(a) == NatToString(b)
    ensures a == b
  {
    ParseNatToString(a);
    ParseNatToString(b);
  }

  /** `str(i)` for any integer. */
  function IntToString(i: int): string {
    if i < 0 then "-" + NatToString(-i) else NatToString(i)
  }

  /** The sign is visible in the first character. */
  lemma IntToStringSign(i: int)
    ensures IntToString(i) != []
    ensures IntToString(i)[0] == '-' <==> i < 0
  {
    ParseNatToString(if i < 0 then -i else i);
  }

  /** Distinct integers print differently. */
  lemma IntToStringInjective(a: int, b: int)
    requires IntToString(a) == IntToString(b)
    ensures a == b
  {
    IntToStringSign(a);
    IntToStringSign(b);
    if a < 0 {
      assert NatToString(-a) == IntToString(a)[1..];
      NatToStringInjective(-a, -b);
    } else {
      NatToStringInjective(a, b);
    }
  }
}
