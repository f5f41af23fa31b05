/** String helpers of scrapemeagain/util/alphanumericker.py. */
module Alphanumericker {
  import opened Wrappers
  import opened Text

  /** `strip_space`: `string.replace(' ', '')`. */
  function StripSpace(s: string): string {
    ReplaceChar(s, ' ', "")
  }

  /** `strip_space` removes every space and keeps every other character, as often as before. */
  lemma StripSpaceRemovesOnlySpaces(s: string)
    ensures ' ' !in StripSpace(s)
    ensures forall x :: x != ' ' ==> multiset(StripSpace(s))[x] == multiset(s)[x]
    ensures ' ' !in s ==> StripSpace(s) == s
  {
    ReplaceCharRemovesAll(s, ' ', "");
    forall x | x != ' ' ensures multiset(StripSpace(s))[x] == multiset(s)[x] {
      ReplaceCharKeepsOthers(s, ' ', "", x);
    }
    if ' ' !in s {
      ReplaceCharIdentity(s, ' ', "");
    }
  }

  // ---------------------------------------------------------------------------
  // handle_dots / handle_dashes

  /** `handle_dots`: drop a trailing dot, or else put a space after every dot. */
  function HandleDots(s: string): string {
    if '.' in s then
      if s[|s| - 1] == '.' then s[..|s| - 1] else ReplaceChar(s, '.', ". ")
    else s
  }

  /** `handle_dashes`: surround every dash with spaces. */
  function HandleDashes(s: string): string {
    if '-' in s then ReplaceChar(s, '-', " - ") else s
  }

  /** Every dot is followed by a space. */
  predicate DotsSpaced(r: string) {
    forall i :: 0 <= i < |r| && r[i] == '.' ==> i + 1 < |r| && r[i + 1] == ' '
  }

  lemma {:induction false} DotsFollowedBySpace(s: string)
    ensures DotsSpaced(ReplaceChar(s, '.', ". "))
  {
    if s != [] {
      var rest := ReplaceChar(s[1..], '.', ". ");
      DotsFollowedBySpace(s[1..]);
      var r := ReplaceChar(s, '.', ". ");
      var h := if s[0] == '.' then 2 else 1;
      assert r == r[..h] + rest;
      forall i | 0 <= i < |r| && r[i] == '.' ensures i + 1 < |r| && r[i + 1] == ' ' {
        if i >= h {
          assert rest[i - h] == '.';
          assert r[i + 1] == rest[i - h + 1];
        }
      }
    }
  }

  /** The three cases of `handle_dots`. */
  lemma HandleDotsCases(s: string)
    ensures '.' !in s ==> HandleDots(s) == s
    ensures s != [] && s[|s| - 1] == '.' ==> HandleDots(s) == s[..|s| - 1]
    ensures '.' in s && s[|s| - 1] != '.' ==>
      var r := HandleDots(s);
      |r| == |s| + multiset(s)['.'] &&
      DotsSpaced(r) &&
      (forall x :: x != '.' && x != ' ' ==> multiset(r)[x] == multiset(s)[x])
  {
    if '.' in s && s[|s| - 1] != '.' {
      ReplaceCharLength(s, '.', ". ");
      DotsFollowedBySpace(s);
      forall x | x != '.' && x != ' ' ensures multiset(HandleDots(s))[x] == multiset(s)[x] {
        ReplaceCharKeepsOthers(s, '.', ". ", x);
      }
    }
  }

  /** Every dash has a space on both sides. */
  predicate DashesSpaced(r: string) {
    forall i :: 0 <= i < |r| && r[i] == '-' ==> 0 < i < |r| - 1 && r[i - 1] == ' ' && r[i + 1] == ' '
  }

  lemma {:induction false} DashesSurrounded(s: string)
    ensures DashesSpaced(ReplaceChar(s, '-', " - "))
  {
    if s != [] {
      var rest := ReplaceChar(s[1..], '-', " - ");
      DashesSurrounded(s[1..]);
      var r := ReplaceChar(s, '-', " - ");
      var h := if s[0] == '-' then 3 else 1;
      assert r == r[..h] + rest;
      forall i | 0 <= i < |r| && r[i] == '-' ensures 0 < i < |r| - 1 && r[i - 1] == ' ' && r[i + 1] == ' ' {
        if i >= h {
          assert rest[i - h] == '-';
          assert r[i + 1] == rest[i - h + 1];
          assert r[i - 1] == rest[i - h - 1];
        }
      }
    }
  }

  /** `handle_dashes` leaves dash-free strings alone and puts a space on both sides of every dash. */
  lemma HandleDashesShape(s: string)
    ensures '-' !in s ==> HandleDashes(s) == s
    ensures var r := HandleDashes(s);
      |r| == |s| + 2 * multiset(s)['-'] && DashesSpaced(r)
  {
    if '-' in s {
      ReplaceCharLength(s, '-', " - ");
      DashesSurrounded(s);
    } else {
      assert multiset(s)['-'] == 0;
    }
  }

  // ---------------------------------------------------------------------------
  // string_to_ascii / comparable_string

  predicate IsAscii(s: string) {
    forall i :: 0 <= i < |s| ==> s[i] as int < 128
  }

  /** The step of `string_to_ascii` after decoding: NFKD normalisation, then every character
      outside ASCII ignored. The model leaves it abstract and relies only on what holds of it:
      its output is ASCII, and ASCII input comes back unchanged. */
  ghost predicate AsciiStep(ascii: string -> string) {
    (forall s :: IsAscii(ascii(s))) && (forall s :: IsAscii(s) ==> ascii(s) == s)
  }

  /** The crudest such step: drop every character outside ASCII. */
  function KeepAscii(s: string): string {
    if s == [] then [] else (if s[0] as int < 128 then [s[0]] else []) + KeepAscii(s[1..])
  }

  lemma {:induction false} KeepAsciiShape(s: string)
    ensures IsAscii(KeepAscii(s))
    ensures IsAscii(s) ==> KeepAscii(s) == s
  {
    if s != [] {
      KeepAsciiShape(s[1..]);
      assert s == [s[0]] + s[1..];
    }
  }

  /** Dropping non-ASCII characters is an ASCII step, so the assumption can be met. */
  lemma KeepAsciiIsAsciiStep()
    ensures AsciiStep(KeepAscii)
  {
    forall s ensures IsAscii(KeepAscii(s)) && (IsAscii(s) ==> KeepAscii(s) == s) {
      KeepAsciiShape(s);
    }
  }

  /** `string_to_ascii`: None stays None. */
  function StringToAscii(ascii: string -> string, s: Option<string>): Option<string> {
    match s
    case None => None
    case Some(t) => Some(ascii(t))
  }

  /** The comparable form of a present string: ASCII, spaces removed, lower case. */
  function Comparable(ascii: string -> string, s: string): string {
    LowerString(StripSpace(ascii(s)))
  }

  /** `comparable_string`: None stays None. */
  function ComparableString(ascii: string -> string, s: Option<string>): Option<string> {
    match s
    case None => None
    case Some(t) => Some(Comparable(ascii, t))
  }

  predicate IsComparable(t: string) {
    IsAscii(t) && ' ' !in t && forall i :: 0 <= i < |t| ==> !('A' <= t[i] <= 'Z')
  }

  lemma StripSpaceKeepsAscii(s: string)
    requires IsAscii(s)
    ensures IsAscii(StripSpace(s))
  {
    forall i | 0 <= i < |StripSpace(s)| ensures StripSpace(s)[i] as int < 128 {
      var x := StripSpace(s)[i];
      assert x in multiset(StripSpace(s));
      if x != ' ' {
        StripSpaceRemovesOnlySpaces(s);
        assert x in multiset(s);
      }
    }
  }

  /** The comparable form has no spaces, no capitals and only ASCII characters. */
  lemma ComparableShape(ascii: string -> string, s: string)
    requires AsciiStep(ascii)
    ensures IsComparable(Comparable(ascii, s))
  {
    var a := StripSpace(ascii(s));
    StripSpaceRemovesOnlySpaces(ascii(s));
    StripSpaceKeepsAscii(ascii(s));
    var r := LowerString(a);
    forall i | 0 <= i < |r| ensures r[i] as int < 128 && r[i] != ' ' {
      assert r[i] == Lower(a[i]);
      assert a[i] in a;
    }
  }

  /** A string already in comparable form is its own comparable form. */
  lemma ComparableOfComparable(ascii: string -> string, t: string)
    requires AsciiStep(ascii) && IsComparable(t)
    ensures Comparable(ascii, t) == t
  {
    StripSpaceRemovesOnlySpaces(t);
  }

  /** `comparable_string` is idempotent, and None maps to None. */
  lemma ComparableStringIdempotent(ascii: string -> string, s: Option<string>)
    requires AsciiStep(ascii)
    ensures s == None <==> ComparableString(ascii, s) == None
    ensures ComparableString(ascii, ComparableString(ascii, s)) == ComparableString(ascii, s)
  {
    if s.Some? {
      ComparableShape(ascii, s.value);
      ComparableOfComparable(ascii, Comparable(ascii, s.value));
    }
  }

  // ---------------------------------------------------------------------------
  // string_to_digit with int output

  datatype DigitError = IndexError | ValueError

  /** A character the scan neither keeps nor translates. */
  predicate Other(c: char) {
    !IsDigit(c) && c != ','
  }

  /** Position `j` ends the number: an other character not followed by a digit
      (the end of the string counts as "not a digit"). */
  predicate IsBreak(s: string, j: nat)
    requires j < |s|
  {
    Other(s[j]) && (j + 1 == |s| || !IsDigit(s[j + 1]))
  }

  /** Where the scan of `string_to_digit` stops: the first break at or after `i`, else `|s|`. */
  function ScanEnd(s: string, i: nat): (e: nat)
    requires i <= |s|
    ensures i <= e <= |s|
    ensures e < |s| ==> IsBreak(s, e)
    ensures forall j :: i <= j < e ==> !IsBreak(s, j)
    decreases |s| - i
  {
    if i == |s| then i else if IsBreak(s, i) then i else ScanEnd(s, i + 1)
  }

  /** The items the scan collects from a prefix: digits kept, `','` turned into `'.'`,
      everything else dropped. */
  function Translate(t: string): (r: string)
    ensures forall i :: 0 <= i < |r| ==> IsDigit(r[i]) || r[i] == '.'
  {
    if t == [] then []
    else
      (if IsDigit(t[0]) then [t[0]] else if t[0] == ',' then ['.'] else []) + Translate(t[1..])
  }

  /** The digits of a string, in order. */
  function DigitsOf(t: string): string {
    if t == [] then [] else (if IsDigit(t[0]) then [t[0]] else []) + DigitsOf(t[1..])
  }

  /** The scan keeps the digits in their order. */
  lemma {:induction false} TranslateKeepsDigits(t: string)
    ensures DigitsOf(Translate(t)) == DigitsOf(t)
  {
    if t != [] {
      TranslateKeepsDigits(t[1..]);
      var head := if IsDigit(t[0]) then [t[0]] else if t[0] == ',' then ['.'] else [];
      DigitsOfAppend(head, Translate(t[1..]));
    }
  }

  /** Each comma becomes exactly one dot, and no other dot appears. */
  lemma {:induction false} TranslateCommas(t: string)
    ensures multiset(Translate(t))['.'] == multiset(t)[',']
  {
    if t != [] {
      TranslateCommas(t[1..]);
      var head := if IsDigit(t[0]) then [t[0]] else if t[0] == ',' then ['.'] else [];
      assert Translate(t) == head + Translate(t[1..]);
      assert t == [t[0]] + t[1..];
      assert multiset(t)[','] == multiset([t[0]])[','] + multiset(t[1..])[','];
      assert multiset(Translate(t))['.'] == multiset(head)['.'] + multiset(Translate(t[1..]))['.'];
    }
  }

  lemma {:induction false} DigitsOfAppend(a: string, b: string)
    ensures DigitsOf(a + b) == DigitsOf(a) + DigitsOf(b)
  {
    if a == [] {
      assert a + b == b;
    } else {
      assert (a + b)[0] == a[0];
      assert (a + b)[1..] == a[1..] + b;
      DigitsOfAppend(a[1..], b);
    }
  }

  function FirstIndex(s: string, c: char): (k: nat)
    requires c in s
    ensures k < |s| && s[k] == c && c !in s[..k]
  {
    if s[0] == c then 0 else assert s == [s[0]] + s[1..]; 1 + FirstIndex(s[1..], c)
  }

  /** `int(''.join(items))`, or `int(float(''.join(items)))` when a dot is present. */
  function IntOfItems(items: string): Result<nat, DigitError>
    requires forall i :: 0 <= i < |items| ==> IsDigit(items[i]) || items[i] == '.'
  {
    if '.' !in items then
      if items == [] then Err(ValueError) else Ok(ParseNat(items))
    else
      var k := FirstIndex(items, '.');
      if '.' in items[k + 1..] || |items| == 1 then Err(ValueError)
      else Ok(ParseNat(items[..k]))
  }

  /** `string_to_digit(s, int)` as written: the first two characters and the character after
      a non-digit are read without a length check, so a too short string or a number that
      ends in another character (`"250,-"`) raises `IndexError`. */
  function StringToDigitAsWritten(input: string): Result<Option<nat>, DigitError>
  {
    var s := StripSpace(input);
    if |s| == 0 then Err(IndexError)
    else if !IsDigit(s[0]) && |s| == 1 then Err(IndexError)
    else if !IsDigit(s[0]) && !IsDigit(s[1]) then Ok(None)
    else
      var e := ScanEnd(s, 0);
      if e == |s| - 1 then Err(IndexError)
      else match IntOfItems(Translate(s[..e]))
        case Ok(v) => Ok(Some(v))
        case Err(x) => Err(x)
  }

  /** `string_to_digit(s, int)` with the end of the string read as "not a digit". */
  function StringToDigitSpec(input: string): (r: Result<Option<nat>, DigitError>)
    ensures r != Err(IndexError)
  {
    var s := StripSpace(input);
    if |s| == 0 || (!IsDigit(s[0]) && (|s| == 1 || !IsDigit(s[1]))) then Ok(None)
    else match IntOfItems(Translate(s[..ScanEnd(s, 0)]))
      case Ok(v) => Ok(Some(v))
      case Err(x) => Err(x)
  }

  /** The loop of `string_to_digit`, with the corrected end-of-string test. */
  method StringToDigit(input: string) returns (r: Result<Option<nat>, DigitError>)
    ensures r == StringToDigitSpec(input)
  {
    var s := StripSpace(input);
    if |s| == 0 || (!IsDigit(s[0]) && (|s| == 1 || !IsDigit(s[1]))) {
      return Ok(None);
    }
    var items := "";
    var index := 0;
    while index < |s|
      invariant 0 <= index <= ScanEnd(s, 0)
      invariant items == Translate(s[..index])
    {
      ScanEndAt(s, index);
      var item := s[index];
      if IsDigit(item) {
        items := items + [item];
      } else if item == ',' {
        items := items + ['.'];
      } else if index + 1 == |s| || !IsDigit(s[index + 1]) {
        break;
      }
      TranslateSnoc(s[..index], item);
      assert s[..index + 1] == s[..index] + [item];
      index := index + 1;
    }
    match IntOfItems(items)
    case Ok(v) => r := Ok(Some(v));
    case Err(x) => r := Err(x);
  }

  lemma {:induction false} TranslateSnoc(t: string, c: char)
    ensures Translate(t + [c]) == Translate(t) + (if IsDigit(c) then [c] else if c == ',' then ['.'] else [])
  {
    var tc := t + [c];
    if t == [] {
      assert tc == [c];
      assert tc[1..] == [];
    } else {
      assert tc[0] == t[0];
      assert tc[1..] == t[1..] + [c];
      TranslateSnoc(t[1..], c);
    }
  }

  /** The scan position relative to the first break. */
  lemma ScanEndAt(s: string, index: nat)
    requires index < |s| && index <= ScanEnd(s, 0)
    ensures IsBreak(s, index) ==> index == ScanEnd(s, 0)
    ensures !IsBreak(s, index) ==> index + 1 <= ScanEnd(s, 0)
  {
  }

  /** Wherever the code as written does not raise, the corrected version agrees with it. */
  lemma StringToDigitAgrees(input: string)
    requires StringToDigitAsWritten(input) != Err(IndexError)
    ensures StringToDigitAsWritten(input) == StringToDigitSpec(input)
  {
  }

  /** The input `"250,-"`, a common way of writing a price, crashes the code as written,
      while the corrected scan reads 250. */
  lemma StringToDigitTrailingDash()
    ensures StringToDigitAsWritten("250,-") == Err(IndexError)
    ensures StringToDigitSpec("250,-") == Ok(Some(250))
  {
    var s := "250,-";
    ReplaceCharIdentity(s, ' ', "");
    TrailingDashScan();
    TrailingDashItems();
  }

  lemma TrailingDashScan()
    ensures ScanEnd("250,-", 0) == 4
  {
    var s := "250,-";
    assert !IsBreak(s, 0) && !IsBreak(s, 1) && !IsBreak(s, 2) && !IsBreak(s, 3) && IsBreak(s, 4);
  }

  lemma TrailingDashItems()
    ensures "250,-"[..4] == "250,"
    ensures Translate("250,") == "250."
    ensures IntOfItems("250.") == Ok(250)
  {
    assert Translate(",") == ".";
    assert Translate("0,") == "0.";
    assert Translate("50,") == "50.";
    var items := "250.";
    assert FirstIndex(items, '.') == 3;
    assert items[..3] == "250";
    assert "250"[..2] == "25";
    assert "25"[..1] == "2";
    assert "2"[..0] == "";
  }

  /** A string of digits reads as its decimal value. */
  lemma StringToDigitOfDigits(d: string)
    requires d != [] && AllDigits(d)
    ensures StringToDigitSpec(d) == Ok(Some(ParseNat(d)))
    ensures StringToDigitAsWritten(d) == Ok(Some(ParseNat(d)))
  {
    assert ' ' !in d;
    ReplaceCharIdentity(d, ' ', "");
    assert ScanEnd(d, 0) == |d|;
    assert d[..|d|] == d;
    TranslateDigits(d);
  }

  lemma {:induction false} TranslateDigits(d: string)
    requires AllDigits(d)
    ensures Translate(d) == d
  {
    if d != [] {
      TranslateDigits(d[1..]);
      assert d == [d[0]] + d[1..];
    }
  }

  /** A string whose first two characters (spaces removed) are not digits has no number. */
  lemma StringToDigitNoLeadingDigit(input: string)
    requires var s := StripSpace(input); |s| >= 2 && !IsDigit(s[0]) && !IsDigit(s[1])
    ensures StringToDigitSpec(input) == Ok(None)
    ensures StringToDigitAsWritten(input) == Ok(None)
  {
  }

  // ---------------------------------------------------------------------------
  // iterable_to_string

  function Quote(s: string): string {
    "'" + s + "'"
  }

  function QuoteAll(items: seq<string>): (r: seq<string>)
    ensures |r| == |items| && forall i :: 0 <= i < |items| ==> r[i] == Quote(items[i])
  {
    if items == [] then [] else [Quote(items[0])] + QuoteAll(items[1..])
  }

  /** `iterable_to_string(items, quoted)`: the items, optionally quoted, joined by `", "`. */
  function IterableToString(items: seq<string>, quoted: bool): string {
    Join(", ", if quoted then QuoteAll(items) else items)
  }

  function TotalLength(parts: seq<string>): nat {
    if parts == [] then 0 else |parts[0]| + TotalLength(parts[1..])
  }

  lemma {:induction false} JoinLength(sep: string, parts: seq<string>)
    requires parts != []
    ensures |Join(sep, parts)| == TotalLength(parts) + |sep| * (|parts| - 1)
  {
    if |parts| > 1 {
      JoinLength(sep, parts[1..]);
    }
  }

  lemma {:induction false} QuoteAllLength(items: seq<string>)
    ensures TotalLength(QuoteAll(items)) == TotalLength(items) + 2 * |items|
  {
    if items != [] {
      QuoteAllLength(items[1..]);
      assert QuoteAll(items)[1..] == QuoteAll(items[1..]);
    }
  }

  /** The joined string holds every item and one `", "` between neighbours; quoting adds two
      characters per item, and a single quoted item is wrapped in quotes. */
  lemma IterableToStringShape(items: seq<string>)
    requires items != []
    ensures |IterableToString(items, false)| == TotalLength(items) + 2 * (|items| - 1)
    ensures |IterableToString(items, true)| == TotalLength(items) + 2 * |items| + 2 * (|items| - 1)
    ensures |items| == 1 ==> IterableToString(items, true) == "'" + items[0] + "'"
    ensures |items| > 1 ==> IterableToString(items, false) == items[0] + ", " + IterableToString(items[1..], false)
  {
    JoinLength(", ", items);
    JoinLength(", ", QuoteAll(items));
    QuoteAllLength(items);
  }
}
