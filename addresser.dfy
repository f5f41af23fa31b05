/** Address comparison, normalisation and cleanup of scrapemeagain/util/addresser.py. An
    address is a dict of components (`district`, `city`, `locality`, coordinates, ...). */
module Addresser {
  import opened Wrappers
  import opened Text
  import opened Alphanumericker

  /** A value of an address dict: a string, a coordinate, or None. */
  datatype Value = Str(s: string) | Number(x: real) | NoneValue

  type Address = map<string, Value>

  /** The argument of `comparable_address`: a dict (its items in iteration order), a tuple of
      optional strings, or anything else, named by its type. */
  datatype Components =
    | DictComponents(items: seq<(string, Value)>)
    | TupleComponents(parts: seq<Option<string>>)
    | OtherComponents(typeName: string)

  /** The `TypeError` of `comparable_address`, naming the unexpected type. */
  datatype AddressError = UnexpectedType(typeName: string)

  // ---------------------------------------------------------------------------
  // comparable_address

  /** The present parts, in order. */
  function Somes<T>(parts: seq<Option<T>>): seq<T> {
    if parts == [] then [] else (if parts[0].Some? then [parts[0].value] else []) + Somes(parts[1..])
  }

  /** `f` applied to each element, in order. */
  function Each<T, U>(f: T -> U, xs: seq<T>): seq<U> {
    seq(|xs|, i requires 0 <= i < |xs| => f(xs[i]))
  }

  /** `Comparable` under a given ASCII step, as a function to map over parts. */
  function ComparableOf(ascii: string -> string): string -> string {
    s => Comparable(ascii, s)
  }

  /** The comparable forms of the present parts, in order. */
  function PresentComparable(ascii: string -> string, parts: seq<Option<string>>): seq<string> {
    Each(ComparableOf(ascii), Somes(parts))
  }

  /** `''.join(strings)`. */
  function Concat<T>(strings: seq<seq<T>>): seq<T> {
    if strings == [] then [] else strings[0] + Concat(strings[1..])
  }

  /** The comparable forms of the present parts, concatenated in order. */
  function ComparableParts(ascii: string -> string, parts: seq<Option<string>>): string {
    Concat(PresentComparable(ascii, parts))
  }

  /** The values of a dict's items, in iteration order, as optional strings: a value that is
      not a string is None, which the comparison skips like a None part of a tuple. */
  function StringValues(items: seq<(string, Value)>): seq<Option<string>> {
    Each(StringOf, items)
  }

  /** The string of an item's value, if it is one. */
  function StringOf(item: (string, Value)): Option<string> {
    if item.1.Str? then Some(item.1.s) else None
  }

  function ComparableAddress(ascii: string -> string, c: Components): Result<string, AddressError> {
    match c
    case DictComponents(items) => Ok(ComparableParts(ascii, StringValues(items)))
    case TupleComponents(parts) => Ok(ComparableParts(ascii, parts))
    case OtherComponents(t) => Err(UnexpectedType(t))
  }

  lemma {:induction false} ConcatAppend<T>(a: seq<seq<T>>, b: seq<seq<T>>)
    ensures Concat(a + b) == Concat(a) + Concat(b)
  {
    if a == [] {
      assert a + b == b;
    } else {
      ConcatAppend(a[1..], b);
      var ab := a + b;
      assert ab[0] == a[0] && ab[1..] == a[1..] + b;
      var h, x, y := a[0], Concat(a[1..]), Concat(b);
      assert Concat(ab) == h + (x + y);
      assert h + (x + y) == (h + x) + y;
    }
  }

  lemma {:induction false} SomesAppend<T>(a: seq<Option<T>>, b: seq<Option<T>>)
    ensures Somes(a + b) == Somes(a) + Somes(b)
  {
    if a == [] {
      assert a + b == b;
    } else {
      SomesAppend(a[1..], b);
      assert (a + b)[0] == a[0] && (a + b)[1..] == a[1..] + b;
    }
  }

  lemma EachAppend<T, U>(f: T -> U, a: seq<T>, b: seq<T>)
    ensures Each(f, a + b) == Each(f, a) + Each(f, b)
  {
  }

  lemma PresentComparableAppend(ascii: string -> string, a: seq<Option<string>>, b: seq<Option<string>>)
    ensures PresentComparable(ascii, a + b) == PresentComparable(ascii, a) + PresentComparable(ascii, b)
  {
    SomesAppend(a, b);
    EachAppend(ComparableOf(ascii), Somes(a), Somes(b));
  }

  lemma ComparablePartsAppend(ascii: string -> string, a: seq<Option<string>>, b: seq<Option<string>>)
    ensures ComparableParts(ascii, a + b) == ComparableParts(ascii, a) + ComparableParts(ascii, b)
  {
    PresentComparableAppend(ascii, a, b);
    ConcatAppend(PresentComparable(ascii, a), PresentComparable(ascii, b));
  }

  lemma StringValuesAppend(a: seq<(string, Value)>, b: seq<(string, Value)>)
    ensures StringValues(a + b) == StringValues(a) + StringValues(b)
  {
    EachAppend(StringOf, a, b);
  }

  lemma ComparableConcat(a: string, b: string)
    requires IsComparable(a) && IsComparable(b)
    ensures IsComparable(a + b)
  {
    assert forall i :: |a| <= i < |a + b| ==> (a + b)[i] == b[i - |a|];
  }

  /** Joining comparable strings gives a comparable string. */
  lemma {:induction false} ConcatComparable(strings: seq<string>)
    requires forall i :: 0 <= i < |strings| ==> IsComparable(strings[i])
    ensures IsComparable(Concat(strings))
  {
    if strings != [] {
      ConcatComparable(strings[1..]);
      ComparableConcat(strings[0], Concat(strings[1..]));
    }
  }

  /** The comparable address of any tuple has no spaces, no capitals and only ASCII. */
  lemma ComparablePartsComparable(ascii: string -> string, parts: seq<Option<string>>)
    requires AsciiStep(ascii)
    ensures IsComparable(ComparableParts(ascii, parts))
  {
    var present := Somes(parts);
    forall i | 0 <= i < |present|
      ensures IsComparable(PresentComparable(ascii, parts)[i])
    {
      ComparableShape(ascii, present[i]);
    }
    ConcatComparable(PresentComparable(ascii, parts));
  }

  /** `TypeError` exactly for an argument that is neither a dict nor a tuple, naming its type;
      any other argument gives a string with no spaces, no capitals and only ASCII. */
  lemma ComparableAddressShape(ascii: string -> string, c: Components)
    requires AsciiStep(ascii)
    ensures ComparableAddress(ascii, c).Err? <==> c.OtherComponents?
    ensures c.OtherComponents? ==> ComparableAddress(ascii, c).error == UnexpectedType(c.typeName)
    ensures ComparableAddress(ascii, c).Ok? ==> IsComparable(ComparableAddress(ascii, c).value)
  {
    match c {
      case DictComponents(items) => ComparablePartsComparable(ascii, StringValues(items));
      case TupleComponents(parts) => ComparablePartsComparable(ascii, parts);
      case OtherComponents(_) =>
    }
  }

  /** A None component of a tuple contributes nothing, wherever it stands. */
  lemma NoneComponentSkipped(ascii: string -> string, a: seq<Option<string>>, b: seq<Option<string>>)
    ensures ComparableAddress(ascii, TupleComponents(a + [None] + b)) == ComparableAddress(ascii, TupleComponents(a + b))
  {
    var one: seq<Option<string>> := [None];
    ComparablePartsAppend(ascii, a + one, b);
    ComparablePartsAppend(ascii, a, one);
    ComparablePartsAppend(ascii, a, b);
    assert one[1..] == [];
    assert PresentComparable(ascii, one) == [];
    assert ComparableParts(ascii, a + one) == ComparableParts(ascii, a);
  }

  /** A non-string value of a dict contributes nothing, wherever it stands. */
  lemma NonStringValueSkipped(ascii: string -> string, a: seq<(string, Value)>, key: string, v: Value, b: seq<(string, Value)>)
    requires !v.Str?
    ensures ComparableAddress(ascii, DictComponents(a + [(key, v)] + b)) == ComparableAddress(ascii, DictComponents(a + b))
  {
    var one := [(key, v)];
    StringValuesAppend(a + one, b);
    StringValuesAppend(a, one);
    StringValuesAppend(a, b);
    assert StringValues(one)[0] == StringOf(one[0]) == None;
    assert StringValues(one) == [None];
    NoneComponentSkipped(ascii, StringValues(a), StringValues(b));
  }

  /** A dict and a tuple with the same strings in the same order compare equal. */
  lemma DictAgreesWithTuple(ascii: string -> string, items: seq<(string, Value)>, parts: seq<string>)
    requires |items| == |parts| && forall i :: 0 <= i < |items| ==> items[i].1 == Str(parts[i])
    ensures ComparableAddress(ascii, DictComponents(items)) == ComparableAddress(ascii, TupleComponents(seq(|parts|, i requires 0 <= i < |parts| => Some(parts[i]))))
  {
    forall i | 0 <= i < |items|
      ensures StringValues(items)[i] == Some(parts[i])
    {
      assert StringValues(items)[i] == StringOf(items[i]);
    }
    assert StringValues(items) == seq(|parts|, i requires 0 <= i < |parts| => Some(parts[i]));
  }

  /** The present parts of a tuple with every part present are its strings. */
  lemma {:induction false} SomesOfPresent<T>(xs: seq<T>)
    ensures Somes(seq(|xs|, i requires 0 <= i < |xs| => Some(xs[i]))) == xs
  {
    if xs != [] {
      SomesOfPresent(xs[1..]);
      var t := seq(|xs|, i requires 0 <= i < |xs| => Some(xs[i]));
      assert t[1..] == seq(|xs[1..]|, i requires 0 <= i < |xs[1..]| => Some(xs[1..][i]));
    }
  }

  /** Components already in comparable form give the same comparable address. */
  lemma ComparableAddressOfComparable(ascii: string -> string, parts: seq<string>)
    requires AsciiStep(ascii)
    ensures var some := seq(|parts|, i requires 0 <= i < |parts| => Some(parts[i]));
      var done := seq(|parts|, i requires 0 <= i < |parts| => Some(Comparable(ascii, parts[i])));
      ComparableAddress(ascii, TupleComponents(done)) == ComparableAddress(ascii, TupleComponents(some))
  {
    var cs := Each(ComparableOf(ascii), parts);
    SomesOfPresent(parts);
    SomesOfPresent(cs);
    assert seq(|parts|, i requires 0 <= i < |parts| => Some(Comparable(ascii, parts[i]))) ==
      seq(|cs|, i requires 0 <= i < |cs| => Some(cs[i]));
    forall i | 0 <= i < |parts|
      ensures Comparable(ascii, cs[i]) == cs[i]
    {
      ComparableShape(ascii, parts[i]);
      ComparableOfComparable(ascii, cs[i]);
    }
    assert Each(ComparableOf(ascii), cs) == cs;
  }

  // ---------------------------------------------------------------------------
  // normalize_address

  /** What `normalize_address` makes of a string value: dots and dashes handled, whitespace
      collapsed, stripped and titled. */
  function NormalizedText(s: string): string {
    Title(Strip(Collapse(HandleDashes(HandleDots(s)))))
  }

  /** `normalize_address`: string values normalised and dropped when that leaves them empty,
      other values untouched. */
  function NormalizedAddress(addr: Address): (r: Address)
    ensures Textual(addr) ==> Textual(r)
  {
    map k | k in addr && (!addr[k].Str? || NormalizedText(addr[k].s) != "") ::
      if addr[k].Str? then Str(NormalizedText(addr[k].s)) else addr[k]
  }

  /** A normalised value is non-empty exactly when the value had more than whitespace after
      the dots and dashes were handled; it has no leading, trailing or repeated whitespace. */
  lemma NormalizedTextShape(s: string)
    ensures NormalizedText(s) == "" <==> AllBlank(HandleDashes(HandleDots(s)))
    ensures Collapsed(NormalizedText(s)) && Trimmed(NormalizedText(s))
  {
    var c := Collapse(HandleDashes(HandleDots(s)));
    CollapseShape(HandleDashes(HandleDots(s)));
    assert Trimmed(c);
    StripTrimmed(c);
    TitleShape(c);
  }

  /** No component is added; a string component stays exactly when it is not blank, and
      then normalised; every other component is kept as it was. */
  lemma NormalizedAddressShape(addr: Address)
    ensures var r := NormalizedAddress(addr);
      r.Keys <= addr.Keys &&
      (forall k :: k in addr && !addr[k].Str? ==> k in r && r[k] == addr[k]) &&
      (forall k :: k in addr && addr[k].Str? ==>
        (k in r <==> !AllBlank(HandleDashes(HandleDots(addr[k].s))))) &&
      (forall k :: k in r && r[k].Str? ==> r[k].s != "" && Collapsed(r[k].s) && Trimmed(r[k].s))
  {
    var r := NormalizedAddress(addr);
    forall k | k in addr && addr[k].Str? {
      NormalizedTextShape(addr[k].s);
    }
  }

  /** `normalize_address`, one component at a time; the components are visited in no
      particular order. */
  method NormalizeAddress(addr: Address) returns (r: Address)
    ensures r == NormalizedAddress(addr)
  {
    r := addr;
    var keys := addr.Keys;
    while keys != {}
      invariant keys <= addr.Keys && r.Keys <= addr.Keys
      invariant forall k :: k in keys ==> k in r && r[k] == addr[k]
      invariant forall k :: k in addr && k !in keys ==>
        (k in r <==> k in NormalizedAddress(addr)) && (k in r ==> r[k] == NormalizedAddress(addr)[k])
      decreases keys
    {
      var k :| k in keys;
      keys := keys - {k};
      if r[k].Str? {
        var value := HandleDots(r[k].s);
        value := HandleDashes(value);
        value := Collapse(value);
        value := Title(Strip(value));
        if value == "" {
          r := r - {k};
        } else {
          r := r[k := Str(value)];
        }
      }
    }
    assert r.Keys == NormalizedAddress(addr).Keys;
  }

  // ---------------------------------------------------------------------------
  // Address_cleanup

  /** The components `Address_cleanup` reads as strings are strings. */
  predicate Textual(addr: Address) {
    ("city" in addr ==> addr["city"].Str?) &&
    ("locality" in addr ==> addr["locality"].Str?) &&
    ("district" in addr ==> addr["district"].Str?)
  }

  /** The cleanup object's state: the address, and the comparable city and locality. */
  datatype CleanupState = CleanupState(address: Address, city: string, locality: string)

  /** A step either passes, or fails with `AssertionError` after its clean-up. */
  datatype Checked = Passed(state: CleanupState) | Failed(state: CleanupState)

  function WithCoordinates(addr: Address, setCoordinates: bool, ungeocoded: real): Address {
    if setCoordinates then addr["lat" := Number(ungeocoded)]["lng" := Number(ungeocoded)] else addr
  }

  /** `_asert`: a failed condition deletes the listed components (each must be present, or
      `del` raises `KeyError`) and marks the address ungeocoded if asked. */
  function Asserted(st: CleanupState, cond: bool, remove: set<string>, setCoordinates: bool, ungeocoded: real): (c: Checked)
    requires !cond ==> remove <= st.address.Keys
  {
    if cond then Passed(st)
    else Failed(st.(address := WithCoordinates(st.address - remove, setCoordinates, ungeocoded)))
  }

  /** `_asert` passes exactly when the condition holds and then changes nothing; a failure
      removes exactly the listed components, sets both coordinates when asked, and keeps every
      other component. */
  lemma AssertedContract(st: CleanupState, cond: bool, remove: set<string>, setCoordinates: bool, ungeocoded: real)
    requires !cond ==> remove <= st.address.Keys
    ensures var c := Asserted(st, cond, remove, setCoordinates, ungeocoded);
      (c.Passed? <==> cond) && (c.Passed? ==> c.state == st) &&
      c.state.city == st.city && c.state.locality == st.locality &&
      (c.Failed? ==>
        (forall k :: k in remove && k != "lat" && k != "lng" ==> k !in c.state.address) &&
        (setCoordinates ==> c.state.address["lat"] == Number(ungeocoded) && c.state.address["lng"] == Number(ungeocoded)) &&
        (forall k :: k in st.address && k !in remove && k != "lat" && k != "lng" ==> k in c.state.address && c.state.address[k] == st.address[k]) &&
        (!setCoordinates ==> c.state.address == st.address - remove))
  {
  }

  /** `_ensure_city`: without a city, a locality and a district are required, and the locality
      becomes the city. */
  function EnsuredCity(st: CleanupState, ungeocoded: real): (c: Checked)
    requires Textual(st.address)
    ensures c.Passed? ==> "city" in c.state.address && Textual(c.state.address)
  {
    var a := st.address;
    if "city" in a then Passed(st)
    else
      match Asserted(st, "locality" in a && "district" in a, {}, true, ungeocoded)
      case Failed(f) => Failed(f)
      case Passed(p) => Passed(p.(address := a["city" := a["locality"]] - {"locality"}))
  }

  /** An address with a city passes untouched; one without passes exactly when it has a
      locality and a district, which then is its city and no longer its locality; otherwise
      it is marked ungeocoded. */
  lemma EnsureCityOutcome(st: CleanupState, ungeocoded: real)
    requires Textual(st.address)
    ensures var a := st.address; var c := EnsuredCity(st, ungeocoded);
      ("city" in a ==> c == Passed(st)) &&
      ("city" !in a ==> (c.Passed? <==> "locality" in a && "district" in a)) &&
      ("city" !in a && c.Passed? ==> c.state.address == a["city" := a["locality"]] - {"locality"}) &&
      (c.Failed? ==> c.state.address == a["lat" := Number(ungeocoded)]["lng" := Number(ungeocoded)])
  {
  }

  /** `str.isdigit()`: non-empty and only digits. */
  predicate IsDigitString(s: string) {
    s != [] && AllDigits(s)
  }

  /** `_manage_short_locality`: a locality of at most 3 characters must be a number, and then,
      with a district, the district must differ from the city and the city must not occur in
      the locality. */
  function ShortLocalityManaged(ascii: string -> string, st: CleanupState, ungeocoded: real): (c: Checked)
    requires "locality" in st.address && Textual(st.address)
    ensures Textual(c.state.address)
    ensures c.Passed? ==> c.state == st
  {
    if |st.locality| > 3 then Passed(st)
    else
      match Asserted(st, IsDigitString(st.locality), {"locality"}, false, ungeocoded)
      case Failed(f) => Failed(f)
      case Passed(p) =>
        if "district" in p.address then
          var district := Comparable(ascii, p.address["district"].s);
          Asserted(p, district != p.city && !Contains(p.locality, p.city), {"locality"}, false, ungeocoded)
        else Passed(p)
  }

  /** A short locality that is not a number is dropped and the cleanup aborts; so is a short
      number in an address whose district equals the city or whose city occurs in it; anything
      else passes untouched. */
  lemma ShortLocalityOutcome(ascii: string -> string, st: CleanupState, ungeocoded: real)
    requires "locality" in st.address && Textual(st.address)
    ensures var c := ShortLocalityManaged(ascii, st, ungeocoded);
      var a := st.address;
      var dropped := |st.locality| <= 3 && (!IsDigitString(st.locality) ||
        ("district" in a && (Comparable(ascii, a["district"].s) == st.city || Contains(st.locality, st.city))));
      (c.Failed? <==> dropped) &&
      (c.Failed? ==> c.state == st.(address := a - {"locality"})) &&
      (c.Passed? ==> c.state == st)
  {
  }

  /** One step of the "Nitra - Badice" rule of `_locality_cleanup`: when the city word is also
      a word of the locality (both in lower-case ASCII) and the locality has a dash, the locality
      is cut after its first `'- '`; the index is taken in the ASCII form and applied to the
      locality itself. Returns the locality and its comparable form. */
  function DashStep(ascii: string -> string, loc: string, locality: string, cityWord: string): (string, string) {
    var c := LowerString(ascii(cityWord));
    var l := LowerString(ascii(loc));
    if c in Words(l) && '-' in l then
      var i := FirstIndex(l, '-') + 2;
      var cut := if i <= |loc| then loc[i..] else "";
      (cut, Comparable(ascii, cut))
    else (loc, locality)
  }

  /** The rule applied for each word of the city, in order. */
  function DashTrimmed(ascii: string -> string, loc: string, locality: string, cityWords: seq<string>): (string, string)
    decreases |cityWords|
  {
    if cityWords == [] then (loc, locality)
    else
      var t := DashStep(ascii, loc, locality, cityWords[0]);
      DashTrimmed(ascii, t.0, t.1, cityWords[1..])
  }

  /** Trimming only ever keeps a suffix of the locality, and a locality without a dash is left
      as it is. */
  lemma {:induction false} DashTrimmedSuffix(ascii: string -> string, loc: string, locality: string, cityWords: seq<string>)
    ensures var t := DashTrimmed(ascii, loc, locality, cityWords);
      |t.0| <= |loc| && t.0 == loc[|loc| - |t.0|..] &&
      ('-' !in LowerString(ascii(loc)) ==> t == (loc, locality))
    decreases |cityWords|
  {
    if cityWords != [] {
      var t := DashStep(ascii, loc, locality, cityWords[0]);
      DashTrimmedSuffix(ascii, t.0, t.1, cityWords[1..]);
    }
  }

  /** The dash rule applied when the comparable locality has a dash. */
  function LocalityTrimmed(ascii: string -> string, st: CleanupState): (string, string)
    requires "locality" in st.address && "city" in st.address && Textual(st.address)
  {
    if '-' in st.locality then DashTrimmed(ascii, st.address["locality"].s, st.locality, Words(st.address["city"].s))
    else (st.address["locality"].s, st.locality)
  }

  /** The end of `_locality_cleanup`: store the locality stripped and titled, and drop it when
      that leaves it empty or equal to the district in comparable form. */
  function LocalityFinished(ascii: string -> string, address: Address): (r: Address)
    requires "locality" in address && Textual(address)
    ensures Textual(r)
  {
    var l := Title(Strip(address["locality"].s));
    var a := if l == "" then address - {"locality"} else address["locality" := Str(l)];
    if "district" in a && "locality" in a && Comparable(ascii, a["district"].s) == Comparable(ascii, a["locality"].s)
    then a - {"locality"} else a
  }

  /** The locality that remains is non-empty, stripped, and differs from the district in
      comparable form; no other component changes. */
  lemma LocalityFinishedShape(ascii: string -> string, address: Address)
    requires "locality" in address && Textual(address)
    ensures var loc := address["locality"].s; var r := LocalityFinished(ascii, address);
      ("locality" in r ==> (r["locality"] == Str(Title(Strip(loc))) && r["locality"].s != "" && Trimmed(r["locality"].s) &&
        ("district" in r ==> Comparable(ascii, r["district"].s) != Comparable(ascii, r["locality"].s)))) &&
      (forall k :: k in address && k != "locality" ==> k in r && r[k] == address[k]) &&
      r.Keys <= address.Keys
  {
    StripShape(address["locality"].s);
    TitleShape(Strip(address["locality"].s));
  }

  /** `_locality_cleanup`: a locality equal to the city is dropped and the cleanup aborts;
      otherwise it is dash-trimmed, stripped and titled, and dropped when that leaves it empty
      or equal to the district. */
  function LocalityCleaned(ascii: string -> string, st: CleanupState, ungeocoded: real): (c: Checked)
    requires "locality" in st.address && "city" in st.address && Textual(st.address)
    ensures Textual(c.state.address) && "city" in c.state.address
  {
    match Asserted(st, st.locality != st.city, {"locality"}, false, ungeocoded)
    case Failed(f) => Failed(f)
    case Passed(p) =>
      var t := LocalityTrimmed(ascii, p);
      Passed(CleanupState(LocalityFinished(ascii, p.address["locality" := Str(t.0)]), p.city, t.1))
  }

  /** After a passing cleanup the locality, if any, is non-empty, stripped, and differs from
      the district in comparable form; only the locality changed. A locality equal to the city
      fails and is dropped. */
  lemma LocalityCleanedOutcome(ascii: string -> string, st: CleanupState, ungeocoded: real)
    requires "locality" in st.address && "city" in st.address && Textual(st.address)
    ensures var c := LocalityCleaned(ascii, st, ungeocoded); var a := c.state.address;
      (c.Failed? <==> st.locality == st.city) &&
      (c.Failed? ==> a == st.address - {"locality"}) &&
      (c.Passed? && "locality" in a ==> (a["locality"].s != "" && Trimmed(a["locality"].s) &&
        ("district" in a ==> Comparable(ascii, a["district"].s) != Comparable(ascii, a["locality"].s)))) &&
      (forall k :: k in st.address && k != "locality" ==> k in a && a[k] == st.address[k]) &&
      a.Keys <= st.address.Keys
  {
    if st.locality != st.city {
      LocalityFinishedShape(ascii, st.address["locality" := Str(LocalityTrimmed(ascii, st).0)]);
    }
  }

  /** `__call__`: normalise, ensure a city, then, for an address with a locality, manage a short
      locality, apply `rewrite` (the forbidden-part, square-abbreviation and street-number
      rewrites of the locality) and clean the locality up. Returns the cleaned address, or None
      when a step failed or there is no locality, with the object's final state. */
  function Called(ascii: string -> string, st: CleanupState, addr: Address, rewrite: string -> string, ungeocoded: real): (Option<Address>, CleanupState)
    requires Textual(addr)
  {
    match EnsuredCity(st.(address := NormalizedAddress(addr)), ungeocoded)
    case Failed(f) => (None, f)
    case Passed(p) =>
      var p1 := p.(city := Comparable(ascii, p.address["city"].s));
      if "locality" !in p1.address then (None, p1)
      else
        match ShortLocalityManaged(ascii, p1.(locality := Comparable(ascii, p1.address["locality"].s)), ungeocoded)
        case Failed(f) => (None, f)
        case Passed(q) =>
          var loc := rewrite(q.address["locality"].s);
          match LocalityCleaned(ascii, q.(address := q.address["locality" := Str(loc)], locality := Comparable(ascii, loc)), ungeocoded)
          case Failed(f) => (None, f)
          case Passed(r) => (Some(r.address), r)
  }

  /** Only an address that, once normalised, has both a city and a locality comes back, and
      then with its city and every component other than the locality as normalised; an address
      with neither a city nor both a locality and a district is marked ungeocoded. */
  lemma CleanupOutcome(ascii: string -> string, st: CleanupState, addr: Address, rewrite: string -> string, ungeocoded: real)
    requires Textual(addr)
    ensures var n := NormalizedAddress(addr); var r := Called(ascii, st, addr, rewrite, ungeocoded);
      (r.0.Some? ==> ("city" in n && "locality" in n && r.0.value == r.1.address &&
        (forall k :: k in n && k != "locality" ==> k in r.0.value && r.0.value[k] == n[k]) &&
        ("locality" in r.0.value ==> r.0.value["locality"].s != "" && Trimmed(r.0.value["locality"].s)))) &&
      ("city" !in n ==> r.0.None?) &&
      ("city" !in n && !("locality" in n && "district" in n) ==>
        r.1.address == n["lat" := Number(ungeocoded)]["lng" := Number(ungeocoded)])
  {
    var n := NormalizedAddress(addr);
    var e := EnsuredCity(st.(address := n), ungeocoded);
    EnsureCityOutcome(st.(address := n), ungeocoded);
    if e.Passed? && "city" in n {
      var p1 := e.state.(city := Comparable(ascii, e.state.address["city"].s));
      if "locality" in p1.address {
        var p2 := p1.(locality := Comparable(ascii, p1.address["locality"].s));
        ShortLocalityOutcome(ascii, p2, ungeocoded);
        var s := ShortLocalityManaged(ascii, p2, ungeocoded);
        if s.Passed? {
          var loc := rewrite(s.state.address["locality"].s);
          LocalityCleanedOutcome(ascii, s.state.(address := s.state.address["locality" := Str(loc)], locality := Comparable(ascii, loc)), ungeocoded);
        }
      }
    }
  }

  /** `Address_cleanup`. */
  class AddressCleanup {
    /** The `ungeocoded_coordinate` of the configuration. */
    const ungeocoded: real
    /** The ASCII step of `string_to_ascii` that the comparisons use. */
    const ascii: string -> string
    var address: Address
    var city: string
    var locality: string

    function State(): CleanupState
      reads this
    {
      CleanupState(address, city, locality)
    }

    constructor (ungeocoded: real, ascii: string -> string)
      ensures this.ungeocoded == ungeocoded && this.ascii == ascii && State() == CleanupState(map[], "", "")
    {
      this.ungeocoded := ungeocoded;
      this.ascii := ascii;
      address, city, locality := map[], "", "";
    }

    /** `_asert`; `passed` is false where the source raises `AssertionError`. */
    method Asert(cond: bool, remove: set<string>, setCoordinates: bool) returns (passed: bool)
      requires !cond ==> remove <= address.Keys
      modifies this
      ensures var c := Asserted(old(State()), cond, remove, setCoordinates, ungeocoded);
        passed == c.Passed? && State() == c.state
    {
      if cond {
        return true;
      }
      var keys := remove;
      while keys != {}
        invariant keys <= remove && address == old(address) - (remove - keys)
        invariant city == old(city) && locality == old(locality)
        decreases keys
      {
        var k :| k in keys;
        address := address - {k};
        keys := keys - {k};
      }
      if setCoordinates {
        address := address["lat" := Number(ungeocoded)];
        address := address["lng" := Number(ungeocoded)];
      }
      return false;
    }

    method EnsureCity() returns (passed: bool)
      requires Textual(address)
      modifies this
      ensures var c := EnsuredCity(old(State()), ungeocoded); passed == c.Passed? && State() == c.state
    {
      if "city" !in address {
        var cond1 := "locality" in address;
        var cond2 := "district" in address;
        passed := Asert(cond1 && cond2, {}, true);
        if !passed {
          return;
        }
        address := address["city" := address["locality"]];
        address := address - {"locality"};
      }
      return true;
    }

    method ManageShortLocality() returns (passed: bool)
      requires "locality" in address && Textual(address)
      modifies this
      ensures var c := ShortLocalityManaged(ascii, old(State()), ungeocoded); passed == c.Passed? && State() == c.state
    {
      if |locality| <= 3 {
        var cond := IsDigitString(locality);
        passed := Asert(cond, {"locality"}, false);
        if !passed {
          return;
        }
        if "district" in address {
          var district := Comparable(ascii, address["district"].s);
          cond := district != city && !Contains(locality, city);
          passed := Asert(cond, {"locality"}, false);
          return;
        }
      }
      return true;
    }

    /** The dash loop of `_locality_cleanup`. */
    method TrimDashes()
      requires "locality" in address && "city" in address && Textual(address)
      modifies this
      ensures var t := DashTrimmed(ascii, old(address)["locality"].s, old(locality), Words(old(address)["city"].s));
        State() == old(State()).(address := old(address)["locality" := Str(t.0)], locality := t.1)
    {
      var cityWords := Words(address["city"].s);
      for k := 0 to |cityWords|
        invariant "locality" in address && address["locality"].Str?
        invariant address == old(address)["locality" := address["locality"]] && city == old(city)
        invariant DashTrimmed(ascii, old(address)["locality"].s, old(locality), cityWords) ==
          DashTrimmed(ascii, address["locality"].s, locality, cityWords[k..])
      {
        assert cityWords[k..][1..] == cityWords[k + 1..];
        var t := DashStep(ascii, address["locality"].s, locality, cityWords[k]);
        address := address["locality" := Str(t.0)];
        locality := t.1;
      }
    }

    method LocalityCleanup() returns (passed: bool)
      requires "locality" in address && "city" in address && Textual(address)
      modifies this
      ensures var c := LocalityCleaned(ascii, old(State()), ungeocoded); passed == c.Passed? && State() == c.state
    {
      ghost var st := State();
      passed := Asert(locality != city, {"locality"}, false);
      if !passed {
        return;
      }
      assert State() == st;
      if '-' in locality {
        TrimDashes();
      }
      FinishLocality();
    }

    /** The final removals of `_locality_cleanup`. */
    method FinishLocality()
      requires "locality" in address && Textual(address)
      modifies this
      ensures State() == old(State()).(address := LocalityFinished(ascii, old(address)))
    {
      var loc := Title(Strip(address["locality"].s));
      address := address["locality" := Str(loc)];
      if loc == "" {
        address := address - {"locality"};
      }
      if "district" in address && "locality" in address {
        if Comparable(ascii, address["district"].s) == Comparable(ascii, address["locality"].s) {
          address := address - {"locality"};
        }
      }
    }

    /** `__call__`. */
    method Call(addr: Address, rewrite: string -> string) returns (result: Option<Address>)
      requires Textual(addr)
      modifies this
      ensures var r := Called(ascii, old(State()), addr, rewrite, ungeocoded); result == r.0 && State() == r.1
    {
      address := NormalizeAddress(addr);
      var passed := EnsureCity();
      if !passed {
        return None;
      }
      city := Comparable(ascii, address["city"].s);
      if "locality" !in address {
        return None;
      }
      locality := Comparable(ascii, address["locality"].s);
      passed := ManageShortLocality();
      if !passed {
        return None;
      }
      var loc := rewrite(address["locality"].s);
      address := address["locality" := Str(loc)];
      locality := Comparable(ascii, loc);
      passed := LocalityCleanup();
      if !passed {
        return None;
      }
      return Some(address);
    }
  }
}
