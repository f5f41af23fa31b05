/** The response handling of scripts/geocoder.py: the status of a geocoding answer, the
    requested address and coordinates, the location data collected from one result, the city
    check, and the partial cache of coordinates. */
module Geocoder {
  import opened Wrappers
  import opened Text
  import opened Alphanumericker
  import opened Addresser

  /** One entry of `address_components` in a result. */
  datatype AddressComponent = AddressComponent(types: seq<string>, longName: string, shortName: string)

  /** One of the `results`: its location and its address components, in the answer's order. */
  datatype GeoResult = GeoResult(lat: real, lng: real, components: seq<AddressComponent>)

  /** The decoded JSON of an answer. */
  datatype GeoJson = GeoJson(status: string, results: seq<GeoResult>)

  /** `geocoding_result`: None (geocode again), 0 (nothing there) or the answer. */
  datatype GeocodingResult = NoResult | ZeroResults | Answer(json: GeoJson)

  type Coordinates = (real, real)

  /** `IndexError` of a setter given too short a tuple. */
  datatype SetterError = IndexError

  /** Python's `None` or a string, as a dict value. */
  function ValueOf(v: Option<string>): Value {
    if v.None? then NoneValue else Str(v.value)
  }

  // ---------------------------------------------------------------------------
  // The setters

  /** The `geocoding_result` setter. */
  function ResultOf(json: GeoJson): GeocodingResult {
    if json.status != "OK" then
      if json.status == "ZERO_RESULTS" then ZeroResults else NoResult
    else Answer(json)
  }

  /** `"OK"` keeps the answer, `"ZERO_RESULTS"` is 0, and every other status, the exhausted
      query limit included, asks for geocoding again. */
  lemma ResultOfStatus(json: GeoJson)
    ensures ResultOf(json).Answer? <==> json.status == "OK"
    ensures ResultOf(json).Answer? ==> ResultOf(json).json == json
    ensures ResultOf(json) == ZeroResults <==> json.status == "ZERO_RESULTS"
    ensures ResultOf(json) == NoResult <==> json.status != "OK" && json.status != "ZERO_RESULTS"
  {
  }

  /** The keys of the requested address, in order. */
  const ComponentKeys := ["district", "city", "locality"]

  /** The `address_components` setter: positions 0, 1 and 2 become `district`, `city` and
      `locality` of an ordered dict; a shorter tuple raises `IndexError` with the dict filled
      up to the missing position. */
  function RequestedItems(t: seq<Option<string>>): (r: (seq<(string, Value)>, bool))
    ensures |r.0| == if |t| < 3 then |t| else 3
    ensures r.1 <==> |t| >= 3
    ensures forall i :: 0 <= i < |r.0| ==> r.0[i] == (ComponentKeys[i], ValueOf(t[i]))
  {
    var n := if |t| < 3 then |t| else 3;
    (seq(n, i requires 0 <= i < n => (ComponentKeys[i], ValueOf(t[i]))), |t| >= 3)
  }

  /** The requested address compares like the tuple it came from: the dict skips None values
      where the tuple skips None components. */
  lemma RequestedComparable(ascii: string -> string, t: seq<Option<string>>)
    requires |t| >= 3
    ensures ComparableAddress(ascii, DictComponents(RequestedItems(t).0)) == ComparableAddress(ascii, TupleComponents(t[..3]))
  {
    var items := RequestedItems(t).0;
    forall i | 0 <= i < 3
      ensures StringValues(items)[i] == t[i]
    {
      assert StringValues(items)[i] == StringOf(items[i]);
    }
    assert StringValues(items) == t[..3];
  }

  /** The `address_coordinates` setter: positions 0 and 1 are latitude and longitude. */
  function CoordinatesOf(t: seq<real>): (r: Result<Coordinates, SetterError>)
    ensures r.Ok? <==> |t| >= 2
    ensures r.Ok? ==> r.value.0 == t[0] && r.value.1 == t[1]
  {
    if |t| < 2 then Err(SetterError.IndexError) else Ok((t[0], t[1]))
  }

  // ---------------------------------------------------------------------------
  // _collect_location_data

  /** What a component is used as: the first of its types in this order decides. */
  datatype Kind = Postcode | Country | Region | District | City | LocalityPart | Establishment | Premise | StreetNumber

  function ComponentKind(types: seq<string>): Option<Kind> {
    if "postal_code" in types then Some(Postcode)
    else if "country" in types then Some(Country)
    else if "administrative_area_level_1" in types then Some(Region)
    else if "administrative_area_level_2" in types then Some(District)
    else if "locality" in types then Some(City)
    else if "route" in types || "sublocality" in types || "neighborhood" in types then Some(LocalityPart)
    else if "establishment" in types then Some(Establishment)
    else if "premise" in types then Some(Premise)
    else if "street_number" in types then Some(StreetNumber)
    else None
  }

  /** The key of the location data a kind fills; premises and street numbers fill none. */
  function KeyOf(k: Kind): string {
    match k
    case Postcode => "postcode"
    case Country => "country"
    case Region => "region"
    case District => "district"
    case City => "city"
    case LocalityPart => "locality"
    case Establishment => "establishment"
    case Premise => ""
    case StreetNumber => ""
  }

  /** The loop's state: the location data so far and the address-number parts. */
  datatype Collecting = Collecting(data: Address, numbers: seq<string>)

  /** One component: a named kind sets its key (a locality also its short name when that
      differs); a premise that occurs in the requested locality and a street number add an
      address-number part. */
  function Collected(acc: Collecting, c: AddressComponent, requestedLocality: Option<string>): Collecting {
    match ComponentKind(c.types)
    case None => acc
    case Some(k) =>
      if k == Premise then
        if requestedLocality.Some? && Contains(requestedLocality.value, c.longName)
        then acc.(numbers := acc.numbers + [c.longName]) else acc
      else if k == StreetNumber then acc.(numbers := acc.numbers + [c.longName])
      else if k == LocalityPart then
        var d := acc.data["locality" := Str(c.longName)];
        acc.(data := if c.shortName != c.longName then d["locality_short" := Str(c.shortName)] else d)
      else acc.(data := acc.data[KeyOf(k) := Str(c.longName)])
  }

  /** The loop over the components, last component first. */
  function CollectFrom(acc: Collecting, cs: seq<AddressComponent>, requestedLocality: Option<string>): Collecting
    decreases |cs|
  {
    if cs == [] then acc
    else CollectFrom(Collected(acc, cs[|cs| - 1], requestedLocality), cs[..|cs| - 1], requestedLocality)
  }

  /** The address number: two parts joined by `'/'`, otherwise the first part. */
  function AddressNumber(numbers: seq<string>): string
    requires numbers != []
  {
    if |numbers| == 2 then numbers[0] + "/" + numbers[1] else numbers[0]
  }

  /** The number is appended to the locality after a space, or becomes the locality. */
  function NumberApplied(data: Address, numbers: seq<string>): Address {
    if numbers == [] then data
    else if "locality" in data && data["locality"].Str? then data["locality" := Str(data["locality"].s + " " + AddressNumber(numbers))]
    else data["locality" := Str(AddressNumber(numbers))]
  }

  /** A locality equal to the city in comparable form is dropped. */
  function DuplicateRemoved(ascii: string -> string, data: Address): Address {
    if "locality" in data && "city" in data && data["locality"].Str? && data["city"].Str? &&
      Comparable(ascii, data["locality"].s) == Comparable(ascii, data["city"].s)
    then data - {"locality"} else data
  }

  function Start(result: GeoResult): Collecting {
    Collecting(map["latitude" := Number(result.lat), "longitude" := Number(result.lng)], [])
  }

  /** `_collect_location_data`. */
  function LocationData(ascii: string -> string, result: GeoResult, requestedLocality: Option<string>): Address {
    var acc := CollectFrom(Start(result), result.components, requestedLocality);
    DuplicateRemoved(ascii, NumberApplied(acc.data, acc.numbers))
  }

  /** Dispatch goes by the first type in the fixed order: postal code, country, the two
      administrative levels, locality (the city), route/sublocality/neighbourhood (the
      locality), establishment, premise, street number. */
  lemma ComponentKindOrder(types: seq<string>)
    ensures ComponentKind(types) == Some(City) <==>
      "locality" in types && "postal_code" !in types && "country" !in types &&
      "administrative_area_level_1" !in types && "administrative_area_level_2" !in types
    ensures ComponentKind(types) == Some(LocalityPart) <==>
      ("route" in types || "sublocality" in types || "neighborhood" in types) && "locality" !in types &&
      "postal_code" !in types && "country" !in types &&
      "administrative_area_level_1" !in types && "administrative_area_level_2" !in types
    ensures ComponentKind(types) == Some(StreetNumber) <==>
      "street_number" in types && "premise" !in types && "establishment" !in types &&
      "route" !in types && "sublocality" !in types && "neighborhood" !in types && "locality" !in types &&
      "postal_code" !in types && "country" !in types &&
      "administrative_area_level_1" !in types && "administrative_area_level_2" !in types
  {
  }

  /** A component that is not of kind `k`'s key leaves that key alone; the coordinates are never
      touched. */
  lemma {:induction false} CollectFromKeeps(acc: Collecting, cs: seq<AddressComponent>, r: Option<string>, key: string)
    requires key !in {"postcode", "country", "region", "district", "city", "locality", "locality_short", "establishment"} ||
      forall i :: 0 <= i < |cs| ==> (ComponentKind(cs[i].types).None? || (KeyOf(ComponentKind(cs[i].types).value) != key &&
        !(key == "locality_short" && ComponentKind(cs[i].types) == Some(LocalityPart))))
    ensures var d := CollectFrom(acc, cs, r).data; (key in d <==> key in acc.data) && (key in d ==> d[key] == acc.data[key])
    decreases |cs|
  {
    if cs != [] {
      var last := cs[|cs| - 1];
      CollectFromKeeps(Collected(acc, last, r), cs[..|cs| - 1], r, key);
    }
  }

  /** The first component of a kind wins: the loop runs backwards, so the component nearest the
      start of the list is written last. */
  lemma {:induction false} FirstComponentWins(acc: Collecting, cs: seq<AddressComponent>, r: Option<string>, i: nat, k: Kind)
    requires i < |cs| && k !in {Premise, StreetNumber} && ComponentKind(cs[i].types) == Some(k)
    requires forall j :: 0 <= j < i ==> ComponentKind(cs[j].types) != Some(k)
    requires k != LocalityPart && k != City ==> forall j :: 0 <= j < i ==> ComponentKind(cs[j].types).None? || KeyOf(ComponentKind(cs[j].types).value) != KeyOf(k)
    ensures var d := CollectFrom(acc, cs, r).data; KeyOf(k) in d && d[KeyOf(k)] == Str(cs[i].longName)
    decreases |cs|
  {
    var n := |cs| - 1;
    var acc' := Collected(acc, cs[n], r);
    if i == n {
      forall j | 0 <= j < |cs[..n]| ensures ComponentKind(cs[..n][j].types).None? || KeyOf(ComponentKind(cs[..n][j].types).value) != KeyOf(k) {
        assert cs[..n][j] == cs[j];
        if ComponentKind(cs[j].types).Some? {
          var kj := ComponentKind(cs[j].types).value;
          assert kj != k;
        }
      }
      CollectFromKeeps(acc', cs[..n], r, KeyOf(k));
    } else {
      FirstComponentWins(acc', cs[..n], r, i, k);
    }
  }

  /** `locality_short` is recorded only from a locality component whose short name differs
      from its long name. */
  lemma {:induction false} LocalityShortOrigin(acc: Collecting, cs: seq<AddressComponent>, r: Option<string>)
    requires "locality_short" !in acc.data
    ensures var d := CollectFrom(acc, cs, r).data;
      "locality_short" in d ==> exists i :: (0 <= i < |cs| && ComponentKind(cs[i].types) == Some(LocalityPart) &&
        cs[i].shortName != cs[i].longName && d["locality_short"] == Str(cs[i].shortName))
    decreases |cs|
  {
    if cs != [] {
      var n := |cs| - 1;
      var acc' := Collected(acc, cs[n], r);
      if "locality_short" in acc'.data {
        var d := CollectFrom(acc, cs, r).data;
        if "locality_short" in d {
          LocalityShortSource(acc', cs[..n], r, cs[n]);
          if d["locality_short"] == acc'.data["locality_short"] {
            assert ComponentKind(cs[n].types) == Some(LocalityPart) && cs[n].shortName != cs[n].longName;
          } else {
            var i :| 0 <= i < n && ComponentKind(cs[..n][i].types) == Some(LocalityPart) &&
              cs[..n][i].shortName != cs[..n][i].longName && d["locality_short"] == Str(cs[..n][i].shortName);
            assert cs[..n][i] == cs[i];
          }
        }
      } else {
        LocalityShortOrigin(acc', cs[..n], r);
        var d := CollectFrom(acc, cs, r).data;
        if "locality_short" in d {
          var i :| 0 <= i < n && ComponentKind(cs[..n][i].types) == Some(LocalityPart) &&
            cs[..n][i].shortName != cs[..n][i].longName && d["locality_short"] == Str(cs[..n][i].shortName);
          assert cs[..n][i] == cs[i];
        }
      }
    }
  }

  /** After the loop, `locality_short` is either what it was or comes from a component. */
  lemma {:induction false} LocalityShortSource(acc: Collecting, cs: seq<AddressComponent>, r: Option<string>, c: AddressComponent)
    requires "locality_short" in acc.data && acc.data["locality_short"] == Str(c.shortName)
    requires ComponentKind(c.types) == Some(LocalityPart) && c.shortName != c.longName
    ensures var d := CollectFrom(acc, cs, r).data;
      "locality_short" in d && (d["locality_short"] == acc.data["locality_short"] ||
        exists i :: 0 <= i < |cs| && ComponentKind(cs[i].types) == Some(LocalityPart) &&
          cs[i].shortName != cs[i].longName && d["locality_short"] == Str(cs[i].shortName))
    decreases |cs|
  {
    if cs != [] {
      var n := |cs| - 1;
      var acc' := Collected(acc, cs[n], r);
      var d := CollectFrom(acc, cs, r).data;
      if acc'.data["locality_short"] == acc.data["locality_short"] {
        LocalityShortSource(acc', cs[..n], r, c);
      } else {
        LocalityShortSource(acc', cs[..n], r, cs[n]);
      }
      if d["locality_short"] != acc.data["locality_short"] && d["locality_short"] != acc'.data["locality_short"] {
        var i :| 0 <= i < n && ComponentKind(cs[..n][i].types) == Some(LocalityPart) &&
          cs[..n][i].shortName != cs[..n][i].longName && d["locality_short"] == Str(cs[..n][i].shortName);
        assert cs[..n][i] == cs[i];
      }
    }
  }

  /** A component that gives an address-number part: a street number, or a premise whose
      name occurs in the requested locality. */
  predicate NumberFrom(c: AddressComponent, r: Option<string>) {
    ComponentKind(c.types) == Some(StreetNumber) ||
    (ComponentKind(c.types) == Some(Premise) && r.Some? && Contains(r.value, c.longName))
  }

  /** One component adds its long name to the number parts exactly when it gives one. */
  lemma CollectedNumbers(acc: Collecting, c: AddressComponent, r: Option<string>)
    ensures Collected(acc, c, r).numbers == acc.numbers + (if NumberFrom(c, r) then [c.longName] else [])
  {
  }

  /** `name` is the long name of a component that gives a number part. */
  predicate NumberSourced(name: string, cs: seq<AddressComponent>, r: Option<string>) {
    exists i :: 0 <= i < |cs| && cs[i].longName == name && NumberFrom(cs[i], r)
  }

  /** Every address-number part is a street number, or a premise whose name occurs in the
      requested locality; with no requested locality premises are never used. */
  lemma {:induction false} NumberParts(acc: Collecting, cs: seq<AddressComponent>, r: Option<string>)
    ensures var ns := CollectFrom(acc, cs, r).numbers;
      |ns| >= |acc.numbers| && ns[..|acc.numbers|] == acc.numbers &&
      forall j :: |acc.numbers| <= j < |ns| ==> NumberSourced(ns[j], cs, r)
    decreases |cs|
  {
    if cs != [] {
      var n := |cs| - 1;
      var acc' := Collected(acc, cs[n], r);
      CollectedNumbers(acc, cs[n], r);
      NumberParts(acc', cs[..n], r);
      var ns := CollectFrom(acc, cs, r).numbers;
      assert ns == CollectFrom(acc', cs[..n], r).numbers;
      assert ns[..|acc.numbers|] == ns[..|acc'.numbers|][..|acc.numbers|];
      forall j | |acc.numbers| <= j < |ns|
        ensures NumberSourced(ns[j], cs, r)
      {
        if j < |acc'.numbers| {
          assert ns[j] == acc'.numbers[j] == cs[n].longName;
          assert 0 <= n < |cs| && cs[n].longName == ns[j] && NumberFrom(cs[n], r);
        } else {
          assert NumberSourced(ns[j], cs[..n], r);
          var i :| 0 <= i < n && cs[..n][i].longName == ns[j] && NumberFrom(cs[..n][i], r);
          assert cs[..n][i] == cs[i];
          assert 0 <= i < |cs| && cs[i].longName == ns[j] && NumberFrom(cs[i], r);
        }
      }
    }
  }

  /** The number joins two parts with `'/'` and otherwise takes the first; it lands after the
      locality and a space, or is the locality; nothing else changes. */
  lemma NumberAppliedShape(data: Address, numbers: seq<string>)
    ensures numbers == [] ==> NumberApplied(data, numbers) == data
    ensures numbers != [] ==> var d := NumberApplied(data, numbers);
      (|numbers| == 2 ==> AddressNumber(numbers) == numbers[0] + "/" + numbers[1]) &&
      (|numbers| != 2 ==> AddressNumber(numbers) == numbers[0]) &&
      ("locality" in data && data["locality"].Str? ==> d["locality"] == Str(data["locality"].s + " " + AddressNumber(numbers))) &&
      ("locality" !in data ==> d["locality"] == Str(AddressNumber(numbers))) &&
      d - {"locality"} == data - {"locality"}
  {
  }

  /** The collected data always holds the result's coordinates; its locality, if any, is not
      the city in comparable form. */
  lemma LocationDataShape(ascii: string -> string, result: GeoResult, r: Option<string>)
    ensures var d := LocationData(ascii, result, r);
      "latitude" in d && d["latitude"] == Number(result.lat) &&
      "longitude" in d && d["longitude"] == Number(result.lng) &&
      ("locality" in d && "city" in d && d["locality"].Str? && d["city"].Str? ==>
        Comparable(ascii, d["locality"].s) != Comparable(ascii, d["city"].s))
  {
    var s := Start(result);
    CollectFromKeeps(s, result.components, r, "latitude");
    CollectFromKeeps(s, result.components, r, "longitude");
  }

  // ---------------------------------------------------------------------------
  // _verify_location_data: the city check

  /** The city check of `_verify_location_data`: the geocoded city must be there and equal the
      requested one in comparable form; the rest of the verification is not part of this
      model. */
  predicate CityVerified(ascii: string -> string, data: Address, requestedCity: Option<string>) {
    "city" in data && data["city"].Str? && ComparableString(ascii, Some(data["city"].s)) == ComparableString(ascii, requestedCity)
  }

  /** A requested city of None never verifies; otherwise the check is equality of the
      comparable forms, so spacing and case do not matter. */
  lemma CityVerifiedCases(ascii: string -> string, data: Address, requestedCity: Option<string>)
    requires AsciiStep(ascii)
    ensures requestedCity.None? ==> !CityVerified(ascii, data, requestedCity)
    ensures "city" !in data ==> !CityVerified(ascii, data, requestedCity)
    ensures requestedCity.Some? && "city" in data && data["city"].Str? ==>
      (CityVerified(ascii, data, requestedCity) <==> Comparable(ascii, data["city"].s) == Comparable(ascii, requestedCity.value))
    ensures requestedCity.Some? && "city" in data && data["city"] == Str(Comparable(ascii, requestedCity.value)) ==>
      CityVerified(ascii, data, requestedCity)
  {
    if requestedCity.Some? && "city" in data && data["city"] == Str(Comparable(ascii, requestedCity.value)) {
      ComparableShape(ascii, requestedCity.value);
      ComparableOfComparable(ascii, Comparable(ascii, requestedCity.value));
    }
  }

  // ---------------------------------------------------------------------------
  // The geocoder object

  /** `Geocoder`, with the parts above. */
  class Geocoder {
    var result: GeocodingResult
    var addressComponents: Option<seq<(string, Value)>>
    var addressCoordinates: Option<Coordinates>
    /** `partial_cache`: coordinates asked for, by the coordinates they were derived from. */
    var partialCache: map<Coordinates, seq<Coordinates>>

    constructor ()
      ensures result == NoResult && addressComponents == None && addressCoordinates == None && partialCache == map[]
    {
      result := NoResult;
      addressComponents := None;
      addressCoordinates := None;
      partialCache := map[];
    }

    method SetGeocodingResult(json: GeoJson)
      modifies this
      ensures result == ResultOf(json)
      ensures addressComponents == old(addressComponents) && addressCoordinates == old(addressCoordinates)
      ensures partialCache == old(partialCache)
    {
      if json.status != "OK" {
        if json.status == "ZERO_RESULTS" {
          result := ZeroResults;
        } else {
          result := NoResult;
        }
      } else {
        result := Answer(json);
      }
    }

    /** The `address_components` setter; `ok` is false where it raises `IndexError`. */
    method SetAddressComponents(t: seq<Option<string>>) returns (ok: bool)
      modifies this
      ensures addressComponents == Some(RequestedItems(t).0) && ok == RequestedItems(t).1
      ensures result == old(result) && addressCoordinates == old(addressCoordinates) && partialCache == old(partialCache)
    {
      var items: seq<(string, Value)> := [];
      addressComponents := Some(items);
      for i := 0 to 3
        invariant i <= |t| && |items| == i && addressComponents == Some(items)
        invariant forall j :: 0 <= j < |items| ==> items[j] == (ComponentKeys[j], ValueOf(t[j]))
        invariant result == old(result) && addressCoordinates == old(addressCoordinates) && partialCache == old(partialCache)
      {
        if i >= |t| {
          assert items == RequestedItems(t).0;
          return false;
        }
        items := items + [(ComponentKeys[i], ValueOf(t[i]))];
        addressComponents := Some(items);
      }
      assert items == RequestedItems(t).0;
      return true;
    }

    /** The `address_coordinates` setter. */
    method SetAddressCoordinates(t: seq<real>) returns (ok: bool)
      modifies this
      ensures ok <==> |t| >= 2
      ensures ok ==> addressCoordinates == Some(CoordinatesOf(t).value)
      ensures !ok ==> addressCoordinates == old(addressCoordinates)
      ensures result == old(result) && addressComponents == old(addressComponents) && partialCache == old(partialCache)
    {
      if |t| < 2 {
        return false;
      }
      addressCoordinates := Some((t[0], t[1]));
      return true;
    }

    /** `_collect_location_data`; `requestedLocality` is the `locality` of the address
        components. */
    method CollectLocationData(ascii: string -> string, g: GeoResult, requestedLocality: Option<string>) returns (data: Address)
      ensures data == LocationData(ascii, g, requestedLocality)
    {
      var acc := Start(g);
      var i := |g.components|;
      assert g.components[..i] == g.components;
      while i > 0
        invariant 0 <= i <= |g.components|
        invariant CollectFrom(Start(g), g.components, requestedLocality) == CollectFrom(acc, g.components[..i], requestedLocality)
      {
        assert g.components[..i][..i - 1] == g.components[..i - 1];
        i := i - 1;
        var c := g.components[i];
        var kind := ComponentKind(c.types);
        if kind.None? {
          continue;
        }
        var k := kind.value;
        if k == Premise {
          if requestedLocality.None? {
            continue;
          }
          if !Contains(requestedLocality.value, c.longName) {
            continue;
          }
          acc := acc.(numbers := acc.numbers + [c.longName]);
        } else if k == StreetNumber {
          acc := acc.(numbers := acc.numbers + [c.longName]);
        } else if k == LocalityPart {
          acc := acc.(data := acc.data["locality" := Str(c.longName)]);
          if c.shortName != c.longName {
            acc := acc.(data := acc.data["locality_short" := Str(c.shortName)]);
          }
        } else {
          acc := acc.(data := acc.data[KeyOf(k) := Str(c.longName)]);
        }
      }
      assert g.components[..0] == [];
      data := NumberApplied(acc.data, acc.numbers);
      data := DuplicateRemoved(ascii, data);
    }

    /** `_clear_from_cache`: the first cache entry, in the cache's own order, whose list holds
        the coordinates is removed, and its key becomes the result's coordinates. */
    method ClearFromCache(coordinates: Coordinates, data: Address) returns (r: Address)
      modifies this
      ensures (exists k :: k in old(partialCache) && coordinates in old(partialCache)[k]) ==>
        exists k :: k in old(partialCache) && coordinates in old(partialCache)[k] &&
          partialCache == old(partialCache) - {k} && r == data["latitude" := Number(k.0)]["longitude" := Number(k.1)]
      ensures (forall k :: k in old(partialCache) ==> coordinates !in old(partialCache)[k]) ==>
        partialCache == old(partialCache) && r == data
      ensures result == old(result) && addressComponents == old(addressComponents) && addressCoordinates == old(addressCoordinates)
    {
      r := data;
      var keys := partialCache.Keys;
      var removeItem: Option<Coordinates> := None;
      while keys != {}
        invariant keys <= partialCache.Keys && partialCache == old(partialCache) && removeItem.None? && r == data
        invariant forall k :: k in partialCache && k !in keys ==> coordinates !in partialCache[k]
        decreases keys
      {
        var key :| key in keys;
        if coordinates in partialCache[key] {
          r := r["latitude" := Number(key.0)];
          r := r["longitude" := Number(key.1)];
          removeItem := Some(key);
          break;
        }
        keys := keys - {key};
      }
      if removeItem.Some? {
        partialCache := partialCache - {removeItem.value};
      }
    }
  }
}
