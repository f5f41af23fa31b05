/** Networking helpers of scrapemeagain/util/networker.py: the used-IP bookkeeping behind Tor IP
    rotation, the exception-to-status mapping of `get`, and the parameters of `get_geo`. */
module Networker {
  import opened Wrappers
  import opened Text
  import opened Http
  import Alphanumericker

  type Ip = string

  /** A Python list of used IPs, shared by reference with whoever rotates the IP. */
  class IpList {
    var ips: seq<Ip>

    constructor (ips: seq<Ip>)
      ensures this.ips == ips
    {
      this.ips := ips;
    }
  }

  /** The decision and the new list of one `ip_is_usable` call, for every generation:
      `isIpAddress` is the verdict of the IP-address parser, `realIp` the address that must never
      be used (None where the generation has no such check), `bufferSize` the length at which,
      after appending, the oldest entry is dropped unless `storeAll` is set. */
  function Admit(used: seq<Ip>, candidate: Ip, isIpAddress: bool, realIp: Option<Ip>, bufferSize: int, storeAll: bool): (bool, seq<Ip>)
  {
    if !isIpAddress || realIp == Some(candidate) || candidate in used then (false, used)
    else
      var appended := used + [candidate];
      (true, if !storeAll && |appended| == bufferSize then appended[1..] else appended)
  }

  /** A candidate is usable exactly when it parses as an address, is not the real IP and has not
      been used; a rejected candidate leaves the list as it was. */
  lemma AdmitDecision(used: seq<Ip>, candidate: Ip, isIpAddress: bool, realIp: Option<Ip>, bufferSize: int, storeAll: bool)
    ensures var (usable, used') := Admit(used, candidate, isIpAddress, realIp, bufferSize, storeAll);
      (usable <==> isIpAddress && realIp != Some(candidate) && candidate !in used) &&
      (!usable ==> used' == used)
  {
  }

  /** An accepted IP is appended at the end; only the oldest entry can be dropped, and only in
      bounded mode when the append reaches the buffer size. */
  lemma AdmitRecords(used: seq<Ip>, candidate: Ip, isIpAddress: bool, realIp: Option<Ip>, bufferSize: int, storeAll: bool)
    requires Admit(used, candidate, isIpAddress, realIp, bufferSize, storeAll).0
    ensures var used' := Admit(used, candidate, isIpAddress, realIp, bufferSize, storeAll).1;
      (storeAll || |used| + 1 != bufferSize ==> used' == used + [candidate]) &&
      (!storeAll && |used| + 1 == bufferSize && used != [] ==> used' == used[1..] + [candidate]) &&
      (storeAll || bufferSize != 1 ==> candidate in used')
  {
    if !storeAll && |used| + 1 == bufferSize && used != [] {
      assert (used + [candidate])[1..] == used[1..] + [candidate];
    }
  }

  /** In bounded mode a list shorter than the buffer stays shorter. */
  lemma AdmitBounded(used: seq<Ip>, candidate: Ip, isIpAddress: bool, realIp: Option<Ip>, bufferSize: int)
    requires |used| < bufferSize
    ensures |Admit(used, candidate, isIpAddress, realIp, bufferSize, false).1| < bufferSize
  {
  }

  predicate Distinct(ips: seq<Ip>) {
    forall i, j :: 0 <= i < j < |ips| ==> ips[i] != ips[j]
  }

  /** The list never holds an address twice, and never holds the real IP once it does not. */
  lemma AdmitKeepsListClean(used: seq<Ip>, candidate: Ip, isIpAddress: bool, realIp: Option<Ip>, bufferSize: int, storeAll: bool)
    requires Distinct(used)
    requires realIp.Some? ==> realIp.value !in used
    ensures var used' := Admit(used, candidate, isIpAddress, realIp, bufferSize, storeAll).1;
      Distinct(used') && (realIp.Some? ==> realIp.value !in used')
  {
    var (usable, used') := Admit(used, candidate, isIpAddress, realIp, bufferSize, storeAll);
    if usable {
      var appended := used + [candidate];
      assert Distinct(appended) by {
        forall i, j | 0 <= i < j < |appended| ensures appended[i] != appended[j] {
          if j == |used| {
            assert appended[i] == used[i];
          }
        }
      }
      if !storeAll && |appended| == bufferSize {
        assert forall x :: x in appended[1..] ==> x in appended;
      }
    }
  }

  /** `ip_is_usable` of this generation: the address parser's verdict, the real IP and the
      configured `USED_IPS_BUFFER_SIZE`. */
  method IpIsUsable(usedIps: IpList, currentIp: Ip, isIpAddress: bool, realIp: Ip, bufferSize: int, storeAll: bool)
    returns (usable: bool)
    modifies usedIps
    ensures (usable, usedIps.ips) == Admit(old(usedIps.ips), currentIp, isIpAddress, Some(realIp), bufferSize, storeAll)
  {
    if !isIpAddress {
      return false;
    }
    if currentIp == realIp {
      return false;
    }
    if currentIp in usedIps.ips {
      return false;
    }
    usedIps.ips := usedIps.ips + [currentIp];
    if !storeAll {
      if |usedIps.ips| == bufferSize {
        usedIps.ips := usedIps.ips[1..];
      }
    }
    return true;
  }

  // ---------------------------------------------------------------------------
  // The real IP

  /** `get_current_ip`: the stripped body of a successful answer of the IP echo service. */
  function CurrentIp(status: int, body: string): Option<Ip> {
    if Http.Ok(status) then Some(Strip(body)) else None
  }

  /** `REAL_IP` as written: the raw body of the echo service, which ends in a newline. */
  function RealIpAsWritten(body: string): Ip {
    body
  }

  /** `REAL_IP` read the way `get_current_ip` reads every other address. */
  function RealIp(body: string): Ip {
    Strip(body)
  }

  /** As written, when the echo service answers with a trailing newline, the real IP read back
      through `get_current_ip` differs from `REAL_IP` and is accepted like any fresh address. */
  lemma RealIpAsWrittenAccepted(body: string, used: seq<Ip>, bufferSize: int, storeAll: bool)
    requires body != [] && IsWhitespace(body[|body| - 1])
    requires Strip(body) !in used
    ensures CurrentIp(200, body) == Some(Strip(body))
    ensures Admit(used, Strip(body), true, Some(RealIpAsWritten(body)), bufferSize, storeAll).0
  {
    StripShape(body);
  }

  /** With `REAL_IP` stripped, the real IP reported by the echo service is always rejected and
      the list is left alone. */
  lemma RealIpRejected(status: int, body: string, used: seq<Ip>, isIpAddress: bool, bufferSize: int, storeAll: bool)
    requires CurrentIp(status, body).Some?
    ensures Admit(used, CurrentIp(status, body).value, isIpAddress, Some(RealIp(body)), bufferSize, storeAll) == (false, used)
  {
  }

  // ---------------------------------------------------------------------------
  // ensure_new_ip

  /** What `ensure_new_ip` does with the IPs the echo service reports in turn (None when it
      fails): rotate after each failure or rejection, stop at the first usable address. The
      result is whether an address was accepted, how many rotations were requested and the new
      list. */
  function EnsureNewIpSpec(used: seq<Ip>, observed: seq<Option<Ip>>, isIpAddress: Ip -> bool, realIp: Option<Ip>, bufferSize: int, storeAll: bool): (bool, nat, seq<Ip>)
  {
    if observed == [] then (false, 0, used)
    else
      var next := EnsureNewIpSpec(used, observed[1..], isIpAddress, realIp, bufferSize, storeAll);
      match observed[0]
      case None => (next.0, next.1 + 1, next.2)
      case Some(ip) =>
        var (usable, used') := Admit(used, ip, isIpAddress(ip), realIp, bufferSize, storeAll);
        if usable then (true, 0, used') else (next.0, next.1 + 1, next.2)
  }

  /** The loop of `ensure_new_ip` over a finite run of observations. */
  method EnsureNewIp(usedIps: IpList, observed: seq<Option<Ip>>, isIpAddress: Ip -> bool, realIp: Ip, bufferSize: int, storeAll: bool)
    returns (found: bool, rotations: nat)
    modifies usedIps
    ensures (found, rotations, usedIps.ips) == EnsureNewIpSpec(old(usedIps.ips), observed, isIpAddress, Some(realIp), bufferSize, storeAll)
  {
    found := false;
    rotations := 0;
    var k := 0;
    while k < |observed|
      invariant 0 <= k <= |observed|
      invariant usedIps.ips == old(usedIps.ips)
      invariant EnsureNewIpSpec(old(usedIps.ips), observed, isIpAddress, Some(realIp), bufferSize, storeAll) ==
        var rest := EnsureNewIpSpec(usedIps.ips, observed[k..], isIpAddress, Some(realIp), bufferSize, storeAll);
        (rest.0, rest.1 + rotations, rest.2)
    {
      assert observed[k..][1..] == observed[k + 1..];
      var currentIp := observed[k];
      if currentIp.None? {
        rotations := rotations + 1;
        k := k + 1;
        continue;
      }
      var usable := IpIsUsable(usedIps, currentIp.value, isIpAddress(currentIp.value), realIp, bufferSize, storeAll);
      if !usable {
        rotations := rotations + 1;
        k := k + 1;
        continue;
      }
      found := true;
      return;
    }
  }

  /** Whether the `k`-th report is an address `ip_is_usable` accepts against `used`. */
  predicate UsableAt(used: seq<Ip>, observed: seq<Option<Ip>>, k: int, isIpAddress: Ip -> bool, realIp: Option<Ip>, bufferSize: int, storeAll: bool)
    requires 0 <= k < |observed|
  {
    observed[k].Some? && Admit(used, observed[k].value, isIpAddress(observed[k].value), realIp, bufferSize, storeAll).0
  }

  /** `ensure_new_ip` succeeds exactly when some report is usable at its turn; it then has
      recorded that address by one `ip_is_usable` call (and keeps it, unless a bounded buffer
      of one evicts it at once), and every earlier report was missing or rejected. */
  lemma {:induction false} EnsureNewIpRecords(used: seq<Ip>, observed: seq<Option<Ip>>, isIpAddress: Ip -> bool, realIp: Option<Ip>, bufferSize: int, storeAll: bool)
    ensures var (found, rotations, used') := EnsureNewIpSpec(used, observed, isIpAddress, realIp, bufferSize, storeAll);
      (found <==> (exists k :: 0 <= k < |observed| && UsableAt(used, observed, k, isIpAddress, realIp, bufferSize, storeAll))) &&
      (found ==>
        rotations < |observed| && UsableAt(used, observed, rotations, isIpAddress, realIp, bufferSize, storeAll) &&
        used' == Admit(used, observed[rotations].value, isIpAddress(observed[rotations].value), realIp, bufferSize, storeAll).1 &&
        ((storeAll || bufferSize != 1) ==> observed[rotations].value in used') &&
        (forall j :: 0 <= j < rotations ==> !UsableAt(used, observed, j, isIpAddress, realIp, bufferSize, storeAll))) &&
      (!found ==> used' == used && rotations == |observed|)
    decreases |observed|
  {
    if observed != [] {
      var rest := observed[1..];
      EnsureNewIpRecords(used, rest, isIpAddress, realIp, bufferSize, storeAll);
      var (found, rotations, used') := EnsureNewIpSpec(used, observed, isIpAddress, realIp, bufferSize, storeAll);
      if UsableAt(used, observed, 0, isIpAddress, realIp, bufferSize, storeAll) {
        AdmitRecords(used, observed[0].value, isIpAddress(observed[0].value), realIp, bufferSize, storeAll);
      } else {
        forall k | 0 < k < |observed|
          ensures UsableAt(used, observed, k, isIpAddress, realIp, bufferSize, storeAll) ==
            UsableAt(used, rest, k - 1, isIpAddress, realIp, bufferSize, storeAll)
        {
          assert rest[k - 1] == observed[k];
        }
        if found {
          assert UsableAt(used, observed, rotations, isIpAddress, realIp, bufferSize, storeAll);
        }
        if exists k :: 0 <= k < |observed| && UsableAt(used, observed, k, isIpAddress, realIp, bufferSize, storeAll) {
          var k :| 0 <= k < |observed| && UsableAt(used, observed, k, isIpAddress, realIp, bufferSize, storeAll);
          assert UsableAt(used, rest, k - 1, isIpAddress, realIp, bufferSize, storeAll);
        }
      }
    }
  }

  // ---------------------------------------------------------------------------
  // get

  /** What `requests.get` can raise. */
  datatype RequestException = Timeout | ConnectionError | OtherException

  /** The outcome of the request itself: the response, or the exception it raised. */
  datatype FetchOutcome = Answered(response: Response) | Raised(exc: RequestException)

  /** `get` of this generation: no exception escapes; a failed request becomes a fake response
      for the stripped URL, 408 for a timeout and 503 for anything else. */
  function Get(url: string, outcome: FetchOutcome): Response {
    match outcome
    case Answered(r) => r
    case Raised(e) => Response(Strip(url), if e == Timeout then 408 else 503, Page([], []))
  }

  /** Every failed request yields a response the pipeline re-queues. */
  lemma GetFailureIsRetried(url: string, e: RequestException)
    ensures var r := Get(url, Raised(e));
      r.url == Strip(url) && IsRetry(r.status) && (r.status == 408 <==> e == Timeout)
  {
  }

  // ---------------------------------------------------------------------------
  // get_geo

  /** The query parameters `get_geo` sends to the geocoding service. */
  datatype GeoParams = GeoParams(language: string, address: string, components: Option<string>)

  /** Spaces become `'+'`, then `string_to_ascii`. */
  function EncodeParam(ascii: string -> string, s: string): string {
    ascii(ReplaceChar(s, ' ', "+"))
  }

  /** The address sent for a `(district, city, locality)` tuple, before encoding. */
  function GeoAddress(ascii: string -> string, city: string, locality: Option<string>): string {
    match locality
    case None => city
    case Some(l) =>
      if Contains(Alphanumericker.Comparable(ascii, l), Alphanumericker.Comparable(ascii, city)) then l else city + "," + l
  }

  /** The parameters of `get_geo` (the same in all three generations). */
  function GetGeoParams(ascii: string -> string, language: string, district: Option<string>, city: string, locality: Option<string>): GeoParams {
    var components := if locality.None? && district.Some? then Some("administrative_area:" + district.value) else None;
    GeoParams(language, EncodeParam(ascii, GeoAddress(ascii, city, locality)),
      match components case None => None case Some(c) => Some(EncodeParam(ascii, c)))
  }

  lemma {:induction false} KeepAsciiAddsNothing(s: string, c: char)
    requires c !in s
    ensures c !in Alphanumericker.KeepAscii(s)
  {
    if s != [] {
      KeepAsciiAddsNothing(s[1..], c);
    }
  }

  /** Encoded parameters hold only ASCII characters; an ASCII parameter is sent with every
      space turned into `'+'` and nothing else changed. */
  lemma EncodeParamShape(ascii: string -> string, s: string)
    requires Alphanumericker.AsciiStep(ascii)
    ensures Alphanumericker.IsAscii(EncodeParam(ascii, s))
    ensures Alphanumericker.IsAscii(s) ==> EncodeParam(ascii, s) == ReplaceChar(s, ' ', "+") && ' ' !in EncodeParam(ascii, s)
  {
    ReplaceCharRemovesAll(s, ' ', "+");
    if Alphanumericker.IsAscii(s) {
      ReplaceCharKeepsAscii(s);
    }
  }

  /** Turning spaces into `'+'` keeps ASCII text ASCII. */
  lemma {:induction false} ReplaceCharKeepsAscii(s: string)
    requires Alphanumericker.IsAscii(s)
    ensures Alphanumericker.IsAscii(ReplaceChar(s, ' ', "+"))
  {
    if s != [] {
      assert s[1..][0..] == s[1..] && forall i :: 0 <= i < |s[1..]| ==> s[1..][i] == s[i + 1];
      ReplaceCharKeepsAscii(s[1..]);
      var h: string := if s[0] == ' ' then "+" else [s[0]];
      var t := ReplaceChar(s[1..], ' ', "+");
      assert forall i :: |h| <= i < |h + t| ==> (h + t)[i] == t[i - |h|];
    }
  }

  /** With the step that drops non-ASCII characters, no encoded parameter holds a space. */
  lemma EncodeParamKeepAsciiNoSpace(s: string)
    ensures ' ' !in EncodeParam(Alphanumericker.KeepAscii, s)
  {
    ReplaceCharRemovesAll(s, ' ', "+");
    KeepAsciiAddsNothing(ReplaceChar(s, ' ', "+"), ' ');
  }

  /** The address is the city without a locality, the locality alone when it already names the
      city in comparable form, and `city,locality` otherwise; `components` is sent only for a
      missing locality with a known district; both are encoded. */
  lemma GetGeoParamsShape(ascii: string -> string, language: string, district: Option<string>, city: string, locality: Option<string>)
    requires Alphanumericker.AsciiStep(ascii)
    ensures var p := GetGeoParams(ascii, language, district, city, locality);
      p.language == language &&
      (locality.None? ==> p.address == EncodeParam(ascii, city)) &&
      (locality.Some? && Contains(Alphanumericker.Comparable(ascii, locality.value), Alphanumericker.Comparable(ascii, city)) ==>
        p.address == EncodeParam(ascii, locality.value)) &&
      (locality.Some? && !Contains(Alphanumericker.Comparable(ascii, locality.value), Alphanumericker.Comparable(ascii, city)) ==>
        p.address == EncodeParam(ascii, city + "," + locality.value)) &&
      (p.components.Some? <==> locality.None? && district.Some?) &&
      (p.components.Some? ==> p.components.value == EncodeParam(ascii, "administrative_area:" + district.value)) &&
      Alphanumericker.IsAscii(p.address) && (p.components.Some? ==> Alphanumericker.IsAscii(p.components.value))
  {
    EncodeParamShape(ascii, GeoAddress(ascii, city, locality));
    if locality.None? && district.Some? {
      EncodeParamShape(ascii, "administrative_area:" + district.value);
    }
  }
}
