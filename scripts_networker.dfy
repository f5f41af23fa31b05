/** The networking helpers of the script generation (scripts/util/networker.py). */
module ScriptsNetworker {
  import opened Wrappers
  import opened Text
  import opened Http
  import opened Networker

  /** The number of used IPs kept in bounded mode. */
  const UsedIpsCap := 10

  /** `ip_is_usable` of this generation, branch by branch: any unused address is usable; in
      bounded mode a list already holding ten entries gets the new one appended and its oldest
      removed. */
  function AdmitScripts(used: seq<Ip>, currentIp: Ip, storeAll: bool): (bool, seq<Ip>)
  {
    if currentIp in used then (false, used)
    else if storeAll then (true, used + [currentIp])
    else if |used| == UsedIpsCap then (true, (used + [currentIp])[1..])
    else (true, used + [currentIp])
  }

  /** The branches above are the common rule with no address check, no real IP and eviction when
      the append reaches eleven entries. */
  lemma AdmitScriptsAgrees(used: seq<Ip>, currentIp: Ip, storeAll: bool)
    ensures AdmitScripts(used, currentIp, storeAll) == Admit(used, currentIp, true, None, UsedIpsCap + 1, storeAll)
  {
  }

  /** Any unused address is accepted and recorded at the end, a used one changes nothing, and in
      bounded mode a list of at most ten entries stays at most ten. */
  lemma AdmitScriptsShape(used: seq<Ip>, currentIp: Ip, storeAll: bool)
    ensures var (usable, used') := AdmitScripts(used, currentIp, storeAll);
      (usable <==> currentIp !in used) &&
      (!usable ==> used' == used) &&
      (usable ==> used'[|used'| - 1] == currentIp && currentIp in used') &&
      (storeAll && usable ==> used' == used + [currentIp]) &&
      (!storeAll && |used| <= UsedIpsCap ==> |used'| <= UsedIpsCap)
  {
    AdmitScriptsAgrees(used, currentIp, storeAll);
    if currentIp !in used {
      AdmitRecords(used, currentIp, true, None, UsedIpsCap + 1, storeAll);
    }
    if !storeAll && |used| <= UsedIpsCap {
      AdmitBounded(used, currentIp, true, None, UsedIpsCap + 1);
    }
  }

  method IpIsUsable(usedIps: IpList, currentIp: Ip, storeAll: bool) returns (usable: bool)
    modifies usedIps
    ensures (usable, usedIps.ips) == AdmitScripts(old(usedIps.ips), currentIp, storeAll)
  {
    usable := false;
    if currentIp !in usedIps.ips {
      if storeAll {
        usedIps.ips := usedIps.ips + [currentIp];
      } else if |usedIps.ips| == UsedIpsCap {
        usedIps.ips := usedIps.ips + [currentIp];
        usedIps.ips := usedIps.ips[1..];
      } else {
        usedIps.ips := usedIps.ips + [currentIp];
      }
      usable := true;
    }
  }

  /** `get` of this generation: only a timeout becomes a fake 408 response for the stripped URL;
      every other exception propagates. */
  function Get(url: string, outcome: FetchOutcome): Result<Response, RequestException>
  {
    match outcome
    case Answered(response) => Result.Ok(response)
    case Raised(Timeout) => Result.Ok(Response(Strip(url), 408, Page([], [])))
    case Raised(e) => Err(e)
  }

  /** A timeout is turned into a retry, and a connection error, unlike the other generations,
      escapes. */
  lemma GetOutcomes(url: string, outcome: FetchOutcome)
    ensures var r := Get(url, outcome);
      (outcome.Answered? ==> r == Result.Ok(outcome.response)) &&
      (outcome == Raised(Timeout) ==> r.Ok? && r.value.url == Strip(url) && IsRetry(r.value.status)) &&
      (outcome.Raised? && outcome.exc != Timeout ==> r == Err(outcome.exc))
  {
  }
}
