/** The networking helpers of the first generation (scrape_me_again/util/networker.py). */
module LegacyNetworker {
  import opened Wrappers
  import opened Text
  import opened Http
  import opened Networker

  /** The list length at which the oldest used IP is dropped, fixed in this generation. */
  const UsedIpsCap := 10

  /** `ip_is_usable` of this generation: no address-format check, the real IP refused, a used IP
      refused, and eviction when the append reaches 10 entries. */
  method IpIsUsable(usedIps: IpList, currentIp: Ip, realIp: Ip, storeAll: bool) returns (usable: bool)
    modifies usedIps
    ensures (usable, usedIps.ips) == Admit(old(usedIps.ips), currentIp, true, Some(realIp), UsedIpsCap, storeAll)
  {
    if currentIp == realIp {
      return false;
    }
    if currentIp in usedIps.ips {
      return false;
    }
    usedIps.ips := usedIps.ips + [currentIp];
    if !storeAll {
      if |usedIps.ips| == UsedIpsCap {
        usedIps.ips := usedIps.ips[1..];
      }
    }
    return true;
  }

  /** In bounded mode the list of this generation never grows past nine entries once it holds
      fewer than ten, and a fresh address that is not the real IP is always accepted. */
  lemma IpIsUsableBounded(used: seq<Ip>, currentIp: Ip, realIp: Ip)
    requires |used| < UsedIpsCap
    ensures var (usable, used') := Admit(used, currentIp, true, Some(realIp), UsedIpsCap, false);
      |used'| < UsedIpsCap && (usable <==> currentIp != realIp && currentIp !in used)
  {
    AdmitBounded(used, currentIp, true, Some(realIp), UsedIpsCap);
  }

  /** `get` of this generation: a timeout becomes a fake 408 response and a connection error a
      fake 409 response for the stripped URL; any other exception propagates. */
  function Get(url: string, outcome: FetchOutcome): (r: Result<Response, RequestException>)
  {
    match outcome
    case Answered(response) => Result.Ok(response)
    case Raised(Timeout) => Result.Ok(Response(Strip(url), 408, Page([], [])))
    case Raised(ConnectionError) => Result.Ok(Response(Strip(url), 409, Page([], [])))
    case Raised(OtherException) => Err(OtherException)
  }

  /** Timeouts and connection errors turn into statuses the pipeline re-queues; other exceptions
      escape, and an answered request is passed through. */
  lemma GetOutcomes(url: string, outcome: FetchOutcome)
    ensures var r := Get(url, outcome);
      (outcome.Answered? ==> r == Result.Ok(outcome.response)) &&
      (outcome.Raised? && outcome.exc != OtherException ==>
        r.Ok? && r.value.url == Strip(url) && IsRetry(r.value.status) &&
        (r.value.status == 409 <==> outcome.exc == ConnectionError)) &&
      (outcome == Raised(OtherException) ==> r.Err?)
  {
  }
}
