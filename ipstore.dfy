/** The IP store service of the dockerized generation
    (scrapemeagain/dockerized/apps/ipstore/server.py). */
module IpStore {
  import opened Wrappers
  import opened Networker

  /** The answer of the `/ip-is-safe/<ip>/` endpoint. */
  datatype SafeAnswer = SafeAnswer(safe: bool)

  /** The endpoint: check the address against the store, then record it when it is safe. The
      check of the Tor IP changer library is modelled by the common used-IP rule, with no real IP
      and the changer's reuse threshold as the buffer size. */
  method IpIsSafe(store: IpList, ip: Ip, reuseThreshold: int) returns (answer: SafeAnswer)
    modifies store
    ensures (answer.safe, store.ips) == Admit(old(store.ips), ip, true, None, reuseThreshold, false)
  {
    var safe := !(ip in store.ips);
    if safe {
      store.ips := store.ips + [ip];
      if |store.ips| == reuseThreshold {
        store.ips := store.ips[1..];
      }
    }
    answer := SafeAnswer(safe);
  }

  /** The answer is `safe` exactly for an address not in the store, which is then remembered
      (with a threshold above one). */
  lemma IpIsSafeAnswer(used: seq<Ip>, ip: Ip, reuseThreshold: int)
    ensures var (safe, used') := Admit(used, ip, true, None, reuseThreshold, false);
      (safe <==> ip !in used) && (!safe ==> used' == used) &&
      (safe && reuseThreshold != 1 ==> ip in used')
  {
    AdmitDecision(used, ip, true, None, reuseThreshold, false);
    if ip !in used {
      AdmitRecords(used, ip, true, None, reuseThreshold, false);
    }
  }
}
