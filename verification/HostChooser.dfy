/** Round-robin choice of an agent host with one counter for every agent type and label set. */
module HostChooser {

  const LOCAL_HOST_ID := "local"

  datatype Host = Host(id: string, agentType: string, healthy: bool, labels: set<string>)
  datatype Key = Key(agentType: string, labels: set<string>)

  predicate Supports(h: Host, key: Key) {
    (h.agentType == key.agentType || h.agentType == "both") && key.labels <= h.labels
  }

  /** `choose_host`: supporting and healthy. */
  function Matching(hosts: seq<Host>, key: Key): seq<Host> {
    if hosts == [] then []
    else (if Supports(hosts[0], key) && hosts[0].healthy then [hosts[0]] else []) + Matching(hosts[1..], key)
  }

  function Supporting(hosts: seq<Host>, key: Key): seq<Host> {
    if hosts == [] then []
    else (if Supports(hosts[0], key) then [hosts[0]] else []) + Supporting(hosts[1..], key)
  }

  function Healthy(hosts: seq<Host>): seq<Host> {
    if hosts == [] then [] else (if hosts[0].healthy then [hosts[0]] else []) + Healthy(hosts[1..])
  }

  /** `choose_configured_host`: supporting, and healthy if any of those is. */
  function Configured(hosts: seq<Host>, key: Key): seq<Host> {
    var all := Supporting(hosts, key);
    if Healthy(all) != [] then Healthy(all) else all
  }

  function Counter(counters: map<Key, nat>, key: Key): nat {
    if key in counters then counters[key] else 0
  }

  /** A call with the hosts that are eligible for it. */
  datatype Call = Call(key: Key, eligible: seq<Host>)

  function Chosen(counters: map<Key, nat>, call: Call): string {
    if call.eligible == [] then LOCAL_HOST_ID
    else call.eligible[Counter(counters, call.key) % |call.eligible|].id
  }

  function After(counters: map<Key, nat>, call: Call): map<Key, nat> {
    if call.eligible == [] then counters
    else counters[call.key := Counter(counters, call.key) % |call.eligible| + 1]
  }

  class HostChooser {
    var counters: map<Key, nat>

    constructor ()
      ensures counters == map[]
    {
      counters := map[];
    }

    method ChooseConfiguredHost(hosts: seq<Host>, agentType: string, labels: set<string>) returns (id: string)
      modifies this
      ensures var call := Call(Key(agentType, labels), Configured(hosts, Key(agentType, labels)));
              id == Chosen(old(counters), call) && counters == After(old(counters), call)
    {
      var key := Key(agentType, labels);
      var all := Supporting(hosts, key);
      if all == [] {
        return LOCAL_HOST_ID;
      }
      var eligible := Healthy(all);
      if eligible == [] {
        eligible := all;
      }
      id := Take(key, eligible);
    }

    method ChooseHost(hosts: seq<Host>, agentType: string, labels: set<string>) returns (id: string)
      modifies this
      ensures var call := Call(Key(agentType, labels), Matching(hosts, Key(agentType, labels)));
              id == Chosen(old(counters), call) && counters == After(old(counters), call)
    {
      var key := Key(agentType, labels);
      var eligible := Matching(hosts, key);
      if eligible == [] {
        return LOCAL_HOST_ID;
      }
      id := Take(key, eligible);
    }

    /** The lines the two choosers share. */
    method Take(key: Key, eligible: seq<Host>) returns (id: string)
      requires eligible != []
      modifies this
      ensures id == Chosen(old(counters), Call(key, eligible)) && counters == After(old(counters), Call(key, eligible))
    {
      var idx := 0;
      if key in counters {
        idx := counters[key] % |eligible|;
      }
      counters := counters[key := idx + 1];
      id := eligible[idx].id;
    }
  }

  /** As long as one supporting host is healthy both choosers pick from the same list; they differ only in what they
      do without one. */
  lemma ChoosersAgree(hosts: seq<Host>, key: Key)
    ensures Matching(hosts, key) == Healthy(Supporting(hosts, key))
    ensures Matching(hosts, key) != [] ==> Configured(hosts, key) == Matching(hosts, key)
    ensures Matching(hosts, key) == [] ==> Configured(hosts, key) == Supporting(hosts, key)
  {
    MatchingIsHealthy(hosts, key);
  }

  lemma {:induction false} MatchingIsHealthy(hosts: seq<Host>, key: Key)
    ensures Matching(hosts, key) == Healthy(Supporting(hosts, key))
  {
    if hosts != [] {
      MatchingIsHealthy(hosts[1..], key);
      var all := Supporting(hosts, key);
      if Supports(hosts[0], key) {
        assert all[0] == hosts[0] && all[1..] == Supporting(hosts[1..], key);
      } else {
        assert all == Supporting(hosts[1..], key);
      }
      assert Matching(hosts, key) == (if Supports(hosts[0], key) && hosts[0].healthy then [hosts[0]] else []) + Matching(hosts[1..], key);
    }
  }

  // ---- who is chosen ----

  /** The host runs the agent and carries every label asked for. */
  predicate Serves(h: Host, agentType: string, labels: set<string>) {
    (h.agentType == agentType || h.agentType == "both") && forall l :: l in labels ==> l in h.labels
  }

  lemma {:induction false} SupportingExactly(hosts: seq<Host>, agentType: string, labels: set<string>, h: Host)
    ensures h in Supporting(hosts, Key(agentType, labels)) <==> h in hosts && Serves(h, agentType, labels)
  {
    if hosts != [] {
      SupportingExactly(hosts[1..], agentType, labels, h);
    }
  }

  lemma {:induction false} HealthyExactly(hosts: seq<Host>, h: Host)
    ensures h in Healthy(hosts) <==> h in hosts && h.healthy
  {
    if hosts != [] {
      HealthyExactly(hosts[1..], h);
    }
  }

  lemma {:induction false} MatchingExactly(hosts: seq<Host>, agentType: string, labels: set<string>, h: Host)
    ensures h in Matching(hosts, Key(agentType, labels)) <==> h in hosts && Serves(h, agentType, labels) && h.healthy
  {
    if hosts != [] {
      MatchingExactly(hosts[1..], agentType, labels, h);
    }
  }

  /** `choose_configured_host` turns among the hosts that serve the request: the healthy ones, if there are any. */
  lemma ConfiguredExactly(hosts: seq<Host>, agentType: string, labels: set<string>, h: Host)
    ensures h in Configured(hosts, Key(agentType, labels)) <==>
            && h in hosts && Serves(h, agentType, labels)
            && (h.healthy || forall other :: other in hosts && Serves(other, agentType, labels) ==> !other.healthy)
  {
    var all := Supporting(hosts, Key(agentType, labels));
    SupportingExactly(hosts, agentType, labels, h);
    HealthyExactly(all, h);
    forall other | other in hosts && Serves(other, agentType, labels) && other.healthy ensures other in Healthy(all) {
      SupportingExactly(hosts, agentType, labels, other);
      HealthyExactly(all, other);
    }
    if Healthy(all) != [] {
      SupportingExactly(hosts, agentType, labels, Healthy(all)[0]);
      HealthyExactly(all, Healthy(all)[0]);
    }
  }

  /** The host chosen is one of the list that serves the request, healthy if any such is; without one it is `local`. */
  lemma ConfiguredHostServes(counters: map<Key, nat>, hosts: seq<Host>, agentType: string, labels: set<string>)
    ensures var id := Chosen(counters, Call(Key(agentType, labels), Configured(hosts, Key(agentType, labels))));
            if exists h :: h in hosts && Serves(h, agentType, labels) then
              exists h ::
                && h in hosts && Serves(h, agentType, labels) && id == h.id
                && (h.healthy || forall other :: other in hosts && Serves(other, agentType, labels) ==> !other.healthy)
            else id == "local"
  {
    var eligible := Configured(hosts, Key(agentType, labels));
    if exists h :: h in hosts && Serves(h, agentType, labels) {
      var h :| h in hosts && Serves(h, agentType, labels);
      SupportingExactly(hosts, agentType, labels, h);
      var k := Counter(counters, Key(agentType, labels)) % |eligible|;
      ConfiguredExactly(hosts, agentType, labels, eligible[k]);
    } else if eligible != [] {
      ConfiguredExactly(hosts, agentType, labels, eligible[0]);
    }
  }

  /** As before, with healthy hosts only. */
  lemma HealthyHostServes(counters: map<Key, nat>, hosts: seq<Host>, agentType: string, labels: set<string>)
    ensures var id := Chosen(counters, Call(Key(agentType, labels), Matching(hosts, Key(agentType, labels))));
            if exists h :: h in hosts && Serves(h, agentType, labels) && h.healthy then
              exists h :: h in hosts && Serves(h, agentType, labels) && h.healthy && id == h.id
            else id == "local"
  {
    var eligible := Matching(hosts, Key(agentType, labels));
    if exists h :: h in hosts && Serves(h, agentType, labels) && h.healthy {
      var h :| h in hosts && Serves(h, agentType, labels) && h.healthy;
      MatchingExactly(hosts, agentType, labels, h);
      var k := Counter(counters, Key(agentType, labels)) % |eligible|;
      MatchingExactly(hosts, agentType, labels, eligible[k]);
    } else if eligible != [] {
      MatchingExactly(hosts, agentType, labels, eligible[0]);
    }
  }

  // ---- fairness ----

  /** How often the calls choose `id` under `key`. */
  function Picks(counters: map<Key, nat>, calls: seq<Call>, key: Key, id: string): nat
    decreases |calls|
  {
    if calls == [] then 0
    else
      (if calls[0].key == key && Chosen(counters, calls[0]) == id then 1 else 0)
      + Picks(After(counters, calls[0]), calls[1..], key, id)
  }

  function Uses(calls: seq<Call>, key: Key): nat {
    if calls == [] then 0 else (if calls[0].key == key then 1 else 0) + Uses(calls[1..], key)
  }

  ghost predicate DistinctIds(hosts: seq<Host>) {
    forall i, j :: 0 <= i < j < |hosts| ==> hosts[i].id != hosts[j].id
  }

  lemma OneMoreDistinct(h: Host, hosts: seq<Host>)
    requires DistinctIds(hosts) && forall other :: other in hosts ==> other.id != h.id
    ensures DistinctIds([h] + hosts)
  {
  }

  lemma {:induction false} HealthyDistinct(hosts: seq<Host>)
    requires DistinctIds(hosts)
    ensures DistinctIds(Healthy(hosts))
  {
    if hosts != [] {
      HealthyDistinct(hosts[1..]);
      forall other | other in Healthy(hosts[1..]) ensures other.id != hosts[0].id {
        HealthyExactly(hosts[1..], other);
      }
      OneMoreDistinct(hosts[0], Healthy(hosts[1..]));
    }
  }

  lemma {:induction false} SupportingDistinct(hosts: seq<Host>, agentType: string, labels: set<string>)
    requires DistinctIds(hosts)
    ensures DistinctIds(Supporting(hosts, Key(agentType, labels)))
  {
    var key := Key(agentType, labels);
    if hosts != [] {
      SupportingDistinct(hosts[1..], agentType, labels);
      forall other | other in Supporting(hosts[1..], key) ensures other.id != hosts[0].id {
        SupportingExactly(hosts[1..], agentType, labels, other);
      }
      OneMoreDistinct(hosts[0], Supporting(hosts[1..], key));
    }
  }

  /** Hosts with ids of their own keep them on the lists the choosers turn through, so `PickCount` and `RoundRobinIsFair`
      speak of both choosers. */
  lemma EligibleDistinct(hosts: seq<Host>, agentType: string, labels: set<string>)
    requires DistinctIds(hosts)
    ensures DistinctIds(Configured(hosts, Key(agentType, labels))) && DistinctIds(Matching(hosts, Key(agentType, labels)))
  {
    var all := Supporting(hosts, Key(agentType, labels));
    SupportingDistinct(hosts, agentType, labels);
    HealthyDistinct(all);
    MatchingIsHealthy(hosts, Key(agentType, labels));
  }

  /** How many calls pass until the counter comes to host `j` of `k`. */
  function Distance(counter: nat, j: nat, k: nat): (d: nat)
    requires j < k
    ensures d < k
  {
    if counter % k <= j then j - counter % k else j + k - counter % k
  }

  lemma DistanceAfter(counter: nat, j: nat, k: nat)
    requires j < k
    ensures counter % k == j <==> Distance(counter, j, k) == 0
    ensures Distance(counter % k + 1, j, k) == if counter % k == j then k - 1 else Distance(counter, j, k) - 1
  {
    var r := counter % k;
    if r + 1 < k {
      assert (r + 1) % k == r + 1;
    } else {
      assert (r + 1) % k == 0;
    }
  }

  lemma Quotient(n: nat, k: nat, q: nat, r: nat)
    requires n == q * k + r && r < k
    ensures n / k == q
  {
    var d := n / k - q;
    assert n == (n / k) * k + n % k;
    assert d * k == r - n % k;
  }

  lemma OneRoundMore(m: nat, k: nat)
    requires 0 < k
    ensures (m + k) / k == 1 + m / k
  {
    Quotient(m + k, k, m / k + 1, m % k);
  }

  /** The exact number of picks, from any counter values and with any calls under other keys in between. */
  lemma {:induction false} PickCount(counters: map<Key, nat>, calls: seq<Call>, key: Key, hosts: seq<Host>, j: nat)
    requires j < |hosts| && DistinctIds(hosts)
    requires forall i :: 0 <= i < |calls| && calls[i].key == key ==> calls[i].eligible == hosts
    ensures Picks(counters, calls, key, hosts[j].id) ==
            (Uses(calls, key) + |hosts| - 1 - Distance(Counter(counters, key), j, |hosts|)) / |hosts|
    decreases |calls|
  {
    var k, c := |hosts|, Counter(counters, key);
    if calls == [] {
      Quotient(k - 1 - Distance(c, j, k), k, 0, k - 1 - Distance(c, j, k));
    } else {
      PickCount(After(counters, calls[0]), calls[1..], key, hosts, j);
      DistanceAfter(c, j, k);
      if calls[0].key == key {
        assert Counter(After(counters, calls[0]), key) == c % k + 1;
        assert Chosen(counters, calls[0]) == hosts[j].id <==> c % k == j;
        if c % k == j {
          OneRoundMore(Uses(calls[1..], key), k);
        }
      }
    }
  }

  /** Round-robin fairness: over n calls under one key with an unchanging list of k hosts, every host is chosen
      `n / k` times, rounded down or up. */
  lemma RoundRobinIsFair(counters: map<Key, nat>, calls: seq<Call>, key: Key, hosts: seq<Host>, j: nat)
    requires j < |hosts| && DistinctIds(hosts)
    requires forall i :: 0 <= i < |calls| && calls[i].key == key ==> calls[i].eligible == hosts
    ensures var n, k := Uses(calls, key), |hosts|;
            var picks := Picks(counters, calls, key, hosts[j].id);
            n / k <= picks <= (n + k - 1) / k
  {
    PickCount(counters, calls, key, hosts, j);
    var n, k := Uses(calls, key), |hosts|;
    DivMonotone(n, n + k - 1 - Distance(Counter(counters, key), j, k), k);
    DivMonotone(n + k - 1 - Distance(Counter(counters, key), j, k), n + k - 1, k);
  }

  lemma {:induction false} DivMonotone(a: nat, b: nat, k: nat)
    requires a <= b && 0 < k
    ensures a / k <= b / k
  {
    if a < k {
      Quotient(a, k, 0, a);
    } else {
      DivMonotone(a - k, b - k, k);
      OneRoundMore(a - k, k);
      OneRoundMore(b - k, k);
    }
  }
}
