/** The aggregation half of `compareHosts` and its helpers: the per-host risk
    score (vulnerability weights plus two points per open port), and the ports
    and vulnerability identifiers shared by at least two of the compared hosts,
    most shared first. The lookups themselves are a parameter. */
module Comparison {
  import opened Wrappers
  import opened JsText
  import opened HostModel
  import opened Severity
  import opened StableSort
  import opened Counting

  // ---------------------------------------------------------------------------
  // Per-host risk score
  // ---------------------------------------------------------------------------

  /** The per-host risk score: the weight of every vulnerability plus two points
      per open port. */
  function HostRiskScore(h: HostRecord): nat {
    WeightSum(VulnEntries(h)) + 2 * |Ports(h)|
  }

  /** `calculateHostRiskScore`: one loop over the vulnerabilities adding 10, 7,
      4 or 1, then two points per port. */
  method CalculateHostRiskScore(host: HostRecord) returns (score: nat)
    ensures score == HostRiskScore(host)
  {
    score := 0;
    var vulns := VulnEntries(host);
    for i := 0 to |vulns|
      invariant score == WeightSum(vulns[..i])
    {
      var cvss := Cvss(vulns[i].1);
      if cvss >= 9.0 {
        score := score + 10;
      } else if cvss >= 7.0 {
        score := score + 7;
      } else if cvss >= 4.0 {
        score := score + 4;
      } else {
        score := score + 1;
      }
      assert vulns[..i + 1][..i] == vulns[..i];
    }
    assert vulns[..|vulns|] == vulns;
    score := score + |Ports(host)| * 2;
  }

  /** The per-host score is the report's weighted risk score plus two points per
      port, and lies between one and ten points per vulnerability above the port
      points. */
  lemma {:induction false} HostRiskScoreMeaning(h: HostRecord)
    ensures HostRiskScore(h) == RiskScore(Tally(VulnEntries(h))) + 2 * |Ports(h)|
    ensures |VulnEntries(h)| + 2 * |Ports(h)| <= HostRiskScore(h) <= 10 * |VulnEntries(h)| + 2 * |Ports(h)|
  {
    RiskScoreIsWeightSum(VulnEntries(h));
    WeightSumBounds(VulnEntries(h));
  }

  // ---------------------------------------------------------------------------
  // Counter entries
  // ---------------------------------------------------------------------------

  /** `Object.entries(counts)`: `[key, count]` pairs in the given key order. */
  function EntriesOf<K>(counts: map<K, nat>, keys: seq<K>): (r: seq<(K, nat)>)
    requires forall k | k in keys :: k in counts
    ensures |r| == |keys|
    ensures forall i :: 0 <= i < |keys| ==> r[i] == (keys[i], counts[keys[i]])
  {
    if keys == [] then []
    else EntriesOf(counts, keys[..|keys| - 1]) + [(keys[|keys| - 1], counts[keys[|keys| - 1]])]
  }

  /** The filter `count > 1`. */
  predicate IsRepeated<K>(e: (K, nat)) {
    e.1 > 1
  }

  /** The sort key `b[1] - a[1]`: the count. */
  function CountKey<K>(e: (K, nat)): real {
    e.1 as real
  }

  /** The repeated entries of a counter, most frequent first, ties in key order. */
  function CommonEntries<K>(counts: map<K, nat>, keys: seq<K>): seq<(K, nat)>
    requires forall k | k in keys :: k in counts
  {
    SortDesc(Filter(EntriesOf(counts, keys), IsRepeated), CountKey)
  }

  /** What `CommonEntries` must produce for the counts of `xs`: the entries of
      keys that occur at least twice, each with its number of occurrences, and
      no entry twice. */
  ghost predicate RepeatedCounts<K>(xs: seq<K>, r: seq<(K, nat)>) {
    && (forall e | e in r :: e.1 == multiset(xs)[e.0] && e.1 > 1)
    && (forall k | k in xs && multiset(xs)[k] > 1 :: (k, multiset(xs)[k]) in r)
    && NoDuplicates(r)
  }

  /** Before sorting: the filtered entries over distinct keys covering `xs`. */
  lemma {:induction false} RepeatedEntries<K>(xs: seq<K>, keys: seq<K>)
    requires forall k :: k in keys <==> k in xs
    requires NoDuplicates(keys)
    ensures forall k | k in keys :: k in Counts(xs)
    ensures RepeatedCounts(xs, Filter(EntriesOf(Counts(xs), keys), IsRepeated))
  {
    CountsAreMultiplicities(xs);
    var es := EntriesOf(Counts(xs), keys);
    forall e | e in es ensures e.1 == multiset(xs)[e.0] {
      var i :| 0 <= i < |es| && es[i] == e;
    }
    forall k | k in xs && multiset(xs)[k] > 1 ensures (k, multiset(xs)[k]) in es {
      assert k in xs;
      var i :| 0 <= i < |keys| && keys[i] == k;
      assert es[i] == (k, multiset(xs)[k]);
    }
    assert NoDuplicates(es) by {
      forall i, j | 0 <= i < j < |es| ensures es[i] != es[j] {
        assert es[i].0 == keys[i] && es[j].0 == keys[j];
      }
    }
    FilterNoDuplicates(es, IsRepeated);
  }

  /** Counting `xs` over a key order and keeping the repeated entries gives
      exactly the keys that occur at least twice, each once and with its number
      of occurrences, sorted by non-increasing count. */
  lemma {:induction false} CommonEntriesMeaning<K>(xs: seq<K>, keys: seq<K>)
    requires forall k :: k in keys <==> k in xs
    requires NoDuplicates(keys)
    ensures forall k | k in keys :: k in Counts(xs)
    ensures SortedDesc(CommonEntries(Counts(xs), keys), CountKey)
    ensures RepeatedCounts(xs, CommonEntries(Counts(xs), keys))
    ensures forall i, j :: 0 <= i < j < |CommonEntries(Counts(xs), keys)| ==>
      CommonEntries(Counts(xs), keys)[i].0 != CommonEntries(Counts(xs), keys)[j].0
  {
    RepeatedEntries(xs, keys);
    var q := Filter(EntriesOf(Counts(xs), keys), IsRepeated);
    var r := CommonEntries(Counts(xs), keys);
    assert multiset(r) == multiset(q);
    forall e | e in r ensures e in q {
      assert e in multiset(r);
    }
    forall e | e in q ensures e in r {
      assert e in multiset(q);
    }
    PermutationNoDuplicates(q, r);
    forall i, j | 0 <= i < j < |r| ensures r[i].0 != r[j].0 {
      assert r[i] in r && r[j] in r;
    }
  }

  // ---------------------------------------------------------------------------
  // Common ports
  // ---------------------------------------------------------------------------

  /** The ports of all hosts, host by host (a host without `ports` adds none). */
  function AllPorts(hosts: seq<HostRecord>): seq<int> {
    if hosts == [] then [] else AllPorts(hosts[..|hosts| - 1]) + Ports(hosts[|hosts| - 1])
  }

  /** A port whose decimal rendering is an array index: such keys come first in
      an object, in ascending numeric order. */
  predicate IsArrayIndex(p: int) {
    0 <= p < 0xFFFF_FFFF
  }

  predicate IsOtherKey(p: int) {
    !IsArrayIndex(p)
  }

  /** The sort key that puts ports in ascending order. */
  function Ascending(p: int): real {
    -(p as real)
  }

  /** The key order of the port counter: array-index ports ascending, then any
      other port in the order it was first counted. */
  function PortKeyOrder(ports: seq<int>): seq<int> {
    var keys := FirstAppearances(ports);
    SortDesc(Filter(keys, IsArrayIndex), Ascending) + Filter(keys, IsOtherKey)
  }

  /** The port keys in their object order are exactly the distinct ports, the
      array indices among them in ascending order. */
  lemma {:induction false} PortKeyOrderKeys(ports: seq<int>)
    ensures forall k :: k in PortKeyOrder(ports) <==> k in ports
    ensures NoDuplicates(PortKeyOrder(ports))
    ensures forall i, j :: 0 <= i < j < |PortKeyOrder(ports)| && IsArrayIndex(PortKeyOrder(ports)[j]) ==>
      PortKeyOrder(ports)[i] < PortKeyOrder(ports)[j]
  {
    var keys := FirstAppearances(ports);
    var a := Filter(keys, IsArrayIndex);
    var s := SortDesc(a, Ascending);
    var b := Filter(keys, IsOtherKey);
    assert NoDuplicates(keys);
    FilterNoDuplicates(keys, IsArrayIndex);
    FilterNoDuplicates(keys, IsOtherKey);
    PermutationNoDuplicates(a, s);
    PermutationSameElements(a, s);
    AppendNoDuplicates(s, b);
    IndicesThenOthers(s, b);
    assert PortKeyOrder(ports) == s + b;
  }

  /** Distinct array-index ports sorted ascending, followed by other keys: every
      array index comes after all smaller keys. */
  lemma {:induction false} IndicesThenOthers(s: seq<int>, b: seq<int>)
    requires SortedDesc(s, Ascending) && NoDuplicates(s + b)
    requires forall x | x in b :: !IsArrayIndex(x)
    ensures forall i, j :: 0 <= i < j < |s + b| && IsArrayIndex((s + b)[j]) ==> (s + b)[i] < (s + b)[j]
  {
    var o := s + b;
    forall i, j | 0 <= i < j < |o| && IsArrayIndex(o[j]) ensures o[i] < o[j] {
      assert o[i] == s[i] && o[j] == s[j];
    }
  }

  /** `[String(port), count]` for every entry. */
  function Rendered(es: seq<(int, nat)>): (r: seq<(string, nat)>)
    ensures |r| == |es|
    ensures forall i :: 0 <= i < |es| ==> r[i] == (IntToString(es[i].0), es[i].1)
  {
    if es == [] then [] else Rendered(es[..|es| - 1]) + [(IntToString(es[|es| - 1].0), es[|es| - 1].1)]
  }

  /** The entries of the port counter, as numbers, before their keys are
      rendered as strings. */
  function CommonPortCounts(hosts: seq<HostRecord>): seq<(int, nat)> {
    PortKeyOrderKeys(AllPorts(hosts));
    CountsAreMultiplicities(AllPorts(hosts));
    CommonEntries(Counts(AllPorts(hosts)), PortKeyOrder(AllPorts(hosts)))
  }

  /** `findCommonPorts` as a value: the `[String(port), count]` pairs. */
  function CommonPorts(hosts: seq<HostRecord>): seq<(string, nat)> {
    Rendered(CommonPortCounts(hosts))
  }

  /** The ports occurring at least twice across the hosts' port lists, each once
      with its number of occurrences, most shared first. */
  lemma {:induction false} CommonPortsMeaning(hosts: seq<HostRecord>)
    ensures SortedDesc(CommonPortCounts(hosts), CountKey)
    ensures RepeatedCounts(AllPorts(hosts), CommonPortCounts(hosts))
    ensures forall i, j :: 0 <= i < j < |CommonPortCounts(hosts)| ==>
      CommonPortCounts(hosts)[i].0 != CommonPortCounts(hosts)[j].0
  {
    PortKeyOrderKeys(AllPorts(hosts));
    CommonEntriesMeaning(AllPorts(hosts), PortKeyOrder(AllPorts(hosts)));
  }

  /** Each host's `ports` list names every port at most once. The code does not
      rely on this; it is the hypothesis under which occurrences count hosts. */
  predicate DistinctPorts(hosts: seq<HostRecord>) {
    forall i :: 0 <= i < |hosts| ==> NoDuplicates(Ports(hosts[i]))
  }

  /** The number of hosts whose `ports` list holds `port`. */
  function HostsOpening(hosts: seq<HostRecord>, port: int): nat {
    if hosts == [] then 0
    else HostsOpening(hosts[..|hosts| - 1], port) + (if port in Ports(hosts[|hosts| - 1]) then 1 else 0)
  }

  /** With distinct ports per host, counting occurrences counts hosts. */
  lemma {:induction false} PortCountIsHostCount(hosts: seq<HostRecord>, port: int)
    requires DistinctPorts(hosts)
    ensures multiset(AllPorts(hosts))[port] == HostsOpening(hosts, port)
  {
    if hosts != [] {
      var p := hosts[..|hosts| - 1];
      var ps := Ports(hosts[|hosts| - 1]);
      assert DistinctPorts(p) by {
        forall i | 0 <= i < |p| ensures NoDuplicates(Ports(p[i])) {
          assert p[i] == hosts[i];
        }
      }
      PortCountIsHostCount(p, port);
      NoDuplicatesOnce(ps, port);
      assert multiset(AllPorts(hosts)) == multiset(AllPorts(p)) + multiset(ps);
    }
  }

  /** The common ports are the ports open on at least two hosts, each paired
      with the number of hosts opening it. */
  lemma {:induction false} CommonPortsAreSharedPorts(hosts: seq<HostRecord>)
    requires DistinctPorts(hosts)
    ensures forall e | e in CommonPortCounts(hosts) :: e.1 == HostsOpening(hosts, e.0) && e.1 > 1
    ensures forall port | HostsOpening(hosts, port) > 1 :: (port, HostsOpening(hosts, port)) in CommonPortCounts(hosts)
  {
    CommonPortsMeaning(hosts);
    var r := CommonPortCounts(hosts);
    forall e | e in r ensures e.1 == HostsOpening(hosts, e.0) && e.1 > 1 {
      PortCountIsHostCount(hosts, e.0);
    }
    forall port | HostsOpening(hosts, port) > 1 ensures (port, HostsOpening(hosts, port)) in r {
      PortCountIsHostCount(hosts, port);
      assert port in AllPorts(hosts);
    }
  }

  /** The counting loop over the hosts' ports. */
  method CountPorts(hostData: seq<HostRecord>) returns (portCounts: map<int, nat>)
    ensures portCounts == Counts(AllPorts(hostData))
  {
    portCounts := map[];
    for i := 0 to |hostData|
      invariant portCounts == Counts(AllPorts(hostData[..i]))
    {
      assert hostData[..i + 1][..i] == hostData[..i];
      portCounts := CountAll(portCounts, AllPorts(hostData[..i]), Ports(hostData[i]));
    }
    assert hostData[..|hostData|] == hostData;
  }

  /** `findCommonPorts`: the counting loops, then the entries, filtered and
      sorted. */
  method FindCommonPorts(hostData: seq<HostRecord>) returns (common: seq<(string, nat)>)
    ensures common == CommonPorts(hostData)
  {
    var portCounts := CountPorts(hostData);
    PortKeyOrderKeys(AllPorts(hostData));
    CountsAreMultiplicities(AllPorts(hostData));
    common := Rendered(CommonEntries(portCounts, PortKeyOrder(AllPorts(hostData))));
  }

  // ---------------------------------------------------------------------------
  // Common vulnerabilities
  // ---------------------------------------------------------------------------

  /** The vulnerability identifiers of all hosts, host by host. */
  function AllCves(hosts: seq<HostRecord>): seq<string> {
    if hosts == [] then [] else AllCves(hosts[..|hosts| - 1]) + Cves(VulnEntries(hosts[|hosts| - 1]))
  }

  /** `findCommonVulnerabilities` as a value: identifiers in first-counted
      order, filtered and sorted. */
  function CommonVulnerabilities(hosts: seq<HostRecord>): seq<(string, nat)> {
    CountsAreMultiplicities(AllCves(hosts));
    CommonEntries(Counts(AllCves(hosts)), FirstAppearances(AllCves(hosts)))
  }

  /** The identifiers listed by at least two hosts, each once with its count,
      most shared first. */
  lemma {:induction false} CommonVulnerabilitiesMeaning(hosts: seq<HostRecord>)
    ensures SortedDesc(CommonVulnerabilities(hosts), CountKey)
    ensures RepeatedCounts(AllCves(hosts), CommonVulnerabilities(hosts))
    ensures forall i, j :: 0 <= i < j < |CommonVulnerabilities(hosts)| ==>
      CommonVulnerabilities(hosts)[i].0 != CommonVulnerabilities(hosts)[j].0
  {
    var keys := FirstAppearances(AllCves(hosts));
    assert NoDuplicates(keys);
    CommonEntriesMeaning(AllCves(hosts), keys);
  }

  /** Each host's vulnerability table names every identifier at most once, as
      the keys of a JavaScript object always do. */
  predicate DistinctCves(hosts: seq<HostRecord>) {
    forall i :: 0 <= i < |hosts| ==> NoDuplicates(Cves(VulnEntries(hosts[i])))
  }

  /** The number of hosts whose table lists `cve`. */
  function HostsListing(hosts: seq<HostRecord>, cve: string): nat {
    if hosts == [] then 0
    else HostsListing(hosts[..|hosts| - 1], cve) + (if cve in Cves(VulnEntries(hosts[|hosts| - 1])) then 1 else 0)
  }

  /** With distinct keys per host, counting occurrences counts hosts. */
  lemma {:induction false} CveCountIsHostCount(hosts: seq<HostRecord>, cve: string)
    requires DistinctCves(hosts)
    ensures multiset(AllCves(hosts))[cve] == HostsListing(hosts, cve)
  {
    if hosts != [] {
      var p := hosts[..|hosts| - 1];
      var ids := Cves(VulnEntries(hosts[|hosts| - 1]));
      assert DistinctCves(p) by {
        forall i | 0 <= i < |p| ensures NoDuplicates(Cves(VulnEntries(p[i]))) {
          assert p[i] == hosts[i];
        }
      }
      CveCountIsHostCount(p, cve);
      NoDuplicatesOnce(ids, cve);
      assert multiset(AllCves(hosts)) == multiset(AllCves(p)) + multiset(ids);
    }
  }

  /** The common vulnerabilities are the identifiers listed by at least two
      hosts, each paired with the number of hosts listing it. */
  lemma {:induction false} CommonVulnerabilitiesAreSharedCves(hosts: seq<HostRecord>)
    requires DistinctCves(hosts)
    ensures forall e | e in CommonVulnerabilities(hosts) :: e.1 == HostsListing(hosts, e.0) && e.1 > 1
    ensures forall cve | HostsListing(hosts, cve) > 1 :: (cve, HostsListing(hosts, cve)) in CommonVulnerabilities(hosts)
  {
    CommonVulnerabilitiesMeaning(hosts);
    var r := CommonVulnerabilities(hosts);
    forall e | e in r ensures e.1 == HostsListing(hosts, e.0) && e.1 > 1 {
      CveCountIsHostCount(hosts, e.0);
    }
    forall cve | HostsListing(hosts, cve) > 1 ensures (cve, HostsListing(hosts, cve)) in r {
      CveCountIsHostCount(hosts, cve);
      assert cve in AllCves(hosts);
    }
  }

  /** The counting loop over the hosts' vulnerability identifiers. */
  method CountCves(hostData: seq<HostRecord>) returns (vulnCounts: map<string, nat>)
    ensures vulnCounts == Counts(AllCves(hostData))
  {
    vulnCounts := map[];
    for i := 0 to |hostData|
      invariant vulnCounts == Counts(AllCves(hostData[..i]))
    {
      assert hostData[..i + 1][..i] == hostData[..i];
      vulnCounts := CountAll(vulnCounts, AllCves(hostData[..i]), Cves(VulnEntries(hostData[i])));
    }
    assert hostData[..|hostData|] == hostData;
  }

  /** `findCommonVulnerabilities`: the counting loops, then the entries,
      filtered and sorted. */
  method FindCommonVulnerabilities(hostData: seq<HostRecord>) returns (common: seq<(string, nat)>)
    ensures common == CommonVulnerabilities(hostData)
  {
    var vulnCounts := CountCves(hostData);
    CountsAreMultiplicities(AllCves(hostData));
    common := CommonEntries(vulnCounts, FirstAppearances(AllCves(hostData)));
  }

  // ---------------------------------------------------------------------------
  // compareHosts
  // ---------------------------------------------------------------------------

  /** The outcome of looking one address up: the record, or the message of the
      error the lookup threw. */
  datatype Lookup = Lookup(ip: string, outcome: Result<HostRecord, string>)

  /** The record kept for one lookup: a failed one becomes `{ ip_str, error }`. */
  function RecordOf(l: Lookup): (h: HostRecord)
    ensures l.outcome.Failure? ==> h.ip == l.ip && h.error == Some(l.outcome.error)
    ensures l.outcome.Failure? ==> Ports(h) == [] && VulnEntries(h) == []
    ensures l.outcome.Success? ==> h == l.outcome.value
  {
    match l.outcome
    case Success(h) => h
    case Failure(message) => ErrorRecord(l.ip, message)
  }

  /** The records kept for the lookups, in order. */
  function Records(lookups: seq<Lookup>): (r: seq<HostRecord>)
    ensures |r| == |lookups|
    ensures forall i :: 0 <= i < |lookups| ==> r[i] == RecordOf(lookups[i])
  {
    if lookups == [] then [] else Records(lookups[..|lookups| - 1]) + [RecordOf(lookups[|lookups| - 1])]
  }

  /** One row of `comparison.hosts`. */
  datatype HostRow = HostRow(
    ip: string,
    organization: Option<string>,
    country: Option<string>,
    openPorts: nat,
    vulnerabilities: nat,
    lastUpdate: Option<string>,
    error: Option<string>)

  function RowOf(h: HostRecord): (row: HostRow)
    ensures row.openPorts == |Ports(h)| && row.vulnerabilities == |VulnEntries(h)|
    ensures row.ip == h.ip && row.organization == h.org && row.country == h.country
    ensures row.lastUpdate == h.lastUpdate && row.error == h.error
  {
    HostRow(h.ip, h.org, h.country, |Ports(h)|, |Cves(VulnEntries(h))|, h.lastUpdate, h.error)
  }

  /** `hostData.map(...)` building the rows. */
  function Rows(hosts: seq<HostRecord>): (rows: seq<HostRow>)
    ensures |rows| == |hosts|
    ensures forall i :: 0 <= i < |hosts| ==> rows[i] == RowOf(hosts[i])
  {
    if hosts == [] then [] else Rows(hosts[..|hosts| - 1]) + [RowOf(hosts[|hosts| - 1])]
  }

  datatype HostComparison = HostComparison(
    hosts: seq<HostRow>,
    commonPorts: seq<(string, nat)>,
    commonVulnerabilities: seq<(string, nat)>,
    riskComparison: seq<(string, nat)>)

  /** The `for ... of` over the addresses: every lookup leaves one record, a
      failed one the placeholder. */
  method CollectHosts(lookups: seq<Lookup>) returns (hostData: seq<HostRecord>)
    ensures hostData == Records(lookups)
  {
    hostData := [];
    for i := 0 to |lookups|
      invariant |hostData| == i
      invariant forall j :: 0 <= j < i ==> hostData[j] == RecordOf(lookups[j])
    {
      match lookups[i].outcome {
        case Success(data) =>
          hostData := hostData + [data];
        case Failure(message) =>
          hostData := hostData + [ErrorRecord(lookups[i].ip, message)];
      }
    }
  }

  /** `hostData.map(...)` building `riskComparison`: each address with its
      score. */
  method RiskComparison(hostData: seq<HostRecord>) returns (risks: seq<(string, nat)>)
    ensures |risks| == |hostData|
    ensures forall i :: 0 <= i < |hostData| ==> risks[i] == (hostData[i].ip, HostRiskScore(hostData[i]))
  {
    risks := [];
    for i := 0 to |hostData|
      invariant |risks| == i
      invariant forall j :: 0 <= j < i ==> risks[j] == (hostData[j].ip, HostRiskScore(hostData[j]))
    {
      var score := CalculateHostRiskScore(hostData[i]);
      risks := risks + [(hostData[i].ip, score)];
    }
  }

  /** `compareHosts`: one row and one risk score per address, in the order
      given, and the ports and identifiers the records share. */
  method CompareHosts(lookups: seq<Lookup>) returns (comparison: HostComparison)
    ensures comparison.hosts == Rows(Records(lookups))
    ensures |comparison.riskComparison| == |lookups|
    ensures forall i :: 0 <= i < |lookups| ==>
      comparison.riskComparison[i] == (RecordOf(lookups[i]).ip, HostRiskScore(RecordOf(lookups[i])))
    ensures comparison.commonPorts == CommonPorts(Records(lookups))
    ensures comparison.commonVulnerabilities == CommonVulnerabilities(Records(lookups))
  {
    var hostData := CollectHosts(lookups);
    var commonPorts := FindCommonPorts(hostData);
    var commonVulnerabilities := FindCommonVulnerabilities(hostData);
    var risks := RiskComparison(hostData);
    comparison := HostComparison(Rows(hostData), commonPorts, commonVulnerabilities, risks);
  }

  /** A failed lookup still gets a row carrying its error, scores 0 and adds no
      port and no identifier to the shared counts. */
  lemma {:induction false} FailedLookupContributesNothing(lookups: seq<Lookup>, ip: string, message: string)
    ensures HostRiskScore(RecordOf(Lookup(ip, Failure(message)))) == 0
    ensures RowOf(RecordOf(Lookup(ip, Failure(message)))).error == Some(message)
    ensures AllPorts(Records(lookups + [Lookup(ip, Failure(message))])) == AllPorts(Records(lookups))
    ensures AllCves(Records(lookups + [Lookup(ip, Failure(message))])) == AllCves(Records(lookups))
  {
    var ext := lookups + [Lookup(ip, Failure(message))];
    assert ext[..|ext| - 1] == lookups;
    assert Records(ext)[..|ext| - 1] == Records(lookups);
  }
}
