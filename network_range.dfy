/** The aggregation half of `analyzeNetworkRange`: given the search reply for
    the query `net:<cidr>`, one summary row per match, counters of products,
    countries and organisations, and the severity buckets of every vulnerability
    seen. The search itself is a parameter. */
module NetworkRange {
  import opened Wrappers
  import opened HostModel
  import opened Severity
  import opened Counting
  import ShodanApi

  /** One search match, only the properties the aggregation reads; `country` is
      `host.location?.country_name`. */
  datatype SearchMatch = SearchMatch(
    ip: string,
    port: Option<int>,
    org: Option<string>,
    country: Option<string>,
    product: Option<string>,
    vulns: Option<VulnTable>)

  /** The search reply: `total` and `matches` may both be missing. */
  datatype SearchReply = SearchReply(total: Option<int>, matches: Option<seq<SearchMatch>>)

  datatype HostInfo = HostInfo(
    ip: string,
    ports: seq<int>,
    organization: Option<string>,
    country: Option<string>,
    vulns: nat)

  datatype NetworkAnalysis = NetworkAnalysis(
    cidr: string,
    totalHosts: int,
    scannedHosts: nat,
    hosts: seq<HostInfo>,
    commonServices: map<string, nat>,
    vulnerabilitySummary: RiskCounts,
    topCountries: map<string, nat>,
    topOrganizations: map<string, nat>)

  /** The search query for a range. */
  function NetQuery(cidr: string): (q: string)
    ensures |q| == |cidr| + 4 && q[..4] == "net:" && q[4..] == cidr
  {
    "net:" + cidr
  }

  /** The parameters of the one search the analysis sends: `searchHosts` with
      the range query and `page: 1`. */
  function NetSearchParams(cidr: string): ShodanApi.Params {
    ShodanApi.SearchParams(NetQuery(cidr), ShodanApi.SearchOptions(Some(ShodanApi.Num(1)), None, None))
  }

  /** The search asks for `net:<cidr>`, first page, not minified, no facets;
      different ranges give different queries. */
  lemma {:induction false} NetSearchParamsMeaning(cidr: string, other: string)
    ensures ShodanApi.Lookup(NetSearchParams(cidr), "query") == Some(ShodanApi.Str("net:" + cidr))
    ensures ShodanApi.Lookup(NetSearchParams(cidr), "page") == Some(ShodanApi.Num(1))
    ensures ShodanApi.Lookup(NetSearchParams(cidr), "minify") == Some(ShodanApi.Flag(false))
    ensures ShodanApi.Lookup(NetSearchParams(cidr), "facets") == None
    ensures NetSearchParams(cidr) == NetSearchParams(other) <==> cidr == other
  {
    var opts := ShodanApi.SearchOptions(Some(ShodanApi.Num(1)), None, None);
    ShodanApi.SearchParamsMeaning(NetQuery(cidr), opts);
    if NetSearchParams(cidr) == NetSearchParams(other) {
      ShodanApi.SearchParamsMeaning(NetQuery(other), opts);
      assert NetQuery(cidr)[4..] == NetQuery(other)[4..];
    }
  }

  function MatchVulns(m: SearchMatch): VulnTable {
    if m.vulns.Some? then m.vulns.value else []
  }

  /** The row of one match: its port when present and not 0, and the number of
      its vulnerabilities. */
  function HostInfoOf(m: SearchMatch): (h: HostInfo)
    ensures h.ip == m.ip && h.organization == m.org && h.country == m.country
    ensures h.ports == (if m.port.Some? && m.port.value != 0 then [m.port.value] else [])
    ensures h.vulns == |MatchVulns(m)|
  {
    HostInfo(m.ip,
             if m.port.Some? && m.port.value != 0 then [m.port.value] else [],
             m.org, m.country, |Cves(MatchVulns(m))|)
  }

  /** One row per match, in match order. */
  function HostRows(ms: seq<SearchMatch>): (rows: seq<HostInfo>)
    ensures |rows| == |ms|
    ensures forall i :: 0 <= i < |ms| ==> rows[i] == HostInfoOf(ms[i])
  {
    if ms == [] then [] else HostRows(ms[..|ms| - 1]) + [HostInfoOf(ms[|ms| - 1])]
  }

  function ProductOf(m: SearchMatch): Option<string> { m.product }
  function CountryOf(m: SearchMatch): Option<string> { m.country }
  function OrgOf(m: SearchMatch): Option<string> { m.org }

  /** The present, non-empty values of one property over the matches, in match
      order: the keys the counter object is bumped with. */
  function TruthyValues(ms: seq<SearchMatch>, field: SearchMatch -> Option<string>): (r: seq<string>)
    ensures |r| <= |ms|
    ensures forall v | v in r :: v != ""
  {
    if ms == [] then []
    else
      var v := field(ms[|ms| - 1]);
      TruthyValues(ms[..|ms| - 1], field) + (if Truthy(v) then [v.value] else [])
  }

  /** The severity buckets of all vulnerabilities of all matches. */
  function SummaryOf(ms: seq<SearchMatch>): RiskCounts {
    if ms == [] then NoRisk else Plus(SummaryOf(ms[..|ms| - 1]), Tally(MatchVulns(ms[|ms| - 1])))
  }

  /** The total number of vulnerabilities the rows report. */
  function RowVulns(hosts: seq<HostInfo>): nat {
    if hosts == [] then 0 else RowVulns(hosts[..|hosts| - 1]) + hosts[|hosts| - 1].vulns
  }

  /** The inner `forEach` over one match's vulnerabilities. */
  method CountSeverities(summary0: RiskCounts, table: VulnTable) returns (summary: RiskCounts)
    ensures summary == Plus(summary0, Tally(table))
  {
    summary := summary0;
    for i := 0 to |table|
      invariant summary == Plus(summary0, Tally(table[..i]))
    {
      var cvss := if table[i].1.cvss.Some? then table[i].1.cvss.value else 0.0;
      if cvss >= 9.0 {
        summary := summary.(critical := summary.critical + 1);
      } else if cvss >= 7.0 {
        summary := summary.(high := summary.high + 1);
      } else if cvss >= 4.0 {
        summary := summary.(medium := summary.medium + 1);
      } else {
        summary := summary.(low := summary.low + 1);
      }
      assert table[..i + 1][..i] == table[..i];
    }
    assert table[..|table|] == table;
  }

  /** `counts[key] = (counts[key] || 0) + 1` when the key is truthy. */
  function Bumped(counts: map<string, nat>, key: Option<string>): map<string, nat> {
    if Truthy(key) then Increment(counts, key.value) else counts
  }

  /** Counting one more match bumps the counter with that match's value. */
  lemma {:induction false} CountStep(ms: seq<SearchMatch>, i: int, field: SearchMatch -> Option<string>)
    requires 0 <= i < |ms|
    ensures Counts(TruthyValues(ms[..i + 1], field)) == Bumped(Counts(TruthyValues(ms[..i], field)), field(ms[i]))
  {
    assert ms[..i + 1][..i] == ms[..i];
    var p := TruthyValues(ms[..i], field);
    var v := field(ms[i]);
    if Truthy(v) {
      assert (p + [v.value])[..|p|] == p;
    } else {
      assert p + [] == p;
    }
  }

  /** One more match adds its row and its severity tally. */
  lemma {:induction false} AggregateStep(ms: seq<SearchMatch>, i: int)
    requires 0 <= i < |ms|
    ensures HostRows(ms[..i + 1]) == HostRows(ms[..i]) + [HostInfoOf(ms[i])]
    ensures SummaryOf(ms[..i + 1]) == Plus(SummaryOf(ms[..i]), Tally(MatchVulns(ms[i])))
  {
    assert ms[..i + 1][..i] == ms[..i];
  }

  /** The outer `forEach` over the matches. */
  method Aggregate(ms: seq<SearchMatch>)
    returns (hosts: seq<HostInfo>, services: map<string, nat>, summary: RiskCounts,
             countries: map<string, nat>, orgs: map<string, nat>)
    ensures hosts == HostRows(ms)
    ensures services == Counts(TruthyValues(ms, ProductOf))
    ensures countries == Counts(TruthyValues(ms, CountryOf))
    ensures orgs == Counts(TruthyValues(ms, OrgOf))
    ensures summary == SummaryOf(ms)
  {
    hosts, services, summary, countries, orgs := [], map[], NoRisk, map[], map[];
    for i := 0 to |ms|
      invariant hosts == HostRows(ms[..i])
      invariant services == Counts(TruthyValues(ms[..i], ProductOf))
      invariant countries == Counts(TruthyValues(ms[..i], CountryOf))
      invariant orgs == Counts(TruthyValues(ms[..i], OrgOf))
      invariant summary == SummaryOf(ms[..i])
    {
      var host := ms[i];
      hosts := hosts + [HostInfoOf(host)];
      services := Bumped(services, host.product);
      summary := CountSeverities(summary, MatchVulns(host));
      countries := Bumped(countries, host.country);
      orgs := Bumped(orgs, host.org);
      AggregateStep(ms, i);
      CountStep(ms, i, ProductOf);
      CountStep(ms, i, CountryOf);
      CountStep(ms, i, OrgOf);
    }
    assert ms[..|ms|] == ms;
  }

  /** The search sent for the range (`sent`) and, from its reply, the matches
      (none when missing), counted, with `total || 0`. A failed search surfaces as `Network analysis failed: <message>`. */
  method AnalyzeNetworkRange(cidr: string, reply: Result<SearchReply, string>)
    returns (sent: ShodanApi.Params, r: Result<NetworkAnalysis, string>)
    ensures sent == NetSearchParams(cidr)
    ensures reply.Failure? ==> r == Failure("Network analysis failed: " + reply.error)
    ensures reply.Success? ==> r.Success?
    ensures reply.Success? ==> var ms := Matches(reply.value);
      && r.value.cidr == cidr
      && r.value.totalHosts == (if reply.value.total.Some? then reply.value.total.value else 0)
      && r.value.scannedHosts == |ms|
      && r.value.hosts == HostRows(ms)
      && r.value.commonServices == Counts(TruthyValues(ms, ProductOf))
      && r.value.topCountries == Counts(TruthyValues(ms, CountryOf))
      && r.value.topOrganizations == Counts(TruthyValues(ms, OrgOf))
      && r.value.vulnerabilitySummary == SummaryOf(ms)
  {
    sent := NetSearchParams(cidr);
    if reply.Failure? {
      return sent, Failure("Network analysis failed: " + reply.error);
    }
    var results := reply.value;
    var ms := Matches(results);
    var hosts, services, summary, countries, orgs := Aggregate(ms);
    r := Success(NetworkAnalysis(
      cidr,
      if results.total.Some? then results.total.value else 0,
      |ms|,
      hosts,
      services,
      summary,
      countries,
      orgs));
  }

  /** `searchResults.matches || []`. */
  function Matches(reply: SearchReply): seq<SearchMatch> {
    if reply.matches.Some? then reply.matches.value else []
  }

  // ---------------------------------------------------------------------------
  // Properties
  // ---------------------------------------------------------------------------

  /** Every vulnerability of every match is counted in exactly one bucket: the
      summary adds up to the vulnerability counts of the rows. */
  lemma {:induction false} SummaryCountsEveryVulnerability(ms: seq<SearchMatch>)
    ensures Total(SummaryOf(ms))
         == RowVulns(HostRows(ms))
  {
    var rows := HostRows(ms);
    if ms != [] {
      var p := ms[..|ms| - 1];
      SummaryCountsEveryVulnerability(p);
      TallyCounts(MatchVulns(ms[|ms| - 1]));
      assert rows[..|rows| - 1] == HostRows(p);
    }
  }

  /** A product, country or organisation appears in its counter exactly when
      some match carries it, with the number of matches that do. */
  lemma {:induction false} CounterMeaning(ms: seq<SearchMatch>, field: SearchMatch -> Option<string>, name: string)
    ensures name in Counts(TruthyValues(ms, field)) <==> name in TruthyValues(ms, field)
    ensures name in Counts(TruthyValues(ms, field)) ==>
      Counts(TruthyValues(ms, field))[name] == multiset(TruthyValues(ms, field))[name]
    ensures "" !in Counts(TruthyValues(ms, field))
  {
    CountsAreMultiplicities(TruthyValues(ms, field));
  }
}
