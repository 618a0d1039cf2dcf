/** `analyzeVulnerabilities`: one finding per entry of the host's vulnerability
    table, the per-bucket counters, the weighted risk score and its level, and
    the findings ordered by falling CVSS score. */
module VulnAnalysis {
  import opened Wrappers
  import opened HostModel
  import opened Severity
  import opened StableSort

  /** One reported vulnerability. */
  datatype Finding = Finding(
    cve: string,
    cvss: real,
    summary: string,
    verified: bool,
    references: seq<string>,
    severity: Rating)

  /** The projection of a service the report lists. */
  datatype ServiceView = ServiceView(
    port: int,
    protocol: string,
    product: Option<string>,
    version: Option<string>,
    banner: Option<string>)

  datatype VulnReport = VulnReport(
    ip: string,
    hostname: seq<string>,
    totalVulnerabilities: nat,
    vulnerabilities: seq<Finding>,
    riskDistribution: RiskCounts,
    overallRiskScore: nat,
    riskLevel: Rating,
    lastScan: Option<string>,
    ports: seq<int>,
    services: seq<ServiceView>)

  /** The finding built from one `[cve, details]` entry: a missing score is 0, a
      missing or empty summary is replaced, missing references are an empty
      list, and the severity is the score's bucket. */
  function MakeFinding(cve: string, d: VulnDetail): (f: Finding)
    ensures f.cve == cve && f.cvss == Cvss(d) && f.verified == d.verified
    ensures f.severity == SeverityOf(f.cvss)
    ensures Truthy(d.summary) ==> f.summary == d.summary.value
    ensures !Truthy(d.summary) ==> f.summary == "No description available"
    ensures d.references.Some? ==> f.references == d.references.value
    ensures d.references.None? ==> f.references == []
  {
    Finding(cve, Cvss(d),
            if Truthy(d.summary) then d.summary.value else "No description available",
            d.verified,
            if d.references.Some? then d.references.value else [],
            SeverityOf(Cvss(d)))
  }

  /** The findings of a table, in table order: the i-th finding is built from
      the i-th entry. */
  function Findings(t: VulnTable): (fs: seq<Finding>)
    ensures |fs| == |t|
    ensures forall i :: 0 <= i < |t| ==> fs[i] == MakeFinding(t[i].0, t[i].1)
  {
    if t == [] then [] else Findings(t[..|t| - 1]) + [MakeFinding(t[|t| - 1].0, t[|t| - 1].1)]
  }

  /** The sort key of a finding. */
  function CvssOf(f: Finding): real {
    f.cvss
  }

  function ViewOf(s: Service): ServiceView {
    ServiceView(s.port, s.transport, s.product, s.version, s.banner)
  }

  function ServiceViews(ss: seq<Service>): (vs: seq<ServiceView>)
    ensures |vs| == |ss|
    ensures forall i :: 0 <= i < |ss| ==> vs[i] == ViewOf(ss[i])
  {
    if ss == [] then [] else ServiceViews(ss[..|ss| - 1]) + [ViewOf(ss[|ss| - 1])]
  }

  /** The `for` loop of `analyzeVulnerabilities`: one finding per entry, each
      counted in the bucket of its score. */
  method ClassifyEntries(entries: VulnTable) returns (vulnerabilities: seq<Finding>, riskScore: RiskCounts)
    ensures vulnerabilities == Findings(entries)
    ensures riskScore == Tally(entries)
  {
    vulnerabilities := [];
    riskScore := NoRisk;
    for i := 0 to |entries|
      invariant vulnerabilities == Findings(entries[..i])
      invariant riskScore == Tally(entries[..i])
    {
      var (cve, details) := entries[i];
      var cvss := if details.cvss.Some? then details.cvss.value else 0.0;
      var severity: Rating;
      if cvss >= 9.0 {
        severity := Critical;
        riskScore := riskScore.(critical := riskScore.critical + 1);
      } else if cvss >= 7.0 {
        severity := High;
        riskScore := riskScore.(high := riskScore.high + 1);
      } else if cvss >= 4.0 {
        severity := Medium;
        riskScore := riskScore.(medium := riskScore.medium + 1);
      } else {
        severity := Low;
        riskScore := riskScore.(low := riskScore.low + 1);
      }
      var summary := if details.summary.Some? && details.summary.value != ""
                     then details.summary.value else "No description available";
      var references := if details.references.Some? then details.references.value else [];
      vulnerabilities := vulnerabilities + [Finding(cve, cvss, summary, details.verified, references, severity)];
      assert entries[..i + 1][..i] == entries[..i];
    }
    assert entries[..|entries|] == entries;
  }

  /** The report as a value, built from the specification of each part. */
  function VulnReportOf(host: HostRecord): VulnReport {
    var t := VulnEntries(host);
    VulnReport(
      host.ip,
      if host.hostnames.Some? then host.hostnames.value else [],
      |t|,
      SortDesc(Findings(t), CvssOf),
      Tally(t),
      RiskScore(Tally(t)),
      RiskLevel(RiskScore(Tally(t))),
      host.lastUpdate,
      Ports(host),
      ServiceViews(Services(host)))
  }

  /** Classifies the table (absent: no findings), weighs the counters and sorts
      the findings by non-increasing CVSS (stable). */
  method AnalyzeVulnerabilities(host: HostRecord) returns (r: VulnReport)
    ensures r.totalVulnerabilities == |VulnEntries(host)|
    ensures r.riskDistribution == Tally(VulnEntries(host))
    ensures r.overallRiskScore == RiskScore(r.riskDistribution)
    ensures r.riskLevel == RiskLevel(r.overallRiskScore)
    ensures r.vulnerabilities == SortDesc(Findings(VulnEntries(host)), CvssOf)
    ensures r.ip == host.ip && r.lastScan == host.lastUpdate && r.ports == Ports(host)
    ensures r.hostname == (if host.hostnames.Some? then host.hostnames.value else [])
    ensures r.services == ServiceViews(Services(host))
    ensures r == VulnReportOf(host)
  {
    // An absent table is walked as an empty one.
    var vulnerabilities, riskScore := ClassifyEntries(VulnEntries(host));
    var totalScore := riskScore.critical * 10 + riskScore.high * 7 + riskScore.medium * 4 + riskScore.low * 1;
    r := VulnReport(
      host.ip,
      if host.hostnames.Some? then host.hostnames.value else [],
      |vulnerabilities|,
      SortDesc(vulnerabilities, CvssOf),
      riskScore,
      totalScore,
      RiskLevel(totalScore),
      host.lastUpdate,
      Ports(host),
      ServiceViews(Services(host)));
  }

  /** The reported list holds exactly one finding per table entry, each with the
      bucket of its own score, ordered by non-increasing score, and findings of
      equal score keep their table order. */
  lemma {:induction false} ReportedFindings(t: VulnTable)
    ensures var fs := SortDesc(Findings(t), CvssOf);
      && |fs| == |t|
      && multiset(fs) == multiset(Findings(t))
      && (forall i :: 0 <= i < |fs| ==> fs[i].severity == SeverityOf(fs[i].cvss))
      && (forall i, j :: 0 <= i < j < |fs| ==> fs[i].cvss >= fs[j].cvss)
      && (forall c :: OfKey(fs, CvssOf, c) == OfKey(Findings(t), CvssOf, c))
  {
    var fs := SortDesc(Findings(t), CvssOf);
    SortDescLength(Findings(t), CvssOf);
    forall i | 0 <= i < |fs| ensures fs[i].severity == SeverityOf(fs[i].cvss) {
      assert fs[i] in multiset(Findings(t));
      var k :| 0 <= k < |t| && Findings(t)[k] == fs[i];
    }
  }

  /** The worked example: a 9.8 and a 5.0 give one critical and one medium and
      a score of 14, which is below the medium threshold of 15: the level is low. */
  lemma {:induction false} TwoVulnerabilityExample()
    ensures var t := [("CVE-A", VulnDetail(Some(9.8), None, false, None)),
                      ("CVE-B", VulnDetail(Some(5.0), None, false, None))];
      && Tally(t) == RiskCounts(0, 1, 0, 1)
      && RiskScore(Tally(t)) == 14
      && RiskLevel(RiskScore(Tally(t))) == Low
  {
    var t := [("CVE-A", VulnDetail(Some(9.8), None, false, None)),
              ("CVE-B", VulnDetail(Some(5.0), None, false, None))];
    assert t[..1] == [t[0]];
    assert t[..1][..0] == [];
  }
}
