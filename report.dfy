/** `generateReport` and its two text renderings: the report object assembled
    from the vulnerability and posture analyses, and the one-row CSV table and
    the fixed XML document built from its target and summary. The generation
    time is a parameter. */
module Reports {
  import opened Wrappers
  import opened JsText
  import opened HostModel
  import opened Severity
  import VulnAnalysis
  import Posture

  datatype Location = Location(
    country: Option<string>,
    city: Option<string>,
    region: Option<string>,
    coordinates: (Option<real>, Option<real>))

  datatype Target = Target(
    ip: string,
    hostnames: seq<string>,
    organization: Option<string>,
    isp: Option<string>,
    location: Location)

  datatype Summary = Summary(
    totalPorts: nat,
    totalVulnerabilities: nat,
    riskLevel: Rating,
    securityScore: nat,
    lastScan: Option<string>)

  /** One element of `report.services`; the banner is the text line 170
      produces, `"undefined..."` for a service without one. */
  datatype ServiceSummary = ServiceSummary(
    port: int,
    protocol: string,
    product: Option<string>,
    version: Option<string>,
    banner: string,
    timestamp: Option<string>)

  datatype Report = Report(
    generatedAt: string,
    target: Target,
    summary: Summary,
    vulnerabilities: VulnAnalysis.VulnReport,
    security: Posture.PostureReport,
    services: seq<ServiceSummary>,
    tags: seq<string>)

  /** What `generateReport` returns: the object itself, or its CSV or XML text. */
  datatype ReportOutput = JsonReport(report: Report) | CsvText(csv: string) | XmlText(xml: string)

  // ---------------------------------------------------------------------------
  // Banner preview
  // ---------------------------------------------------------------------------

  /** `banner?.substring(0, 200) + '...'` as written: a missing banner becomes
      `undefined`, which the concatenation renders as text. */
  function BannerAsWritten(banner: Option<string>): (r: string)
    ensures 3 <= |r| <= 203 && r[|r| - 3..] == "..."
    ensures banner.Some? ==> r[..|r| - 3] == Prefix(banner.value, 200)
  {
    var p := if banner.Some? then Prefix(banner.value, 200) else "undefined";
    assert (p + "...")[..|p|] == p;
    p + "..."
  }

  /** A service without a banner is shown exactly like one whose banner is the
      word `undefined`. */
  lemma {:induction false} MissingBannerLooksLikeText()
    ensures BannerAsWritten(None) == "undefined..."
    ensures BannerAsWritten(None) == BannerAsWritten(Some("undefined"))
  {
  }

  /** The preview the template evidently means: the first 200 characters and an
      ellipsis when there is a banner, nothing when there is none. */
  function BannerPreview(banner: Option<string>): (r: Option<string>)
    ensures r.None? <==> banner.None?
    ensures r.Some? ==> 3 <= |r.value| <= 203 && r.value[|r.value| - 3..] == "..."
    ensures r.Some? ==> r.value[..|r.value| - 3] <= banner.value
    ensures r.Some? && |banner.value| <= 200 ==> r.value[..|r.value| - 3] == banner.value
    ensures r.Some? && |banner.value| > 200 ==> r.value == banner.value[..200] + "..."
  {
    if banner.Some? then
      var p := Prefix(banner.value, 200);
      assert (p + "...")[..|p|] == p;
      Some(p + "...")
    else None
  }

  function ServiceSummaryOf(s: Service): ServiceSummary {
    ServiceSummary(s.port, s.transport, s.product, s.version, BannerAsWritten(s.banner), s.timestamp)
  }

  /** Where there is a banner, the text as written and the corrected preview
      agree; they differ only for a missing banner. */
  lemma {:induction false} BannerPreviewAgrees(banner: Option<string>)
    ensures banner.Some? <==> BannerPreview(banner) == Some(BannerAsWritten(banner))
  {
    if banner.None? {
      MissingBannerLooksLikeText();
    }
  }

  /** `hostData.data?.map(...) || []`. */
  function ServiceSummaries(ss: seq<Service>): (r: seq<ServiceSummary>)
    ensures |r| == |ss|
    ensures forall i :: 0 <= i < |ss| ==> r[i] == ServiceSummaryOf(ss[i])
    ensures forall i :: 0 <= i < |ss| && ss[i].banner.None? ==> r[i].banner == "undefined..."
    ensures forall i :: 0 <= i < |ss| && ss[i].banner.Some? ==> Some(r[i].banner) == BannerPreview(ss[i].banner)
  {
    if ss == [] then [] else ServiceSummaries(ss[..|ss| - 1]) + [ServiceSummaryOf(ss[|ss| - 1])]
  }

  // ---------------------------------------------------------------------------
  // CSV
  // ---------------------------------------------------------------------------

  /** `x || ''` on an optional string. */
  function OrEmpty(o: Option<string>): (r: string)
    ensures o.Some? ==> r == o.value
    ensures o.None? ==> r == ""
  {
    if o.Some? then o.value else ""
  }

  function CsvHeaders(): seq<string> {
    ["IP", "Organization", "Country", "Open Ports", "Vulnerabilities", "Risk Level"]
  }

  /** The six values of the data row, numbers in decimal. */
  function CsvFields(report: Report): (fields: seq<string>)
    ensures |fields| == 6
  {
    [report.target.ip,
     OrEmpty(report.target.organization),
     OrEmpty(report.target.location.country),
     NatToString(report.summary.totalPorts),
     NatToString(report.summary.totalVulnerabilities),
     report.summary.riskLevel.Label()]
  }

  /** `convertToCSV`: the header line and the data row, comma-joined, on two
      lines. */
  function ConvertToCSV(report: Report): (r: string)
    ensures |r| > |Join(CsvHeaders(), ',')|
    ensures r[..|Join(CsvHeaders(), ',')| + 1] == Join(CsvHeaders(), ',') + "\n"
  {
    assert (Join(CsvHeaders(), ',') + "\n" + Join(CsvFields(report), ','))[..|Join(CsvHeaders(), ',')| + 1]
        == Join(CsvHeaders(), ',') + "\n";
    Join([Join(CsvHeaders(), ','), Join(CsvFields(report), ',')], '\n')
  }

  /** A value that does not break a comma-separated line. */
  predicate CsvSafe(s: string) {
    ',' !in s && '\n' !in s
  }

  /** Reading the CSV back: two lines, the header's six names, and the six
      values, the counts read back as the numbers they render, as long as the
      address, organisation and country hold no comma and no line break (the
      values are not quoted). */
  lemma {:induction false} CsvRoundTrip(report: Report)
    requires CsvSafe(report.target.ip)
    requires CsvSafe(OrEmpty(report.target.organization))
    requires CsvSafe(OrEmpty(report.target.location.country))
    ensures |Split(ConvertToCSV(report), '\n')| == 2
    ensures Split(Split(ConvertToCSV(report), '\n')[0], ',') == CsvHeaders()
    ensures Split(Split(ConvertToCSV(report), '\n')[1], ',') == CsvFields(report)
    ensures var row := Split(Split(ConvertToCSV(report), '\n')[1], ',');
      && row[0] == report.target.ip
      && AllDigits(row[3]) && DigitsValue(row[3]) == report.summary.totalPorts
      && AllDigits(row[4]) && DigitsValue(row[4]) == report.summary.totalVulnerabilities
      && row[5] == report.summary.riskLevel.Label()
  {
    HeaderLine();
    DataLine(report);
    SplitJoin([Join(CsvHeaders(), ','), Join(CsvFields(report), ',')], '\n');
    DigitsValueNatToString(report.summary.totalPorts);
    DigitsValueNatToString(report.summary.totalVulnerabilities);
  }

  /** The header line splits back into the six names and is one line. */
  lemma {:induction false} HeaderLine()
    ensures Split(Join(CsvHeaders(), ','), ',') == CsvHeaders()
    ensures '\n' !in Join(CsvHeaders(), ',')
  {
    var h := CsvHeaders();
    assert forall i :: 0 <= i < 6 ==> CsvSafe(h[i]);
    SplitJoin(h, ',');
    JoinKeepsOut(h, ',', '\n');
  }

  /** The data row splits back into its six values and is one line. */
  lemma {:induction false} DataLine(report: Report)
    requires CsvSafe(report.target.ip)
    requires CsvSafe(OrEmpty(report.target.organization))
    requires CsvSafe(OrEmpty(report.target.location.country))
    ensures Split(Join(CsvFields(report), ','), ',') == CsvFields(report)
    ensures '\n' !in Join(CsvFields(report), ',')
  {
    var fields := CsvFields(report);
    NumberIsCsvSafe(report.summary.totalPorts);
    NumberIsCsvSafe(report.summary.totalVulnerabilities);
    LabelIsCsvSafe(report.summary.riskLevel);
    assert forall i :: 0 <= i < 6 ==> CsvSafe(fields[i]);
    SplitJoin(fields, ',');
    JoinKeepsOut(fields, ',', '\n');
  }

  lemma {:induction false} NumberIsCsvSafe(n: nat)
    ensures CsvSafe(NatToString(n))
  {
  }

  lemma {:induction false} LabelIsCsvSafe(r: Rating)
    ensures CsvSafe(r.Label())
  {
  }

  /** Joining parts that all avoid a character `c` other than the separator
      gives a string that avoids `c`. */
  lemma {:induction false} JoinKeepsOut(parts: seq<string>, sep: char, c: char)
    requires sep != c
    requires forall i :: 0 <= i < |parts| ==> c !in parts[i]
    ensures c !in Join(parts, sep)
  {
    if |parts| > 1 {
      JoinKeepsOut(parts[1..], sep, c);
      assert c !in parts[0];
    }
  }

  // ---------------------------------------------------------------------------
  // XML
  // ---------------------------------------------------------------------------

  /** `<tag>text</tag>`: the opening tag, the text, the closing tag. */
  function Element(tag: string, text: string): (r: string)
    ensures |r| == 2 * |tag| + |text| + 5
    ensures r[..|tag| + 2] == "<" + tag + ">"
    ensures r[|tag| + 2..|tag| + 2 + |text|] == text
    ensures r[|r| - |tag| - 3..] == "</" + tag + ">"
  {
    var open, close := "<" + tag + ">", "</" + tag + ">";
    var r := open + text + close;
    assert r[..|open|] == open;
    assert r[|open|..|open| + |text|] == text;
    assert r[|r| - |close|..] == close;
    r
  }

  /** The text of an element line indented by `indent` spaces: the inverse of
      building the line (empty for a line too short to hold the tags). */
  function ElementText(line: string, indent: nat, tag: string): string {
    if |line| >= indent + 2 * |tag| + 5 then line[indent + |tag| + 2..|line| - |tag| - 3] else ""
  }

  /** An element on its own line, indented by four spaces. */
  function ElementLine(tag: string, text: string): (line: string)
    ensures |line| == 2 * |tag| + |text| + 9
  {
    "    " + Element(tag, text)
  }

  lemma {:induction false} OneLine(tag: string, text: string)
    requires '\n' !in tag && '\n' !in text
    ensures '\n' !in ElementLine(tag, text)
  {
  }

  lemma {:induction false} ElementTextOfElement(tag: string, text: string)
    ensures ElementText(ElementLine(tag, text), 4, tag) == text
  {
    var line := ElementLine(tag, text);
    assert line == "    <" + tag + ">" + text + ("</" + tag + ">");
  }

  const XmlDeclaration := "<?xml version=\"1.0\" encoding=\"UTF-8\"?>"

  /** The fixed lines hold no line break. */
  lemma {:induction false} FixedLines()
    ensures '\n' !in XmlDeclaration && '\n' !in "<report>" && '\n' !in "</report>"
    ensures '\n' !in "  <target>" && '\n' !in "  </target>"
    ensures '\n' !in "  <summary>" && '\n' !in "  </summary>"
  {
  }

  /** The lines of the template, in order. */
  function XmlLines(report: Report): (lines: seq<string>)
    ensures |lines| == 13
  {
    [XmlDeclaration,
     "<report>",
     "  <target>",
     ElementLine("ip", report.target.ip),
     ElementLine("organization", OrEmpty(report.target.organization)),
     ElementLine("country", OrEmpty(report.target.location.country)),
     "  </target>",
     "  <summary>",
     ElementLine("totalPorts", NatToString(report.summary.totalPorts)),
     ElementLine("totalVulnerabilities", NatToString(report.summary.totalVulnerabilities)),
     ElementLine("riskLevel", report.summary.riskLevel.Label()),
     "  </summary>",
     "</report>"]
  }

  /** `convertToXML`: the template, its lines joined by line breaks. */
  function ConvertToXML(report: Report): (r: string)
    ensures |r| > |XmlDeclaration|
    ensures r[..|XmlDeclaration| + 1] == XmlDeclaration + "\n"
  {
    var rest := Join(XmlLines(report)[1..], '\n');
    assert (XmlDeclaration + "\n" + rest)[..|XmlDeclaration| + 1] == XmlDeclaration + "\n";
    Join(XmlLines(report), '\n')
  }

  /** Reading the XML back line by line gives the template's thirteen lines,
      as long as the address, organisation and country hold no line break (the
      values are not escaped). */
  lemma {:induction false} XmlRoundTrip(report: Report)
    requires '\n' !in report.target.ip
    requires '\n' !in OrEmpty(report.target.organization)
    requires '\n' !in OrEmpty(report.target.location.country)
    ensures Split(ConvertToXML(report), '\n') == XmlLines(report)
  {
    FixedLines();
    TargetLines(report);
    SummaryLines(report);
    var lines := XmlLines(report);
    assert forall i | 0 <= i < 13 :: '\n' !in lines[i];
    SplitJoin(lines, '\n');
  }

  lemma {:induction false} TargetLines(report: Report)
    requires '\n' !in report.target.ip
    requires '\n' !in OrEmpty(report.target.organization)
    requires '\n' !in OrEmpty(report.target.location.country)
    ensures forall i | 3 <= i < 6 :: '\n' !in XmlLines(report)[i]
  {
    OneLine("ip", report.target.ip);
    OneLine("organization", OrEmpty(report.target.organization));
    OneLine("country", OrEmpty(report.target.location.country));
  }

  lemma {:induction false} SummaryLines(report: Report)
    ensures forall i | 8 <= i < 11 :: '\n' !in XmlLines(report)[i]
  {
    NumberIsCsvSafe(report.summary.totalPorts);
    NumberIsCsvSafe(report.summary.totalVulnerabilities);
    LabelIsCsvSafe(report.summary.riskLevel);
    OneLine("totalPorts", NatToString(report.summary.totalPorts));
    OneLine("totalVulnerabilities", NatToString(report.summary.totalVulnerabilities));
    OneLine("riskLevel", report.summary.riskLevel.Label());
  }

  /** The XML opens with its declaration, and the text of each target element
      line is the value it was built from. */
  lemma {:induction false} XmlTargetTexts(report: Report)
    ensures XmlLines(report)[0] == XmlDeclaration
    ensures ElementText(XmlLines(report)[3], 4, "ip") == report.target.ip
    ensures ElementText(XmlLines(report)[4], 4, "organization") == OrEmpty(report.target.organization)
    ensures ElementText(XmlLines(report)[5], 4, "country") == OrEmpty(report.target.location.country)
  {
    var lines := XmlLines(report);
    assert lines[3] == ElementLine("ip", report.target.ip);
    assert lines[4] == ElementLine("organization", OrEmpty(report.target.organization));
    assert lines[5] == ElementLine("country", OrEmpty(report.target.location.country));
    ElementTextOfElement("ip", report.target.ip);
    ElementTextOfElement("organization", OrEmpty(report.target.organization));
    ElementTextOfElement("country", OrEmpty(report.target.location.country));
  }

  /** The summary's element lines: the counts as their decimal renderings,
      which read back as the counts, and the level as its label. */
  lemma {:induction false} XmlSummaryTexts(report: Report)
    ensures ElementText(XmlLines(report)[8], 4, "totalPorts") == NatToString(report.summary.totalPorts)
    ensures ElementText(XmlLines(report)[9], 4, "totalVulnerabilities")
      == NatToString(report.summary.totalVulnerabilities)
    ensures DigitsValue(NatToString(report.summary.totalPorts)) == report.summary.totalPorts
    ensures DigitsValue(NatToString(report.summary.totalVulnerabilities)) == report.summary.totalVulnerabilities
    ensures ElementText(XmlLines(report)[10], 4, "riskLevel") == report.summary.riskLevel.Label()
  {
    var lines := XmlLines(report);
    assert lines[8] == ElementLine("totalPorts", NatToString(report.summary.totalPorts));
    assert lines[9] == ElementLine("totalVulnerabilities", NatToString(report.summary.totalVulnerabilities));
    assert lines[10] == ElementLine("riskLevel", report.summary.riskLevel.Label());
    ElementTextOfElement("totalPorts", NatToString(report.summary.totalPorts));
    ElementTextOfElement("totalVulnerabilities", NatToString(report.summary.totalVulnerabilities));
    ElementTextOfElement("riskLevel", report.summary.riskLevel.Label());
    DigitsValueNatToString(report.summary.totalPorts);
    DigitsValueNatToString(report.summary.totalVulnerabilities);
  }

  // ---------------------------------------------------------------------------
  // generateReport
  // ---------------------------------------------------------------------------

  /** The report's `target`. */
  function TargetOf(host: HostRecord): Target {
    Target(
      host.ip,
      if host.hostnames.Some? then host.hostnames.value else [],
      host.org,
      host.isp,
      Location(host.country, host.city, host.region, (host.longitude, host.latitude)))
  }

  /** `generateReport`: both analyses, the report object, then the format
      dispatch (`csv`, `xml`, anything else the object itself). */
  method GenerateReport(host: HostRecord, format: string, generatedAt: string) returns (out: ReportOutput)
    ensures format == "csv" ==> out.CsvText?
    ensures format == "xml" ==> out.XmlText?
    ensures format != "csv" && format != "xml" ==> out.JsonReport?
    ensures var report := ReportOf(host, generatedAt);
      && (out.CsvText? ==> out.csv == ConvertToCSV(report))
      && (out.XmlText? ==> out.xml == ConvertToXML(report))
      && (out.JsonReport? ==> out.report == report)
  {
    var vulnerabilityAnalysis := VulnAnalysis.AnalyzeVulnerabilities(host);
    var securityAnalysis := Posture.AnalyzeSecurityPosture(host);
    var report := Report(
      generatedAt,
      TargetOf(host),
      Summary(
        |Ports(host)|,
        vulnerabilityAnalysis.totalVulnerabilities,
        vulnerabilityAnalysis.riskLevel,
        securityAnalysis.securityScore,
        host.lastUpdate),
      vulnerabilityAnalysis,
      securityAnalysis,
      ServiceSummaries(Services(host)),
      Tags(host));
    if format == "csv" {
      out := CsvText(ConvertToCSV(report));
    } else if format == "xml" {
      out := XmlText(ConvertToXML(report));
    } else {
      out := JsonReport(report);
    }
  }

  /** The report `generateReport` assembles for a host. */
  function ReportOf(host: HostRecord, generatedAt: string): Report {
    var v := VulnAnalysis.VulnReportOf(host);
    var p := Posture.PostureOf(host);
    Report(generatedAt, TargetOf(host),
           Summary(|Ports(host)|, v.totalVulnerabilities, v.riskLevel, p.securityScore, host.lastUpdate),
           v, p, ServiceSummaries(Services(host)), Tags(host))
  }

  /** The report's counts: the host's port count, the number of vulnerability
      entries, and one service summary per service. */
  lemma {:induction false} ReportCounts(host: HostRecord, generatedAt: string)
    ensures ReportOf(host, generatedAt).summary.totalPorts == |Ports(host)|
    ensures ReportOf(host, generatedAt).summary.totalVulnerabilities == |VulnEntries(host)|
    ensures |ReportOf(host, generatedAt).services| == |Services(host)|
  {
    var v := VulnAnalysis.VulnReportOf(host);
    assert ReportOf(host, generatedAt).summary.totalVulnerabilities == v.totalVulnerabilities;
  }

  /** The report's level is the level of the weighted counts of the host's
      entries. */
  lemma {:induction false} ReportLevel(host: HostRecord, generatedAt: string)
    ensures var t := VulnEntries(host);
      ReportOf(host, generatedAt).summary.riskLevel
      == RiskLevel(10 * CountRated(t, Critical) + 7 * CountRated(t, High) + 4 * CountRated(t, Medium)
                   + CountRated(t, Low))
  {
    var v := VulnAnalysis.VulnReportOf(host);
    assert ReportOf(host, generatedAt).summary.riskLevel == v.riskLevel;
    WeightedRiskLevel(host);
  }

  /** The report's score is the posture score: the penalties taken from 100,
      clamped at 0, so always within 0..100. */
  lemma {:induction false} ReportScore(host: HostRecord, generatedAt: string)
    ensures 0 <= ReportOf(host, generatedAt).summary.securityScore <= 100
    ensures ReportOf(host, generatedAt).summary.securityScore
      == Posture.Max(0, 100 - Posture.TotalPenalty(Posture.IssuesOf(Services(host))))
  {
    var penalty: int := Posture.TotalPenalty(Posture.IssuesOf(Services(host)));
    calc {
      ReportOf(host, generatedAt).summary.securityScore;
      Posture.PostureOf(host).securityScore;
      Posture.Max(0, 100 - penalty);
    }
  }

  /** The analysis's level is the level of the weighted counts of the host's
      entries. */
  lemma {:induction false} WeightedRiskLevel(host: HostRecord)
    ensures VulnAnalysis.VulnReportOf(host).riskLevel
      == RiskLevel(10 * CountRated(VulnEntries(host), Critical) + 7 * CountRated(VulnEntries(host), High)
                   + 4 * CountRated(VulnEntries(host), Medium) + CountRated(VulnEntries(host), Low))
  {
    var t := VulnEntries(host);
    var level := RiskLevel(RiskScore(Tally(t)));
    LevelOfCounts(t);
    calc {
      VulnAnalysis.VulnReportOf(host).riskLevel;
      level;
      RiskLevel(10 * CountRated(t, Critical) + 7 * CountRated(t, High) + 4 * CountRated(t, Medium) + CountRated(t, Low));
    }
  }
}
