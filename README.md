# shodan-web core, modelled in Dafny

shodan-web is a web front end and Express back end over the Shodan scanning
API. This project models the parts of it that compute things:

- **Analysis service** (`server/services/analysisService.js`). It turns a Shodan host record into the reports the application serves:
  - vulnerability analysis: severity buckets by CVSS, a weighted risk score and a risk level;
  - security posture: plaintext services, default-credential banners and outdated software, with a score, a grade and recommendations;
  - a full report, as a JSON object, CSV or XML;
  - network-range aggregation over a `net:` search;
  - threat-intelligence indicators and reputation;
  - host comparison: per-host risk, plus ports and CVEs common to several hosts.
- **Request helpers** (`server/utils/helpers.js`):
  - query sanitising;
  - the CIDR shape check;
  - port validation by `parseInt`;
  - the API-key and JSON-body gates;
  - pagination, sort options, filters;
  - query-string building with `encodeURIComponent`.
- **Shodan client** (`server/services/shodanService.js`):
  - a class holding the configured API keys and a round-robin index;
  - the parameters each request sends;
  - the checks made before a request;
  - the mapping of a failed request to an error.
- **Search page** (`client/src/pages/Search.jsx`):
  - the risk badge;
  - the "last updated" label;
  - the results footer's page arithmetic;
  - the page state that a search or a page change writes to the address bar.

The modules follow these files:

- `Severity`, `VulnAnalysis`, `Posture`, `Reports`, `NetworkRange`, `ThreatIntel` and `Comparison` model the analysis service.
- `Helpers` and `UriComponent` model the helpers.
- `ShodanApi` models the client.
- `SearchPage` models the page.
- `HostModel` holds the host record the API returns.
- `JsText` holds the JavaScript string operations the code relies on: `trim`, `split`, `join`, `toLowerCase`, `substring`, number-to-string and string comparison (character by character, by code point).
- `Counting` and `StableSort` hold the counter objects and the stable `Array.prototype.sort` on a numeric key.

Loops in the source are methods with loop invariants, proved against specification functions:

- `for … of` over vulnerabilities, services and tags;
- the counting `forEach`es;
- the `for … of` over the addresses in `compareHosts`, which looks the hosts up one after another.

The three `if`s that build the posture recommendations are a method without a loop, `Posture.Recommend`.

The client object whose `currentIndex` moves on every request is the class `ShodanApi.ShodanService`. Network replies, the clock and the environment variables are parameters.

Two consequences of the thresholds in the code:

- Two vulnerabilities rated Critical (CVSS 9.8) and Medium (CVSS 5.0) score 10 + 4 = 14. That is below the Medium threshold of 15, so the level is Low (`VulnAnalysis.TwoVulnerabilityExample`).
- A single telnet service costs 10 points. The score of 90 is grade A, whose threshold is 90 (`Posture.TelnetExample`).

## Model

| member | source | states |
|---|---|---|
| Severity.SeverityOf | server/services/analysisService.js:21-33 | a CVSS score is Critical iff ≥ 9.0, High iff in [7.0, 9.0), Medium iff in [4.0, 7.0), Low iff below 4.0 |
| Severity.SeverityMonotone | server/services/analysisService.js:21-33 | a higher CVSS score never gets a lower severity |
| Severity.Weight | server/services/analysisService.js:40-41 | each severity weighs between 1 and 10, and only Critical weighs 10 |
| Severity.TallyCounts | server/services/analysisService.js:8-36 | the four counters add up to the number of vulnerabilities, and each counts exactly the entries of its severity |
| Severity.RiskScoreIsWeightSum | server/services/analysisService.js:40-41 | the score from the counters equals the sum of each vulnerability's weight |
| Severity.WeightSumBounds | server/services/analysisService.js:40-41 | the weighted score lies between the number of vulnerabilities and ten times it |
| Severity.LevelOfCounts | server/services/analysisService.js:40-48 | the risk level is the level of 10·critical + 7·high + 4·medium + low over the host's entries |
| Severity.RiskLevel | server/services/analysisService.js:341-346 | a score is Critical iff ≥ 50, High iff in [30, 50), Medium iff in [15, 30), Low iff below 15 |
| Severity.RiskLevelMonotone | server/services/analysisService.js:341-346 | a higher score never gets a lower risk level |
| Severity.FiveCriticalsAreCritical | server/services/analysisService.js:40-48 | five critical vulnerabilities make a host Critical whatever else it has |
| VulnAnalysis.MakeFinding | server/services/analysisService.js:12-33 | a finding keeps the CVE id and verified flag, defaults a missing CVSS to 0, a missing summary to "No description available" and missing references to an empty list, and carries the severity of its CVSS |
| VulnAnalysis.Findings | server/services/analysisService.js:11-36 | one finding per vulnerability entry, in entry order |
| VulnAnalysis.ServiceViews | server/services/analysisService.js:53-59 | one service view per service, in order |
| VulnAnalysis.ClassifyEntries | server/services/analysisService.js:7-37 | the loop builds exactly the findings of the entries and the severity tally |
| VulnAnalysis.AnalyzeVulnerabilities | server/services/analysisService.js:6-61 | the report's count, distribution, score (sum of weights) and level all derive from the host's entries; the findings are sorted by descending CVSS; ip, hostnames (default empty), ports and services come from the host |
| VulnAnalysis.ReportedFindings | server/services/analysisService.js:47 | the sorted findings are a permutation of the unsorted ones, in non-increasing CVSS order, stable among equal CVSS, each rated by its own CVSS |
| VulnAnalysis.TwoVulnerabilityExample | server/services/analysisService.js:40-48 | a 9.8 and a 5.0 give counts (0, 1, 0, 1), score 14, level Low |
| Posture.IssueOf | server/services/analysisService.js:73-108 | an issue records the kind of check that raised it and the service's port; default credentials are High severity, the other two Medium; an unencrypted service names its product with no version and reads "Unencrypted <product> service detected"; default credentials name no product and read "Potential default credentials detected"; outdated software names product and version and reads "Potentially outdated <product> version" |
| Posture.PushIssue | server/services/analysisService.js:75-106 | appending an issue adds its kind's penalty to the total |
| Posture.CheckPenalty | server/services/analysisService.js:73-108 | a check costs its penalty (10, 20 or 15) exactly when it detects something |
| Posture.PenaltyByIssueType | server/services/analysisService.js:68-110 | the total penalty is 10 per plaintext service, 20 per default-credential banner and 15 per outdated product |
| Posture.CheckHasIssue | server/services/analysisService.js:73-108 | after a check the list has an issue of a kind iff it had one already or this check raised it |
| Posture.IssueKindPresent | server/services/analysisService.js:70-110 | the issues contain a kind iff some service triggers that check |
| Posture.CheckServices | server/services/analysisService.js:66-110 | the loop collects exactly the issues of all services, and the score is 100 minus their total penalty |
| Posture.CheckService | server/services/analysisService.js:71-109 | one service's three checks, in order, lower the running score by exactly the penalties they add |
| Posture.SecurityGrade | server/services/analysisService.js:348-354 | A iff ≥ 90, B iff in [80, 90), C iff in [70, 80), D iff in [60, 70), F below 60 |
| Posture.GradeIgnoresClamp | server/services/analysisService.js:125-126 | grading the raw score or the score clamped at 0 gives the same grade |
| Posture.RecommendationsMatchIssues | server/services/analysisService.js:113-121 | each of the three recommendations is present iff an issue of its kind is, none twice, at most three |
| Posture.Recommend | server/services/analysisService.js:112-121 | the three tests, in order, produce exactly the recommendations of the issues |
| Posture.AnalyzeSecurityPosture | server/services/analysisService.js:64-135 | the report's issues are the services' issues; the score is 100 minus their penalty, clamped at 0 and never above 100; the grade is from the unclamped score; recommendations follow the issues; the open-port count and the host fields come from the host |
| Posture.OutdatedDownwardClosed | server/services/analysisService.js:356-366 | a version string ordered before an outdated one (string comparison) is outdated too |
| Posture.OpensshTenIsOutdated | server/services/analysisService.js:356-366 | because the comparison is on strings, OpenSSH "10.0" counts as older than "8.0" |
| Posture.OpensshNineIsNotOutdated | server/services/analysisService.js:356-366 | OpenSSH "9.9" is not outdated |
| Posture.IsOutdatedVersion | server/services/analysisService.js:356-366 | only apache, nginx, openssh and the inherited names `constructor` and `__proto__` (in any case) can be flagged, and a version equal to its floor never is |
| Posture.PrototypeKeysAreOutdated | server/services/analysisService.js:358-365 | a product named `constructor` or `__proto__` has every version starting with a digit flagged, because the lookup finds an inherited property |
| Posture.PrototypeKeyNames | server/services/analysisService.js:358-365 | the lower-case names `constructor` and `__proto__` reach the inherited properties, and version "1.0" of either is flagged |
| Posture.LowerOpenSsh | server/services/analysisService.js:358 | the product name is matched after lower-casing |
| Posture.TelnetExample | server/services/analysisService.js:73-126 | a single telnet service yields one Medium unencrypted-service issue, score 90, grade A and the encryption advice |
| Reports.BannerAsWritten | server/services/analysisService.js:170 | the banner text the report uses ends in "..." after at most 200 characters of the banner; a missing banner reads "undefined..." (see Findings) |
| Reports.MissingBannerLooksLikeText | server/services/analysisService.js:170 | a missing banner is shown exactly like the banner text "undefined" |
| Reports.BannerPreview | server/services/analysisService.js:170 | the corrected preview: none without a banner; otherwise the banner's first 200 characters and "..." (exactly `banner[..200] + "..."` when longer), the whole banner and "..." when it is short enough |
| Reports.BannerPreviewAgrees | server/services/analysisService.js:170 | the text as written and the corrected preview agree exactly when a banner is present |
| Reports.ServiceSummaries | server/services/analysisService.js:165-172 | one summary per service, in order, with port, protocol, product, version and timestamp; the banner text is as line 170 writes it: "undefined..." without a banner, the corrected preview's text with one |
| Reports.CsvFields | server/services/analysisService.js:426-433 | the data row has the six header columns |
| Reports.ConvertToCSV | server/services/analysisService.js:420-435 | the CSV text begins with the header line and a line break |
| Reports.CsvRoundTrip | server/services/analysisService.js:420-435 | CSV output is two lines; splitting gives back the headers and the six fields; ip, the port and vulnerability counts (as decimals) and the risk level read back; requires fields without commas or newlines |
| Reports.HeaderLine | server/services/analysisService.js:422-423 | the header line splits back into the six headers |
| Reports.DataLine | server/services/analysisService.js:425-432 | the data line splits back into its fields when they hold no comma or newline |
| Reports.NumberIsCsvSafe | server/services/analysisService.js:430-431 | a rendered count never holds a comma or newline |
| Reports.LabelIsCsvSafe | server/services/analysisService.js:432 | a risk-level label never holds a comma or newline |
| Reports.JoinKeepsOut | server/services/analysisService.js:423-434 | joining never introduces a character other than the separator |
| Reports.Element | server/services/analysisService.js:443-449 | an element is `<tag>`, then the text, then `</tag>`, and nothing else |
| Reports.ElementLine | server/services/analysisService.js:443-449 | an indented element line has that length |
| Reports.OneLine | server/services/analysisService.js:443-449 | an element of newline-free text is one line |
| Reports.ElementTextOfElement | server/services/analysisService.js:443-449 | reading the text between the tags gives back what was written |
| Reports.FixedLines | server/services/analysisService.js:439-451 | the fixed lines of the XML template are single lines |
| Reports.XmlLines | server/services/analysisService.js:439-451 | the document has 13 lines |
| Reports.ConvertToXML | server/services/analysisService.js:437-452 | the XML text begins with the XML declaration and a line break |
| Reports.XmlRoundTrip | server/services/analysisService.js:437-452 | splitting the XML text at newlines gives back exactly its 13 lines when the fields hold no newline |
| Reports.TargetLines | server/services/analysisService.js:443-445 | the target element lines are single lines |
| Reports.SummaryLines | server/services/analysisService.js:448-450 | the summary element lines are single lines |
| Reports.XmlTargetTexts | server/services/analysisService.js:439-445 | the declaration comes first; ip, organization and country read back from their elements |
| Reports.XmlSummaryTexts | server/services/analysisService.js:448-450 | the port and vulnerability counts read back as the numbers, and the risk level as its label |
| Reports.GenerateReport | server/services/analysisService.js:138-183 | "csv" gives the CSV text of the report, "xml" the XML text, any other format the report object |
| Reports.ReportCounts | server/services/analysisService.js:142-172 | the summary counts the host's ports and vulnerabilities, with one service summary per service |
| Reports.ReportLevel | server/services/analysisService.js:159 | the summary's risk level is the level of the weighted vulnerability count |
| Reports.ReportScore | server/services/analysisService.js:160 | the summary's security score is in [0, 100] and is 100 minus the posture penalty, clamped at 0 |
| Reports.WeightedRiskLevel | server/services/analysisService.js:40-48 | the vulnerability report's level is that of 10·critical + 7·high + 4·medium + low |
| NetworkRange.HostInfoOf | server/services/analysisService.js:204-210 | a host row keeps ip, organization and country, lists the port when it is present and non-zero, and counts the match's vulnerabilities |
| NetworkRange.HostRows | server/services/analysisService.js:202-212 | one row per match, in order |
| NetworkRange.TruthyValues | server/services/analysisService.js:215-239 | only present, non-empty values are counted |
| NetworkRange.CountSeverities | server/services/analysisService.js:221-229 | the loop adds the severity tally of one match's vulnerabilities to the summary |
| NetworkRange.CountStep | server/services/analysisService.js:215-239 | one more match bumps exactly its own value's counter |
| NetworkRange.AggregateStep | server/services/analysisService.js:202-229 | one more match adds exactly its own row and its severity tally |
| NetworkRange.Aggregate | server/services/analysisService.js:202-241 | the loop builds the host rows, the three counters and the severity summary of all matches |
| NetworkRange.AnalyzeNetworkRange | server/services/analysisService.js:186-247 | the one search sent is `searchHosts` with the range query and page 1; a failed search gives "Network analysis failed: " and its message; otherwise cidr, total (default 0), the scanned-host count and all aggregates follow from the matches |
| NetworkRange.NetSearchParamsMeaning | server/services/analysisService.js:188-189 | the search asks for "net:" and the CIDR, page 1, not minified, no facets; different ranges send different searches |
| NetworkRange.SummaryCountsEveryVulnerability | server/services/analysisService.js:207-229 | the severity summary's total equals the sum of the rows' vulnerability counts |
| NetworkRange.CounterMeaning | server/services/analysisService.js:215-239 | a counter has a key iff some match has that value, its count is the value's multiplicity, and the empty string is never a key |
| ThreatIntel.TagIndicators | server/services/analysisService.js:261-273 | tag indicators are High, at most one per tag |
| ThreatIntel.ServiceIndicators | server/services/analysisService.js:276-290 | service indicators are Medium, at most one per service |
| ThreatIntel.TagIndicatorsAreThreatTags | server/services/analysisService.js:261-273 | every tag indicator names a threat tag of the host; there is one iff some tag is a threat tag |
| ThreatIntel.TagIndicatorsFiltered | server/services/analysisService.js:261-273 | the tag indicators are the threat tags filtered from the tags, in order, each a High indicator naming the tag |
| ThreatIntel.ServiceIndicatorsFiltered | server/services/analysisService.js:276-290 | the service indicators are the suspicious services filtered from the services, in order, each a Medium indicator with the product and the port |
| ThreatIntel.ThreatScoreCounts | server/services/analysisService.js:261-290 | the score is 25 per threat tag plus 10 per suspicious service |
| ThreatIntel.ThreatTagIgnoresCase | server/services/analysisService.js:263-264 | the tag test is case-insensitive |
| ThreatIntel.TagIndicatorsPrefixGrows | server/services/analysisService.js:261-273 | more tags never yield fewer indicators |
| ThreatIntel.ReputationOf | server/services/analysisService.js:293-301 | Malicious iff ≥ 50, Suspicious iff in [25, 50), Caution iff in (0, 25), Clean iff ≤ 0 |
| ThreatIntel.ScanTags | server/services/analysisService.js:261-273 | the loop collects the tag indicators and scores 25 for each |
| ThreatIntel.ScanServices | server/services/analysisService.js:276-290 | the loop appends the service indicators and adds 10 for each |
| ThreatIntel.GetThreatIntelligence | server/services/analysisService.js:250-304 | the indicators are the tag then service indicators; the score is 25 per tag indicator plus 10 per service indicator; the reputation is that score's; no malware history, no botnet flag |
| ThreatIntel.ThreatScoreBound | server/services/analysisService.js:261-290 | the score never exceeds 25 per tag plus 10 per service |
| ThreatIntel.TwoThreatTagsAreMalicious | server/services/analysisService.js:261-301 | two threat tags make a host Malicious |
| ThreatIntel.BotnetExample | server/services/analysisService.js:261-301 | the tag "botnet" alone yields one High indicator and reputation Suspicious |
| Comparison.CalculateHostRiskScore | server/services/analysisService.js:368-386 | the loop's score is the host's risk score |
| Comparison.HostRiskScoreMeaning | server/services/analysisService.js:368-386 | the score is the weighted vulnerability score plus 2 per open port, between 1 and 10 per vulnerability plus 2 per port |
| Comparison.EntriesOf | server/services/analysisService.js:397-401 | one (key, count) entry per counter key, in key order |
| Comparison.RepeatedEntries | server/services/analysisService.js:397-401 | the kept entries are exactly the keys seen more than once, with their counts |
| Comparison.CommonEntriesMeaning | server/services/analysisService.js:397-401 | the common entries are the repeated keys with their multiplicities, sorted by count descending, no key twice |
| Comparison.PortKeyOrderKeys | server/services/analysisService.js:390-397 | the counter object's keys are the ports, each once, integer-like keys ascending before the others |
| Comparison.IndicesThenOthers | server/services/analysisService.js:390-397 | ascending integer-like keys followed by other keys keep every integer-like key after smaller ones |
| Comparison.Rendered | server/services/analysisService.js:397-401 | each port key is rendered as its decimal string with its count |
| Comparison.CommonPortsMeaning | server/services/analysisService.js:388-402 | common ports are the ports occurring more than once across the hosts' `ports` lists, each with its number of occurrences, sorted by count descending, no port twice |
| Comparison.PortCountIsHostCount | server/services/analysisService.js:388-395 | when every `ports` list names each port once, a port's number of occurrences is the number of hosts opening it |
| Comparison.CommonPortsAreSharedPorts | server/services/analysisService.js:388-402 | with distinct ports per host, the common ports are exactly the ports open on at least two hosts, each paired with the number of hosts opening it |
| Comparison.CountPorts | server/services/analysisService.js:389-395 | the loop's counter maps each port to its number of occurrences |
| Comparison.FindCommonPorts | server/services/analysisService.js:388-402 | the method returns exactly the common ports |
| Comparison.CommonVulnerabilitiesMeaning | server/services/analysisService.js:404-418 | common CVEs are the identifiers occurring more than once across the hosts' vulnerability tables, each with its number of occurrences, sorted by count descending, no identifier twice |
| Comparison.CveCountIsHostCount | server/services/analysisService.js:404-411 | when every table names each identifier once, an identifier's number of occurrences is the number of hosts listing it |
| Comparison.CommonVulnerabilitiesAreSharedCves | server/services/analysisService.js:404-418 | with distinct keys per table, the common CVEs are exactly the identifiers listed by at least two hosts, each paired with the number of hosts listing it |
| Comparison.CountCves | server/services/analysisService.js:405-411 | the loop's counter maps each CVE to its number of occurrences |
| Comparison.FindCommonVulnerabilities | server/services/analysisService.js:404-418 | the method returns exactly the common CVEs |
| Comparison.RecordOf | server/services/analysisService.js:310-317 | a failed lookup becomes an error record with no ports or vulnerabilities; a successful one is the host itself |
| Comparison.Records | server/services/analysisService.js:310-317 | one record per looked-up address, in order |
| Comparison.RowOf | server/services/analysisService.js:320-328 | a row counts the host's ports and vulnerabilities and keeps its ip, organization, country, last update and error |
| Comparison.Rows | server/services/analysisService.js:320-328 | one row per host, in order |
| Comparison.CollectHosts | server/services/analysisService.js:308-317 | the lookups give exactly the records of their outcomes |
| Comparison.RiskComparison | server/services/analysisService.js:331-334 | one (ip, risk score) pair per host, in order |
| Comparison.CompareHosts | server/services/analysisService.js:307-338 | the comparison's rows, risk pairs, common ports and common CVEs are those of the lookups' records |
| Comparison.FailedLookupContributesNothing | server/services/analysisService.js:310-317 | a failed lookup scores 0, reports its error, and adds no port and no CVE to the common lists |
| Counting.Increment | server/services/analysisService.js:392-394 | `counts[k] = (counts[k] \|\| 0) + 1` adds k, bumps its count, leaves every other key alone |
| Counting.CountsAreMultiplicities | server/services/analysisService.js:389-411 | a counter has exactly the values seen as keys, each counting its multiplicity |
| Counting.CountAll | server/services/analysisService.js:389-395 | counting a further run of values gives the counts of the whole sequence |
| Counting.FirstAppearances | server/services/analysisService.js:397 | the keys of a counter object are the values seen, each once |
| Counting.Filter | server/services/analysisService.js:398 | the kept elements are exactly those passing the test, a sub-multiset of the input |
| Counting.FilterAll | server/services/analysisService.js:398 | a filter that passes everything keeps the sequence |
| Counting.FilterSingle | server/services/shodanService.js:10 | a one-element list keeps its element exactly when it passes |
| Counting.FilterConcat | server/services/shodanService.js:10 | filtering a concatenation is the concatenation of the filtered parts, so order is kept |
| Counting.FilterNoDuplicates | server/services/analysisService.js:398 | filtering a duplicate-free sequence keeps it duplicate-free |
| StableSort.SortDesc | server/services/analysisService.js:47 | the sort is a permutation in non-increasing key order that keeps the relative order of equal keys |
| StableSort.InsertSorted | server/services/analysisService.js:47 | inserting into a sorted sequence keeps it sorted |
| StableSort.InsertOfKey | server/services/analysisService.js:47 | insertion puts the new element first among the elements of its key |
| HostModel.Cves | server/services/analysisService.js:406-410 | the CVE ids of a host are its vulnerability keys, in order |
| Helpers.StripDangerous | server/utils/helpers.js:42 | the result holds exactly the characters of the input that are not `<`, `>`, `"` or `'`, is no longer than the input, and is the input when it has none |
| Helpers.StripDangerousConcat | server/utils/helpers.js:42 | stripping a concatenation strips each part |
| Helpers.StripDangerousIsFilter | server/utils/helpers.js:42 | stripping keeps every occurrence of every other character, in the original order: it is the filter of the safe characters |
| Helpers.SanitizeQuery | server/utils/helpers.js:37-45 | the sanitized query is at most 1000 characters |
| Helpers.SanitizeQueryMeaning | server/utils/helpers.js:37-45 | a falsy or non-string query gives ""; otherwise the trimmed, stripped text cut to 1000 characters; no dangerous character survives and nothing new is added |
| Helpers.SanitizeQueryFixedPoint | server/utils/helpers.js:37-45 | a clean, trimmed query of at most 1000 characters is left unchanged |
| Helpers.DigitRun | server/utils/helpers.js:49 | the longest run of leading digits |
| Helpers.MatchGroups | server/utils/helpers.js:49-50 | a match of n further groups has between 2n + 3 and 4n + 6 characters and starts and ends with a digit |
| Helpers.ParseCIDR | server/utils/helpers.js:48-51 | an accepted range is 9 to 18 characters long and starts and ends with a digit |
| Helpers.ParseCIDRMeaning | server/utils/helpers.js:48-51 | the pattern accepts exactly four dot-separated 1–3 digit groups and a "/" with a 1–2 digit mask |
| Helpers.MatchGroupsSound | server/utils/helpers.js:49-50 | a matched string splits into its groups and mask |
| Helpers.MatchGroupsComplete | server/utils/helpers.js:49-50 | groups and mask of the right shape are matched |
| Helpers.ParseCIDRNoRangeCheck | server/utils/helpers.js:48-51 | the check is on shape only: "999.999.999.999/99" is accepted |
| Helpers.ReadNumber | server/utils/helpers.js:71 | a number is read only from a leading digit |
| Helpers.ParseInt | server/utils/helpers.js:71 | parseInt gives a number only when the text holds a digit |
| Helpers.ParseIntPrefix | server/utils/helpers.js:71 | parseInt reads a decimal (optionally negated) and ignores any trailing non-digit text |
| Helpers.ParseIntToString | server/utils/helpers.js:158-159 | parseInt reads back any integer written as a decimal |
| Helpers.IsValidPortMeaning | server/utils/helpers.js:70-73 | a decimal port is valid iff it is in 1..65535 |
| Helpers.IsValidPort | server/utils/helpers.js:70-73 | a valid port text holds at least one digit, so text without digits is invalid |
| Helpers.PortWithTrailingText | server/utils/helpers.js:70-73 | parseInt ignores trailing text, so "80/tcp" is a valid port |
| Helpers.IntOr | server/utils/helpers.js:157-158 | `parseInt(x) \|\| d` is either the fallback or the number the text parses to |
| Helpers.GetPagination | server/utils/helpers.js:156-162 | limit is at most 100 and neither page nor limit is 0 |
| Helpers.PaginationMeaning | server/utils/helpers.js:156-162 | offset is (page − 1)·limit; page defaults to 1 and limit to 10; the offset is non-negative for positive page and limit |
| Helpers.PaginationOfNumbers | server/utils/helpers.js:156-162 | numeric page and limit pass through, 0 falls back to the default and limit is capped at 100 |
| Helpers.NegativePageOffset | server/utils/helpers.js:156-162 | a negative page is not rejected: page "-2" gives offset −30 |
| Helpers.GetSortOptions | server/utils/helpers.js:165-174 | options exist iff sortBy is a non-empty allowed field, which they keep; the order is "desc" iff requested, "asc" otherwise |
| Helpers.GetFilters | server/utils/helpers.js:177-187 | the filters are exactly the allowed keys whose query value is truthy, with those values |
| Helpers.CheckApiKey | server/utils/helpers.js:121-139 | every rejection is a 401 |
| Helpers.CheckApiKeyMeaning | server/utils/helpers.js:121-139 | development always passes; otherwise a key passes iff it has at least 32 characters, with "API key is required" when missing and "Invalid API key format" when short |
| Helpers.ValidateJSON | server/utils/helpers.js:102-109 | every rejection is a 400 |
| Helpers.ValidateJSONMeaning | server/utils/helpers.js:102-109 | a request is rejected iff it is a POST or PUT with a missing or empty body |
| Helpers.ObjectToQueryString | server/utils/helpers.js:190-194 | the query string parses back into the same keys and values, in order |
| Helpers.EncodedPairsRoundTrip | server/utils/helpers.js:190-194 | the encoded pairs joined with "&" read back as the entries |
| Helpers.ParsePairEncoded | server/utils/helpers.js:192 | an encoded pair holds no "&" and parses back to the pair |
| UriComponent.HexValueOfDigit | server/utils/helpers.js:192 | a hex digit written by the encoder reads back as its value |
| UriComponent.Utf8 | server/utils/helpers.js:192 | a code point is one to four bytes |
| UriComponent.Escape | server/utils/helpers.js:192 | each byte becomes "%" and two hex digits |
| UriComponent.PercentBytes | server/utils/helpers.js:192 | escaped bytes are three characters each, all "%" or hex digits |
| UriComponent.EncodedAlphabet | server/utils/helpers.js:192 | the encoding holds only unreserved characters, "%" and hex digits |
| UriComponent.DecodeEncode | server/utils/helpers.js:192 | decoding the encoding of any string gives the string back |
| UriComponent.EncodeInjective | server/utils/helpers.js:192 | different strings have different encodings |
| JsText.LowerIdempotent | server/services/analysisService.js:263 | lower-casing twice is lower-casing once |
| JsText.LowerKeeps | server/services/analysisService.js:364 | a string without upper-case letters is its own lower-case form |
| JsText.TrimKeepsCharacters | server/utils/helpers.js:41 | trimming adds no character |
| JsText.TrimOfTrimmed | server/utils/helpers.js:41 | trimming a string without leading or trailing whitespace keeps it |
| JsText.Prefix | server/utils/helpers.js:42 | `substring(0, n)` is a prefix of at most n characters, the whole string when it is short enough |
| JsText.JoinSplit | server/services/shodanService.js:10 | joining a split at the same separator restores the string |
| JsText.SplitJoin | server/services/shodanService.js:10 | splitting a join of separator-free parts restores the parts |
| JsText.LexLessTransitive | server/services/analysisService.js:363 | string comparison is transitive |
| JsText.LexLessTotal | server/services/analysisService.js:363 | any two distinct strings are ordered one way or the other |
| JsText.DigitsValueNatToString | server/services/analysisService.js:430-431 | a number written in decimal reads back as itself |
| ShodanApi.ParseApiKeys | server/services/shodanService.js:10 | every parsed key is trimmed, non-empty and comma-free and is the trim of some comma-separated piece, and every non-blank piece of the list is kept, trimmed |
| ShodanApi.ParseApiKeysPart | server/services/shodanService.js:10 | a text without commas gives its trimmed self as the one key, or no key when it is blank |
| ShodanApi.ParseApiKeysCons | server/services/shodanService.js:10 | keys come out in list order: the first piece's key (when not blank) followed by the keys of the rest |
| ShodanApi.TrimmedPartsClean | server/services/shodanService.js:10 | the trimmed non-empty pieces are clean keys and cover every non-blank piece |
| ShodanApi.ParseApiKeysJoin | server/services/shodanService.js:10 | parsing a comma-joined list of clean keys gives the keys back |
| ShodanApi.ConfiguredKeys | server/services/shodanService.js:6-13 | a successful configuration has at least one key |
| ShodanApi.ConfiguredKeysMeaning | server/services/shodanService.js:6-13 | no variable set fails with "SHODAN_API_KEYS or SHODAN_API_KEY environment variable is required"; `SHODAN_API_KEYS` wins when non-empty and `SHODAN_API_KEY` is used only otherwise; the chosen list of blanks fails with "No valid Shodan API keys provided", else its parsed keys are the service's keys; every key is clean |
| ShodanApi.NoFallbackFromBlankList | server/services/shodanService.js:6-13 | a blank key list fails even when the single-key variable is set |
| ShodanApi.CallsRotate | server/services/shodanService.js:18-22 | successive calls hand out the keys in rotation from the current index, and the index wraps |
| ShodanApi.FullCycle | server/services/shodanService.js:18-22 | a full round hands out every key exactly once and returns to the start |
| ShodanApi.RequestOutcome | server/services/shodanService.js:24-39 | a request succeeds iff there was a data reply, whose data it returns; an error reply gives "Shodan API: " and the server's error or the status text; no reply gives "Failed to connect to Shodan API" |
| ShodanApi.ActionOutcome | server/services/shodanService.js:107-111 | an alert, deletion or scan call succeeds iff there was a data reply, whose data it returns; otherwise the message is the action's prefix followed by the server's `error` text when truthy, else the client's error message |
| ShodanApi.SearchParamsMeaning | server/services/shodanService.js:48-57 | a search sends query, page (default 1), minify (default false) and facets only when set, and never a second key |
| ShodanApi.CountParamsMeaning | server/services/shodanService.js:59-63 | a count sends the query and the facets only when set |
| ShodanApi.ExploitParamsMeaning | server/services/shodanService.js:76-83 | an exploit search sends query, page (default 1) and facets only when set |
| ShodanApi.AlertBodyMeaning | server/services/shodanService.js:97-112 | an alert body holds name, ip and expires only when set |
| ShodanApi.ShodanService.constructor | server/services/shodanService.js:5-16 | the client keeps the keys and starts at index 0 |
| ShodanApi.ShodanService.Create | server/services/shodanService.js:5-16 | construction fails exactly when the configuration does, with its message; otherwise the client holds the configured keys at index 0 |
| ShodanApi.ShodanService.GetApiKey | server/services/shodanService.js:18-22 | returns the current key and advances the index by one, modulo the number of keys |
| ShodanApi.ShodanService.MakeRequest | server/services/shodanService.js:24-39 | the request goes to the base URL plus the endpoint, with the current key first, then the parameters; the key index advances; the outcome is that of the reply |
| ShodanApi.ShodanService.GetHostInfo | server/services/shodanService.js:41-46 | an invalid IP fails with "Invalid IP address format" without using a key; a valid one requests /shodan/host/{ip} |
| ShodanApi.ShodanService.GetDomainInfo | server/services/shodanService.js:65-70 | an invalid domain fails with "Invalid domain format" without using a key; a valid one requests /dns/domain/{domain} |
| ShodanApi.ShodanService.SearchHosts | server/services/shodanService.js:48-57 | requests /shodan/host/search with the key and the search parameters |
| ShodanApi.ShodanService.GetHostCount | server/services/shodanService.js:59-63 | requests /shodan/host/count with the key and the count parameters |
| ShodanApi.ShodanService.SearchExploits | server/services/shodanService.js:76-83 | requests /shodan/exploits/search with the key and the exploit parameters |
| ShodanApi.ShodanService.CreateAlert | server/services/shodanService.js:97-112 | posts the alert body to /shodan/alert with the key; a failure is reported as "Failed to create alert: " and the error |
| SearchPage.RiskBadge | client/src/pages/Search.jsx:56-61 | 0 is Low/green, 1–4 Medium/yellow, 5–9 High/red, 10 or more Critical/red, each an if-and-only-if |
| SearchPage.RiskBadgeMonotone | client/src/pages/Search.jsx:56-61 | more vulnerabilities never give a milder badge |
| SearchPage.ShownBadgeNeverLow | client/src/pages/Search.jsx:254-258 | the badge is shown iff the count is positive, so a card never shows Low |
| SearchPage.UnitDays | client/src/pages/Search.jsx:69-72 | every label unit is at least one day |
| SearchPage.FormatLastUpdate | client/src/pages/Search.jsx:63-73 | an unreadable date gives "NaN years ago"; every label ends in " ago" |
| SearchPage.FormatLastUpdateMeaning | client/src/pages/Search.jsx:63-73 | one day is "1 day ago"; under 30 days, days; under 365, 1–12 months; otherwise at least one year; the amount of units never overstates the age and one more unit would |
| SearchPage.FormatLastUpdateAmount | client/src/pages/Search.jsx:70-72 | the label starts with the amount in decimal, followed by a space |
| SearchPage.PageCount | client/src/pages/Search.jsx:203 | the page count is the least number of 100-result pages holding every result |
| SearchPage.PageButtons | client/src/pages/Search.jsx:335-336 | the buttons are 1, 2, … up to the smaller of 5 and the page count; at least two whenever the footer shows |
| SearchPage.NavigationMeaning | client/src/pages/Search.jsx:323-355 | on a reachable page, Previous is disabled iff it is page 1 and Next iff it is the last page |
| SearchPage.HandleSearch | client/src/pages/Search.jsx:38-42 | a new search goes to page 1, keeps the filters, disables Previous and writes exactly q = the new query, page = "1", facets and minify ("true"/"false") to the address bar |
| SearchPage.HandlePageChange | client/src/pages/Search.jsx:44-47 | a page change keeps query and filters, moves to the new page, and the page it writes parses back to it |
| SearchPage.ReloadRestoresState | client/src/pages/Search.jsx:21-47 | reading back the address a page change wrote restores the same page state |

## Left out

- The in-memory cache, the Express routes, rate limiting and server start-up are not part of this model.
- Network calls are not modelled. The HTTP exchange with the Shodan API (axios) becomes a `Reply` parameter of each request method, and the lookups of `compareHosts` and the search of `analyzeNetworkRange` become parameters holding their outcomes. Timeouts are not modelled.
- The clock is a parameter. `generatedAt` of the report and the elapsed days of `formatLastUpdate` are passed in. The conversion of dates to whole days (`Math.ceil` of milliseconds) is not modelled.
- Environment variables are parameters: `SHODAN_API_KEYS`, `SHODAN_API_KEY` and `NODE_ENV`.
- Host-record values are taken as the API returns them:
  - CVSS scores are `real` values, not IEEE doubles;
  - `cvss: "abc"` and other ill-typed JSON values are not modelled;
  - `vulns` is a list of entries in object-key order.
- Strings are sequences of code points. `length`, `substring` and `trim` therefore count code points, not UTF-16 units. `toLowerCase` folds ASCII letters only.
- `Helpers.ParseInt` works on arbitrary-precision integers. Precision loss above 2^53, and `parseInt` on non-string values, are not modelled.
- A repeated query parameter is modelled as a list of strings (`Many`). Nested object values (`?a[b]=c`) are not modelled.
- The counter object's key order is modelled by `Comparison.PortKeyOrder` for ports. CVE keys are never integer-like, so they keep insertion order. Counters otherwise have no `__proto__` or other prototype keys.
- NetworkRange.AnalyzeNetworkRange: `commonServices`, `topCountries` and `topOrganizations` are `map`s, which have no key order. The objects built at server/services/analysisService.js:214-239 list integer-like names (a product, country or organisation such as "123") first in ascending order, then the rest in insertion order; that enumeration order is not modelled, only the counts per name. A name such as `__proto__` or `constructor`, which the object lookup would resolve to an inherited property, is counted here as an ordinary name.
- The CSV and XML conversions do no escaping, as in the source. `Reports.CsvRoundTrip` and `Reports.XmlRoundTrip` therefore need fields without commas or newlines.
- `analyzeNetworkRange` accepts a `deep` argument that the code never reads. The model has no such parameter.
- Other client calls are not modelled: `getApiInfo`, `getServices`, `getPorts`, `getProtocols`, `getAlerts`, `deleteAlert`, `scanInternet` and `getScanStatus`. They are request wrappers of the same shape as the ones modelled.
- `validateIP` and `validateDomain` use the `validator` package, which is not part of this model. Its IP and domain tests become predicate parameters of `GetHostInfo` and `GetDomainInfo`.
- These helpers concern logging, ids, headers and Express wiring, not the computations modelled here: `formatFileSize`, `generateId`, `getClientIP`, `logRequest`, `securityHeaders`, `formatErrorResponse`, `asyncHandler` and `generateRateLimitKey`.
- React state, effects, data fetching (`useQuery`) and rendering of the search page are not modelled. The page's handlers are modelled as functions from the old state to the new state and the address-bar parameters.
- Comparison.CommonPortsMeaning: a `ports` list may name a port twice, and the code then counts it twice. The count is therefore of occurrences; it is a count of hosts (`Comparison.CommonPortsAreSharedPorts`) under the hypothesis `Comparison.DistinctPorts`.
- Comparison.CommonVulnerabilitiesMeaning: a vulnerability table is a list of entries, which could repeat an identifier where a JavaScript object cannot. The count is therefore of occurrences; it is a count of hosts (`Comparison.CommonVulnerabilitiesAreSharedCves`) under the hypothesis `Comparison.DistinctCves`, which every real host record meets.
- Posture.OutdatedFloor: the text the `constructor` lookup compares against is the V8 engine's rendering of the `Object` function. Other engines' renderings are not modelled.
- Helpers.SanitizeQuery: cutting to 1000 characters happens after trimming, as in the source. The result can therefore end in whitespace, and the contract does not claim otherwise.

## Findings

| source | as written | input that shows it | evidently intended | confidence | as-written member | corrected member |
|---|---|---|---|---|---|---|
| server/services/analysisService.js:170 | `banner: service.banner?.substring(0, 200) + '...'` turns a missing banner into the text "undefined..." | a service with no `banner` field | no preview for a service without a banner; a 200-character preview and "..." otherwise | not executed | Reports.MissingBannerLooksLikeText | Reports.BannerPreview |

The report keeps the banner text as written (`Reports.ServiceSummaries`, `Reports.BannerAsWritten`). `Reports.BannerPreview` is the corrected preview, and `Reports.BannerPreviewAgrees` proves that the two differ only for a service without a banner.
