/** `analyzeSecurityPosture`: a running score that starts at 100 and loses a
    fixed penalty for every issue found on a service, the letter grade, and one
    recommendation per kind of issue present. Also `isOutdatedVersion` and
    `calculateSecurityGrade`. */
module Posture {
  import opened Wrappers
  import opened JsText
  import opened HostModel
  import opened Severity

  datatype IssueType = UnencryptedService | DefaultCredentials | OutdatedSoftware

  /** One issue. `product` is the `service`/`product` property of the source's
      object and `version` its `version`; `None` where that object has no such
      property. */
  datatype Issue = Issue(
    kind: IssueType,
    severity: Rating,
    port: int,
    product: Option<string>,
    version: Option<string>,
    description: string)

  datatype Grade = A | B | C | D | F

  datatype PostureReport = PostureReport(
    ip: string,
    securityScore: nat,
    securityGrade: Grade,
    issues: seq<Issue>,
    recommendations: seq<string>,
    openPorts: nat,
    lastUpdate: Option<string>,
    organization: Option<string>,
    country: Option<string>,
    city: Option<string>)

  // ---------------------------------------------------------------------------
  // Detection
  // ---------------------------------------------------------------------------

  /** `['telnet', 'ftp', 'http'].includes(name)`. */
  predicate IsPlaintextName(name: string) {
    name == "telnet" || name == "ftp" || name == "http"
  }

  /** The product, lower-cased, is one of the plaintext protocols. */
  predicate IsPlaintext(s: Service) {
    s.product.Some? && IsPlaintextName(Lower(s.product.value))
  }

  /** The banner mentions `admin:admin` or `default password` (case-sensitive). */
  predicate HasDefaultCredentials(s: Service) {
    Truthy(s.banner) &&
    (Contains(s.banner.value, "admin:admin") || Contains(s.banner.value, "default password"))
  }

  /** The version floors of `isOutdatedVersion`, by lower-cased product name.
      The table is a plain object, so a lookup also finds the two inherited
      properties whose names are all lower case: `constructor` (the `Object`
      function, compared as its source text) and `__proto__` (the prototype,
      compared as `[object Object]`). */
  function OutdatedFloor(name: string): Option<string> {
    if name == "apache" then Some("2.4.0")
    else if name == "nginx" then Some("1.18.0")
    else if name == "openssh" then Some("8.0")
    else if name == "constructor" then Some("function Object() { [native code] }")
    else if name == "__proto__" then Some("[object Object]")
    else None
  }

  /** `isOutdatedVersion`: the product is in the table and the version string is
      below its floor in plain string order (not version-number order). Only
      the table's products and the two inherited names can be flagged, and a
      version equal to its floor never is. */
  predicate IsOutdatedVersion(product: Option<string>, version: string)
    ensures IsOutdatedVersion(product, version) ==>
      product.Some? && Lower(product.value) in ["apache", "nginx", "openssh", "constructor", "__proto__"]
    ensures IsOutdatedVersion(product, version) ==> version != OutdatedFloor(Lower(product.value)).value
  {
    LexLessIrreflexive(version);
    product.Some? && OutdatedFloor(Lower(product.value)).Some? &&
    LexLess(version, OutdatedFloor(Lower(product.value)).value)
  }

  /** A present, non-empty version that `isOutdatedVersion` flags. */
  predicate IsOutdated(s: Service) {
    Truthy(s.version) && IsOutdatedVersion(s.product, s.version.value)
  }

  /** The check that raises an issue of the given kind. */
  predicate Detects(kind: IssueType, s: Service) {
    match kind
    case UnencryptedService => IsPlaintext(s)
    case DefaultCredentials => HasDefaultCredentials(s)
    case OutdatedSoftware => IsOutdated(s)
  }

  /** The issue each check records, with the message naming the product. */
  function UnencryptedIssue(s: Service): Issue
    requires s.product.Some?
  {
    Issue(UnencryptedService, Medium, s.port, s.product, None,
          "Unencrypted " + s.product.value + " service detected")
  }

  function CredentialsIssue(s: Service): Issue {
    Issue(DefaultCredentials, High, s.port, None, None, "Potential default credentials detected")
  }

  function OutdatedIssue(s: Service): Issue
    requires s.product.Some?
  {
    Issue(OutdatedSoftware, Medium, s.port, s.product, s.version,
          "Potentially outdated " + s.product.value + " version")
  }

  /** The issue a check that fired records. */
  function IssueOf(kind: IssueType, s: Service): (i: Issue)
    requires Detects(kind, s)
    ensures i.kind == kind && i.port == s.port
    ensures i.severity == (if kind == DefaultCredentials then High else Medium)
    ensures kind == UnencryptedService ==>
      s.product.Some? && i.product == s.product && i.version == None &&
      i.description == "Unencrypted " + s.product.value + " service detected"
    ensures kind == DefaultCredentials ==>
      i.product == None && i.version == None && i.description == "Potential default credentials detected"
    ensures kind == OutdatedSoftware ==>
      s.product.Some? && i.product == s.product && i.version == s.version &&
      i.description == "Potentially outdated " + s.product.value + " version"
  {
    match kind
    case UnencryptedService => UnencryptedIssue(s)
    case DefaultCredentials => CredentialsIssue(s)
    case OutdatedSoftware => OutdatedIssue(s)
  }

  /** One check on one service: its issue is pushed when it fires. */
  function Check(kind: IssueType, s: Service, issues: seq<Issue>): (r: seq<Issue>)
    ensures Detects(kind, s) ==> r == issues + [IssueOf(kind, s)]
    ensures !Detects(kind, s) ==> r == issues
  {
    if Detects(kind, s) then issues + [IssueOf(kind, s)] else issues
  }

  /** The three checks on one service, in the order they run, after the issues
      found so far. */
  function CheckAll(s: Service, issues: seq<Issue>): seq<Issue> {
    Check(OutdatedSoftware, s, Check(DefaultCredentials, s, Check(UnencryptedService, s, issues)))
  }

  /** The issues of a list of services, service by service. */
  function IssuesOf(ss: seq<Service>): seq<Issue> {
    if ss == [] then [] else CheckAll(ss[|ss| - 1], IssuesOf(ss[..|ss| - 1]))
  }

  // ---------------------------------------------------------------------------
  // Score, grade and recommendations
  // ---------------------------------------------------------------------------

  /** What one issue costs: 10, 20 or 15 points. */
  function Penalty(kind: IssueType): nat {
    match kind
    case UnencryptedService => 10
    case DefaultCredentials => 20
    case OutdatedSoftware => 15
  }

  function TotalPenalty(issues: seq<Issue>): nat {
    if issues == [] then 0 else TotalPenalty(issues[..|issues| - 1]) + Penalty(issues[|issues| - 1].kind)
  }

  function Max(a: int, b: int): int {
    if a >= b then a else b
  }

  /** `calculateSecurityGrade`: 90 and above A, 80 B, 70 C, 60 D, else F. */
  function SecurityGrade(score: int): (g: Grade)
    ensures g == A <==> score >= 90
    ensures g == B <==> 80 <= score < 90
    ensures g == C <==> 70 <= score < 80
    ensures g == D <==> 60 <= score < 70
    ensures g == F <==> score < 60
  {
    if score >= 90 then A
    else if score >= 80 then B
    else if score >= 70 then C
    else if score >= 60 then D
    else F
  }

  predicate HasIssue(issues: seq<Issue>, kind: IssueType) {
    exists i | 0 <= i < |issues| :: issues[i].kind == kind
  }

  const EncryptAdvice := "Implement SSL/TLS encryption for all services"
  const PasswordAdvice := "Change all default passwords and usernames"
  const UpdateAdvice := "Update all software to latest versions"

  /** One piece of advice per kind of issue present, in a fixed order. */
  function Recommendations(issues: seq<Issue>): seq<string> {
    (if HasIssue(issues, UnencryptedService) then [EncryptAdvice] else [])
    + (if HasIssue(issues, DefaultCredentials) then [PasswordAdvice] else [])
    + (if HasIssue(issues, OutdatedSoftware) then [UpdateAdvice] else [])
  }

  /** At most three pieces of advice, none repeated, each present exactly when
      an issue of its kind is. */
  lemma {:induction false} RecommendationsMatchIssues(issues: seq<Issue>)
    ensures var r := Recommendations(issues);
      && |r| <= 3
      && (EncryptAdvice in r <==> HasIssue(issues, UnencryptedService))
      && (PasswordAdvice in r <==> HasIssue(issues, DefaultCredentials))
      && (UpdateAdvice in r <==> HasIssue(issues, OutdatedSoftware))
      && (forall i, j :: 0 <= i < j < |r| ==> r[i] != r[j])
  {
  }

  // ---------------------------------------------------------------------------
  // The analysis
  // ---------------------------------------------------------------------------

  /** The `forEach` over the services. */
  method CheckServices(services: seq<Service>) returns (issues: seq<Issue>, securityScore: int)
    ensures issues == IssuesOf(services)
    ensures securityScore == 100 - TotalPenalty(issues)
  {
    issues := [];
    securityScore := 100;
    for i := 0 to |services|
      invariant issues == IssuesOf(services[..i])
      invariant securityScore == 100 - TotalPenalty(issues)
    {
      issues, securityScore := CheckService(services[i], issues, securityScore);
      assert services[..i + 1][..i] == services[..i];
    }
    assert services[..|services|] == services;
  }

  /** The callback the `forEach` runs on one service: every check that fires
      pushes its issue and takes its penalty off the running score. */
  method CheckService(service: Service, issues0: seq<Issue>, score0: int)
    returns (issues: seq<Issue>, securityScore: int)
    ensures issues == CheckAll(service, issues0)
    ensures securityScore == score0 - (TotalPenalty(issues) - TotalPenalty(issues0))
  {
    issues, securityScore := issues0, score0;
    if IsPlaintext(service) {
      issues := PushIssue(issues, UnencryptedIssue(service));
      securityScore := securityScore - 10;
    }
    assert issues == Check(UnencryptedService, service, issues0);
    if HasDefaultCredentials(service) {
      issues := PushIssue(issues, CredentialsIssue(service));
      securityScore := securityScore - 20;
    }
    assert issues == Check(DefaultCredentials, service, Check(UnencryptedService, service, issues0));
    if IsOutdated(service) {
      issues := PushIssue(issues, OutdatedIssue(service));
      securityScore := securityScore - 15;
    }
  }

  /** `issues.push(issue)`: one more issue, one more penalty. */
  function PushIssue(issues: seq<Issue>, issue: Issue): (r: seq<Issue>)
    ensures r == issues + [issue]
    ensures TotalPenalty(r) == TotalPenalty(issues) + Penalty(issue.kind)
  {
    assert (issues + [issue])[..|issues|] == issues;
    issues + [issue]
  }

  /** The report as a value, built from the specification of each part. */
  function PostureOf(host: HostRecord): PostureReport {
    var issues := IssuesOf(Services(host));
    PostureReport(
      host.ip,
      Max(0, 100 - TotalPenalty(issues)),
      SecurityGrade(100 - TotalPenalty(issues)),
      issues,
      Recommendations(issues),
      |Ports(host)|,
      host.lastUpdate,
      host.org,
      host.country,
      host.city)
  }

  /** Runs the checks (an absent service list is an empty one), clamps the score
      at 0, grades the unclamped score and derives the advice. */
  method AnalyzeSecurityPosture(host: HostRecord) returns (r: PostureReport)
    ensures r.issues == IssuesOf(Services(host))
    ensures r.securityScore == Max(0, 100 - TotalPenalty(r.issues))
    ensures r.securityScore <= 100
    ensures r.securityGrade == SecurityGrade(100 - TotalPenalty(r.issues))
    ensures r.recommendations == Recommendations(r.issues)
    ensures r.openPorts == |Ports(host)|
    ensures r.ip == host.ip && r.lastUpdate == host.lastUpdate && r.organization == host.org
    ensures r.country == host.country && r.city == host.city
    ensures r == PostureOf(host)
  {
    var issues, securityScore := CheckServices(Services(host));
    var recommendations := Recommend(issues);
    r := PostureReport(
      host.ip,
      Max(0, securityScore),
      SecurityGrade(securityScore),
      issues,
      recommendations,
      |Ports(host)|,
      host.lastUpdate,
      host.org,
      host.country,
      host.city);
  }

  /** The three `issues.some(...)` tests, each pushing its advice. */
  method Recommend(issues: seq<Issue>) returns (recommendations: seq<string>)
    ensures recommendations == Recommendations(issues)
  {
    recommendations := [];
    if HasIssue(issues, UnencryptedService) {
      recommendations := recommendations + [EncryptAdvice];
    }
    if HasIssue(issues, DefaultCredentials) {
      recommendations := recommendations + [PasswordAdvice];
    }
    if HasIssue(issues, OutdatedSoftware) {
      recommendations := recommendations + [UpdateAdvice];
    }
  }

  // ---------------------------------------------------------------------------
  // Properties
  // ---------------------------------------------------------------------------

  /** The number of services a check fires on. */
  function CountDetected(ss: seq<Service>, kind: IssueType): nat {
    if ss == [] then 0
    else CountDetected(ss[..|ss| - 1], kind) + (if Detects(kind, ss[|ss| - 1]) then 1 else 0)
  }

  lemma {:induction false} CheckPenalty(kind: IssueType, s: Service, issues: seq<Issue>)
    ensures TotalPenalty(Check(kind, s, issues))
         == TotalPenalty(issues) + (if Detects(kind, s) then Penalty(kind) else 0)
  {
    if Detects(kind, s) {
      var r := Check(kind, s, issues);
      assert r[..|r| - 1] == issues;
    }
  }

  /** The total penalty is 10 per plaintext service, 20 per default-credential
      banner and 15 per outdated version. */
  lemma {:induction false} PenaltyByIssueType(ss: seq<Service>)
    ensures TotalPenalty(IssuesOf(ss))
         == 10 * CountDetected(ss, UnencryptedService)
          + 20 * CountDetected(ss, DefaultCredentials)
          + 15 * CountDetected(ss, OutdatedSoftware)
  {
    if ss != [] {
      var s := ss[|ss| - 1];
      var prior := IssuesOf(ss[..|ss| - 1]);
      PenaltyByIssueType(ss[..|ss| - 1]);
      CheckPenalty(UnencryptedService, s, prior);
      CheckPenalty(DefaultCredentials, s, Check(UnencryptedService, s, prior));
      CheckPenalty(OutdatedSoftware, s, Check(DefaultCredentials, s, Check(UnencryptedService, s, prior)));
    }
  }

  lemma {:induction false} CheckHasIssue(check: IssueType, s: Service, issues: seq<Issue>, kind: IssueType)
    ensures HasIssue(Check(check, s, issues), kind)
        <==> HasIssue(issues, kind) || (check == kind && Detects(kind, s))
  {
    var r := Check(check, s, issues);
    if HasIssue(r, kind) {
      var i :| 0 <= i < |r| && r[i].kind == kind;
      if i < |issues| {
        assert issues[i] == r[i];
      }
    }
    if HasIssue(issues, kind) {
      var i :| 0 <= i < |issues| && issues[i].kind == kind;
      assert r[i] == issues[i];
    }
    if check == kind && Detects(kind, s) {
      assert r[|r| - 1].kind == kind;
    }
  }

  /** Some service of the list triggers the check. */
  predicate AnyDetects(ss: seq<Service>, kind: IssueType) {
    exists i | 0 <= i < |ss| :: Detects(kind, ss[i])
  }

  /** An issue of a kind is reported exactly when some service triggers that
      check, so each recommendation appears exactly when its issue does. */
  lemma {:induction false} IssueKindPresent(ss: seq<Service>, kind: IssueType)
    ensures HasIssue(IssuesOf(ss), kind) <==> AnyDetects(ss, kind)
  {
    if ss != [] {
      var p := ss[..|ss| - 1];
      var s := ss[|ss| - 1];
      var prior := IssuesOf(p);
      IssueKindPresent(p, kind);
      CheckHasIssue(UnencryptedService, s, prior, kind);
      CheckHasIssue(DefaultCredentials, s, Check(UnencryptedService, s, prior), kind);
      CheckHasIssue(OutdatedSoftware, s, Check(DefaultCredentials, s, Check(UnencryptedService, s, prior)), kind);
      assert HasIssue(IssuesOf(ss), kind) <==> HasIssue(prior, kind) || Detects(kind, s) by {
        match kind
        case UnencryptedService =>
        case DefaultCredentials =>
        case OutdatedSoftware =>
      }
      if AnyDetects(ss, kind) {
        var i :| 0 <= i < |ss| && Detects(kind, ss[i]);
        if i < |p| {
          assert p[i] == ss[i];
        }
      }
      if AnyDetects(p, kind) {
        var i :| 0 <= i < |p| && Detects(kind, p[i]);
        assert ss[i] == p[i];
      }
    }
  }

  /** Grading the unclamped score gives the same grade as grading the clamped
      score shown next to it. */
  lemma {:induction false} GradeIgnoresClamp(raw: int)
    ensures SecurityGrade(raw) == SecurityGrade(Max(0, raw))
  {
  }

  lemma {:induction false} LowerOpenSsh()
    ensures Lower("OpenSSH") == "openssh"
  {
    assert Lower("OpenSSH") == [LowerChar('O')] + Lower("penSSH");
    assert Lower("SSH") == "ssh";
    assert Lower("penSSH") == "pen" + Lower("SSH");
  }

  /** The floors are compared as strings: OpenSSH 10.0 counts as older than 8.0, */
  lemma {:induction false} OpensshTenIsOutdated()
    ensures IsOutdatedVersion(Some("OpenSSH"), "10.0")
  {
    LowerOpenSsh();
  }

  /** ... while 9.9 does not. */
  lemma {:induction false} OpensshNineIsNotOutdated()
    ensures !IsOutdatedVersion(Some("OpenSSH"), "9.9")
  {
    LowerOpenSsh();
  }

  /** A product named `constructor` or `__proto__`, in any case, has every
      version that starts with a digit flagged: the inherited property is
      found and its text sorts after every digit. */
  lemma {:induction false} PrototypeKeysAreOutdated(product: string, version: string)
    requires Lower(product) == "constructor" || Lower(product) == "__proto__"
    requires version != [] && '0' <= version[0] <= '9'
    ensures IsOutdatedVersion(Some(product), version)
  {
  }

  /** The two inherited keys are reached from their lower-case spellings. */
  lemma {:induction false} PrototypeKeyNames()
    ensures Lower("constructor") == "constructor" && Lower("__proto__") == "__proto__"
    ensures IsOutdatedVersion(Some("constructor"), "1.0") && IsOutdatedVersion(Some("__proto__"), "1.0")
  {
    var c, p := "constructor", "__proto__";
    assert forall i :: 0 <= i < |c| ==> !('A' <= c[i] <= 'Z');
    assert forall i :: 0 <= i < |p| ==> !('A' <= p[i] <= 'Z');
    LowerKeeps(c);
    LowerKeeps(p);
    PrototypeKeysAreOutdated(c, "1.0");
    PrototypeKeysAreOutdated(p, "1.0");
  }

  /** Anything below a flagged version is flagged too. */
  lemma {:induction false} OutdatedDownwardClosed(product: Option<string>, v: string, w: string)
    requires IsOutdatedVersion(product, w) && LexLess(v, w)
    ensures IsOutdatedVersion(product, v)
  {
    LexLessTransitive(v, w, OutdatedFloor(Lower(product.value)).value);
  }

  /** The worked example: one plain `telnet` service and nothing else costs 10
      points; the score 90 is graded A (the threshold for A is 90). */
  lemma {:induction false} TelnetExample()
    ensures var ss := [Service(23, "tcp", Some("telnet"), None, None, None)];
      && IssuesOf(ss) == [Issue(UnencryptedService, Medium, 23, Some("telnet"), None,
                                "Unencrypted " + "telnet" + " service detected")]
      && 100 - TotalPenalty(IssuesOf(ss)) == 90
      && SecurityGrade(90) == A
      && Recommendations(IssuesOf(ss)) == [EncryptAdvice]
  {
    var s := Service(23, "tcp", Some("telnet"), None, None, None);
    var ss := [s];
    assert Lower("telnet") == "telnet";
    assert IsPlaintext(s) && !HasDefaultCredentials(s) && !IsOutdated(s);
    assert ss[..0] == [];
    var issue := UnencryptedIssue(s);
    assert IssuesOf(ss) == [issue];
    assert [issue][..0] == [];
    assert [issue][0].kind == UnencryptedService;
  }
}
