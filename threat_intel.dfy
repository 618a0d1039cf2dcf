/** `getThreatIntelligence`: 25 points for every threat tag on the host, 10 for
    every service whose product looks like an anonymising relay, and a
    reputation read off the total. */
module ThreatIntel {
  import opened Wrappers
  import opened JsText
  import opened HostModel
  import opened Severity
  import opened Counting

  datatype IndicatorType = TagIndicator | ServiceIndicator

  /** One indicator; `port` is present on service indicators only. */
  datatype Indicator = Indicator(kind: IndicatorType, value: string, port: Option<int>, severity: Rating)

  /** The reputation the score maps to (the initial `unknown` is always
      overwritten). */
  datatype Reputation = Malicious | Suspicious | Caution | Clean

  datatype ThreatReport = ThreatReport(
    ip: string,
    threatScore: nat,
    indicators: seq<Indicator>,
    malwareHistory: seq<string>,
    botnetActivity: bool,
    reputation: Reputation)

  /** The tag, lower-cased, is one of `malware`, `botnet`, `compromised`,
      `suspicious` and `honeypot`. */
  predicate IsThreatTag(tag: string) {
    var t := Lower(tag);
    t == "malware" || t == "botnet" || t == "compromised" || t == "suspicious" || t == "honeypot"
  }

  /** The product is present and non-empty and, lower-cased, contains `tor`,
      `proxy` or `vpn`. */
  predicate IsSuspiciousService(s: Service) {
    Truthy(s.product) &&
    (Contains(Lower(s.product.value), "tor") || Contains(Lower(s.product.value), "proxy") ||
     Contains(Lower(s.product.value), "vpn"))
  }

  function TagIndicatorOf(tag: string): Indicator {
    Indicator(TagIndicator, tag, None, High)
  }

  function ServiceIndicatorOf(s: Service): Indicator
    requires s.product.Some?
  {
    Indicator(ServiceIndicator, s.product.value, Some(s.port), Medium)
  }

  /** The indicators the tags raise, in tag order, one per threat tag. */
  function TagIndicators(tags: seq<string>): (r: seq<Indicator>)
    ensures |r| <= |tags|
    ensures forall i :: 0 <= i < |r| ==> r[i].kind == TagIndicator && r[i].severity == High
  {
    if tags == [] then []
    else
      var t := tags[|tags| - 1];
      TagIndicators(tags[..|tags| - 1]) + (if IsThreatTag(t) then [TagIndicatorOf(t)] else [])
  }

  /** Some tag of the list is a threat tag. */
  predicate HasThreatTag(tags: seq<string>) {
    exists i | 0 <= i < |tags| :: IsThreatTag(tags[i])
  }

  /** The indicators the services raise, in service order. */
  function ServiceIndicators(ss: seq<Service>): (r: seq<Indicator>)
    ensures |r| <= |ss|
    ensures forall i :: 0 <= i < |r| ==> r[i].kind == ServiceIndicator && r[i].severity == Medium
  {
    if ss == [] then []
    else
      var s := ss[|ss| - 1];
      ServiceIndicators(ss[..|ss| - 1]) + (if IsSuspiciousService(s) then [ServiceIndicatorOf(s)] else [])
  }

  /** The reputation bands: 50 and above malicious, 25 suspicious, anything
      above 0 caution, 0 clean. */
  function ReputationOf(score: int): (r: Reputation)
    ensures r == Malicious <==> score >= 50
    ensures r == Suspicious <==> 25 <= score < 50
    ensures r == Caution <==> 0 < score < 25
    ensures r == Clean <==> score <= 0
  {
    if score >= 50 then Malicious
    else if score >= 25 then Suspicious
    else if score > 0 then Caution
    else Clean
  }

  /** The two `forEach` loops: tag indicators first, each worth 25 points, then
      service indicators, each worth 10. An absent list is an empty one. */
  method GetThreatIntelligence(host: HostRecord) returns (intel: ThreatReport)
    ensures intel.indicators == TagIndicators(Tags(host)) + ServiceIndicators(Services(host))
    ensures intel.threatScore
         == 25 * |TagIndicators(Tags(host))| + 10 * |ServiceIndicators(Services(host))|
    ensures intel.reputation == ReputationOf(intel.threatScore)
    ensures intel.ip == host.ip && intel.malwareHistory == [] && !intel.botnetActivity
  {
    var indicators, threatScore := ScanTags(Tags(host));
    indicators, threatScore := ScanServices(Services(host), indicators, threatScore);
    intel := ThreatReport(host.ip, threatScore, indicators, [], false, ReputationOf(threatScore));
  }

  /** The loop over the tags. */
  method ScanTags(tags: seq<string>) returns (indicators: seq<Indicator>, threatScore: nat)
    ensures indicators == TagIndicators(tags)
    ensures threatScore == 25 * |indicators|
  {
    indicators := [];
    threatScore := 0;
    for i := 0 to |tags|
      invariant indicators == TagIndicators(tags[..i])
      invariant threatScore == 25 * |indicators|
    {
      if IsThreatTag(tags[i]) {
        indicators := indicators + [Indicator(TagIndicator, tags[i], None, High)];
        threatScore := threatScore + 25;
      }
      assert tags[..i + 1][..i] == tags[..i];
    }
    assert tags[..|tags|] == tags;
  }

  /** The loop over the services, after the tag indicators. */
  method ScanServices(services: seq<Service>, indicators0: seq<Indicator>, score0: nat)
    returns (indicators: seq<Indicator>, threatScore: nat)
    ensures indicators == indicators0 + ServiceIndicators(services)
    ensures threatScore == score0 + 10 * |ServiceIndicators(services)|
  {
    indicators, threatScore := indicators0, score0;
    for i := 0 to |services|
      invariant indicators == indicators0 + ServiceIndicators(services[..i])
      invariant threatScore == score0 + 10 * |ServiceIndicators(services[..i])|
    {
      var service := services[i];
      if IsSuspiciousService(service) {
        indicators := indicators + [Indicator(ServiceIndicator, service.product.value, Some(service.port), Medium)];
        threatScore := threatScore + 10;
      }
      assert services[..i + 1][..i] == services[..i];
    }
    assert services[..|services|] == services;
  }

  // ---------------------------------------------------------------------------
  // Properties
  // ---------------------------------------------------------------------------

  /** The tag test ignores the case of the tag. */
  lemma {:induction false} ThreatTagIgnoresCase(tag: string)
    ensures IsThreatTag(Lower(tag)) <==> IsThreatTag(tag)
  {
    LowerIdempotent(tag);
  }

  /** Every tag indicator names a threat tag the host carries, and there is one
      exactly when the host carries a threat tag. */
  lemma {:induction false} TagIndicatorsAreThreatTags(tags: seq<string>)
    ensures forall i :: 0 <= i < |TagIndicators(tags)| ==>
      IsThreatTag(TagIndicators(tags)[i].value) && TagIndicators(tags)[i].value in tags
    ensures TagIndicators(tags) != [] <==> HasThreatTag(tags)
  {
    if tags != [] {
      var p := tags[..|tags| - 1];
      var t := tags[|tags| - 1];
      TagIndicatorsAreThreatTags(p);
      var r := TagIndicators(tags);
      assert r == TagIndicators(p) + (if IsThreatTag(t) then [TagIndicatorOf(t)] else []);
      forall i | 0 <= i < |r| ensures IsThreatTag(r[i].value) && r[i].value in tags {
        if i < |TagIndicators(p)| {
          assert r[i] == TagIndicators(p)[i];
          var k :| 0 <= k < |p| && p[k] == r[i].value;
          assert tags[k] == p[k];
        }
      }
      if HasThreatTag(tags) && !IsThreatTag(t) {
        var k :| 0 <= k < |tags| && IsThreatTag(tags[k]);
        assert p[k] == tags[k];
      }
      if HasThreatTag(p) {
        var k :| 0 <= k < |p| && IsThreatTag(p[k]);
        assert tags[k] == p[k];
      }
    }
  }

  /** The tag indicators are exactly the threat tags, in order, each made into
      a high-severity indicator naming the tag. */
  lemma {:induction false} TagIndicatorsFiltered(tags: seq<string>)
    ensures |TagIndicators(tags)| == |Filter(tags, IsThreatTag)|
    ensures forall i :: 0 <= i < |TagIndicators(tags)| ==>
      TagIndicators(tags)[i] == TagIndicatorOf(Filter(tags, IsThreatTag)[i])
  {
    if tags != [] {
      var p := tags[..|tags| - 1];
      var t := tags[|tags| - 1];
      TagIndicatorsFiltered(p);
      FilterLast(tags, IsThreatTag);
      var r := TagIndicators(tags);
      var f := Filter(tags, IsThreatTag);
      assert r == TagIndicators(p) + (if IsThreatTag(t) then [TagIndicatorOf(t)] else []);
      assert f == Filter(p, IsThreatTag) + (if IsThreatTag(t) then [t] else []);
      forall i | 0 <= i < |r| ensures r[i] == TagIndicatorOf(f[i]) {
        if i < |TagIndicators(p)| {
          assert r[i] == TagIndicators(p)[i] && f[i] == Filter(p, IsThreatTag)[i];
        }
      }
    }
  }

  /** The service indicators are exactly the suspicious services, in order,
      each made into a medium-severity indicator carrying its product and
      port. */
  lemma {:induction false} ServiceIndicatorsFiltered(ss: seq<Service>)
    ensures |ServiceIndicators(ss)| == |Filter(ss, IsSuspiciousService)|
    ensures forall i :: 0 <= i < |ServiceIndicators(ss)| ==>
      var s := Filter(ss, IsSuspiciousService)[i];
      s.product.Some? && ServiceIndicators(ss)[i] == ServiceIndicatorOf(s)
  {
    if ss != [] {
      var p := ss[..|ss| - 1];
      var x := ss[|ss| - 1];
      ServiceIndicatorsFiltered(p);
      FilterLast(ss, IsSuspiciousService);
      var r := ServiceIndicators(ss);
      var f := Filter(ss, IsSuspiciousService);
      assert r == ServiceIndicators(p) + (if IsSuspiciousService(x) then [ServiceIndicatorOf(x)] else []);
      assert f == Filter(p, IsSuspiciousService) + (if IsSuspiciousService(x) then [x] else []);
      forall i | 0 <= i < |r| ensures f[i].product.Some? && r[i] == ServiceIndicatorOf(f[i]) {
        if i < |ServiceIndicators(p)| {
          assert r[i] == ServiceIndicators(p)[i] && f[i] == Filter(p, IsSuspiciousService)[i];
        }
      }
    }
  }

  /** The score counts the threat tags and the suspicious services. */
  lemma {:induction false} ThreatScoreCounts(host: HostRecord)
    ensures 25 * |TagIndicators(Tags(host))| + 10 * |ServiceIndicators(Services(host))|
         == 25 * |Filter(Tags(host), IsThreatTag)| + 10 * |Filter(Services(host), IsSuspiciousService)|
  {
    TagIndicatorsFiltered(Tags(host));
    ServiceIndicatorsFiltered(Services(host));
  }

  /** The score never exceeds 25 per tag plus 10 per service. */
  lemma {:induction false} ThreatScoreBound(host: HostRecord)
    ensures 25 * |TagIndicators(Tags(host))| + 10 * |ServiceIndicators(Services(host))|
         <= 25 * |Tags(host)| + 10 * |Services(host)|
  {
  }

  /** Two threat tags are enough to make a host malicious, whatever its
      services. */
  lemma {:induction false} TwoThreatTagsAreMalicious(tags: seq<string>, ss: seq<Service>, i: int, j: int)
    requires 0 <= i < j < |tags| && IsThreatTag(tags[i]) && IsThreatTag(tags[j])
    ensures ReputationOf(25 * |TagIndicators(tags)| + 10 * |ServiceIndicators(ss)|) == Malicious
  {
    var p := tags[..j];
    assert p[i] == tags[i];
    TagIndicatorsAreThreatTags(p);
    assert tags[..j + 1][..j] == p;
    assert TagIndicators(tags[..j + 1]) == TagIndicators(p) + [TagIndicatorOf(tags[j])];
    TagIndicatorsPrefixGrows(tags, j + 1);
  }

  /** A longer prefix of the tags raises at least as many indicators. */
  lemma {:induction false} TagIndicatorsPrefixGrows(tags: seq<string>, n: int)
    requires 0 <= n <= |tags|
    ensures |TagIndicators(tags[..n])| <= |TagIndicators(tags)|
    decreases |tags| - n
  {
    if n < |tags| {
      TagIndicatorsPrefixGrows(tags, n + 1);
      assert tags[..n + 1][..n] == tags[..n];
    } else {
      assert tags[..n] == tags;
    }
  }

  /** The worked example: a host tagged `botnet` and nothing else scores 25 and
      is suspicious. */
  lemma {:induction false} BotnetExample()
    ensures TagIndicators(["botnet"]) == [Indicator(TagIndicator, "botnet", None, High)]
    ensures ReputationOf(25 * |TagIndicators(["botnet"])| + 10 * |ServiceIndicators([])|) == Suspicious
  {
    var tags := ["botnet"];
    assert Lower("botnet") == "botnet";
    assert tags[..0] == [];
  }
}
