/** The client of the upstream scanning API: the key list read from the
    environment, the round-robin choice of a key for every request, the query
    parameters each call sends, the checks made before a request, and the
    mapping of a failed request to an error message. The HTTP exchange itself
    is a parameter: each request method receives the reply it gets. */
module ShodanApi {
  import opened Wrappers
  import opened JsText
  import opened Counting
  import HostModel

  // ---------------------------------------------------------------------------
  // API keys
  // ---------------------------------------------------------------------------

  predicate NonEmpty(s: string) {
    s != ""
  }

  /** `parts.map(k => k.trim())`. */
  function TrimAll(parts: seq<string>): (r: seq<string>)
    ensures |r| == |parts|
    ensures forall i :: 0 <= i < |parts| ==> r[i] == Trim(parts[i])
  {
    seq(|parts|, i requires 0 <= i < |parts| => Trim(parts[i]))
  }

  /** `keys.split(',').map(k => k.trim()).filter(Boolean)`: every parsed key is
      clean and is a comma-separated part, trimmed; every part that is not
      blank is a key. `ParseApiKeysPart` and `ParseApiKeysCons` fix the order. */
  function ParseApiKeys(keys: string): (r: seq<string>)
    ensures forall k | k in r :: IsCleanKey(k)
    ensures forall k | k in r :: exists p | p in Split(keys, ',') :: k == Trim(p)
    ensures forall p | p in Split(keys, ',') && Trim(p) != "" :: Trim(p) in r
  {
    TrimmedPartsClean(keys);
    Filter(TrimAll(Split(keys, ',')), NonEmpty)
  }

  /** A key as the parser leaves it: not empty, no comma, no white space at
      either end. */
  predicate IsCleanKey(k: string) {
    k != "" && ',' !in k && !IsJsWhitespace(k[0]) && !IsJsWhitespace(k[|k| - 1])
  }

  /** A trimmed part that is not empty is clean. */
  lemma {:induction false} TrimmedPartClean(p: string)
    requires ',' !in p && Trim(p) != ""
    ensures IsCleanKey(Trim(p))
  {
    TrimKeepsCharacters(p);
    var a, b :| 0 <= a <= b <= |p| && TrimmedAt(p, Trim(p), a, b);
  }

  /** The non-empty trimmed parts are clean and cover every non-blank part. */
  lemma {:induction false} TrimmedPartsClean(keys: string)
    ensures forall k | k in Filter(TrimAll(Split(keys, ',')), NonEmpty) :: IsCleanKey(k)
    ensures forall k | k in Filter(TrimAll(Split(keys, ',')), NonEmpty) ::
      exists p | p in Split(keys, ',') :: k == Trim(p)
    ensures forall p | p in Split(keys, ',') && Trim(p) != "" :: Trim(p) in Filter(TrimAll(Split(keys, ',')), NonEmpty)
  {
    var parts := Split(keys, ',');
    var trimmed := TrimAll(parts);
    forall k | k in Filter(trimmed, NonEmpty) ensures IsCleanKey(k) && exists p | p in parts :: k == Trim(p) {
      var i :| 0 <= i < |trimmed| && trimmed[i] == k;
      TrimmedPartClean(parts[i]);
    }
    forall p | p in parts && Trim(p) != "" ensures Trim(p) in Filter(trimmed, NonEmpty) {
      var i :| 0 <= i < |parts| && parts[i] == p;
      assert trimmed[i] == Trim(p);
      assert NonEmpty(trimmed[i]);
    }
  }

  /** A text without commas is one key, trimmed, or none when it is blank. */
  lemma {:induction false} ParseApiKeysPart(k: string)
    requires ',' !in k
    ensures ParseApiKeys(k) == (if Trim(k) != "" then [Trim(k)] else [])
  {
    SplitNoSeparator(k, ',');
    assert TrimAll([k]) == [Trim(k)];
    FilterSingle(Trim(k), NonEmpty);
  }

  /** The keys come out in list order: the first part's key, if it is not
      blank, then the keys of the rest. */
  lemma {:induction false} ParseApiKeysCons(k: string, rest: string)
    requires ',' !in k
    ensures ParseApiKeys(k + [','] + rest)
         == (if Trim(k) != "" then [Trim(k)] else []) + ParseApiKeys(rest)
  {
    var parts := Split(rest, ',');
    SplitAfterPart(k, ',', rest);
    assert Split(k + [','] + rest, ',') == [k] + parts;
    var tail := TrimAll(parts);
    assert TrimAll([k] + parts) == [Trim(k)] + tail;
    FilterConcat([Trim(k)], tail, NonEmpty);
    FilterSingle(Trim(k), NonEmpty);
  }

  /** A comma-separated list of clean keys parses back to the list. */
  lemma {:induction false} ParseApiKeysJoin(ks: seq<string>)
    requires |ks| >= 1
    requires forall i :: 0 <= i < |ks| ==> IsCleanKey(ks[i])
    ensures ParseApiKeys(Join(ks, ',')) == ks
  {
    SplitJoin(ks, ',');
    TrimAllClean(ks);
    FilterAll(ks, NonEmpty);
  }

  /** Trimming clean keys changes none of them. */
  lemma {:induction false} TrimAllClean(ks: seq<string>)
    requires forall i :: 0 <= i < |ks| ==> IsCleanKey(ks[i])
    ensures TrimAll(ks) == ks
  {
    var trimmed := TrimAll(ks);
    forall i | 0 <= i < |ks| ensures trimmed[i] == ks[i] {
      TrimOfTrimmed(ks[i]);
    }
  }

  /** The key list the constructor settles on, or the message it throws:
      `SHODAN_API_KEYS` when set and not empty, otherwise `SHODAN_API_KEY`. */
  function ConfiguredKeys(keysVar: Option<string>, keyVar: Option<string>): (r: Result<seq<string>, string>)
    ensures r.Success? ==> |r.value| >= 1
  {
    var keys := if HostModel.Truthy(keysVar) then keysVar else keyVar;
    if !HostModel.Truthy(keys) then
      Failure("SHODAN_API_KEYS or SHODAN_API_KEY environment variable is required")
    else if |ParseApiKeys(keys.value)| == 0 then
      Failure("No valid Shodan API keys provided")
    else Success(ParseApiKeys(keys.value))
  }

  /** Construction fails exactly when neither variable is set (to a non-empty
      value) or the chosen one holds no key; otherwise the keys are those of the
      chosen variable, all clean. `SHODAN_API_KEY` is read only when
      `SHODAN_API_KEYS` is unset or empty. */
  lemma {:induction false} ConfiguredKeysMeaning(keysVar: Option<string>, keyVar: Option<string>)
    ensures !HostModel.Truthy(keysVar) && !HostModel.Truthy(keyVar) ==>
      ConfiguredKeys(keysVar, keyVar)
        == Failure("SHODAN_API_KEYS or SHODAN_API_KEY environment variable is required")
    ensures HostModel.Truthy(keysVar) ==>
      ConfiguredKeys(keysVar, keyVar) == (if |ParseApiKeys(keysVar.value)| == 0
        then Failure("No valid Shodan API keys provided") else Success(ParseApiKeys(keysVar.value)))
    ensures !HostModel.Truthy(keysVar) && HostModel.Truthy(keyVar) ==>
      ConfiguredKeys(keysVar, keyVar) == (if |ParseApiKeys(keyVar.value)| == 0
        then Failure("No valid Shodan API keys provided") else Success(ParseApiKeys(keyVar.value)))
    ensures ConfiguredKeys(keysVar, keyVar).Success? ==>
      forall k | k in ConfiguredKeys(keysVar, keyVar).value :: IsCleanKey(k)
  {
  }

  /** A set but useless `SHODAN_API_KEYS` does not fall back on
      `SHODAN_API_KEY`: `","` with a good single key still fails. */
  lemma {:induction false} NoFallbackFromBlankList(key: string)
    requires IsCleanKey(key)
    ensures ConfiguredKeys(Some(","), Some(key)) == Failure("No valid Shodan API keys provided")
  {
    BlankListHasNoKey();
  }

  lemma {:induction false} BlankListHasNoKey()
    ensures ParseApiKeys(",") == []
  {
    assert Split([','], ',') == [[], []];
    assert TrimAll([[], []]) == [[], []];
    assert Filter([[], []], NonEmpty) == [];
  }

  // ---------------------------------------------------------------------------
  // Rotation
  // ---------------------------------------------------------------------------

  /** The keys handed out by `count` consecutive calls starting at index `i`,
      and the index after them: each call takes the key at the index and moves
      the index one step round the list. */
  function Calls(keys: seq<string>, i: nat, count: nat): (handedOut: (seq<string>, nat))
    requires i < |keys|
    ensures |handedOut.0| == count && handedOut.1 < |keys|
  {
    if count == 0 then ([], i)
    else
      var (ks, j) := Calls(keys, i, count - 1);
      (ks + [keys[j]], (j + 1) % |keys|)
  }

  /** One step round the list. */
  lemma {:induction false} NextIndex(j: nat, n: nat)
    requires j < n
    ensures (j + 1) % n == if j + 1 == n then 0 else j + 1
  {
  }

  /** Up to a full round, the calls hand out the list rotated to start at `i`. */
  lemma {:induction false} CallsRotate(keys: seq<string>, i: nat, count: nat)
    requires i < |keys| && count <= |keys|
    ensures Calls(keys, i, count).0 == (keys[i..] + keys[..i])[..count]
    ensures Calls(keys, i, count).1 == if i + count < |keys| then i + count else i + count - |keys|
  {
    if count > 0 {
      var n := |keys|;
      var rotated := keys[i..] + keys[..i];
      CallsRotate(keys, i, count - 1);
      var (ks, j) := Calls(keys, i, count - 1);
      NextIndex(j, n);
      RotatedAt(keys, i, count - 1);
      assert rotated[..count] == rotated[..count - 1] + [rotated[count - 1]];
    }
  }

  /** Position `t` of the rotated list. */
  lemma {:induction false} RotatedAt(keys: seq<string>, i: nat, t: nat)
    requires i < |keys| && t < |keys|
    ensures (keys[i..] + keys[..i])[t] == keys[if i + t < |keys| then i + t else i + t - |keys|]
  {
  }

  /** As many calls as there are keys hand out every key once, in list order
      from the current one and round to it, and bring the index back. */
  lemma {:induction false} FullCycle(keys: seq<string>, i: nat)
    requires i < |keys|
    ensures Calls(keys, i, |keys|) == (keys[i..] + keys[..i], i)
    ensures multiset(Calls(keys, i, |keys|).0) == multiset(keys)
  {
    CallsRotate(keys, i, |keys|);
    assert (keys[i..] + keys[..i])[..|keys|] == keys[i..] + keys[..i];
    assert keys == keys[..i] + keys[i..];
  }

  // ---------------------------------------------------------------------------
  // Requests and replies
  // ---------------------------------------------------------------------------

  /** A query-parameter or body value. */
  datatype ParamValue = Str(s: string) | Num(n: int) | Flag(b: bool)

  /** JavaScript truthiness of an optional parameter value. */
  predicate IsSet(v: Option<ParamValue>) {
    match v
    case None => false
    case Some(Str(s)) => s != ""
    case Some(Num(n)) => n != 0
    case Some(Flag(b)) => b
  }

  type Params = seq<(string, ParamValue)>

  /** A request: the URL, the query parameters in order, and the JSON body of a
      POST (`None` for a GET). */
  datatype Request = Request(url: string, query: Params, body: Option<Params>)

  /** What the HTTP exchange gave: the data of a reply, an error reply (the
      `error` field of its body, its status text and the client's message), or no
      reply at all. */
  datatype Reply =
    | Ok(data: string)
    | ErrorReply(error: Option<string>, statusText: string, message: string)
    | NoReply(message: string)

  const BaseURL: string := "https://api.shodan.io"

  /** The outcome of `makeRequest` for a reply. A reply's data comes back as it
      is; a failed request names the API and carries the server's own error
      text when there is one, the status text otherwise; without a reply the
      message says the API was unreachable. */
  function RequestOutcome(reply: Reply): (r: Result<string, string>)
    ensures r.Success? <==> reply.Ok?
    ensures reply.Ok? ==> r.value == reply.data
    ensures reply.ErrorReply? && HostModel.Truthy(reply.error) ==> r.error == "Shodan API: " + reply.error.value
    ensures reply.ErrorReply? && !HostModel.Truthy(reply.error) ==> r.error == "Shodan API: " + reply.statusText
    ensures reply.NoReply? ==> r.error == "Failed to connect to Shodan API"
  {
    match reply
    case Ok(data) => Success(data)
    case ErrorReply(error, statusText, _) =>
      Failure("Shodan API: " + (if HostModel.Truthy(error) then error.value else statusText))
    case NoReply(_) => Failure("Failed to connect to Shodan API")
  }

  /** The outcome of a POST or DELETE call (alert creation and the like), whose
      message names the action: the server's `error` text when it has one,
      otherwise the HTTP client's message. */
  function ActionOutcome(prefix: string, reply: Reply): (r: Result<string, string>)
    ensures r.Success? <==> reply.Ok?
    ensures reply.Ok? ==> r.value == reply.data
    ensures reply.ErrorReply? && HostModel.Truthy(reply.error) ==> r.error == prefix + reply.error.value
    ensures reply.ErrorReply? && !HostModel.Truthy(reply.error) ==> r.error == prefix + reply.message
    ensures reply.NoReply? ==> r.error == prefix + reply.message
  {
    match reply
    case Ok(data) => Success(data)
    case ErrorReply(error, _, message) =>
      Failure(prefix + (if HostModel.Truthy(error) then error.value else message))
    case NoReply(message) => Failure(prefix + message)
  }

  /** The options of a search. */
  datatype SearchOptions = SearchOptions(page: Option<ParamValue>, minify: Option<ParamValue>,
                                         facets: Option<ParamValue>)

  function ValueOr(v: Option<ParamValue>, fallback: ParamValue): ParamValue {
    if IsSet(v) then v.value else fallback
  }

  /** `facets` (or any optional parameter) is sent only when set. */
  function Optional(name: string, v: Option<ParamValue>): Params {
    if IsSet(v) then [(name, v.value)] else []
  }

  /** The parameters of `searchHosts`. */
  function SearchParams(query: string, options: SearchOptions): Params {
    [("query", Str(query)), ("page", ValueOr(options.page, Num(1))),
     ("minify", ValueOr(options.minify, Flag(false)))]
    + Optional("facets", options.facets)
  }

  /** The parameters of `getHostCount`. */
  function CountParams(query: string, facets: Option<ParamValue>): Params {
    [("query", Str(query))] + Optional("facets", facets)
  }

  /** The parameters of `searchExploits`. */
  function ExploitParams(query: string, options: SearchOptions): Params {
    [("query", Str(query)), ("page", ValueOr(options.page, Num(1)))] + Optional("facets", options.facets)
  }

  /** The body of `createAlert`. */
  function AlertBody(name: string, ip: string, expires: Option<ParamValue>): Params {
    [("name", Str(name)), ("ip", Str(ip))] + Optional("expires", expires)
  }

  function Names(ps: Params): (names: seq<string>)
    ensures |names| == |ps|
    ensures forall i :: 0 <= i < |ps| ==> names[i] == ps[i].0
  {
    seq(|ps|, i requires 0 <= i < |ps| => ps[i].0)
  }

  /** The value of the named parameter, if it is sent. */
  function Lookup(ps: Params, name: string): Option<ParamValue> {
    if ps == [] then None else if ps[0].0 == name then Some(ps[0].1) else Lookup(ps[1..], name)
  }

  /** A parameter other than the first is looked up in the rest. */
  lemma {:induction false} LookupSkip(ps: Params, name: string)
    requires ps != [] && ps[0].0 != name
    ensures Lookup(ps, name) == Lookup(ps[1..], name)
  {
  }

  /** A search sends the query, the page (1 unless set), `minify` (false unless
      set), and `facets` only when set; never a parameter named `key`, so the key
      placed first cannot be overridden. */
  lemma {:induction false} SearchParamsMeaning(query: string, options: SearchOptions)
    ensures Names(SearchParams(query, options))
      == ["query", "page", "minify"] + (if IsSet(options.facets) then ["facets"] else [])
    ensures Lookup(SearchParams(query, options), "query") == Some(Str(query))
    ensures Lookup(SearchParams(query, options), "page")
      == Some(if IsSet(options.page) then options.page.value else Num(1))
    ensures Lookup(SearchParams(query, options), "minify")
      == Some(if IsSet(options.minify) then options.minify.value else Flag(false))
    ensures Lookup(SearchParams(query, options), "facets")
      == (if IsSet(options.facets) then options.facets else None)
    ensures "key" !in Names(SearchParams(query, options))
  {
    var ps := SearchParams(query, options);
    var tail := Optional("facets", options.facets);
    assert ps[1..][1..][1..] == tail;
    LookupSkip(ps, "page");
    LookupSkip(ps, "minify");
    LookupSkip(ps[1..], "minify");
    LookupSkip(ps, "facets");
    LookupSkip(ps[1..], "facets");
    LookupSkip(ps[1..][1..], "facets");
  }

  /** A count sends the query and `facets` only when set. */
  lemma {:induction false} CountParamsMeaning(query: string, facets: Option<ParamValue>)
    ensures Names(CountParams(query, facets)) == ["query"] + (if IsSet(facets) then ["facets"] else [])
    ensures Lookup(CountParams(query, facets), "query") == Some(Str(query))
    ensures Lookup(CountParams(query, facets), "facets") == (if IsSet(facets) then facets else None)
  {
    var ps := CountParams(query, facets);
    assert ps[1..] == Optional("facets", facets);
    assert Lookup(ps, "facets") == Lookup(ps[1..], "facets");
  }

  /** An exploit search sends the query, the page (1 unless set), and `facets`
      only when set. */
  lemma {:induction false} ExploitParamsMeaning(query: string, options: SearchOptions)
    ensures Names(ExploitParams(query, options))
      == ["query", "page"] + (if IsSet(options.facets) then ["facets"] else [])
    ensures Lookup(ExploitParams(query, options), "page")
      == Some(if IsSet(options.page) then options.page.value else Num(1))
    ensures Lookup(ExploitParams(query, options), "facets")
      == (if IsSet(options.facets) then options.facets else None)
  {
    var ps := ExploitParams(query, options);
    assert ps[1..][1..] == Optional("facets", options.facets);
    assert Lookup(ps, "page") == Lookup(ps[1..], "page");
    assert Lookup(ps, "facets") == Lookup(ps[1..][1..], "facets");
  }

  /** An alert sends its name and address, and `expires` only when set. */
  lemma {:induction false} AlertBodyMeaning(name: string, ip: string, expires: Option<ParamValue>)
    ensures Names(AlertBody(name, ip, expires)) == ["name", "ip"] + (if IsSet(expires) then ["expires"] else [])
    ensures Lookup(AlertBody(name, ip, expires), "name") == Some(Str(name))
    ensures Lookup(AlertBody(name, ip, expires), "ip") == Some(Str(ip))
    ensures Lookup(AlertBody(name, ip, expires), "expires") == (if IsSet(expires) then expires else None)
  {
    var ps := AlertBody(name, ip, expires);
    assert ps[1..][1..] == Optional("expires", expires);
    assert Lookup(ps, "ip") == Lookup(ps[1..], "ip");
    assert Lookup(ps, "expires") == Lookup(ps[1..][1..], "expires");
  }

  // ---------------------------------------------------------------------------
  // The service object
  // ---------------------------------------------------------------------------

  class ShodanService {
    var apiKeys: seq<string>
    var currentIndex: nat

    /** There is at least one key, none empty, and the index points at one. */
    ghost predicate Valid()
      reads this
    {
      |apiKeys| >= 1 && currentIndex < |apiKeys| && forall k | k in apiKeys :: k != ""
    }

    /** The constructor once the key list is settled. */
    constructor(keys: seq<string>)
      requires |keys| >= 1 && forall k | k in keys :: k != ""
      ensures apiKeys == keys && currentIndex == 0 && Valid()
    {
      apiKeys := keys;
      currentIndex := 0;
    }

    /** `new ShodanService()` for the two environment variables: the service with
        the parsed keys and the index at the first, or the message it throws. */
    static method Create(keysVar: Option<string>, keyVar: Option<string>) returns (r: Result<ShodanService, string>)
      ensures r.Failure? <==> ConfiguredKeys(keysVar, keyVar).Failure?
      ensures r.Failure? ==> r.error == ConfiguredKeys(keysVar, keyVar).error
      ensures r.Success? ==>
        && fresh(r.value) && r.value.Valid()
        && r.value.apiKeys == ConfiguredKeys(keysVar, keyVar).value && r.value.currentIndex == 0
    {
      var keys := if HostModel.Truthy(keysVar) then keysVar else keyVar;
      if !HostModel.Truthy(keys) {
        return Failure("SHODAN_API_KEYS or SHODAN_API_KEY environment variable is required");
      }
      var apiKeys := ParseApiKeys(keys.value);
      if |apiKeys| == 0 {
        return Failure("No valid Shodan API keys provided");
      }
      ConfiguredKeysMeaning(keysVar, keyVar);
      var service := new ShodanService(apiKeys);
      r := Success(service);
    }

    /** `getApiKey()`: the key at the index, and the index moves one step round
        the list; the list never changes. */
    method GetApiKey() returns (key: string)
      requires Valid()
      modifies this
      ensures Valid() && apiKeys == old(apiKeys)
      ensures key == old(apiKeys[currentIndex]) && key != ""
      ensures currentIndex == (old(currentIndex) + 1) % |apiKeys|
      ensures Calls(apiKeys, old(currentIndex), 1) == ([key], currentIndex)
    {
      key := apiKeys[currentIndex];
      assert key in apiKeys;
      currentIndex := (currentIndex + 1) % |apiKeys|;
      assert Calls(apiKeys, old(currentIndex), 0) == ([], old(currentIndex));
      assert [] + [key] == [key];
    }

    /** `makeRequest(endpoint, params)`: a GET with the next key first, then the
        parameters; its outcome for the reply it gets. */
    method MakeRequest(endpoint: string, params: Params, reply: Reply)
      returns (request: Request, r: Result<string, string>)
      requires Valid()
      modifies this
      ensures Valid() && apiKeys == old(apiKeys)
      ensures currentIndex == (old(currentIndex) + 1) % |apiKeys|
      ensures request == Request(BaseURL + endpoint, [("key", Str(old(apiKeys[currentIndex])))] + params, None)
      ensures r == RequestOutcome(reply)
    {
      var key := GetApiKey();
      request := Request(BaseURL + endpoint, [("key", Str(key))] + params, None);
      match reply {
        case Ok(data) =>
          r := Success(data);
        case ErrorReply(error, statusText, _) =>
          r := Failure("Shodan API: " + (if HostModel.Truthy(error) then error.value else statusText));
        case NoReply(_) =>
          r := Failure("Failed to connect to Shodan API");
      }
    }

    /** `getHostInfo(ip)`: an address the validator refuses is an error before
        any request, and uses no key. */
    method GetHostInfo(ip: string, isIP: string -> bool, reply: Reply)
      returns (request: Option<Request>, r: Result<string, string>)
      requires Valid()
      modifies this
      ensures Valid() && apiKeys == old(apiKeys)
      ensures !isIP(ip) ==>
        request == None && r == Failure("Invalid IP address format") && currentIndex == old(currentIndex)
      ensures isIP(ip) ==>
        && request == Some(Request(BaseURL + "/shodan/host/" + ip, [("key", Str(old(apiKeys[currentIndex])))], None))
        && r == RequestOutcome(reply) && currentIndex == (old(currentIndex) + 1) % |apiKeys|
    {
      if !isIP(ip) {
        return None, Failure("Invalid IP address format");
      }
      ghost var key := apiKeys[currentIndex];
      var req;
      req, r := MakeRequest("/shodan/host/" + ip, [], reply);
      assert [("key", Str(key))] + [] == [("key", Str(key))];
      assert BaseURL + ("/shodan/host/" + ip) == BaseURL + "/shodan/host/" + ip;
      request := Some(req);
    }

    /** `getDomainInfo(domain)`: a name the validator refuses is an error before
        any request, and uses no key. */
    method GetDomainInfo(domain: string, isFQDN: string -> bool, reply: Reply)
      returns (request: Option<Request>, r: Result<string, string>)
      requires Valid()
      modifies this
      ensures Valid() && apiKeys == old(apiKeys)
      ensures !isFQDN(domain) ==>
        request == None && r == Failure("Invalid domain format") && currentIndex == old(currentIndex)
      ensures isFQDN(domain) ==>
        && request == Some(Request(BaseURL + "/dns/domain/" + domain, [("key", Str(old(apiKeys[currentIndex])))], None))
        && r == RequestOutcome(reply) && currentIndex == (old(currentIndex) + 1) % |apiKeys|
    {
      if !isFQDN(domain) {
        return None, Failure("Invalid domain format");
      }
      ghost var key := apiKeys[currentIndex];
      var req;
      req, r := MakeRequest("/dns/domain/" + domain, [], reply);
      assert [("key", Str(key))] + [] == [("key", Str(key))];
      assert BaseURL + ("/dns/domain/" + domain) == BaseURL + "/dns/domain/" + domain;
      request := Some(req);
    }

    /** `searchHosts(query, options)`. */
    method SearchHosts(query: string, options: SearchOptions, reply: Reply)
      returns (request: Request, r: Result<string, string>)
      requires Valid()
      modifies this
      ensures Valid() && apiKeys == old(apiKeys)
      ensures currentIndex == (old(currentIndex) + 1) % |apiKeys|
      ensures request == Request(BaseURL + "/shodan/host/search",
                                 [("key", Str(old(apiKeys[currentIndex])))] + SearchParams(query, options), None)
      ensures r == RequestOutcome(reply)
    {
      var params := [("query", Str(query)),
                     ("page", if IsSet(options.page) then options.page.value else Num(1)),
                     ("minify", if IsSet(options.minify) then options.minify.value else Flag(false))];
      if IsSet(options.facets) {
        params := params + [("facets", options.facets.value)];
      }
      request, r := MakeRequest("/shodan/host/search", params, reply);
    }

    /** `getHostCount(query, facets)`. */
    method GetHostCount(query: string, facets: Option<ParamValue>, reply: Reply)
      returns (request: Request, r: Result<string, string>)
      requires Valid()
      modifies this
      ensures Valid() && apiKeys == old(apiKeys)
      ensures currentIndex == (old(currentIndex) + 1) % |apiKeys|
      ensures request == Request(BaseURL + "/shodan/host/count",
                                 [("key", Str(old(apiKeys[currentIndex])))] + CountParams(query, facets), None)
      ensures r == RequestOutcome(reply)
    {
      var params := [("query", Str(query))];
      if IsSet(facets) {
        params := params + [("facets", facets.value)];
      }
      request, r := MakeRequest("/shodan/host/count", params, reply);
    }

    /** `searchExploits(query, options)`. */
    method SearchExploits(query: string, options: SearchOptions, reply: Reply)
      returns (request: Request, r: Result<string, string>)
      requires Valid()
      modifies this
      ensures Valid() && apiKeys == old(apiKeys)
      ensures currentIndex == (old(currentIndex) + 1) % |apiKeys|
      ensures request == Request(BaseURL + "/shodan/exploits/search",
                                 [("key", Str(old(apiKeys[currentIndex])))] + ExploitParams(query, options), None)
      ensures r == RequestOutcome(reply)
    {
      var params := [("query", Str(query)),
                     ("page", if IsSet(options.page) then options.page.value else Num(1))];
      if IsSet(options.facets) {
        params := params + [("facets", options.facets.value)];
      }
      request, r := MakeRequest("/shodan/exploits/search", params, reply);
    }

    /** `createAlert(name, ip, expires)`: a POST with the key as the only query
        parameter and the alert as the body. */
    method CreateAlert(name: string, ip: string, expires: Option<ParamValue>, reply: Reply)
      returns (request: Request, r: Result<string, string>)
      requires Valid()
      modifies this
      ensures Valid() && apiKeys == old(apiKeys)
      ensures currentIndex == (old(currentIndex) + 1) % |apiKeys|
      ensures request == Request(BaseURL + "/shodan/alert", [("key", Str(old(apiKeys[currentIndex])))],
                                 Some(AlertBody(name, ip, expires)))
      ensures r == ActionOutcome("Failed to create alert: ", reply)
    {
      var params := [("name", Str(name)), ("ip", Str(ip))];
      if IsSet(expires) {
        params := params + [("expires", expires.value)];
      } else {
        assert params + [] == params;
      }
      var key := GetApiKey();
      request := Request(BaseURL + "/shodan/alert", [("key", Str(key))], Some(params));
      match reply {
        case Ok(data) =>
          r := Success(data);
        case ErrorReply(error, _, message) =>
          r := Failure("Failed to create alert: " + (if HostModel.Truthy(error) then error.value else message));
        case NoReply(message) =>
          r := Failure("Failed to create alert: " + message);
      }
    }
  }
}
