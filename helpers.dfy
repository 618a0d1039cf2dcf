/** The request and parameter utilities of the server: query sanitising, the
    CIDR shape check, `parseInt` and the port range check, pagination, sort and
    filter whitelisting, the API-key and JSON-body gates, and the query-string
    builder. */
module Helpers {
  import opened Wrappers
  import opened JsText
  import UriComponent
  import Counting

  // ---------------------------------------------------------------------------
  // Query values
  // ---------------------------------------------------------------------------

  /** A value of `req.query`: a string, or a list of strings when the parameter
      is repeated. A missing parameter is `None`. */
  datatype QueryValue = Text(text: string) | Many(items: seq<string>)

  /** JavaScript truthiness of a query value: the empty string is falsy, every
      array is truthy. */
  predicate IsTruthy(v: Option<QueryValue>) {
    v.Some? && (v.value.Many? || v.value.text != "")
  }

  /** `String(v)`: a missing value is `"undefined"`, a list is its items joined
      with commas. */
  function QueryText(v: Option<QueryValue>): string {
    match v
    case None => "undefined"
    case Some(Text(s)) => s
    case Some(Many(items)) => Join(items, ',')
  }

  // ---------------------------------------------------------------------------
  // sanitizeQuery
  // ---------------------------------------------------------------------------

  /** The characters the sanitiser removes. */
  predicate IsDangerous(c: char) {
    c == '<' || c == '>' || c == '"' || c == '\''
  }

  /** `s.replace(/[<>"']/g, '')`: every other character is kept, in order. */
  function StripDangerous(s: string): (r: string)
    ensures forall c :: c in r <==> c in s && !IsDangerous(c)
    ensures |r| <= |s|
    ensures (forall i :: 0 <= i < |s| ==> !IsDangerous(s[i])) ==> r == s
  {
    if s == [] then ""
    else
      var rest := StripDangerous(s[1..]);
      assert s == [s[0]] + s[1..];
      if IsDangerous(s[0]) then rest else [s[0]] + rest
  }

  /** The characters the sanitiser keeps. */
  predicate IsSafe(c: char) {
    !IsDangerous(c)
  }

  /** Stripping works piece by piece. */
  lemma {:induction false} StripDangerousConcat(a: string, b: string)
    ensures StripDangerous(a + b) == StripDangerous(a) + StripDangerous(b)
  {
    if a != [] {
      assert (a + b)[1..] == a[1..] + b;
      assert (a + b)[0] == a[0];
      StripDangerousConcat(a[1..], b);
    } else {
      assert a + b == b;
    }
  }

  /** Stripping is the order- and multiplicity-preserving filter of the safe
      characters: exactly the characters other than `<`, `>`, `"` and `'`,
      each occurrence kept, in their original order. */
  lemma {:induction false} StripDangerousIsFilter(s: string)
    ensures StripDangerous(s) == Counting.Filter(s, IsSafe)
  {
    if s != [] {
      var p := s[..|s| - 1];
      var x := s[|s| - 1];
      assert s == p + [x];
      StripDangerousIsFilter(p);
      StripDangerousConcat(p, [x]);
      assert [x][1..] == [];
      Counting.FilterLast(s, IsSafe);
    }
  }

  /** The sanitised text; `""` for a missing, empty or non-string query. */
  function SanitizeQuery(query: Option<QueryValue>): (r: string)
    ensures |r| <= 1000
  {
    if !IsTruthy(query) || query.value.Many? then ""
    else Prefix(Trim(StripDangerous(query.value.text)), 1000)
  }

  /** The sanitised query holds none of `<`, `>`, `"`, `'`, every character of it
      comes from the query, and a missing, empty or non-string query gives `""`. */
  lemma {:induction false} SanitizeQueryMeaning(query: Option<QueryValue>)
    ensures forall c | c in SanitizeQuery(query) :: !IsDangerous(c)
    ensures query.Some? && query.value.Text? ==>
      forall c | c in SanitizeQuery(query) :: c in query.value.text
    ensures !IsTruthy(query) || query.value.Many? ==> SanitizeQuery(query) == ""
    ensures IsTruthy(query) && query.value.Text? ==>
      SanitizeQuery(query) == Prefix(Trim(StripDangerous(query.value.text)), 1000)
  {
    if IsTruthy(query) && query.value.Text? {
      var s := StripDangerous(query.value.text);
      TrimKeepsCharacters(s);
      var r := SanitizeQuery(query);
      forall c | c in r ensures !IsDangerous(c) && c in query.value.text {
        var i :| 0 <= i < |r| && r[i] == c;
        assert Trim(s)[i] == c;
      }
    }
  }

  /** A clean query, white space at neither end and at most 1000 characters
      long, passes through unchanged. In particular a sanitised result that does
      not end in white space is left as it is by a second pass (a cut at 1000
      characters can leave white space at its end, which a second pass trims). */
  lemma {:induction false} SanitizeQueryFixedPoint(s: string)
    requires s != ""
    requires forall i :: 0 <= i < |s| ==> !IsDangerous(s[i])
    requires !IsJsWhitespace(s[0]) && !IsJsWhitespace(s[|s| - 1])
    requires |s| <= 1000
    ensures SanitizeQuery(Some(Text(s))) == s
  {
    TrimOfTrimmed(s);
  }

  // ---------------------------------------------------------------------------
  // parseCIDR: /^(\d{1,3}\.){3}\d{1,3}\/\d{1,2}$/
  // ---------------------------------------------------------------------------

  /** The number of decimal digits at the front of `s`. */
  function DigitRun(s: string): (k: nat)
    ensures k <= |s|
    ensures forall i :: 0 <= i < k ==> IsDigit(s[i])
    ensures k < |s| ==> !IsDigit(s[k])
  {
    if s != [] && IsDigit(s[0]) then 1 + DigitRun(s[1..]) else 0
  }

  /** One address group: one to three decimal digits. */
  predicate IsGroup(g: string) {
    1 <= |g| <= 3 && AllDigits(g)
  }

  /** The prefix length: one or two decimal digits. */
  predicate IsMaskText(m: string) {
    1 <= |m| <= 2 && AllDigits(m)
  }

  /** `s` is a group, then `n` times a dot and a group, then `/` and a prefix
      length, and nothing else. Each `\d{1,3}` is followed by a character that is
      not a digit, so it takes the whole run of digits. */
  predicate MatchGroups(s: string, n: nat)
    ensures MatchGroups(s, n) ==> 2 * n + 3 <= |s| <= 4 * n + 6
    ensures MatchGroups(s, n) ==> IsDigit(s[0]) && IsDigit(s[|s| - 1])
    decreases n
  {
    var k := DigitRun(s);
    1 <= k <= 3 && k < |s| &&
    if n > 0 then s[k] == '.' && MatchGroups(s[k + 1..], n - 1)
    else s[k] == '/' && IsMaskText(s[k + 1..])
  }

  /** `parseCIDR(cidr)`: an accepted range is 9 to 18 characters long and
      starts and ends with a digit. */
  predicate ParseCIDR(cidr: string)
    ensures ParseCIDR(cidr) ==> 9 <= |cidr| <= 18 && IsDigit(cidr[0]) && IsDigit(cidr[|cidr| - 1])
  {
    MatchGroups(cidr, 3)
  }

  /** A run of digits followed by something else is read whole. */
  lemma {:induction false} DigitRunOf(g: string, rest: string)
    requires AllDigits(g)
    requires rest == [] || !IsDigit(rest[0])
    ensures DigitRun(g + rest) == |g|
    ensures (g + rest)[..|g|] == g
  {
    if rest != [] {
      assert (g + rest)[|g|] == rest[0];
    }
    assert (g + rest)[..|g|] == g;
  }

  /** A group followed by a separator: the group is the whole run, the separator
      comes next, and the rest after it. */
  lemma {:induction false} GroupThen(g: string, sep: char, rest: string)
    requires IsGroup(g) && !IsDigit(sep)
    ensures var s := g + [sep] + rest;
      DigitRun(s) == |g| && s[|g|] == sep && s[|g| + 1..] == rest
  {
    DigitRunOf(g, [sep] + rest);
    assert g + [sep] + rest == g + ([sep] + rest);
  }

  /** The text the pattern describes, from its pieces. */
  function CidrText(groups: seq<string>, mask: string): string {
    Join(groups, '.') + "/" + mask
  }

  /** Every text made of `n + 1` groups joined by dots, `/` and a prefix length is
      accepted. */
  lemma {:induction false} MatchGroupsComplete(groups: seq<string>, mask: string, n: nat)
    requires |groups| == n + 1
    requires forall i :: 0 <= i < |groups| ==> IsGroup(groups[i])
    requires IsMaskText(mask)
    ensures MatchGroups(CidrText(groups, mask), n)
  {
    var g := groups[0];
    if n == 0 {
      assert CidrText(groups, mask) == g + ['/'] + mask;
      GroupThen(g, '/', mask);
    } else {
      var t := CidrText(groups[1..], mask);
      assert CidrText(groups, mask) == g + ['.'] + t;
      GroupThen(g, '.', t);
      MatchGroupsComplete(groups[1..], mask, n - 1);
    }
  }

  /** The text of one group and a prefix length. */
  lemma {:induction false} CidrTextOne(g: string, mask: string)
    ensures CidrText([g], mask) == g + ['/'] + mask
  {
  }

  /** The text of more groups: the first group, a dot, and the text of the rest. */
  lemma {:induction false} CidrTextCons(g: string, gs: seq<string>, mask: string)
    requires |gs| >= 1
    ensures CidrText([g] + gs, mask) == g + ['.'] + CidrText(gs, mask)
  {
    assert ([g] + gs)[1..] == gs;
  }

  /** A text cut around one of its characters. */
  lemma {:induction false} CutAt(s: string, k: nat)
    requires k < |s|
    ensures s == s[..k] + [s[k]] + s[k + 1..]
  {
    var t := s[..k] + [s[k]] + s[k + 1..];
    assert |t| == |s|;
    forall i | 0 <= i < |s| ensures t[i] == s[i] {
      if i < k {
        assert t[i] == s[..k][i];
      } else if i > k {
        assert t[i] == s[k + 1..][i - k - 1];
      }
    }
  }

  /** Every accepted text is `n + 1` groups joined by dots, `/` and a prefix
      length; the pieces are returned. */
  lemma {:induction false} MatchGroupsSound(s: string, n: nat) returns (groups: seq<string>, mask: string)
    requires MatchGroups(s, n)
    ensures |groups| == n + 1
    ensures forall i :: 0 <= i < |groups| ==> IsGroup(groups[i])
    ensures IsMaskText(mask)
    ensures s == CidrText(groups, mask)
  {
    var k := DigitRun(s);
    var g := s[..k];
    assert IsGroup(g);
    CutAt(s, k);
    if n == 0 {
      groups, mask := [g], s[k + 1..];
      CidrTextOne(g, mask);
    } else {
      var gs, m := MatchGroupsSound(s[k + 1..], n - 1);
      groups, mask := [g] + gs, m;
      CidrTextCons(g, gs, m);
      forall i | 0 <= i < |groups| ensures IsGroup(groups[i]) {
        if i > 0 {
          assert groups[i] == gs[i - 1];
        }
      }
    }
  }

  /** `parseCIDR` accepts exactly the texts of four dot-separated groups of one
      to three digits, `/` and one or two digits. */
  lemma {:induction false} ParseCIDRMeaning(s: string) returns (groups: seq<string>, mask: string)
    ensures ParseCIDR(s) ==>
      && |groups| == 4 && (forall i :: 0 <= i < 4 ==> IsGroup(groups[i])) && IsMaskText(mask)
      && s == CidrText(groups, mask)
    ensures (|groups| == 4 && (forall i :: 0 <= i < 4 ==> IsGroup(groups[i])) && IsMaskText(mask))
      ==> ParseCIDR(CidrText(groups, mask))
  {
    if ParseCIDR(s) {
      groups, mask := MatchGroupsSound(s, 3);
    } else {
      groups, mask := [], "";
    }
    if |groups| == 4 && (forall i :: 0 <= i < 4 ==> IsGroup(groups[i])) && IsMaskText(mask) {
      MatchGroupsComplete(groups, mask, 3);
    }
  }

  /** The pattern checks no ranges: `999.999.999.999/99` is accepted. */
  lemma {:induction false} ParseCIDRNoRangeCheck()
    ensures ParseCIDR("999.999.999.999/99")
  {
    var g := "999";
    CidrTextOne(g, "99");
    CidrTextCons(g, [g], "99");
    assert [g] + [g] == [g, g];
    CidrTextCons(g, [g, g], "99");
    assert [g] + [g, g] == [g, g, g];
    CidrTextCons(g, [g, g, g], "99");
    assert [g] + [g, g, g] == [g, g, g, g];
    assert CidrText([g, g, g, g], "99") == "999.999.999.999/99";
    MatchGroupsComplete([g, g, g, g], "99", 3);
  }

  // ---------------------------------------------------------------------------
  // parseInt and isValidPort
  // ---------------------------------------------------------------------------

  /** The number of hexadecimal digits at the front of `s`. */
  function HexRun(s: string): (k: nat)
    ensures k <= |s|
    ensures forall i :: 0 <= i < k ==> UriComponent.IsHexDigit(s[i])
  {
    if s != [] && UriComponent.IsHexDigit(s[0]) then 1 + HexRun(s[1..]) else 0
  }

  /** The value of a string of hexadecimal digits. */
  function HexDigitsValue(s: string): nat
    requires forall i :: 0 <= i < |s| ==> UriComponent.IsHexDigit(s[i])
  {
    if s == [] then 0 else HexDigitsValue(s[..|s| - 1]) * 16 + UriComponent.HexValue(s[|s| - 1])
  }

  /** `s` without its sign, and the sign. */
  function Unsigned(t: string): (string, int) {
    if t != [] && t[0] == '-' then (t[1..], -1)
    else if t != [] && t[0] == '+' then (t[1..], 1)
    else (t, 1)
  }

  /** The digits after the sign: `0x`/`0X` selects hexadecimal, then the longest
      run of digits is read and anything after it ignored; `None` when there is
      no digit where one is needed. */
  function ReadNumber(u: string): (r: Option<nat>)
    ensures r.Some? ==> u != [] && IsDigit(u[0])
  {
    if |u| >= 2 && u[0] == '0' && (u[1] == 'x' || u[1] == 'X') then
      var h := u[2..];
      var k := HexRun(h);
      if k == 0 then None else Some(HexDigitsValue(h[..k]))
    else
      var k := DigitRun(u);
      if k == 0 then None else Some(DigitsValue(u[..k]))
  }

  /** `parseInt(s)` without a radix: leading white space is skipped, then an
      optional sign, then the number. `None` is `NaN`; there is none without a
      decimal digit somewhere in `s`. */
  function ParseInt(s: string): (r: Option<int>)
    ensures r.Some? ==> exists i :: 0 <= i < |s| && IsDigit(s[i])
  {
    var t := s[FirstNonSpace(s, 0)..];
    var (u, sign) := Unsigned(t);
    match ReadNumber(u)
    case None => None
    case Some(v) =>
      assert u[0] == s[|s| - |u|];
      Some(sign * v)
  }

  /** `isValidPort(port)`: `NaN` fails both comparisons. */
  predicate IsValidPort(port: string)
    ensures IsValidPort(port) ==> exists i :: 0 <= i < |port| && IsDigit(port[i])
  {
    var n := ParseInt(port);
    n.Some? && 1 <= n.value <= 65535
  }

  /** A decimal rendering followed by anything that cannot extend it reads as
      its value. */
  lemma {:induction false} ReadNumberDecimal(n: nat, rest: string)
    requires rest == [] || (!IsDigit(rest[0]) && rest[0] != 'x' && rest[0] != 'X')
    ensures ReadNumber(NatToString(n) + rest) == Some(n)
  {
    var d := NatToString(n);
    DigitsValueNatToString(n);
    DigitRunOf(d, rest);
    if n == 0 {
      assert d == "0";
      if rest != [] {
        assert (d + rest)[1] == rest[0];
      }
    }
  }

  /** The decimal rendering of a number, followed by anything that cannot extend
      it, reads back as the number, with or without a minus sign: `parseInt`
      stops at the first character that is not a digit. */
  lemma {:induction false} ParseIntPrefix(n: nat, rest: string)
    requires rest == [] || (!IsDigit(rest[0]) && rest[0] != 'x' && rest[0] != 'X')
    ensures ParseInt(NatToString(n) + rest) == Some(n)
    ensures ParseInt("-" + NatToString(n) + rest) == Some(-(n as int))
  {
    var d := NatToString(n);
    ReadNumberDecimal(n, rest);
    var s := d + rest;
    assert s[0] == d[0];
    assert FirstNonSpace(s, 0) == 0;
    assert s[0..] == s;
    var m := "-" + d + rest;
    assert FirstNonSpace(m, 0) == 0;
    assert m[0..] == m;
    assert m[1..] == s;
  }

  /** `parseInt(String(n)) == n` for every integer. */
  lemma {:induction false} ParseIntToString(n: int)
    ensures ParseInt(IntToString(n)) == Some(n)
  {
    if n >= 0 {
      ParseIntPrefix(n, "");
      assert NatToString(n) + "" == NatToString(n);
    } else {
      ParseIntPrefix(-n, "");
      assert "-" + NatToString(-n) + "" == IntToString(n);
    }
  }

  /** A port written as a decimal integer is valid exactly when it lies in
      1..65535. */
  lemma {:induction false} IsValidPortMeaning(n: int)
    ensures IsValidPort(IntToString(n)) <==> 1 <= n <= 65535
  {
    ParseIntToString(n);
  }

  /** Anything after the digits is ignored: `80/tcp` is a valid port. */
  lemma {:induction false} PortWithTrailingText()
    ensures IsValidPort("80/tcp")
  {
    ParseIntPrefix(80, "/tcp");
    assert NatToString(8) == "8";
    assert NatToString(80) == NatToString(8) + [DigitChar(0)];
    assert NatToString(80) + "/tcp" == "80/tcp";
  }

  // ---------------------------------------------------------------------------
  // getPagination
  // ---------------------------------------------------------------------------

  datatype Pagination = Pagination(page: int, limit: int, offset: int)

  /** `parseInt(v) || fallback`: `NaN` and `0` are falsy. */
  function IntOr(v: Option<QueryValue>, fallback: int): (r: int)
    ensures r == fallback || ParseInt(QueryText(v)) == Some(r)
  {
    var n := ParseInt(QueryText(v));
    if n.Some? && n.value != 0 then n.value else fallback
  }

  /** `getPagination(req)` for the `page` and `limit` query values. */
  function GetPagination(page: Option<QueryValue>, limit: Option<QueryValue>): (r: Pagination)
    ensures r.limit <= 100 && r.limit != 0 && r.page != 0
  {
    var p := IntOr(page, 1);
    var l := if IntOr(limit, 10) < 100 then IntOr(limit, 10) else 100;
    Pagination(p, l, (p - 1) * l)
  }

  /** `parseInt(undefined)` is `NaN`. */
  lemma {:induction false} ParseIntUndefined()
    ensures ParseInt(QueryText(None)).None?
  {
    var s := QueryText(None);
    assert s == "undefined";
    assert FirstNonSpace(s, 0) == 0;
    assert s[0..] == s;
    assert DigitRun(s) == 0;
  }

  /** A missing page is page 1 and a missing limit is 10; the limit is capped at
      100; the offset skips the rows of the earlier pages. */
  lemma {:induction false} PaginationMeaning(page: Option<QueryValue>, limit: Option<QueryValue>)
    ensures var r := GetPagination(page, limit);
      && r.limit <= 100
      && r.offset == (r.page - 1) * r.limit
      && (page.None? ==> r.page == 1)
      && (limit.None? ==> r.limit == 10)
      && (r.page > 0 && r.limit > 0 ==> r.offset >= 0)
  {
    ParseIntUndefined();
    var r := GetPagination(page, limit);
    if r.page > 0 && r.limit > 0 {
      ProductNonNegative(r.page - 1, r.limit);
    }
  }

  lemma {:induction false} ProductNonNegative(a: int, b: int)
    requires a >= 0 && b >= 0
    ensures a * b >= 0
  {
  }

  /** Page numbers and limits written as decimal numbers are read as such: page
      `0` becomes 1, limit `0` becomes 10 and a limit above 100 becomes 100. */
  lemma {:induction false} PaginationOfNumbers(p: int, l: int)
    ensures var r := GetPagination(Some(Text(IntToString(p))), Some(Text(IntToString(l))));
      && r.page == (if p == 0 then 1 else p)
      && r.limit == (if l == 0 then 10 else if l > 100 then 100 else l)
  {
    ParseIntToString(p);
    ParseIntToString(l);
  }

  /** Nothing keeps the page positive: page `-2` gives a negative offset. */
  lemma {:induction false} NegativePageOffset()
    ensures GetPagination(Some(Text("-2")), None) == Pagination(-2, 10, -30)
  {
    ParseIntToString(-2);
    assert IntToString(-2) == "-2";
    assert IntOr(Some(Text("-2")), 1) == -2;
    ParseIntUndefined();
    assert IntOr(None, 10) == 10;
  }

  // ---------------------------------------------------------------------------
  // getSortOptions and getFilters
  // ---------------------------------------------------------------------------

  datatype SortOptions = SortOptions(sortBy: string, sortOrder: string)

  /** `getSortOptions(req, allowedFields)`: sorting is on exactly when the
      field is a non-empty allowed name; the order is descending only for the
      exact text `desc`, ascending otherwise. */
  function GetSortOptions(sortBy: Option<QueryValue>, sortOrder: Option<QueryValue>,
                          allowedFields: seq<string>): (r: Option<SortOptions>)
    ensures r.Some? <==> exists f :: f in allowedFields && f != "" && sortBy == Some(Text(f))
    ensures r.Some? ==> Some(Text(r.value.sortBy)) == sortBy && r.value.sortBy in allowedFields
    ensures r.Some? ==> (r.value.sortOrder == "desc" <==> sortOrder == Some(Text("desc")))
    ensures r.Some? ==> r.value.sortOrder in {"asc", "desc"}
  {
    if !IsTruthy(sortBy) || sortBy.value.Many? || sortBy.value.text !in allowedFields then None
    else
      var f := sortBy.value.text;
      assert f in allowedFields && f != "" && sortBy == Some(Text(f));
      Some(SortOptions(f, if sortOrder == Some(Text("desc")) then "desc" else "asc"))
  }

  /** `getFilters(req, allowedFilters)`: the loop copies each allowed filter
      whose query value is truthy. */
  method GetFilters(query: map<string, QueryValue>, allowedFilters: seq<string>)
    returns (filters: map<string, QueryValue>)
    ensures forall k :: k in filters <==> k in allowedFilters && k in query && IsTruthy(Some(query[k]))
    ensures forall k | k in filters :: filters[k] == query[k]
  {
    filters := map[];
    for i := 0 to |allowedFilters|
      invariant forall k :: k in filters <==>
        k in allowedFilters[..i] && k in query && IsTruthy(Some(query[k]))
      invariant forall k | k in filters :: filters[k] == query[k]
    {
      var filter := allowedFilters[i];
      var value := if filter in query then Some(query[filter]) else None;
      if IsTruthy(value) {
        filters := filters[filter := value.value];
      }
      assert allowedFilters[..i + 1] == allowedFilters[..i] + [filter];
    }
    assert allowedFilters[..|allowedFilters|] == allowedFilters;
  }

  // ---------------------------------------------------------------------------
  // checkApiKey and validateJSON
  // ---------------------------------------------------------------------------

  /** What a middleware does with a request: pass it on, or answer it with an
      error status and message. */
  datatype Gate = Next | Reject(status: nat, error: string)

  /** `checkApiKey` for the `NODE_ENV` setting and the `x-api-key` header. */
  function CheckApiKey(nodeEnv: Option<string>, apiKey: Option<string>): (g: Gate)
    ensures g.Reject? ==> g.status == 401
  {
    if nodeEnv == Some("development") then Next
    else if apiKey.None? || apiKey.value == "" then Reject(401, "API key is required")
    else if |apiKey.value| < 32 then Reject(401, "Invalid API key format")
    else Next
  }

  /** Development passes everything; elsewhere a request passes exactly when it
      carries a key of at least 32 characters, and the message says which check
      failed. */
  lemma {:induction false} CheckApiKeyMeaning(nodeEnv: Option<string>, apiKey: Option<string>)
    ensures nodeEnv == Some("development") ==> CheckApiKey(nodeEnv, apiKey) == Next
    ensures nodeEnv != Some("development") ==>
      (CheckApiKey(nodeEnv, apiKey) == Next <==> apiKey.Some? && |apiKey.value| >= 32)
    ensures nodeEnv != Some("development") && (apiKey.None? || apiKey.value == "") ==>
      CheckApiKey(nodeEnv, apiKey) == Reject(401, "API key is required")
    ensures nodeEnv != Some("development") && apiKey.Some? && 0 < |apiKey.value| < 32 ==>
      CheckApiKey(nodeEnv, apiKey) == Reject(401, "Invalid API key format")
  {
  }

  /** `validateJSON` for the request method and the keys of the parsed body (`None` when
      there is no body). */
  function ValidateJSON(httpMethod: string, bodyKeys: Option<seq<string>>): (g: Gate)
    ensures g.Reject? ==> g.status == 400
  {
    if (httpMethod == "POST" || httpMethod == "PUT") && (bodyKeys.None? || |bodyKeys.value| == 0)
    then Reject(400, "Request body is required")
    else Next
  }

  /** Only a POST or PUT without a body or with an empty one is refused. */
  lemma {:induction false} ValidateJSONMeaning(httpMethod: string, bodyKeys: Option<seq<string>>)
    ensures ValidateJSON(httpMethod, bodyKeys).Reject? <==>
      (httpMethod in {"POST", "PUT"}) && (bodyKeys.None? || bodyKeys.value == [])
  {
  }

  // ---------------------------------------------------------------------------
  // objectToQueryString
  // ---------------------------------------------------------------------------

  /** `key=value`, both percent-encoded. */
  function EncodePair(p: (string, string)): string {
    UriComponent.Encode(p.0) + "=" + UriComponent.Encode(p.1)
  }

  /** `objectToQueryString(obj)` for the entries of `obj` in key order, each
      value already rendered as text. The string reads back as the entries it
      was built from: keys and values are encoded so that no `&` or `=` of
      theirs is mistaken for a separator. */
  function ObjectToQueryString(entries: seq<(string, string)>): (qs: string)
    ensures ParseQueryString(qs) == Some(entries)
  {
    EncodedPairsRoundTrip(entries);
    Join(EncodedPairs(entries), '&')
  }

  function EncodedPairs(entries: seq<(string, string)>): seq<string> {
    seq(|entries|, i requires 0 <= i < |entries| => EncodePair(entries[i]))
  }

  /** The reading of one `key=value` part. */
  function ParsePair(part: string): Option<(string, string)> {
    var kv := Split(part, '=');
    if |kv| != 2 then None
    else match (UriComponent.Decode(kv[0]), UriComponent.Decode(kv[1]))
      case (Some(k), Some(v)) => Some((k, v))
      case _ => None
  }

  function ParsePairs(parts: seq<string>): Option<seq<(string, string)>> {
    if parts == [] then Some([])
    else match (ParsePair(parts[0]), ParsePairs(parts[1..]))
      case (Some(p), Some(ps)) => Some([p] + ps)
      case _ => None
  }

  /** The reading of a query string back into entries. */
  function ParseQueryString(qs: string): Option<seq<(string, string)>> {
    if qs == "" then Some([]) else ParsePairs(Split(qs, '&'))
  }

  /** A character the encoder never writes. */
  lemma {:induction false} NotInEncoding(s: string, c: char)
    requires !UriComponent.IsUnreserved(c) && c != '%' && !UriComponent.IsHexDigit(c)
    ensures c !in UriComponent.Encode(s)
  {
    UriComponent.EncodedAlphabet(s);
  }

  /** One encoded entry reads back as the entry. */
  lemma {:induction false} ParsePairEncoded(p: (string, string))
    ensures '&' !in EncodePair(p)
    ensures ParsePair(EncodePair(p)) == Some(p)
  {
    var a := UriComponent.Encode(p.0);
    var b := UriComponent.Encode(p.1);
    NotInEncoding(p.0, '=');
    NotInEncoding(p.1, '=');
    NotInEncoding(p.0, '&');
    NotInEncoding(p.1, '&');
    SplitAfterPart(a, '=', b);
    SplitNoSeparator(b, '=');
    assert EncodePair(p) == a + ['='] + b;
    UriComponent.DecodeEncode(p.0);
    UriComponent.DecodeEncode(p.1);
  }

  lemma {:induction false} ParsePairsEncoded(entries: seq<(string, string)>)
    ensures ParsePairs(seq(|entries|, i requires 0 <= i < |entries| => EncodePair(entries[i]))) == Some(entries)
  {
    var parts := seq(|entries|, i requires 0 <= i < |entries| => EncodePair(entries[i]));
    if entries != [] {
      ParsePairEncoded(entries[0]);
      ParsePairsEncoded(entries[1..]);
      assert parts[1..] == seq(|entries[1..]|, i requires 0 <= i < |entries[1..]| => EncodePair(entries[1..][i]));
      assert entries == [entries[0]] + entries[1..];
    }
  }

  /** The joined encoded pairs read back as the entries. */
  lemma {:induction false} EncodedPairsRoundTrip(entries: seq<(string, string)>)
    ensures ParseQueryString(Join(EncodedPairs(entries), '&')) == Some(entries)
  {
    var parts := EncodedPairs(entries);
    ParsePairsEncoded(entries);
    if entries != [] {
      forall i | 0 <= i < |parts| ensures '&' !in parts[i] {
        ParsePairEncoded(entries[i]);
      }
      SplitJoin(parts, '&');
      assert '=' in parts[0] by {
        assert parts[0][|UriComponent.Encode(entries[0].0)|] == '=';
      }
      if |parts| == 1 {
        assert Join(parts, '&') == parts[0];
      } else {
        assert Join(parts, '&') == parts[0] + ['&'] + Join(parts[1..], '&');
      }
    }
  }
}
