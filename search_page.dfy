/** The pure helpers of the search page: the risk badge of a host's
    vulnerability count, the "last seen" label bucketed on whole days, the page
    arithmetic of the results footer, and the page state a new search or a page
    change leaves behind. The elapsed days are a parameter in place of the
    clock. */
module SearchPage {
  import opened Wrappers
  import opened JsText
  import Helpers

  // ---------------------------------------------------------------------------
  // getRiskBadge
  // ---------------------------------------------------------------------------

  datatype Badge = Badge(text: string, cssClass: string)

  /** `getRiskBadge(vulnCount)`: no vulnerability is Low, one to four Medium,
      five to nine High, ten or more Critical; High and Critical share the red
      class. */
  function RiskBadge(vulnCount: nat): (b: Badge)
    ensures vulnCount == 0 <==> b == Badge("Low", "badge-green")
    ensures 1 <= vulnCount <= 4 <==> b == Badge("Medium", "badge-yellow")
    ensures 5 <= vulnCount <= 9 <==> b == Badge("High", "badge-red")
    ensures vulnCount >= 10 <==> b == Badge("Critical", "badge-red")
  {
    if vulnCount == 0 then Badge("Low", "badge-green")
    else if vulnCount < 5 then Badge("Medium", "badge-yellow")
    else if vulnCount < 10 then Badge("High", "badge-red")
    else Badge("Critical", "badge-red")
  }

  /** The rank of a badge's label, from Low (0) to Critical (3). */
  function Rank(b: Badge): (r: nat)
    ensures r <= 3
  {
    if b.text == "Low" then 0 else if b.text == "Medium" then 1 else if b.text == "High" then 2 else 3
  }

  /** More vulnerabilities never give a milder badge. */
  lemma {:induction false} RiskBadgeMonotone(a: nat, b: nat)
    requires a <= b
    ensures Rank(RiskBadge(a)) <= Rank(RiskBadge(b))
  {
  }

  /** The badge a result card shows: only for a host with at least one
      vulnerability. */
  function ShownBadge(vulnCount: nat): Option<Badge> {
    if vulnCount > 0 then Some(RiskBadge(vulnCount)) else None
  }

  /** A card never shows the Low badge: the card hides the badge exactly when
      the count would make it Low. */
  lemma {:induction false} ShownBadgeNeverLow(vulnCount: nat)
    ensures ShownBadge(vulnCount).Some? <==> vulnCount > 0
    ensures ShownBadge(vulnCount).Some? ==> ShownBadge(vulnCount).value.text != "Low"
  {
  }

  // ---------------------------------------------------------------------------
  // formatLastUpdate
  // ---------------------------------------------------------------------------

  /** `formatLastUpdate` on the whole days elapsed; `None` is the `NaN` of an
      unreadable date, which fails every comparison and reaches the last line.
      Every label is an amount, a unit and ` ago`. */
  function FormatLastUpdate(diffDays: Option<nat>): (r: string)
    ensures diffDays.None? ==> r == "NaN years ago"
    ensures |r| > 4 && r[|r| - 4..] == " ago"
  {
    match diffDays
    case None => "NaN years ago"
    case Some(d) =>
      var (amount, unit) :=
        if d == 1 then ("1", " day ago")
        else if d < 30 then (NatToString(d), " days ago")
        else if d < 365 then (NatToString(d / 30), " months ago")
        else (NatToString(d / 365), " years ago");
      assert (amount + unit)[|amount + unit| - 4..] == unit[|unit| - 4..];
      amount + unit
  }

  /** The label's amount and the days one unit of it stands for. */
  function AgeAmount(d: nat): nat {
    if d < 30 then d else if d < 365 then d / 30 else d / 365
  }

  function UnitDays(d: nat): (u: nat)
    ensures u >= 1
  {
    if d < 30 then 1 else if d < 365 then 30 else 365
  }

  /** The label is the amount and its unit, and it never overstates the age:
      the amount of whole units is at most the elapsed days, and one more unit
      would exceed them. Months stay within 1..12 and years start at 1. */
  lemma {:induction false} FormatLastUpdateMeaning(d: nat)
    ensures d == 1 ==> FormatLastUpdate(Some(d)) == "1 day ago"
    ensures d != 1 && d < 30 ==> FormatLastUpdate(Some(d)) == NatToString(d) + " days ago"
    ensures 30 <= d < 365 ==>
      && FormatLastUpdate(Some(d)) == NatToString(AgeAmount(d)) + " months ago"
      && 1 <= AgeAmount(d) <= 12
    ensures d >= 365 ==>
      && FormatLastUpdate(Some(d)) == NatToString(AgeAmount(d)) + " years ago"
      && AgeAmount(d) >= 1
    ensures AgeAmount(d) * UnitDays(d) <= d < (AgeAmount(d) + 1) * UnitDays(d)
  {
  }

  /** The label's leading number reads back as the amount. */
  lemma {:induction false} FormatLastUpdateAmount(d: nat)
    requires d != 1
    ensures |FormatLastUpdate(Some(d))| > |NatToString(AgeAmount(d))|
    ensures FormatLastUpdate(Some(d))[..|NatToString(AgeAmount(d))|] == NatToString(AgeAmount(d))
    ensures FormatLastUpdate(Some(d))[|NatToString(AgeAmount(d))|] == ' '
    ensures DigitsValue(NatToString(AgeAmount(d))) == AgeAmount(d)
  {
    DigitsValueNatToString(AgeAmount(d));
  }

  // ---------------------------------------------------------------------------
  // Pagination footer
  // ---------------------------------------------------------------------------

  /** `Math.ceil(total / 100)`: the least number of 100-result pages that
      hold every result. */
  function PageCount(total: nat): (n: nat)
    ensures n * 100 >= total
    ensures n > 0 ==> (n - 1) * 100 < total
  {
    (total + 99) / 100
  }

  /** The header's count, `Math.ceil((total || 0) / 100)`. */
  function HeaderPageCount(total: Option<nat>): nat {
    PageCount(if total.Some? then total.value else 0)
  }

  /** The footer is shown when `total > 100` (a missing total compares false). */
  predicate ShowControls(total: Option<nat>) {
    total.Some? && total.value > 100
  }

  /** The numbered buttons, `Array.from({ length: Math.min(5, pages) }, (_, i) => i + 1)`:
      exactly 1, 2, ... up to five or the page count, whichever is smaller;
      whenever the footer shows there are at least two. */
  function PageButtons(total: nat): (buttons: seq<nat>)
    ensures |buttons| == if PageCount(total) < 5 then PageCount(total) else 5
    ensures forall i :: 0 <= i < |buttons| ==> buttons[i] == i + 1
    ensures forall b | b in buttons :: 1 <= b <= PageCount(total) && b <= 5
    ensures total > 100 ==> |buttons| >= 2
  {
    var n := if PageCount(total) < 5 then PageCount(total) else 5;
    seq(n, i requires 0 <= i < n => i + 1)
  }

  /** Previous is disabled on page 1 only. */
  predicate PrevDisabled(page: Option<int>) {
    page == Some(1)
  }

  /** Next is disabled from the last page on (`NaN` compares false). */
  predicate NextDisabled(page: Option<int>, total: nat) {
    page.Some? && page.value >= PageCount(total)
  }

  /** On the pages the buttons reach, exactly the first has Previous disabled and
      exactly the last has Next disabled; every page in between can move both
      ways. */
  lemma {:induction false} NavigationMeaning(page: int, total: nat)
    requires 1 <= page <= PageCount(total)
    ensures PrevDisabled(Some(page)) <==> page == 1
    ensures NextDisabled(Some(page), total) <==> page == PageCount(total)
    ensures !PrevDisabled(Some(page)) ==> 1 <= page - 1
    ensures !NextDisabled(Some(page), total) ==> page + 1 <= PageCount(total)
  {
  }

  // ---------------------------------------------------------------------------
  // Page state
  // ---------------------------------------------------------------------------

  /** What the page keeps: the query, the page (`None` is `NaN`) and the two
      filters. */
  datatype SearchState = SearchState(query: string, page: Option<int>, facets: string, minify: bool)

  /** The state read from the address bar on load: `q || ''`,
      `parseInt(page || '1')`, `facets || ''` and `minify === 'true'`. */
  function InitialState(q: Option<string>, page: Option<string>, facets: Option<string>,
                        minify: Option<string>): SearchState {
    SearchState(
      if q.Some? then q.value else "",
      Helpers.ParseInt(if page.Some? && page.value != "" then page.value else "1"),
      if facets.Some? then facets.value else "",
      minify == Some("true"))
  }

  /** The address-bar parameters written back: `q`, `page`, then the filters
      spread in, the flag as `true`/`false`. */
  function UrlParams(s: SearchState, page: string): seq<(string, string)> {
    [("q", s.query), ("page", page), ("facets", s.facets), ("minify", if s.minify then "true" else "false")]
  }

  /** `handleSearch(newQuery)`: the new query, back to page 1 whatever page was
      showing, the filters kept, and page `1` written to the address bar. */
  function HandleSearch(s: SearchState, newQuery: string): (r: (SearchState, seq<(string, string)>))
    ensures r.0.page == Some(1) && PrevDisabled(r.0.page)
    ensures r.0.query == newQuery
    ensures r.0.facets == s.facets && r.0.minify == s.minify
    ensures r.1 == [("q", newQuery), ("page", "1"), ("facets", s.facets),
                    ("minify", if s.minify then "true" else "false")]
  {
    var next := s.(query := newQuery, page := Some(1));
    (next, UrlParams(next, "1"))
  }

  /** `handlePageChange(newPage)`: the same query and filters on the new page;
      the page written to the address bar reads back as that page. */
  function HandlePageChange(s: SearchState, newPage: int): (r: (SearchState, seq<(string, string)>))
    ensures r.0.query == s.query && r.0.facets == s.facets && r.0.minify == s.minify
    ensures r.0.page == Some(newPage)
    ensures |r.1| == 4 && r.1[1].0 == "page" && Helpers.ParseInt(r.1[1].1) == r.0.page
  {
    Helpers.ParseIntToString(newPage);
    var next := s.(page := Some(newPage));
    (next, UrlParams(next, IntToString(newPage)))
  }

  /** Reloading the address written by a search or a page change gives back the
      state it was written from. */
  lemma {:induction false} ReloadRestoresState(s: SearchState, newPage: int)
    ensures var url := HandlePageChange(s, newPage).1;
      InitialState(Some(url[0].1), Some(url[1].1), Some(url[2].1), Some(url[3].1)) == HandlePageChange(s, newPage).0
  {
    var url := HandlePageChange(s, newPage).1;
    Helpers.ParseIntToString(newPage);
    assert url[1].1 == IntToString(newPage) != "";
  }
}
