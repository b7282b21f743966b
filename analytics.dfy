// The analytics tools: asset audit and verification breakdowns, the report
// catalogue, one report with its elements and queries, and the dashboard
// that combines two of them and survives the failure of either.
module Analytics {
  import opened Text
  import opened Js
  import opened Protocol
  import opened Collections
  import opened Shapes

  /** Every tool the module declares; each has a case. */
  const AnalyticsToolNames: seq<string> := [
    "analytics_asset_audit_coverage", "analytics_asset_audit_status", "analytics_asset_verification_location",
    "analytics_asset_verification_type", "analytics_asset_audit_by_policy", "analytics_asset_audit_by_schedule",
    "analytics_list_reports", "analytics_get_report", "analytics_get_report_elements",
    "analytics_get_report_queries", "analytics_dashboard_summary"]

  datatype Tool =
    | AuditCoverage | AuditStatus | VerificationLocation | VerificationType | AuditByPolicy
    | AuditBySchedule | ListReports | GetReport | ReportElements | ReportQueries | Dashboard

  /** The case a name selects, if any. */
  function ToolOf(name: string): (t: Option<Tool>)
    ensures t.Some? <==> name in AnalyticsToolNames
  {
    match name
    case "analytics_asset_audit_coverage" => Some(AuditCoverage)
    case "analytics_asset_audit_status" => Some(AuditStatus)
    case "analytics_asset_verification_location" => Some(VerificationLocation)
    case "analytics_asset_verification_type" => Some(VerificationType)
    case "analytics_asset_audit_by_policy" => Some(AuditByPolicy)
    case "analytics_asset_audit_by_schedule" => Some(AuditBySchedule)
    case "analytics_list_reports" => Some(ListReports)
    case "analytics_get_report" => Some(GetReport)
    case "analytics_get_report_elements" => Some(ReportElements)
    case "analytics_get_report_queries" => Some(ReportQueries)
    case "analytics_dashboard_summary" => Some(Dashboard)
    case _ => None
  }

  function UnknownAnalyticsTool(name: string): string {
    "Error: Unknown analytics tool \"" + name + "\"."
  }

  const Unavailable := "Analytics endpoint not available. This may require specific permissions or module licensing.\n\nError: "

  // ----- ranks the two sorts use -----

  /** The number a comparator's subtraction sees; a NaN operand ranks as 0. */
  function Rank(v: Json): int {
    match ToNumber(v)
    case Some(n) => n
    case None => 0
  }

  /** `(a, b) => b.Value - a.Value`: descending by `Value`. */
  function ByValueDescending(x: Json): int {
    -Rank(Get(x, "Value"))
  }

  /** `(a, b) => a.DisplayOrder - b.DisplayOrder`: ascending by `DisplayOrder`. */
  function ByDisplayOrder(x: Json): int {
    Rank(Get(x, "DisplayOrder"))
  }

  /** `response.Items.sort(...)`: the records reordered in place. */
  method SortItems(items: array<Json>, rank: Json -> int)
    modifies items
    ensures items[..] == SortBy(old(items[..]), rank)
  {
    SortInPlace(items, rank);
  }

  // ----- replies -----

  /** `dp.Value` summed from 0 with `+`. */
  function AuditTotal(ys: seq<Json>): Json {
    SumOf(ys, (dp: Json) => Get(dp, "Value"), Num(0))
  }

  /** The audit-status breakdown: the sum of `Value`, then one line per status. */
  function AuditStatusReport(reply: Json): Outcome<Report> {
    var items := Get(reply, "Items");
    if Empty(items) then Value(Message("No audit status data available."))
    else
      var xs :- AsList(items, "response.Items.reduce");
      var ys :- Records(xs, "Value");
      Value(Totals(AuditTotal(ys), ys))
  }

  /** The comparator reads the ranked field of each record it compares; a
      single record is never compared, and is read for its name instead. */
  function Sortable(xs: seq<Json>, field: string): Outcome<seq<Json>> {
    Records(xs, if |xs| > 1 then field else "Name")
  }

  /** `ItemCount - n` when that is a positive number, and 0 otherwise. */
  function Beyond(count: Json, n: int): (m: int)
    ensures m >= 0
    ensures m > 0 <==> Minus(count, Num(n)).Num? && Minus(count, Num(n)).n > 0
  {
    var d := Minus(count, Num(n));
    if d.Num? && d.n > 0 then d.n else 0
  }

  /** The ten locations with the highest `Value`; the "and N more" figure is
      `ItemCount - 10`, not the number of records left out. */
  function TopLocations(reply: Json): Outcome<Report> {
    var items := Get(reply, "Items");
    if Empty(items) then Value(Message("No verification location data available."))
    else
      var xs :- AsList(items, "response.Items.sort");
      var ys :- Sortable(xs, "Value");
      var top := Take(SortBy(ys, ByValueDescending), 10);
      var shown :- Records(top, "Name");
      Value(Listing(Get(reply, "ItemCount"), shown, Beyond(Get(reply, "ItemCount"), 10), None))
  }

  /** The catalogue in ascending `DisplayOrder`. */
  function ReportCatalogue(reply: Json): Outcome<Report> {
    var items := Get(reply, "Items");
    if Empty(items) then Value(Message("No analytics reports available."))
    else
      var xs :- AsList(items, "response.Items.sort");
      var ys :- Sortable(xs, "DisplayOrder");
      var sorted :- Records(SortBy(ys, ByDisplayOrder), "Name");
      Value(Listing(Get(reply, "ItemCount"), sorted, 0, None))
  }

  function ReportDetails(args: Args, reply: Json): Report {
    var item := Get(reply, "Item");
    if !Truthy(item) then Message("Report " + ToStr(Arg(args, "reportId")) + " not found.") else Details(item)
  }

  // ----- the dashboard -----

  /** `v && v.length > 0` */
  predicate HasEntries(v: Json) {
    Truthy(v) && Less(Num(0), Length(v))
  }

  const AssetsUnavailable := Message("Asset Analytics: Not available")
  const ReportsUnavailable := Message("Reports: Not available")

  /** Assets are summarised unless `includeAssets` is exactly false. */
  predicate IncludeAssets(args: Args) {
    !StrictEquals(Arg(args, "includeAssets"), Bool(false))
  }

  /** The heading the asset panel appends before it sums the statuses. */
  const AssetsHeading := Message("Asset Audit Status:")

  /** What a panel's `try` block appended to the summary, and whether it
      then threw; the `catch` appends its line after what is there. */
  datatype Panel = Panel(written: seq<Report>, threw: bool)

  /** How many leading records a `forEach` that reads a field of each one
      gets through: it stops at the first null or undefined record. */
  function ReadablePrefix(xs: seq<Json>): (k: nat)
    ensures k <= |xs|
    ensures forall i :: 0 <= i < k ==> !xs[i].Null? && !xs[i].Undefined?
    ensures k < |xs| ==> xs[k].Null? || xs[k].Undefined?
    decreases |xs|
  {
    if |xs| == 0 || xs[0].Null? || xs[0].Undefined? then 0 else 1 + ReadablePrefix(xs[1..])
  }

  /** The audit-status breakdown the asset panel prints under its heading:
      the `reduce` throws on a list it cannot reduce and on a null record. */
  function AssetBreakdown(items: Json): Outcome<Report> {
    var xs :- AsList(items, "assetAudit.Items.reduce");
    var ys :- Records(xs, "Value");
    Value(Totals(AuditTotal(ys), ys))
  }

  /** The asset panel's `try`: nothing when the request throws or there are
      no statuses; otherwise the heading, and then either the breakdown or
      a throw from the summing. */
  function AssetPanel(call: Upstream): Panel {
    match call(GetReq("/analytics/assets/by-audit-status"))
    case Throws(_) => Panel([], true)
    case Value(audit) =>
      var items := Get(audit, "Items");
      if !HasEntries(items) then Panel([], false)
      else
        match AssetBreakdown(items)
        case Throws(_) => Panel([AssetsHeading], true)
        case Value(totals) => Panel([totals], false)
  }

  /** The reports panel's `try`: nothing when the request throws or there
      are no reports. Otherwise the heading with `ItemCount` is written, then
      one name per record of the first five until a record cannot be read,
      and "and N more" when `ItemCount` exceeds 5. A throw leaves the heading
      and the names written so far, as a listing without that last line. */
  function ReportsPanel(call: Upstream): Panel {
    match call(GetReq("/analytics/reports"))
    case Throws(_) => Panel([], true)
    case Value(reports) =>
      var items := Get(reports, "Items");
      var count := Get(reports, "ItemCount");
      if !HasEntries(items) then Panel([], false)
      else if !items.Arr? then Panel([Listing(count, [], 0, None)], true)
      else
        var top := Take(items.items, 5);
        var k := ReadablePrefix(top);
        if k < |top| then Panel([Listing(count, top[..k], 0, None)], true)
        else Panel([Listing(count, top, if Less(Num(5), count) then Beyond(count, 5) else 0, None)], false)
  }

  /** Each panel's `catch` appends its "Not available" line after whatever
      the panel had already written. */
  function Caught(panel: Panel, unavailable: Report): (r: seq<Report>)
    ensures |r| >= |panel.written| && r[..|panel.written|] == panel.written
    ensures panel.threw <==> |r| == |panel.written| + 1
    ensures panel.threw ==> r[|r| - 1] == unavailable
  {
    if panel.threw then panel.written + [unavailable] else panel.written
  }

  function DashboardReport(args: Args, call: Upstream): Report {
    Composite((if IncludeAssets(args) then Caught(AssetPanel(call), AssetsUnavailable) else [])
              + Caught(ReportsPanel(call), ReportsUnavailable))
  }

  // ----- the handler -----

  function PolicyPath(args: Args): string {
    "/analytics/assets/by-audit-policy-status/" + ToStr(Arg(args, "policyId"))
  }

  function SchedulePath(args: Args): string {
    "/analytics/assets/by-audit-policy-schedule-status/" + ToStr(Arg(args, "scheduleId"))
  }

  /** One case inside the handler's `try`: its requests and what it makes of the replies. */
  function Run(tool: Tool, args: Args, call: Upstream): Outcome<Report> {
    match tool
    case AuditCoverage =>
      var reply :- call(GetReq("/analytics/assets/by-audit-policy-coverage"));
      ItemsReport(reply, "No audit policy coverage data available.", "Name", None)
    case AuditStatus =>
      var reply :- call(GetReq("/analytics/assets/by-audit-status"));
      AuditStatusReport(reply)
    case VerificationLocation =>
      var reply :- call(GetReq("/analytics/assets/by-verification-location"));
      TopLocations(reply)
    case VerificationType =>
      var reply :- call(GetReq("/analytics/assets/by-verification-type"));
      ItemsReport(reply, "No verification type data available.", "Name", None)
    case AuditByPolicy =>
      var reply :- call(GetReq(PolicyPath(args)));
      ItemsReport(reply, "No audit data found for policy " + ToStr(Arg(args, "policyId")) + ".", "Name", None)
    case AuditBySchedule =>
      var reply :- call(GetReq(SchedulePath(args)));
      ItemsReport(reply, "No audit data found for schedule " + ToStr(Arg(args, "scheduleId")) + ".", "Name", None)
    case ListReports =>
      var reply :- call(GetReq("/analytics/reports"));
      ReportCatalogue(reply)
    case GetReport =>
      var reply :- call(GetReq("/analytics/reports/" + ToStr(Arg(args, "reportId"))));
      Value(ReportDetails(args, reply))
    case ReportElements =>
      var reply :- call(GetReq("/analytics/reports/elements/" + ToStr(Arg(args, "reportId"))));
      ItemsReport(reply, "No elements found for report " + ToStr(Arg(args, "reportId")) + ".", "Name", None)
    case ReportQueries =>
      var reply :- call(GetReq("/analytics/reports/queries/" + ToStr(Arg(args, "reportId"))));
      ItemsReport(reply, "No queries found for report " + ToStr(Arg(args, "reportId")) + ".", "Name", None)
    case Dashboard => Value(DashboardReport(args, call))
  }

  /** A 404 names the upstream `Message`, or 'Endpoint not found'; any other
      error is `Error: <message>`. */
  function AnalyticsCatch(e: Exception): Report {
    if NotFound(e) then Message(Unavailable + ToStr(Or(Get(e.data, "Message"), Str("Endpoint not found"))))
    else ErrorText(e)
  }

  function Answer(tool: Tool, args: Args, call: Upstream): Envelope {
    match Run(tool, args, call)
    case Value(report) => Envelope(report)
    case Throws(e) => Envelope(AnalyticsCatch(e))
  }

  /** `handleAnalyticsTool` */
  function AnalyticsTool(name: string, args: Args, call: Upstream): Envelope {
    match ToolOf(name)
    case None => Envelope(Message(UnknownAnalyticsTool(name)))
    case Some(tool) => Answer(tool, args, call)
  }

  // ----- properties -----

  /** A name without a case gets the unknown-tool text and sends nothing. */
  lemma UnknownName(name: string, args: Args, call: Upstream)
    requires name !in AnalyticsToolNames
    ensures AnalyticsTool(name, args, call) == Envelope(Message(UnknownAnalyticsTool(name)))
  {
  }

  /** A 404 whose reply carries a truthy text `Message` shows it after the
      licensing hint; one without shows 'Endpoint not found'; any other
      error is `Error: <message>`. */
  lemma NotFoundMessage(e: Exception, m: string)
    ensures NotFound(e) && m != "" && Get(e.data, "Message") == Str(m) ==> AnalyticsCatch(e) == Message(Unavailable + m)
    ensures NotFound(e) && Get(e.data, "Message") == Undefined ==>
      AnalyticsCatch(e) == Message(Unavailable + "Endpoint not found")
    ensures !NotFound(e) ==> AnalyticsCatch(e) == ErrorText(e)
  {
  }

  /** The audit-status total is the sum of `Value` over the records, as an
      integer when every `Value` is a number. */
  lemma AuditStatusTotal(reply: Json)
    requires AuditStatusReport(reply).Value? && AuditStatusReport(reply).value.Totals?
    requires forall i :: 0 <= i < |Get(reply, "Items").items| ==> Get(Get(reply, "Items").items[i], "Value").Num?
    ensures var r := AuditStatusReport(reply).value;
      var xs := Get(reply, "Items").items;
      r.rows == xs && r.total == Num(Total(xs, (dp: Json) => Get(dp, "Value")))
  {
    var xs := Get(reply, "Items").items;
    SumOfNumbers(xs, (dp: Json) => Get(dp, "Value"), 0);
  }

  /** The location ranking: the listed records are the reply's, in
      descending `Value`, each ranked at least as high as every record left
      out; "and N more" is shown iff `ItemCount - 10` is positive. */
  lemma TopLocationsRanked(reply: Json)
    requires TopLocations(reply).Value? && TopLocations(reply).value.Listing?
    ensures var r := TopLocations(reply).value;
      var xs := Get(reply, "Items").items;
      var sorted := SortBy(xs, ByValueDescending);
      Get(reply, "Items").Arr?
      && r.listed == sorted[..Min(10, |xs|)]
      && multiset(sorted) == multiset(xs)
      && (forall i, j :: 0 <= i < j < |r.listed| ==> Rank(Get(r.listed[i], "Value")) >= Rank(Get(r.listed[j], "Value")))
      && (forall i, j :: 0 <= i < |r.listed| <= j < |sorted| ==> Rank(Get(r.listed[i], "Value")) >= Rank(Get(sorted[j], "Value")))
      && (r.more > 0 <==> Minus(Get(reply, "ItemCount"), Num(10)).Num? && Minus(Get(reply, "ItemCount"), Num(10)).n > 0)
  {
    var items := Get(reply, "Items");
    assert !Empty(items) && items.Arr?;
    var xs := items.items;
    assert Sortable(xs, "Value") == Value(xs);
    var sorted := SortBy(xs, ByValueDescending);
    var top := Take(sorted, 10);
    assert Records(top, "Name").Value?;
    assert TopLocations(reply).value.listed == top;
    SortBySorted(xs, ByValueDescending);
    SortByMultiset(xs, ByValueDescending);
    assert SortedBy(sorted, ByValueDescending);
    forall i, j | 0 <= i < j < |sorted|
      ensures Rank(Get(sorted[i], "Value")) >= Rank(Get(sorted[j], "Value"))
    {
      assert ByValueDescending(sorted[i]) <= ByValueDescending(sorted[j]);
    }
  }

  /** The catalogue lists every report once, in ascending `DisplayOrder`. */
  lemma CatalogueOrdered(reply: Json)
    requires ReportCatalogue(reply).Value? && ReportCatalogue(reply).value.Listing?
    ensures var r := ReportCatalogue(reply).value;
      Get(reply, "Items").Arr?
      && multiset(r.listed) == multiset(Get(reply, "Items").items)
      && SortedBy(r.listed, ByDisplayOrder)
  {
    var xs := Get(reply, "Items").items;
    SortBySorted(xs, ByDisplayOrder);
    SortByMultiset(xs, ByDisplayOrder);
  }

  /** Missing or empty `Items` gives each breakdown's own text. */
  lemma NoData(args: Args, reply: Json)
    requires Empty(Get(reply, "Items"))
    ensures AuditStatusReport(reply) == Value(Message("No audit status data available."))
    ensures TopLocations(reply) == Value(Message("No verification location data available."))
    ensures ReportCatalogue(reply) == Value(Message("No analytics reports available."))
  {
  }

  /** A reply without a truthy `Item` names the report that was not found. */
  lemma ReportMissing(args: Args, reply: Json, id: string)
    requires !Truthy(Get(reply, "Item")) && Arg(args, "reportId") == Str(id)
    ensures ReportDetails(args, reply) == Message("Report " + id + " not found.")
  {
  }

  /** Every dashboard is a summary, whatever the panels do: a panel that
      throws keeps what it wrote and ends with its "Not available" line. */
  lemma DashboardSurvives(name: string, args: Args, call: Upstream)
    requires ToolOf(name) == Some(Dashboard)
    ensures var r := AnalyticsTool(name, args, call).report;
      r.Composite?
      && (ReportsPanel(call).threw ==> r.parts[|r.parts| - 1] == ReportsUnavailable)
      && (IncludeAssets(args) ==>
            var w := AssetPanel(call).written;
            |r.parts| >= |w| && r.parts[..|w|] == w
            && (AssetPanel(call).threw ==> r.parts[|w|] == AssetsUnavailable))
  {
    if IncludeAssets(args) {
      var a := Caught(AssetPanel(call), AssetsUnavailable);
      var b := Caught(ReportsPanel(call), ReportsUnavailable);
      var w := AssetPanel(call).written;
      assert AnalyticsTool(name, args, call).report.parts == a + b;
      assert (a + b)[..|w|] == a[..|w|];
      if AssetPanel(call).threw {
        assert (a + b)[|w|] == a[|w|];
      }
    }
  }

  /** Assets are left out of the dashboard, and never requested, exactly
      when `includeAssets` is false. */
  lemma DashboardAssets(args: Args, call: Upstream)
    ensures !IncludeAssets(args) <==> Arg(args, "includeAssets") == Bool(false)
    ensures !IncludeAssets(args) ==> DashboardReport(args, call).parts == Caught(ReportsPanel(call), ReportsUnavailable)
  {
  }

  /** A reports panel that completes lists the first five report names, and
      the "and N more" figure is `ItemCount - 5` exactly when `ItemCount`
      exceeds 5. */
  lemma DashboardReports(call: Upstream, reports: Json, count: int)
    requires call(GetReq("/analytics/reports")) == Value(reports)
    requires !ReportsPanel(call).threw && |ReportsPanel(call).written| > 0
    requires Get(reports, "ItemCount") == Num(count)
    ensures var p := ReportsPanel(call).written[0];
      var xs := Get(reports, "Items").items;
      Get(reports, "Items").Arr? && p.Listing? && p.listed == xs[..Min(5, |xs|)]
      && (count > 5 ==> p.more == count - 5) && (count <= 5 ==> p.more == 0)
  {
    CompareNumbers(5, count);
  }

  /** The reports heading and the names of the records before the first one
      that cannot be read are kept when the walk throws, followed by the
      "Not available" line. */
  lemma ReportNamesKept(call: Upstream, reports: Json, j: nat)
    requires call(GetReq("/analytics/reports")) == Value(reports)
    requires var items := Get(reports, "Items");
      items.Arr? && j < Min(5, |items.items|) && (items.items[j].Null? || items.items[j].Undefined?)
      && forall i :: 0 <= i < j ==> !items.items[i].Null? && !items.items[i].Undefined?
    ensures var xs := Get(reports, "Items").items;
      Caught(ReportsPanel(call), ReportsUnavailable)
        == [Listing(Get(reports, "ItemCount"), xs[..j], 0, None), ReportsUnavailable]
  {
    var xs := Get(reports, "Items").items;
    var top := Take(xs, 5);
    var k := ReadablePrefix(top);
    assert top[j] == xs[j];
    assert k == j;
    assert top[..k] == xs[..j];
  }

  /** The case of a reply whose second report is null: the heading with the
      count 2 and the first name are printed before "Reports: Not available". */
  lemma ReportNamesKeptExample(call: Upstream)
    requires call(GetReq("/analytics/reports"))
      == Value(Obj(map["Items" := Arr([Obj(map["Name" := Str("a")]), Null]), "ItemCount" := Num(2)]))
    ensures Caught(ReportsPanel(call), ReportsUnavailable)
      == [Listing(Num(2), [Obj(map["Name" := Str("a")])], 0, None), ReportsUnavailable]
  {
    var reports := Obj(map["Items" := Arr([Obj(map["Name" := Str("a")]), Null]), "ItemCount" := Num(2)]);
    ReportNamesKept(call, reports, 1);
    assert [Obj(map["Name" := Str("a")]), Null][..1] == [Obj(map["Name" := Str("a")])];
  }

  /** `Items` that are not a list, such as a string, fail at `slice` or
      `forEach` after the heading is written. */
  lemma ReportsNotList(call: Upstream, reports: Json)
    requires call(GetReq("/analytics/reports")) == Value(reports)
    requires HasEntries(Get(reports, "Items")) && !Get(reports, "Items").Arr?
    ensures Caught(ReportsPanel(call), ReportsUnavailable)
      == [Listing(Get(reports, "ItemCount"), [], 0, None), ReportsUnavailable]
  {
  }

  /** A breakdown the `reduce` cannot finish leaves the asset heading,
      followed by the "Not available" line. */
  lemma AssetHeadingKept(call: Upstream, audit: Json)
    requires call(GetReq("/analytics/assets/by-audit-status")) == Value(audit)
    requires var items := Get(audit, "Items");
      HasEntries(items)
      && (!items.Arr? || exists i :: 0 <= i < |items.items| && (items.items[i].Null? || items.items[i].Undefined?))
    ensures Caught(AssetPanel(call), AssetsUnavailable) == [AssetsHeading, AssetsUnavailable]
  {
  }

  /** A request that throws writes nothing: the panel is its "Not available"
      line alone; with no entries a panel writes nothing at all. */
  lemma PanelRequestFailed(call: Upstream)
    ensures call(GetReq("/analytics/assets/by-audit-status")).Throws? ==>
      Caught(AssetPanel(call), AssetsUnavailable) == [AssetsUnavailable]
    ensures call(GetReq("/analytics/reports")).Throws? ==>
      Caught(ReportsPanel(call), ReportsUnavailable) == [ReportsUnavailable]
    ensures call(GetReq("/analytics/reports")).Value? && !HasEntries(Get(call(GetReq("/analytics/reports")).value, "Items")) ==>
      Caught(ReportsPanel(call), ReportsUnavailable) == []
  {
  }
}
