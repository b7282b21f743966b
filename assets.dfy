// The enhanced asset tools: the advanced asset search, look-ups by tag and
// serial number, a user's devices, room inventories grouped by type, status
// and funding types, asset history, inventory counts and spares, with the
// module's 404 mapping.
module Assets {
  import opened Text
  import opened Js
  import opened Protocol
  import opened Collections
  import opened Shapes

  /** Every tool the module declares, in declaration order. */
  const AssetToolNames: seq<string> := [
    "asset_search_advanced", "asset_find_by_tag", "asset_search_by_tag", "asset_find_by_serial",
    "asset_search_by_serial", "asset_get_user_devices", "asset_get_favorites", "asset_toggle_favorite",
    "asset_get_by_room", "asset_get_by_storage", "asset_get_status_types", "asset_get_funding_types",
    "asset_get_history", "asset_get_inventory_counts", "asset_get_spares"]

  /** The names the handler's switch has a case for. */
  const AssetCaseNames: seq<string> := [
    "asset_search_advanced", "asset_find_by_tag", "asset_search_by_tag", "asset_find_by_serial",
    "asset_get_user_devices", "asset_get_by_room", "asset_get_status_types", "asset_get_funding_types",
    "asset_get_history", "asset_get_inventory_counts", "asset_get_spares"]

  datatype Tool =
    | SearchAdvanced | FindByTag | SearchByTag | FindBySerial | UserDevices | ByRoom
    | StatusTypes | FundingTypes | History | InventoryCounts | Spares

  /** The case a name selects, if any. */
  function ToolOf(name: string): (t: Option<Tool>)
    ensures t.Some? <==> name in AssetCaseNames
  {
    match name
    case "asset_search_advanced" => Some(SearchAdvanced)
    case "asset_find_by_tag" => Some(FindByTag)
    case "asset_search_by_tag" => Some(SearchByTag)
    case "asset_find_by_serial" => Some(FindBySerial)
    case "asset_get_user_devices" => Some(UserDevices)
    case "asset_get_by_room" => Some(ByRoom)
    case "asset_get_status_types" => Some(StatusTypes)
    case "asset_get_funding_types" => Some(FundingTypes)
    case "asset_get_history" => Some(History)
    case "asset_get_inventory_counts" => Some(InventoryCounts)
    case "asset_get_spares" => Some(Spares)
    case _ => None
  }

  function UnknownAssetTool(name: string): string {
    "Error: Unknown enhanced asset tool \"" + name + "\"."
  }

  const NoAssetFound := "No asset found with the specified identifier."

  // ----- requests -----

  /** The filters `asset_search_advanced` may push, in the order it pushes them. */
  const SearchFacets: seq<Facet> :=
    [Facet("View", "viewId"), Facet("AssetType", "assetType"), Facet("Status", "status"), Facet("Location", "locationId")]

  /** The `asset_search_advanced` payload. */
  function SearchPayload(args: Args): Json {
    FacetSearch(args, SearchFacets, 100)
  }


  /** A path ending in one URL-encoded argument. */
  function EncodedPath(prefix: string, args: Args, k: string): string {
    prefix + EncodeURIComponent(ToStr(Arg(args, k)))
  }

  /** A user's devices, the inactive ones too when asked for. */
  function DevicesPath(args: Args): string {
    var base := "/assets/for/" + ToStr(Arg(args, "userId"));
    if Truthy(Arg(args, "includeInactive")) then base + "/true" else base
  }

  /** The body of the inventory count request. */
  function CountPayload(args: Args): Json {
    Obj(map["OnlyShowDeleted" := Or(Arg(args, "includeDeleted"), Bool(false)),
            "FilterByViewPermission" := Bool(false)])
  }

  /** The one request each case sends. */
  function AssetRequest(tool: Tool, args: Args): Request {
    match tool
    case SearchAdvanced => PostReq("/assets", SearchPayload(args))
    case FindByTag => GetReq(EncodedPath("/assets/assettag/", args, "assetTag"))
    case SearchByTag => GetReq(EncodedPath("/assets/assettag/search/", args, "tagPattern"))
    case FindBySerial => GetReq(EncodedPath("/assets/serial/", args, "serialNumber"))
    case UserDevices => GetReq(DevicesPath(args))
    case ByRoom => GetReq("/assets/rooms/" + ToStr(Arg(args, "roomId")))
    case StatusTypes => GetReq("/assets/status/types")
    case FundingTypes => GetReq("/assets/funding/types")
    case History => GetReq("/assets/" + ToStr(Arg(args, "assetId")) + "/activities")
    case InventoryCounts => PostReq("/assets/count", CountPayload(args))
    case Spares => GetReq(EncodedPath("/assets/spares/assettag/", args, "assetTag"))
  }

  // ----- the domain rules -----

  /** `asset.AssetTypeName || 'Unknown'`, as a property name. */
  function AssetTypeKey(asset: Json): string {
    ToStr(Or(Get(asset, "AssetTypeName"), Str("Unknown")))
  }

  /** An inventory line of a bare-array reply: `Name || Category` and `Count || Value`. */
  function CountLine(item: Json): (Json, Json) {
    (Or(Get(item, "Name"), Get(item, "Category")), Or(Get(item, "Count"), Get(item, "Value")))
  }

  /** An inventory line of an `Items` reply: `Name` and `Value`. */
  function ItemLine(item: Json): (Json, Json) {
    (Get(item, "Name"), Get(item, "Value"))
  }

  /** The `forEach` that appends one line per record to the output. */
  method AppendLines(items: seq<Json>, line: Json -> (Json, Json)) returns (lines: seq<(Json, Json)>)
    ensures lines == Lines(items, line)
  {
    lines := [];
    var i := 0;
    while i < |items|
      invariant 0 <= i <= |items|
      invariant lines == Lines(items[..i], line)
    {
      lines := lines + [line(items[i])];
      i := i + 1;
    }
    assert items[..i] == items;
  }

  // ----- what each case makes of the reply -----

  function SearchReport(args: Args, reply: Json): Outcome<Report> {
    var t :- TopItems(reply, 10, "No assets found matching your criteria.", "response.Items", "AssetTag");
    Value(if t.Listing? then t.(footer := Some(PageFooter(args, Get(reply, "ItemCount"), 100))) else t)
  }

  /** A falsy reply means no asset; otherwise its `Item`, or the reply itself. */
  function Found(reply: Json, missing: string): Report {
    if !Truthy(reply) then Message(missing) else Details(ItemOrSelf(reply))
  }

  /** Where the room inventory pushes its assets. */
  const RoomSite := "assetsByType[type].push"

  function RoomInventory(reply: Json): Outcome<Report> {
    var items := Get(reply, "Items");
    if Empty(items) then Value(Message("No assets found in this room."))
    else
      var xs :- AsList(items, "response.Items.forEach");
      var groups :- CappedGroupsAsWritten(xs, AssetTypeKey, |xs|, "AssetTypeName", RoomSite);
      Value(Grouped(Get(reply, "ItemCount"), groups))
  }

  function HistoryList(reply: Json): Outcome<Report> {
    var t :- TopItems(reply, 10, "No history available for this asset.", "response.Items", "ActivityDate");
    Value(if t.Listing? then t.(more := 0) else t)
  }

  /** The counts reply, read by its shape: a bare array, an `Items` list, or
      any other object listed property by property; `Object.entries(null)` throws. */
  function InventoryReport(reply: Json): Outcome<Report> {
    if reply.Arr? then
      var ys :- Records(reply.items, "Name");
      Value(Counts(Lines(ys, CountLine)))
    else if Truthy(Get(reply, "Items")) then
      var xs :- AsList(Get(reply, "Items"), "response.Items.forEach");
      var ys :- Records(xs, "Name");
      Value(Counts(Lines(ys, ItemLine)))
    else if reply.Obj? then Value(Properties(reply.fields))
    else if reply.Null? then Throws(TypeError("Cannot convert undefined or null to object"))
    else Value(Counts([]))
  }

  /** The inventory rendering as the handler runs it: the list branches
      append their lines one record at a time. */
  method RenderInventory(reply: Json) returns (r: Outcome<Report>)
    ensures r == InventoryReport(reply)
  {
    if reply.Arr? {
      var ys := Records(reply.items, "Name");
      if ys.Throws? {
        return Throws(ys.error);
      }
      var lines := AppendLines(ys.value, CountLine);
      r := Value(Counts(lines));
    } else if Truthy(Get(reply, "Items")) {
      var xs := AsList(Get(reply, "Items"), "response.Items.forEach");
      if xs.Throws? {
        return Throws(xs.error);
      }
      var ys := Records(xs.value, "Name");
      if ys.Throws? {
        return Throws(ys.error);
      }
      var lines := AppendLines(ys.value, ItemLine);
      r := Value(Counts(lines));
    } else {
      r := InventoryReport(reply);
    }
  }

  function Render(tool: Tool, args: Args, reply: Json): Outcome<Report> {
    match tool
    case SearchAdvanced => SearchReport(args, reply)
    case FindByTag => Value(Found(reply, "No asset found with tag: " + ToStr(Arg(args, "assetTag"))))
    case SearchByTag =>
      ItemsReport(reply, "No assets found matching tag pattern: " + ToStr(Arg(args, "tagPattern")), "AssetTag", None)
    case FindBySerial => Value(Found(reply, "No asset found with serial: " + ToStr(Arg(args, "serialNumber"))))
    case UserDevices => ItemsReport(reply, "No devices assigned to this user.", "AssetTag", None)
    case ByRoom => RoomInventory(reply)
    case StatusTypes => ItemsReport(reply, "No status types available.", "Name", None)
    case FundingTypes => ItemsReport(reply, "No funding types available.", "Name", None)
    case History => HistoryList(reply)
    case InventoryCounts => InventoryReport(reply)
    case Spares => ItemsReport(reply, "No spare parts found for asset: " + ToStr(Arg(args, "assetTag")), "AssetTag", None)
  }

  /** The `catch`: only a 404 on a tool whose name mentions 'find_by' or
      'search_by' is mapped; every other error is `Error: <message>`. */
  function AssetsCatch(name: string, e: Exception): Report {
    if NotFound(e) && (Contains(name, "find_by") || Contains(name, "search_by")) then Message(NoAssetFound)
    else ErrorText(e)
  }

  function Answer(name: string, tool: Tool, args: Args, call: Upstream): Envelope {
    match (var reply :- call(AssetRequest(tool, args)); Render(tool, args, reply))
    case Value(report) => Envelope(report)
    case Throws(e) => Envelope(AssetsCatch(name, e))
  }

  /** `handleEnhancedAssetTool` */
  function AssetTool(name: string, args: Args, call: Upstream): Envelope {
    match ToolOf(name)
    case None => Envelope(Message(UnknownAssetTool(name)))
    case Some(tool) => Answer(name, tool, args, call)
  }

  // ----- properties -----

  /** A reply whose rendering throws is answered by the module's `catch`. */
  lemma RenderFailed(name: string, tool: Tool, args: Args, call: Upstream, reply: Json)
    requires call(AssetRequest(tool, args)) == Value(reply)
    requires Render(tool, args, reply).Throws?
    ensures Answer(name, tool, args, call) == Envelope(AssetsCatch(name, Render(tool, args, reply).error))
  {
  }

  /** A name without a case gets the unknown-tool text and sends nothing. */
  lemma UnknownName(name: string, args: Args, call: Upstream)
    requires name !in AssetCaseNames
    ensures AssetTool(name, args, call) == Envelope(Message(UnknownAssetTool(name)))
  {
  }

  /** `asset_get_favorites` is declared but has no case. */
  lemma DeclaredWithoutCase(args: Args, call: Upstream)
    ensures "asset_get_favorites" in AssetToolNames
    ensures AssetTool("asset_get_favorites", args, call) == Envelope(Message(UnknownAssetTool("asset_get_favorites")))
  {
    assert AssetToolNames[6] == "asset_get_favorites";
    assert ToolOf("asset_get_favorites") == None;
  }

  /** A thrown error is mapped by the tool's name: a 404 gives the no-asset
      text for names mentioning 'find_by' or 'search_by'; every other error,
      404s of the other tools included, is `Error: <message>`. */
  lemma ErrorMapping(name: string, args: Args, call: Upstream)
    requires ToolOf(name).Some?
    requires call(AssetRequest(ToolOf(name).value, args)).Throws?
    ensures var e := call(AssetRequest(ToolOf(name).value, args)).error;
      var r := AssetTool(name, args, call).report;
      var lookup := Contains(name, "find_by") || Contains(name, "search_by");
      (NotFound(e) && lookup ==> r == Message(NoAssetFound))
      && (!NotFound(e) || !lookup ==> r == ErrorText(e))
  {
  }

  lemma FindByTagNameMentions()
    ensures Contains("asset_find_by_tag", "find_by")
  {
    assert "asset_find_by_tag" == "asset_" + "find_by" + "_tag";
    ContainsMiddle("asset_", "find_by", "_tag");
  }

  /** A 404 on the tag look-up gives the no-asset text. */
  lemma TagNotFound(args: Args, call: Upstream)
    requires call(AssetRequest(FindByTag, args)).Throws?
    requires NotFound(call(AssetRequest(FindByTag, args)).error)
    ensures AssetTool("asset_find_by_tag", args, call) == Envelope(Message(NoAssetFound))
  {
    FindByTagNameMentions();
  }

  /** The advanced search pushes View, AssetType, Status and Location filters
      in that order, each only for a truthy argument, and pages 100 at a time by default. */
  lemma SearchFilters(args: Args)
    ensures var p := SearchPayload(args).fields;
      p["Filters"] == Arr(Pushed(args, Facet("View", "viewId")) + Pushed(args, Facet("AssetType", "assetType"))
                          + Pushed(args, Facet("Status", "status")) + Pushed(args, Facet("Location", "locationId")))
      && p["Paging"] == Paging(args, 100)
      && p["FilterByViewPermission"] == Bool(false)
      && (!Truthy(Arg(args, "includeDeleted")) ==> p["OnlyShowDeleted"] == Bool(false))
  {
    FacetFilters4(args, Facet("View", "viewId"), Facet("AssetType", "assetType"),
                  Facet("Status", "status"), Facet("Location", "locationId"));
  }

  /** The declared `fundingType`, `roomId` and `assignedUserId` arguments never
      reach the payload. */
  lemma SearchIgnores(args: Args, k: string, v: Json)
    requires k == "fundingType" || k == "roomId" || k == "assignedUserId"
    ensures SearchPayload(args[k := v]) == SearchPayload(args)
  {
    FacetSearchIgnore(args, SearchFacets, 100, k, v);
  }

  /** The result lists the first ten assets of the reply, counts the rest,
      and ends with the one-based page and the page count over pages of 100
      by default. */
  lemma SearchListed(name: string, args: Args, call: Upstream, reply: Json)
    requires call(PostReq("/assets", SearchPayload(args))) == Value(reply)
    requires Answer(name, SearchAdvanced, args, call).report.Listing?
    ensures Get(reply, "Items").Arr?
    ensures var xs := Get(reply, "Items").items;
      var r := Answer(name, SearchAdvanced, args, call).report;
      r.listed == xs[..Min(10, |xs|)] && 0 < |r.listed|
      && r.more == |xs| - |r.listed|
      && r.count == Get(reply, "ItemCount")
      && r.footer == Some(PageFooter(args, Get(reply, "ItemCount"), 100))
  {
    assert Render(SearchAdvanced, args, reply) == SearchReport(args, reply);
  }

  /** An encoded argument adds no path segment, query or fragment of its own. */
  lemma EncodedPathSegment(prefix: string, args: Args, k: string)
    ensures var tail := EncodeURIComponent(ToStr(Arg(args, k)));
      EncodedPath(prefix, args, k) == prefix + tail
      && '/' !in tail && '?' !in tail && '#' !in tail
  {
    EncodeOnlyEncoded(ToStr(Arg(args, k)));
  }

  /** The tag look-up says no asset was found for a falsy reply, and shows the
      reply's `Item`, or the reply itself, otherwise. */
  lemma TagLookup(name: string, args: Args, call: Upstream, reply: Json)
    requires call(AssetRequest(FindByTag, args)) == Value(reply)
    ensures var r := Answer(name, FindByTag, args, call).report;
      (!Truthy(reply) ==> r == Message("No asset found with tag: " + ToStr(Arg(args, "assetTag"))))
      && (Truthy(reply) && Truthy(Get(reply, "Item")) ==> r == Details(Get(reply, "Item")))
      && (Truthy(reply) && !Truthy(Get(reply, "Item")) ==> r == Details(reply))
  {
  }

  /** The inactive flag only adds the `/true` suffix: any truthy value gives
      the path without it plus `/true`, any falsy value the path without it. */
  lemma DevicesSuffix(args: Args, v: Json)
    ensures var off := DevicesPath(args["includeInactive" := Bool(false)]);
      (Truthy(v) ==> DevicesPath(args["includeInactive" := v]) == off + "/true")
      && (!Truthy(v) ==> DevicesPath(args["includeInactive" := v]) == off)
      && EndsWith(off + "/true", "/true")
  {
    assert Arg(args["includeInactive" := v], "userId") == Arg(args["includeInactive" := Bool(false)], "userId");
  }

  /** A room inventory: one group per asset type some asset has, each
      listing every asset of that type in reply order. */
  lemma RoomGroups(reply: Json, i: nat)
    requires RoomInventory(reply).Value? && RoomInventory(reply).value.Grouped?
    requires i < |RoomInventory(reply).value.groups|
    ensures Get(reply, "Items").Arr?
    ensures var xs := Get(reply, "Items").items;
      var g := RoomInventory(reply).value.groups[i];
      g.listed == Having(xs, AssetTypeKey, g.key) && |g.listed| > 0 && g.unlisted == 0
      && forall j :: 0 <= j < |xs| ==> !Inherited(AssetTypeKey(xs[j]))
  {
    var xs := Get(reply, "Items").items;
    assert RoomInventory(reply).value.groups == CappedGroups(xs, AssetTypeKey, |xs|);
    CappedGroupAt(xs, AssetTypeKey, |xs|, i);
    assert |Having(xs, AssetTypeKey, RoomInventory(reply).value.groups[i].key)| <= |xs|;
  }

  /** As written, an asset whose type name `{}` inherits, such as
      "constructor", makes the push throw, and the tool answers with that TypeError. */
  lemma RoomInheritedType(name: string, args: Args, call: Upstream, reply: Json, j: nat)
    requires call(AssetRequest(ByRoom, args)) == Value(reply)
    requires Get(reply, "Items").Arr?
    requires var xs := Get(reply, "Items").items;
      (forall i :: 0 <= i < |xs| ==> !xs[i].Null? && !xs[i].Undefined?)
      && j < |xs| && Inherited(AssetTypeKey(xs[j]))
    ensures Answer(name, ByRoom, args, call) == Envelope(ErrorText(NotAFunction(RoomSite)))
  {
    var e := NotAFunction(RoomSite);
    RoomInventoryThrows(reply, j);
    assert Render(ByRoom, args, reply) == Throws(e);
    RenderFailed(name, ByRoom, args, call, reply);
    assert !NotFound(e);
  }

  lemma RoomInventoryThrows(reply: Json, j: nat)
    requires Get(reply, "Items").Arr?
    requires var xs := Get(reply, "Items").items;
      (forall i :: 0 <= i < |xs| ==> !xs[i].Null? && !xs[i].Undefined?)
      && j < |xs| && Inherited(AssetTypeKey(xs[j]))
    ensures RoomInventory(reply) == Throws(NotAFunction(RoomSite))
  {
    var xs := Get(reply, "Items").items;
    EmptyArray(xs);
    assert CappedGroupsAsWritten(xs, AssetTypeKey, |xs|, "AssetTypeName", RoomSite).Throws?;
  }

  /** The history lists the ten most recent activities under the reply's count. */
  lemma HistoryListed(name: string, args: Args, call: Upstream, reply: Json)
    requires call(AssetRequest(History, args)) == Value(reply)
    requires Answer(name, History, args, call).report.Listing?
    ensures Get(reply, "Items").Arr?
    ensures var xs := Get(reply, "Items").items;
      var r := Answer(name, History, args, call).report;
      r.listed == xs[..Min(10, |xs|)] && r.count == Get(reply, "ItemCount")
  {
    assert Render(History, args, reply) == HistoryList(reply);
  }

  /** A bare-array counts reply gives one `Name || Category : Count || Value`
      line per item, in order. */
  lemma InventoryArray(items: seq<Json>)
    requires forall i :: 0 <= i < |items| ==> !items[i].Null? && !items[i].Undefined?
    ensures var r := InventoryReport(Arr(items));
      r.Value? && r.value.Counts? && |r.value.lines| == |items|
      && forall i :: 0 <= i < |items| ==>
           r.value.lines[i] == (Or(Get(items[i], "Name"), Get(items[i], "Category")),
                                Or(Get(items[i], "Count"), Get(items[i], "Value")))
  {
  }

  /** An `Items` reply gives one `Name: Value` line per item, in order. */
  lemma InventoryItems(reply: Json)
    requires !reply.Arr? && Get(reply, "Items").Arr?
    requires var xs := Get(reply, "Items").items;
      forall i :: 0 <= i < |xs| ==> !xs[i].Null? && !xs[i].Undefined?
    ensures var xs := Get(reply, "Items").items;
      var r := InventoryReport(reply);
      r.Value? && r.value.Counts? && |r.value.lines| == |xs|
      && forall i :: 0 <= i < |xs| ==> r.value.lines[i] == (Get(xs[i], "Name"), Get(xs[i], "Value"))
  {
  }

  /** Any other object is listed property by property; a null reply throws,
      and a primitive reply leaves only the heading. */
  lemma InventoryOther(reply: Json)
    requires !reply.Arr? && !Truthy(Get(reply, "Items"))
    ensures reply.Obj? ==> InventoryReport(reply) == Value(Properties(reply.fields))
    ensures reply.Null? ==> InventoryReport(reply) == Throws(TypeError("Cannot convert undefined or null to object"))
    ensures !reply.Obj? && !reply.Null? ==> InventoryReport(reply) == Value(Counts([]))
  {
  }
}
