// The view tools: each lists the views one client getter returns, formatted,
// with a count and a message that says whether there were any; three of them
// also suggest a fixed list of common views.
module Views {
  import opened Text
  import opened Js
  import opened Protocol
  import opened Shapes
  import opened Client

  /** Every tool the module declares; each has a case. */
  const ViewToolNames: seq<string> := ["view_list_all", "view_list_user", "view_list_tickets", "view_list_assets", "view_list_users"]

  datatype Tool = All | OfUser | ForTickets | ForAssets | UserDirectory

  /** The case a name selects, if any. */
  function ToolOf(name: string): (t: Option<Tool>)
    ensures t.Some? <==> name in ViewToolNames
  {
    match name
    case "view_list_all" => Some(All)
    case "view_list_user" => Some(OfUser)
    case "view_list_tickets" => Some(ForTickets)
    case "view_list_assets" => Some(ForAssets)
    case "view_list_users" => Some(UserDirectory)
    case _ => None
  }

  /** The getter each case reads. */
  function GetterOf(tool: Tool): Op {
    match tool
    case All => Op.Views
    case OfUser => UserViews
    case ForTickets => TicketViews
    case ForAssets => AssetViews
    case UserDirectory => UserSpecificViews
  }

  /** `formatView`: the id, the name and the type each fall back to other fields. */
  function FormatView(v: Json): Json {
    Obj(map["id" := Or(Get(v, "ViewId"), Get(v, "Id")),
            "name" := Or(Get(v, "Name"), Or(Get(v, "ViewName"), Get(v, "Title"))),
            "description" := Get(v, "Description"), "type" := Or(Get(v, "ViewType"), Get(v, "Type")),
            "entity" := Get(v, "EntityType"), "is_public" := Get(v, "IsPublic"), "is_default" := Get(v, "IsDefault"),
            "created_date" := Get(v, "CreatedDate"), "modified_date" := Get(v, "ModifiedDate")])
  }

  /** The suggestions shown beside the ticket, asset and user-directory views. */
  function CommonViews(tool: Tool): seq<string> {
    match tool
    case ForTickets => ["My Open Tickets", "Unassigned Tickets", "Urgent Tickets", "Overdue Tickets", "Building Tickets"]
    case ForAssets => ["Chromebook Inventory", "iPad Inventory", "Warranty Expiring", "Devices for Repair", "Available Loaners"]
    case UserDirectory => ["Student Directory", "Staff Directory", "IT Agents", "New Users", "Inactive Users"]
    case _ => []
  }

  /** The message for a non-empty and for an empty list. */
  function Messages(tool: Tool): (string, string) {
    match tool
    case All => ("Retrieved all views", "No views configured")
    case OfUser => ("Retrieved user views", "No user views available")
    case ForTickets => ("Retrieved ticket views", "No ticket views configured")
    case ForAssets => ("Retrieved asset views", "No asset views configured")
    case UserDirectory => ("Retrieved user directory views", "No user directory views configured")
  }

  function Strs(xs: seq<string>): seq<Json> {
    seq(|xs|, i requires 0 <= i < |xs| => Str(xs[i]))
  }

  /** The result for the list a getter returned. */
  function ViewList(tool: Tool, views: Json): Outcome<Json> {
    var shown :- Formatted(views, "views.map", FormatView, "ViewId");
    var common := if tool.All? || tool.OfUser? then map[] else map["common_views" := Arr(Strs(CommonViews(tool)))];
    Value(Obj(common + map["count" := Num(|shown|), "views" := Arr(shown),
                           "message" := Str(if |shown| > 0 then Messages(tool).0 else Messages(tool).1)]))
  }

  function Run(tool: Tool, call: Upstream): Outcome<Json> {
    var views :- Invoke(GetterOf(tool), call);
    ViewList(tool, views)
  }

  /** `handleToolCall`: the arguments are ignored. */
  function HandleToolCall(name: string, args: Args, call: Upstream): Outcome<Json> {
    match ToolOf(name)
    case None => Throws(Error("Unknown tool: " + name))
    case Some(tool) => Run(tool, call)
  }

  // ----- properties -----

  /** A name without a case throws before any request; a known one does not
      depend on its arguments. */
  lemma Dispatch(name: string, args: Args, other: Args, call: Upstream)
    ensures name !in ViewToolNames ==> HandleToolCall(name, args, call) == Throws(Error("Unknown tool: " + name))
    ensures HandleToolCall(name, args, call) == HandleToolCall(name, other, call)
  {
  }

  /** Every view tool sends a plain GET, and no two of them read the same getter. */
  lemma Getters(tool: Tool)
    ensures var q := RequestOf(GetterOf(tool));
      q.verb == GET && q.params == Undefined && q.body == Undefined
    ensures forall t: Tool :: t != tool ==> GetterOf(t) != GetterOf(tool)
  {
    match tool
    case All =>
    case OfUser =>
    case ForTickets =>
    case ForAssets =>
    case UserDirectory =>
  }

  /** A listing: `count` is the number of views, each listed formatted in
      order, and the message depends only on whether there are any; anything
      but a list throws a TypeError. */
  lemma Listing(tool: Tool, views: Json)
    ensures !views.Arr? ==> ViewList(tool, views).Throws? && ViewList(tool, views).error.TypeError?
    ensures var r := ViewList(tool, views);
      r.Value? ==>
        views.Arr? && r.value.Obj?
        && var f := r.value.fields;
        var xs := views.items;
        f["count"] == Num(|xs|) && f["views"].Arr? && |f["views"].items| == |xs|
        && (forall i :: 0 <= i < |xs| ==> f["views"].items[i] == FormatView(xs[i]))
        && f["message"] == Str(if |xs| > 0 then Messages(tool).0 else Messages(tool).1)
  {
    var fm := Formatted(views, "views.map", FormatView, "ViewId");
    if fm.Value? {
      var shown := fm.value;
      var common := if tool.All? || tool.OfUser? then map[] else map["common_views" := Arr(Strs(CommonViews(tool)))];
      var rest := map["count" := Num(|shown|), "views" := Arr(shown),
                      "message" := Str(if |shown| > 0 then Messages(tool).0 else Messages(tool).1)];
      assert ViewList(tool, views) == Value(Obj(common + rest));
    }
  }

  /** The common views appear exactly for the ticket, asset and
      user-directory tools, five each. */
  lemma Suggestions(tool: Tool, views: Json)
    requires ViewList(tool, views).Value?
    ensures var f := ViewList(tool, views).value.fields;
      ("common_views" in f <==> !tool.All? && !tool.OfUser?)
      && ("common_views" in f ==> f["common_views"] == Arr(Strs(CommonViews(tool))) && |CommonViews(tool)| == 5)
  {
    var shown := Formatted(views, "views.map", FormatView, "ViewId").value;
    var common := if tool.All? || tool.OfUser? then map[] else map["common_views" := Arr(Strs(CommonViews(tool)))];
    var rest := map["count" := Num(|shown|), "views" := Arr(shown),
                    "message" := Str(if |shown| > 0 then Messages(tool).0 else Messages(tool).1)];
    assert ViewList(tool, views) == Value(Obj(common + rest));
    assert "common_views" !in rest;
  }

  /** Each tool reads its getter once; an upstream error propagates unchanged. */
  lemma Reading(tool: Tool, call: Upstream)
    ensures var got := Invoke(GetterOf(tool), call);
      (got.Throws? ==> Run(tool, call) == Throws(got.error))
      && (got.Value? ==> Run(tool, call) == ViewList(tool, got.value))
  {
  }

  /** The two messages of every tool differ, so the message tells an empty list from a non-empty one. */
  lemma MessagesDiffer(tool: Tool)
    ensures Messages(tool).0 != Messages(tool).1
  {
    var (a, b) := Messages(tool);
    assert a[0] != b[0];
  }

  /** The formatted view carries exactly the documented keys; the name is
      the first truthy of `Name`, `ViewName` and `Title`. */
  lemma ViewKeys(v: Json)
    ensures var f := FormatView(v).fields;
      f.Keys == {"id", "name", "description", "type", "entity", "is_public", "is_default", "created_date", "modified_date"}
      && (Truthy(Get(v, "ViewId")) ==> f["id"] == Get(v, "ViewId"))
      && (!Truthy(Get(v, "ViewId")) ==> f["id"] == Get(v, "Id"))
      && (Truthy(Get(v, "Name")) ==> f["name"] == Get(v, "Name"))
      && (!Truthy(Get(v, "Name")) && Truthy(Get(v, "ViewName")) ==> f["name"] == Get(v, "ViewName"))
      && (!Truthy(Get(v, "Name")) && !Truthy(Get(v, "ViewName")) ==> f["name"] == Get(v, "Title"))
      && (!Truthy(Get(v, "ViewType")) ==> f["type"] == Get(v, "Type"))
  {
  }
}
