// The MCP server entry point: the tool list it advertises and the routing of
// a tool call, by exact name for the connection test and by name prefix for
// the four tool families it serves.
module Server {
  import opened Text
  import opened Js
  import opened Protocol
  import opened Client
  import Tickets
  import Users
  import Assets
  import Locations

  /** The advertised tools: the connection test, then the ticket, user,
      asset and location tools, each family in its own declaration order. */
  const ServerToolNames: seq<string> :=
    ["test_connection"] + Tickets.TicketToolNames + Users.UserToolNames
    + Assets.AssetToolNames + Locations.LocationToolNames

  /** Where a call goes. */
  datatype Route = ConnectionTest | ToTickets | ToUsers | ToAssets | ToLocations | NoRoute

  /** The exact-name test first, then the prefixes in order; the first that matches wins. */
  function RouteOf(name: string): Route {
    if name == "test_connection" then ConnectionTest
    else if StartsWith(name, "ticket_") then ToTickets
    else if StartsWith(name, "user_") then ToUsers
    else if StartsWith(name, "asset_") then ToAssets
    else if StartsWith(name, "location_") then ToLocations
    else NoRoute
  }

  // ----- the connection test -----

  /** `${process.env.k}`: the variable's text, or `undefined` when it is unset. */
  function EnvText(env: Env, k: string): string {
    if k in env then env[k] else "undefined"
  }

  /** `result.districtName || 'Unknown'` */
  function DistrictShown(d: Option<string>): string {
    if d.Some? && d.value != "" then d.value else "Unknown"
  }

  const FailureAdvice := "\nPlease check your API key and base URL configuration."

  /** The connection test's text as the handler writes it: the base URL line
      interpolates the environment variable itself. */
  function ConnectionTextAsWritten(env: Env, call: Upstream): string {
    match NewClient(env)
    case Throws(e) => "Connection error: " + e.message
    case Value(c) =>
      match TestConnection(c, call)
      case Connected(d) =>
        "\U{2705} Connected to IncidentIQ\nDistrict: " + DistrictShown(d) + "\nAPI Base URL: " + EnvText(env, "IIQ_API_BASE_URL")
      case Failed(err) => "\U{274C} Connection failed: " + err + FailureAdvice
  }

  /** The connection test's text with the base URL line showing the URL the
      client actually sends its requests to. */
  function ConnectionText(env: Env, call: Upstream): string {
    match NewClient(env)
    case Throws(e) => "Connection error: " + e.message
    case Value(c) =>
      match TestConnection(c, call)
      case Connected(d) =>
        "\U{2705} Connected to IncidentIQ\nDistrict: " + DistrictShown(d) + "\nAPI Base URL: " + c.baseURL
      case Failed(err) => "\U{274C} Connection failed: " + err + FailureAdvice
  }

  // ----- the call handler -----

  /** The family handler a prefix route hands the call to. */
  function FamilyTool(route: Route, name: string, args: Args, call: Upstream): Envelope
    requires route.ToTickets? || route.ToUsers? || route.ToAssets? || route.ToLocations?
  {
    match route
    case ToTickets => Tickets.TicketTool(name, args, call)
    case ToUsers => Users.UserTool(name, args, call)
    case ToAssets => Assets.AssetTool(name, args, call)
    case ToLocations => Locations.LocationTool(name, args, call)
  }

  /** The `CallTool` handler: an envelope from the connection test or the
      family's handler, or a throw for a name no route takes. */
  function CallTool(name: string, args: Args, env: Env, call: Upstream): Outcome<Envelope> {
    match RouteOf(name)
    case ConnectionTest => Value(Envelope(Message(ConnectionTextAsWritten(env, call))))
    case NoRoute => Throws(Error("Unknown tool: " + name))
    case _ => Value(FamilyTool(RouteOf(name), name, args, call))
  }

  // ----- properties -----

  /** The list is the connection test followed by the four families, in order. */
  lemma ToolList()
    ensures |ServerToolNames| == 1 + |Tickets.TicketToolNames| + |Users.UserToolNames|
                                  + |Assets.AssetToolNames| + |Locations.LocationToolNames|
    ensures ServerToolNames[0] == "test_connection"
    ensures var t := 1 + |Tickets.TicketToolNames|;
      var u := t + |Users.UserToolNames|;
      var a := u + |Assets.AssetToolNames|;
      ServerToolNames[1..t] == Tickets.TicketToolNames
      && ServerToolNames[t..u] == Users.UserToolNames
      && ServerToolNames[u..a] == Assets.AssetToolNames
      && ServerToolNames[a..] == Locations.LocationToolNames
  {
    var t := 1 + |Tickets.TicketToolNames|;
    var u := t + |Users.UserToolNames|;
    var a := u + |Assets.AssetToolNames|;
    var s := ServerToolNames;
    assert s == ["test_connection"] + Tickets.TicketToolNames + Users.UserToolNames
                + Assets.AssetToolNames + Locations.LocationToolNames;
    assert s[1..t] == Tickets.TicketToolNames;
    assert s[t..u] == Users.UserToolNames;
    assert s[u..a] == Assets.AssetToolNames;
    assert s[a..] == Locations.LocationToolNames;
  }

  /** No name carries two of the four prefixes, so the order of the tests
      never decides a route: each family gets exactly the names with its prefix. */
  lemma RouteMeaning(name: string)
    ensures RouteOf(name) == ConnectionTest <==> name == "test_connection"
    ensures RouteOf(name) == ToTickets <==> StartsWith(name, "ticket_")
    ensures RouteOf(name) == ToUsers <==> StartsWith(name, "user_")
    ensures RouteOf(name) == ToAssets <==> StartsWith(name, "asset_")
    ensures RouteOf(name) == ToLocations <==> StartsWith(name, "location_")
    ensures RouteOf(name) == NoRoute <==>
      name != "test_connection" && !StartsWith(name, "ticket_") && !StartsWith(name, "user_")
      && !StartsWith(name, "asset_") && !StartsWith(name, "location_")
  {
    if StartsWith(name, "ticket_") {
      assert name[1] == "ticket_"[1] && name[0] == 't';
    }
    if StartsWith(name, "user_") { assert name[0] == "user_"[0]; }
    if StartsWith(name, "asset_") { assert name[0] == "asset_"[0]; }
    if StartsWith(name, "location_") { assert name[0] == "location_"[0]; }
  }

  /** Each family declares only names with its own prefix. */
  lemma FamilyPrefixes()
    ensures forall i :: 0 <= i < |Tickets.TicketToolNames| ==> StartsWith(Tickets.TicketToolNames[i], "ticket_")
    ensures forall i :: 0 <= i < |Users.UserToolNames| ==> StartsWith(Users.UserToolNames[i], "user_")
    ensures forall i :: 0 <= i < |Assets.AssetToolNames| ==> StartsWith(Assets.AssetToolNames[i], "asset_")
    ensures forall i :: 0 <= i < |Locations.LocationToolNames| ==> StartsWith(Locations.LocationToolNames[i], "location_")
  {
    TicketPrefixes();
    UserPrefixes();
    AssetPrefixes();
    LocationPrefixes();
  }

  lemma TicketPrefixes()
    ensures forall i :: 0 <= i < |Tickets.TicketToolNames| ==> StartsWith(Tickets.TicketToolNames[i], "ticket_")
  {
  }

  lemma UserPrefixes()
    ensures forall i :: 0 <= i < |Users.UserToolNames| ==> StartsWith(Users.UserToolNames[i], "user_")
  {
  }

  lemma AssetPrefixes()
    ensures forall i :: 0 <= i < |Assets.AssetToolNames| ==> StartsWith(Assets.AssetToolNames[i], "asset_")
  {
  }

  lemma LocationPrefixes()
    ensures forall i :: 0 <= i < |Locations.LocationToolNames| ==> StartsWith(Locations.LocationToolNames[i], "location_")
  {
  }

  /** Every advertised name is routed, and to the family that declares it. */
  lemma ListedToolsRouted(name: string)
    requires name in ServerToolNames
    ensures RouteOf(name) != NoRoute
    ensures name in Tickets.TicketToolNames ==> RouteOf(name) == ToTickets
    ensures name in Users.UserToolNames ==> RouteOf(name) == ToUsers
    ensures name in Assets.AssetToolNames ==> RouteOf(name) == ToAssets
    ensures name in Locations.LocationToolNames ==> RouteOf(name) == ToLocations
  {
    RouteMeaning(name);
    FamilyPrefixes();
    ToolList();
  }

  /** A name no route takes throws `Unknown tool: <name>` and produces no envelope. */
  lemma UnknownName(name: string, args: Args, env: Env, call: Upstream)
    requires RouteOf(name) == NoRoute
    ensures CallTool(name, args, env, call) == Throws(Error("Unknown tool: " + name))
  {
  }

  /** A routed call answers with its family's envelope for the same name and
      arguments; in particular a prefixed name the family does not know gets
      that family's unknown-tool text, not a throw. */
  lemma Routed(name: string, args: Args, env: Env, call: Upstream)
    requires RouteOf(name) != NoRoute && RouteOf(name) != ConnectionTest
    ensures CallTool(name, args, env, call).Value?
    ensures RouteOf(name) == ToTickets ==> CallTool(name, args, env, call).value == Tickets.TicketTool(name, args, call)
    ensures RouteOf(name) == ToUsers ==> CallTool(name, args, env, call).value == Users.UserTool(name, args, call)
    ensures RouteOf(name) == ToAssets ==> CallTool(name, args, env, call).value == Assets.AssetTool(name, args, call)
    ensures RouteOf(name) == ToLocations ==> CallTool(name, args, env, call).value == Locations.LocationTool(name, args, call)
  {
  }

  /** The connection test never throws: it answers with the text the
      handler writes, whose cases `ConnectionTextCases` states. */
  lemma ConnectionAnswers(args: Args, env: Env, call: Upstream)
    ensures CallTool("test_connection", args, env, call).Value?
    ensures var t := CallTool("test_connection", args, env, call).value.report;
      t.Message? && t.text == ConnectionTextAsWritten(env, call)
  {
    assert RouteOf("test_connection") == ConnectionTest;
  }

  /** The connection test's text: a missing key shows the constructor's
      error, a failed probe the failure and the advice, and a successful one
      the district name and the environment's base URL variable as it
      stands, `undefined` when it is unset; when that variable is set and
      non-empty, the text is the corrected one. */
  lemma ConnectionTextCases(env: Env, call: Upstream)
    ensures Setting(env, "IIQ_API_KEY", "") == "" ==> ConnectionTextAsWritten(env, call) == "Connection error: " + MissingKey
    ensures Setting(env, "IIQ_API_KEY", "") != "" && call(ProbeRequest).Throws? ==>
      var e := call(ProbeRequest).error;
      ConnectionTextAsWritten(env, call) ==
        "\U{274C} Connection failed: "
        + (if e.HttpError? && e.status == 401 then "Invalid API key" else "Connection failed: " + e.message)
        + FailureAdvice
    ensures Setting(env, "IIQ_API_KEY", "") != "" && call(ProbeRequest).Value? ==>
      var base := Setting(env, "IIQ_API_BASE_URL", DefaultBaseURL);
      ConnectionTextAsWritten(env, call) ==
        "\U{2705} Connected to IncidentIQ\nDistrict: " + DistrictShown(DistrictName(base))
        + "\nAPI Base URL: " + (if "IIQ_API_BASE_URL" in env then env["IIQ_API_BASE_URL"] else "undefined")
    ensures "IIQ_API_BASE_URL" in env && env["IIQ_API_BASE_URL"] != "" ==>
      ConnectionTextAsWritten(env, call) == ConnectionText(env, call)
  {
  }

  /** As written, with no base URL in the environment the client uses the
      default URL while the text reports `undefined`. */
  lemma UnsetBaseUrlShownUndefined(call: Upstream)
    requires call(ProbeRequest).Value?
    ensures var env := map["IIQ_API_KEY" := "k"];
      NewClient(env).Value? && NewClient(env).value.baseURL == DefaultBaseURL
      && ConnectionTextAsWritten(env, call)
           == "\U{2705} Connected to IncidentIQ\nDistrict: " + DistrictShown(DistrictName(DefaultBaseURL))
              + "\nAPI Base URL: " + "undefined"
      && ConnectionTextAsWritten(env, call) != ConnectionText(env, call)
  {
    var env := map["IIQ_API_KEY" := "k"];
    var p := "\U{2705} Connected to IncidentIQ\nDistrict: " + DistrictShown(DistrictName(DefaultBaseURL)) + "\nAPI Base URL: ";
    assert ConnectionTextAsWritten(env, call) == p + "undefined";
    assert ConnectionText(env, call) == p + DefaultBaseURL;
    assert (p + "undefined")[|p|] != (p + DefaultBaseURL)[|p|];
  }

  /** The corrected text names the URL the probe was sent to, whether it came
      from the environment or is the default. */
  lemma ShownBaseUrlIsUsed(env: Env, call: Upstream)
    requires NewClient(env).Value? && call(ProbeRequest).Value?
    ensures var url := NewClient(env).value.baseURL;
      EndsWith(ConnectionText(env, call), "\nAPI Base URL: " + url)
      && ("IIQ_API_BASE_URL" !in env ==> url == DefaultBaseURL)
  {
    var c := NewClient(env).value;
    var url := c.baseURL;
    assert TestConnection(c, call).Connected?;
    var d := DistrictShown(TestConnection(c, call).districtName);
    var s := "\U{2705} Connected to IncidentIQ\nDistrict: " + d;
    assert ConnectionText(env, call) == s + "\nAPI Base URL: " + url;
    EndsWithAppended(s, "\nAPI Base URL: ", url);
  }
}
