// The team tools: each builds one request from its arguments and returns the
// reply serialized; unknown names throw, and the wrapper turns any throw
// into error text.
module Teams {
  import opened Text
  import opened Js
  import opened Protocol
  import opened Shapes

  /** Every tool the module declares; each has a case. */
  const TeamToolNames: seq<string> := [
    "team_get_all", "team_search", "team_get", "team_get_members", "team_get_agents",
    "team_get_tickets", "team_get_locations", "team_get_categories", "team_get_stats"]

  datatype Tool =
    | GetAll | Search | Team
      // a sub-resource of one team read without parameters
    | TeamPart(suffix: string)
    | Tickets | Stats

  /** The case a name selects, if any. */
  function ToolOf(name: string): (t: Option<Tool>)
    ensures t.Some? <==> name in TeamToolNames
  {
    match name
    case "team_get_all" => Some(GetAll)
    case "team_search" => Some(Search)
    case "team_get" => Some(Team)
    case "team_get_members" => Some(TeamPart("members"))
    case "team_get_agents" => Some(TeamPart("agents"))
    case "team_get_tickets" => Some(Tickets)
    case "team_get_locations" => Some(TeamPart("locations"))
    case "team_get_categories" => Some(TeamPart("categories"))
    case "team_get_stats" => Some(Stats)
    case _ => None
  }

  /** The search payload: both flags false, the search text as given (even
      when it is undefined) and paging 20 by default. */
  function SearchPayload(args: Args): Json {
    Obj(map["OnlyShowDeleted" := Bool(false), "FilterByViewPermission" := Bool(false),
            "SearchText" := Arg(args, "searchText"), "Paging" := Paging(args, 20)])
  }

  /** A team's tickets: unresolved unless asked, the first page, 20 by default. */
  function TicketParams(args: Args): map<string, Json> {
    map["includeResolved" := Or(Arg(args, "includeResolved"), Bool(false)),
        "$p" := Num(0), "$s" := Or(Arg(args, "pageSize"), Num(20))]
  }

  function TeamPath(args: Args): string {
    "/teams/" + ToStr(Arg(args, "teamId"))
  }

  /** The one request each case sends. */
  function TeamRequest(tool: Tool, args: Args): Request {
    match tool
    case GetAll => GetWith("/teams/all", ListParams(args, 100))
    case Search => PostReq("/teams", SearchPayload(args))
    case Team => GetReq(TeamPath(args))
    case TeamPart(suffix) => GetReq(TeamPath(args) + "/" + suffix)
    case Tickets => GetWith(TeamPath(args) + "/tickets", TicketParams(args))
    case Stats => GetWith(TeamPath(args) + "/stats", DateBounds(args))
  }

  function UnknownTeamTool(name: string): Exception {
    Error("Unknown team tool: " + name)
  }

  /** `handleToolCall`: the reply, or a throw for a name without a case. */
  function HandleToolCall(name: string, args: Args, call: Upstream): Outcome<Json> {
    match ToolOf(name)
    case None => Throws(UnknownTeamTool(name))
    case Some(tool) => call(TeamRequest(tool, args))
  }

  /** `handleTeamTool` */
  function TeamTool(name: string, args: Args, call: Upstream): Envelope {
    Wrapped(HandleToolCall(name, args, call))
  }

  // ----- properties -----

  /** An unknown name throws before any request, and the wrapper shows the error. */
  lemma UnknownName(name: string, args: Args, call: Upstream)
    requires name !in TeamToolNames
    ensures TeamTool(name, args, call) == Envelope(Message("Error: " + "Unknown team tool: " + name))
  {
  }

  /** A known name sends its one request; the reply comes back serialized
      and an upstream error as error text. */
  lemma Envelopes(name: string, args: Args, call: Upstream)
    requires ToolOf(name).Some?
    ensures var r := call(TeamRequest(ToolOf(name).value, args));
      (r.Value? ==> TeamTool(name, args, call) == Envelope(Serialized(r.value)))
      && (r.Throws? ==> TeamTool(name, args, call) == Envelope(ErrorText(r.error)))
  {
  }

  /** `team_get_all` pages from 0, 100 at a time, newest first, by default. */
  lemma GetAllParams(args: Args)
    ensures TeamRequest(GetAll, args).params == Obj(ListParams(args, 100))
    ensures !Truthy(Arg(args, "pageIndex")) && !Truthy(Arg(args, "pageSize")) && !Truthy(Arg(args, "sortDirection")) ==>
      ListParams(args, 100) == map["$p" := Num(0), "$s" := Num(100), "$d" := Str("Descending")]
  {
  }

  /** The search sends the search text key always, with the argument's
      value, and pages 20 at a time by default. */
  lemma SearchText(args: Args)
    ensures var p := SearchPayload(args).fields;
      "SearchText" in p && p["SearchText"] == Arg(args, "searchText")
      && p["OnlyShowDeleted"] == Bool(false) && p["FilterByViewPermission"] == Bool(false)
      && p["Paging"] == Paging(args, 20)
    ensures Arg(args, "searchText") == Undefined ==> SearchPayload(args).fields["SearchText"] == Undefined
  {
  }

  /** A team's tickets leave out resolved ones unless `includeResolved` is
      truthy, and read the first page. */
  lemma TicketDefaults(args: Args)
    ensures var p := TicketParams(args);
      p["$p"] == Num(0)
      && (!Truthy(Arg(args, "includeResolved")) ==> p["includeResolved"] == Bool(false))
      && (!Truthy(Arg(args, "pageSize")) ==> p["$s"] == Num(20))
  {
  }

  /** Every per-team call goes to the team's path followed by its sub-resource. */
  lemma PerTeamPaths(name: string, args: Args)
    requires ToolOf(name).Some? && !ToolOf(name).value.GetAll? && !ToolOf(name).value.Search?
    ensures var q := TeamRequest(ToolOf(name).value, args);
      StartsWith(q.path, "/teams/" + ToStr(Arg(args, "teamId")))
      && (ToolOf(name).value.TeamPart? ==> ToolOf(name).value.suffix in {"members", "agents", "locations", "categories"})
  {
    var q := TeamRequest(ToolOf(name).value, args);
    var p := "/teams/" + ToStr(Arg(args, "teamId"));
    assert q.path[..|p|] == p;
  }

  /** The statistics send only the date bounds that are given. */
  lemma StatsParams(args: Args)
    ensures var q := TeamRequest(Stats, args);
      q.params.Obj? && q.path == "/teams/" + ToStr(Arg(args, "teamId")) + "/stats"
      && (forall k :: k in q.params.fields <==> (k == "dateFrom" || k == "dateTo") && Truthy(Arg(args, k)))
  {
    DateBoundsGiven(args);
  }
}
