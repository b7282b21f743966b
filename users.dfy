// The enhanced user tools: the advanced user search, the student and staff
// directories, IT agents, single users, grade and location statistics,
// users at a location and the quick search, with the module's 404 mapping.
module Users {
  import opened Text
  import opened Js
  import opened Protocol
  import opened Collections
  import opened Shapes

  /** Every tool the module declares, in declaration order. */
  const UserToolNames: seq<string> := [
    "user_search_advanced", "user_get_students", "user_get_staff", "user_get_parents",
    "user_get_all_agents", "user_search_agents", "user_get_details", "user_get_current",
    "user_statistics_grades", "user_statistics_locations", "user_get_permissions",
    "user_get_groups", "user_get_user_groups", "user_get_by_location", "user_quick_search"]

  /** The names the handler's switch has a case for. */
  const UserCaseNames: seq<string> := [
    "user_search_advanced", "user_get_students", "user_get_staff", "user_get_all_agents",
    "user_get_details", "user_get_current", "user_statistics_grades", "user_statistics_locations",
    "user_get_by_location", "user_quick_search"]

  datatype Tool =
    | SearchAdvanced | Students | Staff | AllAgents | GetDetails | GetCurrent
    | GradeStatistics | LocationStatistics | ByLocation | QuickSearch

  /** The case a name selects, if any. */
  function ToolOf(name: string): (t: Option<Tool>)
    ensures t.Some? <==> name in UserCaseNames
  {
    match name
    case "user_search_advanced" => Some(SearchAdvanced)
    case "user_get_students" => Some(Students)
    case "user_get_staff" => Some(Staff)
    case "user_get_all_agents" => Some(AllAgents)
    case "user_get_details" => Some(GetDetails)
    case "user_get_current" => Some(GetCurrent)
    case "user_statistics_grades" => Some(GradeStatistics)
    case "user_statistics_locations" => Some(LocationStatistics)
    case "user_get_by_location" => Some(ByLocation)
    case "user_quick_search" => Some(QuickSearch)
    case _ => None
  }

  function UnknownUserTool(name: string): string {
    "Error: Unknown enhanced user tool \"" + name + "\"."
  }

  const NoUserContext := "Current user endpoint not available. The API key may not have user context."
  const UserNotFound := "User or resource not found."

  // ----- requests -----

  /** The filters `user_search_advanced` may push, in the order it pushes them. */
  const SearchFacets: seq<Facet> :=
    [Facet("View", "viewId"), Facet("UserType", "userType"), Facet("Grade", "grade"), Facet("Location", "locationId")]

  /** The `user_search_advanced` payload. */
  function SearchPayload(args: Args): Json {
    FacetSearch(args, SearchFacets, 100)
  }


  /** The filters the student directory may push after the fixed one. */
  const StudentFacets: seq<Facet> := [Facet("Grade", "grade"), Facet("Location", "locationId")]

  /** The filter the staff directory may push after the fixed one. */
  const StaffFacet := Facet("Location", "locationId")

  /** A directory search: users of one type, further filtered, from the first page. */
  function DirectoryPayload(userType: string, facets: seq<Facet>, args: Args, pageSize: Json): Json {
    Obj(map["OnlyShowDeleted" := Bool(false),
            "FilterByViewPermission" := Bool(false),
            "Filters" := Arr([SearchFilter("UserType", Str(userType))] + FacetFilters(args, facets)),
            "Paging" := Obj(map["PageIndex" := Num(0), "PageSize" := pageSize])])
  }

  function StudentPayload(args: Args): Json {
    DirectoryPayload("Student", StudentFacets, args, Or(Arg(args, "pageSize"), Num(100)))
  }

  function StaffPayload(args: Args): Json {
    DirectoryPayload("Staff", [StaffFacet], args, Num(100))
  }

  const GradesPath := "/users/statistics/grades"

  /** The grade statistics path, narrowed to a location when one is given. */
  function GradeStatisticsPath(args: Args): string {
    var location := Arg(args, "locationId");
    if Truthy(location) then GradesPath + "?locationId=" + ToStr(location) else GradesPath
  }

  /** The quick-search path: the encoded query and a result limit of 10 by default. */
  function QuickSearchPath(args: Args): string {
    "/users/quick?q=" + EncodeURIComponent(ToStr(Arg(args, "query")))
    + "&limit=" + ToStr(Or(Arg(args, "limit"), Num(10)))
  }

  /** The one request each case sends. */
  function UserRequest(tool: Tool, args: Args): Request {
    match tool
    case SearchAdvanced => PostReq("/users", SearchPayload(args))
    case Students => PostReq("/users", StudentPayload(args))
    case Staff => PostReq("/users", StaffPayload(args))
    case AllAgents => GetReq("/users/agents")
    case GetDetails => GetReq("/users/" + ToStr(Arg(args, "userId")))
    case GetCurrent => GetReq("/users/me")
    case GradeStatistics => GetReq(GradeStatisticsPath(args))
    case LocationStatistics => GetReq("/users/statistics/locations")
    case ByLocation => GetReq("/users/location/" + ToStr(Arg(args, "locationId")))
    case QuickSearch => GetReq(QuickSearchPath(args))
  }

  // ----- the domain rules -----

  /** `student.Grade || 'Unassigned'`, as a property name. */
  function GradeKey(student: Json): string {
    ToStr(Or(Get(student, "Grade"), Str("Unassigned")))
  }

  /** `user.UserTypeName || 'Unknown'`, as a property name. */
  function UserTypeKey(user: Json): string {
    ToStr(Or(Get(user, "UserTypeName"), Str("Unknown")))
  }

  /** `stat.Count || stat.Value || 0`, the figure a statistic contributes. */
  function StatCount(stat: Json): Json {
    Or(Or(Get(stat, "Count"), Get(stat, "Value")), Num(0))
  }

  // ----- what each case makes of the reply -----

  function SearchReport(args: Args, reply: Json): Outcome<Report> {
    var t :- TopItems(reply, 10, "No users found matching your criteria.", "response.Items", "FullName");
    Value(if t.Listing? then t.(footer := Some(PageFooter(args, Get(reply, "ItemCount"), 100))) else t)
  }

  /** Where each grouping pushes its records. */
  const StudentsSite := "studentsByGrade[grade].push"
  const ByTypeSite := "usersByType[type].push"

  /** The reply's `Items` grouped by `keyOf`, at most five listed per group. */
  function GroupedItems(reply: Json, empty: string, field: string, keyOf: Json -> string, site: string): Outcome<Report> {
    var items := Get(reply, "Items");
    if Empty(items) then Value(Message(empty))
    else
      var xs :- AsList(items, "response.Items.forEach");
      var groups :- CappedGroupsAsWritten(xs, keyOf, 5, field, site);
      Value(Grouped(Get(reply, "ItemCount"), groups))
  }

  function AgentList(reply: Json): Outcome<Report> {
    var agents := ItemsOrSelf(reply);
    if NoLength(agents) then Value(Message("No IT support agents found."))
    else
      var xs :- AsList(agents, SliceSite(agents, "agents", "map"));
      var shown :- Records(Take(xs, 20), "FullName");
      Value(Listing(Num(|xs|), shown, 0, None))
  }

  /** `r?.Item || r`, shown when truthy. */
  function Lookup(reply: Json, missing: string): Report {
    var user := ItemOrSelf(reply);
    if Truthy(user) then Details(user) else Message(missing)
  }

  /** A statistics reply: one line per statistic and the running total of their figures. */
  function Statistics(reply: Json, empty: string): Outcome<Report> {
    var stats := ItemsOrSelf(reply);
    if NoLength(stats) then Value(Message(empty))
    else
      var xs :- AsList(stats, "stats.map");
      var ys :- Records(xs, "Count");
      Value(Totals(SumOf(ys, StatCount, Num(0)), ys))
  }

  function QuickResults(args: Args, reply: Json): Outcome<Report> {
    var users := ItemsOrSelf(reply);
    if NoLength(users) then Value(Message("No users found matching \"" + ToStr(Arg(args, "query")) + "\"."))
    else
      var xs :- AsList(users, "users.map");
      var ys :- Records(xs, "FullName");
      Value(Listing(Undefined, ys, 0, None))
  }

  function Render(tool: Tool, args: Args, reply: Json): Outcome<Report> {
    match tool
    case SearchAdvanced => SearchReport(args, reply)
    case Students => GroupedItems(reply, "No students found.", "Grade", GradeKey, StudentsSite)
    case Staff => TopItems(reply, 20, "No staff members found.", "response.Items", "FullName")
    case AllAgents => AgentList(reply)
    case GetDetails => Value(Lookup(reply, "User not found."))
    case GetCurrent => Value(Lookup(reply, "Unable to retrieve current user information."))
    case GradeStatistics => Statistics(reply, "No grade statistics available.")
    case LocationStatistics => Statistics(reply, "No location statistics available.")
    case ByLocation => GroupedItems(reply, "No users found for this location.", "UserTypeName", UserTypeKey, ByTypeSite)
    case QuickSearch => QuickResults(args, reply)
  }

  /** The `catch`: a 404 on the current-user tool has its own text, a 404 on
      a single-user or by-location look-up the generic one; every other error,
      404s of the other tools included, is `Error: <message>`. */
  function UsersCatch(name: string, e: Exception): Report {
    if NotFound(e) && name == "user_get_current" then Message(NoUserContext)
    else if NotFound(e) && (Contains(name, "get_details") || Contains(name, "by_location")) then Message(UserNotFound)
    else ErrorText(e)
  }

  function Answer(name: string, tool: Tool, args: Args, call: Upstream): Envelope {
    match (var reply :- call(UserRequest(tool, args)); Render(tool, args, reply))
    case Value(report) => Envelope(report)
    case Throws(e) => Envelope(UsersCatch(name, e))
  }

  /** `handleEnhancedUserTool` */
  function UserTool(name: string, args: Args, call: Upstream): Envelope {
    match ToolOf(name)
    case None => Envelope(Message(UnknownUserTool(name)))
    case Some(tool) => Answer(name, tool, args, call)
  }

  // ----- properties -----

  /** A reply whose rendering throws is answered by the module's `catch`. */
  lemma RenderFailed(name: string, tool: Tool, args: Args, call: Upstream, reply: Json)
    requires call(UserRequest(tool, args)) == Value(reply)
    requires Render(tool, args, reply).Throws?
    ensures Answer(name, tool, args, call) == Envelope(UsersCatch(name, Render(tool, args, reply).error))
  {
  }

  /** A grouped answer is the rendering of the reply. */
  lemma RenderGrouped(name: string, tool: Tool, args: Args, call: Upstream, reply: Json)
    requires call(UserRequest(tool, args)) == Value(reply)
    requires Answer(name, tool, args, call).report.Grouped?
    ensures Render(tool, args, reply).Value? && Answer(name, tool, args, call).report == Render(tool, args, reply).value
  {
    if Render(tool, args, reply).Throws? {
      RenderFailed(name, tool, args, call, reply);
    }
  }

  /** A grouping of `Items` that comes back holds the grouping of the
      records, none of whose keys is inherited. */
  lemma GroupedItemsShape(reply: Json, empty: string, field: string, keyOf: Json -> string, site: string)
    requires GroupedItems(reply, empty, field, keyOf, site).Value?
    requires GroupedItems(reply, empty, field, keyOf, site).value.Grouped?
    ensures Get(reply, "Items").Arr?
    ensures var xs := Get(reply, "Items").items;
      (forall j :: 0 <= j < |xs| ==> !Inherited(keyOf(xs[j])))
      && GroupedItems(reply, empty, field, keyOf, site).value.groups == CappedGroups(xs, keyOf, 5)
  {
    var xs := Get(reply, "Items").items;
    assert CappedGroupsAsWritten(xs, keyOf, 5, field, site).Value?;
  }

  /** A name without a case gets the unknown-tool text and sends nothing. */
  lemma UnknownName(name: string, args: Args, call: Upstream)
    requires name !in UserCaseNames
    ensures UserTool(name, args, call) == Envelope(Message(UnknownUserTool(name)))
  {
  }

  /** `user_get_parents` is declared but has no case. */
  lemma DeclaredWithoutCase(args: Args, call: Upstream)
    ensures "user_get_parents" in UserToolNames
    ensures UserTool("user_get_parents", args, call) == Envelope(Message(UnknownUserTool("user_get_parents")))
  {
    assert UserToolNames[3] == "user_get_parents";
    assert ToolOf("user_get_parents") == None;
  }

  /** A thrown error is mapped by the tool's name: a 404 gives the no-context
      text exactly on the current-user tool, the generic text exactly on the
      other names mentioning 'get_details' or 'by_location', and every other
      error is `Error: <message>`. */
  lemma ErrorMapping(name: string, args: Args, call: Upstream)
    requires ToolOf(name).Some?
    requires call(UserRequest(ToolOf(name).value, args)).Throws?
    ensures var e := call(UserRequest(ToolOf(name).value, args)).error;
      var r := UserTool(name, args, call).report;
      var lookup := Contains(name, "get_details") || Contains(name, "by_location");
      (NotFound(e) && name == "user_get_current" ==> r == Message(NoUserContext))
      && (NotFound(e) && name != "user_get_current" && lookup ==> r == Message(UserNotFound))
      && (!NotFound(e) || (name != "user_get_current" && !lookup) ==> r == ErrorText(e))
  {
  }

  /** The advanced search pushes View, UserType, Grade and Location filters in
      that order, each only for a truthy argument, and pages 100 at a time by default. */
  lemma SearchFilters(args: Args)
    ensures var p := SearchPayload(args).fields;
      p["Filters"] == Arr(Pushed(args, Facet("View", "viewId")) + Pushed(args, Facet("UserType", "userType"))
                          + Pushed(args, Facet("Grade", "grade")) + Pushed(args, Facet("Location", "locationId")))
      && p["Paging"] == Paging(args, 100)
      && p["FilterByViewPermission"] == Bool(false)
      && (!Truthy(Arg(args, "includeDeleted")) ==> p["OnlyShowDeleted"] == Bool(false))
  {
    FacetFilters4(args, Facet("View", "viewId"), Facet("UserType", "userType"),
                  Facet("Grade", "grade"), Facet("Location", "locationId"));
  }

  /** The declared `homeroom` and `isActive` arguments never reach the payload. */
  lemma SearchIgnores(args: Args, k: string, v: Json)
    requires k == "homeroom" || k == "isActive"
    ensures SearchPayload(args[k := v]) == SearchPayload(args)
  {
    FacetSearchIgnore(args, SearchFacets, 100, k, v);
  }

  /** The result lists the first ten users of the reply, counts the rest, and
      ends with the one-based page and the page count. */
  lemma SearchListed(name: string, args: Args, call: Upstream, reply: Json)
    requires call(PostReq("/users", SearchPayload(args))) == Value(reply)
    requires Answer(name, SearchAdvanced, args, call).report.Listing?
    ensures Get(reply, "Items").Arr?
    ensures var xs := Get(reply, "Items").items;
      var r := Answer(name, SearchAdvanced, args, call).report;
      r.listed == xs[..Min(10, |xs|)] && 0 < |r.listed|
      && r.more == |xs| - |r.listed|
      && r.count == Get(reply, "ItemCount")
      && r.footer == Some(PageFooter(args, Get(reply, "ItemCount"), 100))
  {
    assert Render(SearchAdvanced, args, reply) == SearchReport(args, reply);
  }

  /** The student directory filters on students first, then on the grade and
      the building when given, and pages 100 at a time by default. */
  lemma StudentFilters(args: Args)
    ensures var p := StudentPayload(args).fields;
      p["Filters"] == Arr([SearchFilter("UserType", Str("Student"))]
                          + Pushed(args, Facet("Grade", "grade")) + Pushed(args, Facet("Location", "locationId")))
      && p["Paging"].fields["PageIndex"] == Num(0)
      && (!Truthy(Arg(args, "pageSize")) ==> p["Paging"].fields["PageSize"] == Num(100))
      && !("SearchText" in p)
  {
    FacetFilters2(args, Facet("Grade", "grade"), Facet("Location", "locationId"));
  }

  /** The staff directory filters on staff first, then on the building when
      given, always with a page of 100; `role` and `department` are never sent. */
  lemma StaffFilters(args: Args, k: string, v: Json)
    requires k == "role" || k == "department"
    ensures var p := StaffPayload(args).fields;
      p["Filters"] == Arr([SearchFilter("UserType", Str("Staff"))] + Pushed(args, StaffFacet))
      && p["Paging"] == FixedPage(100)
    ensures StaffPayload(args[k := v]) == StaffPayload(args)
  {
    FacetFilters1(args, StaffFacet);
    FacetFilters1(args[k := v], StaffFacet);
    assert Arg(args[k := v], "locationId") == Arg(args, "locationId");
  }

  /** The student directory: one group per grade some student has, each
      counting all its students and listing the first five of them. */
  lemma StudentGroups(name: string, args: Args, call: Upstream, reply: Json, i: nat)
    requires call(PostReq("/users", StudentPayload(args))) == Value(reply)
    requires Answer(name, Students, args, call).report.Grouped?
    requires i < |Answer(name, Students, args, call).report.groups|
    ensures Get(reply, "Items").Arr?
    ensures var xs := Get(reply, "Items").items;
      var g := Answer(name, Students, args, call).report.groups[i];
      g.size == |Having(xs, GradeKey, g.key)| > 0
      && g.listed == Having(xs, GradeKey, g.key)[..|g.listed|]
      && |g.listed| == Min(5, g.size)
      && (g.unlisted > 0 <==> g.size > 5)
      && forall j :: 0 <= j < |xs| ==> !Inherited(GradeKey(xs[j]))
  {
    assert UserRequest(Students, args) == PostReq("/users", StudentPayload(args));
    RenderGrouped(name, Students, args, call, reply);
    GroupedItemsShape(reply, "No students found.", "Grade", GradeKey, StudentsSite);
    CappedGroupAt(Get(reply, "Items").items, GradeKey, 5, i);
  }

  /** Every grade some student has is shown once, and a grouping comes back
      only when no grade is a name `{}` inherits. */
  lemma StudentGrades(name: string, args: Args, call: Upstream, reply: Json, k: string)
    requires call(PostReq("/users", StudentPayload(args))) == Value(reply)
    requires Answer(name, Students, args, call).report.Grouped?
    ensures Get(reply, "Items").Arr?
    ensures var xs := Get(reply, "Items").items;
      var gs := Answer(name, Students, args, call).report.groups;
      (|Having(xs, GradeKey, k)| > 0 <==> exists i :: 0 <= i < |gs| && gs[i].key == k)
      && (forall i, j :: 0 <= i < j < |gs| ==> gs[i].key != gs[j].key)
      && forall j :: 0 <= j < |xs| ==> !Inherited(GradeKey(xs[j]))
  {
    assert UserRequest(Students, args) == PostReq("/users", StudentPayload(args));
    RenderGrouped(name, Students, args, call, reply);
    GroupedItemsShape(reply, "No students found.", "Grade", GradeKey, StudentsSite);
    CappedGroupKeysCover(Get(reply, "Items").items, GradeKey, 5, k);
    CappedGroupKeysDistinct(Get(reply, "Items").items, GradeKey, 5);
  }

  /** A grouping of `Items` throws at its push when some record's key is inherited. */
  lemma GroupedItemsThrows(reply: Json, empty: string, field: string, keyOf: Json -> string, site: string, j: nat)
    requires Get(reply, "Items").Arr?
    requires var xs := Get(reply, "Items").items;
      (forall i :: 0 <= i < |xs| ==> !xs[i].Null? && !xs[i].Undefined?)
      && j < |xs| && Inherited(keyOf(xs[j]))
    ensures GroupedItems(reply, empty, field, keyOf, site) == Throws(NotAFunction(site))
  {
    var xs := Get(reply, "Items").items;
    assert CappedGroupsAsWritten(xs, keyOf, 5, field, site) == Throws(NotAFunction(site));
  }

  /** As written, a student whose grade is a name `{}` inherits, such as
      "toString", makes the push throw, and the tool answers with that TypeError. */
  lemma StudentsInheritedGrade(name: string, args: Args, call: Upstream, reply: Json, j: nat)
    requires call(PostReq("/users", StudentPayload(args))) == Value(reply)
    requires Get(reply, "Items").Arr?
    requires var xs := Get(reply, "Items").items;
      (forall i :: 0 <= i < |xs| ==> !xs[i].Null? && !xs[i].Undefined?)
      && j < |xs| && Inherited(GradeKey(xs[j]))
    ensures Answer(name, Students, args, call) == Envelope(ErrorText(NotAFunction(StudentsSite)))
  {
    var e := NotAFunction(StudentsSite);
    GroupedItemsThrows(reply, "No students found.", "Grade", GradeKey, StudentsSite, j);
    assert Render(Students, args, reply) == Throws(e);
    assert UserRequest(Students, args) == PostReq("/users", StudentPayload(args));
    RenderFailed(name, Students, args, call, reply);
    assert !NotFound(e);
  }

  /** Users at a location are grouped by their type name the same way. */
  lemma ByLocationGroups(name: string, args: Args, call: Upstream, reply: Json, i: nat)
    requires call(GetReq("/users/location/" + ToStr(Arg(args, "locationId")))) == Value(reply)
    requires Answer(name, ByLocation, args, call).report.Grouped?
    requires i < |Answer(name, ByLocation, args, call).report.groups|
    ensures Get(reply, "Items").Arr?
    ensures var xs := Get(reply, "Items").items;
      var g := Answer(name, ByLocation, args, call).report.groups[i];
      g.size == |Having(xs, UserTypeKey, g.key)| > 0
      && g.listed == Having(xs, UserTypeKey, g.key)[..|g.listed|]
      && |g.listed| == Min(5, g.size)
      && forall j :: 0 <= j < |xs| ==> !Inherited(UserTypeKey(xs[j]))
  {
    assert UserRequest(ByLocation, args) == GetReq("/users/location/" + ToStr(Arg(args, "locationId")));
    RenderGrouped(name, ByLocation, args, call, reply);
    GroupedItemsShape(reply, "No users found for this location.", "UserTypeName", UserTypeKey, ByTypeSite);
    CappedGroupAt(Get(reply, "Items").items, UserTypeKey, 5, i);
  }

  /** As written, a user whose type name `{}` inherits makes the push throw. */
  lemma ByLocationInheritedType(name: string, args: Args, call: Upstream, reply: Json, j: nat)
    requires call(GetReq("/users/location/" + ToStr(Arg(args, "locationId")))) == Value(reply)
    requires Get(reply, "Items").Arr?
    requires var xs := Get(reply, "Items").items;
      (forall i :: 0 <= i < |xs| ==> !xs[i].Null? && !xs[i].Undefined?)
      && j < |xs| && Inherited(UserTypeKey(xs[j]))
    ensures Answer(name, ByLocation, args, call) == Envelope(ErrorText(NotAFunction(ByTypeSite)))
  {
    var e := NotAFunction(ByTypeSite);
    GroupedItemsThrows(reply, "No users found for this location.", "UserTypeName", UserTypeKey, ByTypeSite, j);
    assert Render(ByLocation, args, reply) == Throws(e);
    assert UserRequest(ByLocation, args) == GetReq("/users/location/" + ToStr(Arg(args, "locationId")));
    RenderFailed(name, ByLocation, args, call, reply);
    assert !NotFound(e);
  }

  /** The staff directory lists the first twenty staff and counts the rest. */
  lemma StaffListed(name: string, args: Args, call: Upstream, reply: Json)
    requires call(PostReq("/users", StaffPayload(args))) == Value(reply)
    requires Answer(name, Staff, args, call).report.Listing?
    ensures Get(reply, "Items").Arr?
    ensures var xs := Get(reply, "Items").items;
      var r := Answer(name, Staff, args, call).report;
      r.listed == xs[..Min(20, |xs|)] && r.more == |xs| - |r.listed|
  {
  }

  /** The agents list shows the first twenty agents under the number of all of them. */
  lemma AgentsListed(name: string, args: Args, call: Upstream, reply: Json)
    requires call(GetReq("/users/agents")) == Value(reply)
    requires Answer(name, AllAgents, args, call).report.Listing?
    ensures var agents := ItemsOrSelf(reply);
      var r := Answer(name, AllAgents, args, call).report;
      agents.Arr? && |agents.items| > 0
      && r.listed == agents.items[..Min(20, |agents.items|)]
      && r.count == Num(|agents.items|)
  {
    assert Render(AllAgents, args, reply) == AgentList(reply);
  }

  /** Agents that are neither empty nor a list throw where the engine first
      misses a method: an object has no `slice`, and the string a string's
      `slice` returns has no `map`. */
  lemma AgentsNotList(reply: Json)
    requires var agents := ItemsOrSelf(reply); !NoLength(agents) && !agents.Arr?
    ensures var agents := ItemsOrSelf(reply);
      AgentList(reply) == Throws(NotAFunction(if agents.Str? then "agents.slice(...).map" else "agents.slice"))
  {
    assert "agents" + ".slice(...)." + "map" == "agents.slice(...).map";
    assert "agents" + ".slice" == "agents.slice";
  }

  /** A user look-up shows the reply's `Item`, else the reply itself, and
      says "not found" when both are falsy. */
  lemma DetailsLookup(name: string, args: Args, call: Upstream, reply: Json)
    requires call(GetReq("/users/" + ToStr(Arg(args, "userId")))) == Value(reply)
    ensures var r := Answer(name, GetDetails, args, call).report;
      (Truthy(Get(reply, "Item")) ==> r == Details(Get(reply, "Item")))
      && (!Truthy(Get(reply, "Item")) && Truthy(reply) ==> r == Details(reply))
      && (!Truthy(reply) ==> r == Message("User not found."))
  {
  }

  /** When every statistic's figure is a number, the total is their integer
      sum, taken over every statistic of the reply. */
  lemma StatisticsTotal(reply: Json, empty: string)
    requires Statistics(reply, empty).Value? && Statistics(reply, empty).value.Totals?
    requires var stats := ItemsOrSelf(reply);
      stats.Arr? && forall i :: 0 <= i < |stats.items| ==> StatCount(stats.items[i]).Num?
    ensures var r := Statistics(reply, empty).value;
      var xs := ItemsOrSelf(reply).items;
      r.rows == xs && r.total == Num(Total(xs, StatCount))
  {
    SumOfNumbers(ItemsOrSelf(reply).items, StatCount, 0);
  }

  /** The grade statistics URL carries a query exactly when a location is given. */
  lemma GradeStatisticsQuery(args: Args)
    ensures '?' in GradeStatisticsPath(args) <==> Truthy(Arg(args, "locationId"))
    ensures Truthy(Arg(args, "locationId")) ==>
      GradeStatisticsPath(args) == GradesPath + "?locationId=" + ToStr(Arg(args, "locationId"))
  {
    assert '?' !in GradesPath;
    if Truthy(Arg(args, "locationId")) {
      var p := GradeStatisticsPath(args);
      assert p[|GradesPath|] == '?';
    }
  }

  /** The quick search sends the query URL-encoded, so it cannot add a
      parameter of its own, and asks for 10 results unless a limit is given. */
  lemma QuickSearchQuery(args: Args)
    ensures var q := EncodeURIComponent(ToStr(Arg(args, "query")));
      QuickSearchPath(args) == "/users/quick?q=" + q + "&limit=" + ToStr(Or(Arg(args, "limit"), Num(10)))
      && '&' !in q && '=' !in q
      && (!Truthy(Arg(args, "limit")) ==> EndsWith(QuickSearchPath(args), "&limit=10"))
  {
    EncodeExcludes(ToStr(Arg(args, "query")), '&');
    EncodeExcludes(ToStr(Arg(args, "query")), '=');
    if !Truthy(Arg(args, "limit")) {
      QuickLimitDefault(EncodeURIComponent(ToStr(Arg(args, "query"))), Arg(args, "limit"));
    }
  }

  /** Without a limit the path ends in the default one. */
  lemma QuickLimitDefault(q: string, limit: Json)
    requires !Truthy(limit)
    ensures EndsWith("/users/quick?q=" + q + "&limit=" + ToStr(Or(limit, Num(10))), "&limit=10")
  {
    var l := Or(limit, Num(10));
    assert l == Num(10);
    assert ToStr(l) == "10" by { assert NatToString(10) == NatToString(1) + [DigitChar(0)]; }
    EndsWithAppended("/users/quick?q=" + q, "&limit=", "10");
  }

  /** A 404 from the current-user endpoint gives the no-context text. */
  lemma CurrentNotFound(args: Args, call: Upstream)
    requires call(GetReq("/users/me")).Throws? && NotFound(call(GetReq("/users/me")).error)
    ensures UserTool("user_get_current", args, call) == Envelope(Message(NoUserContext))
  {
  }
}
