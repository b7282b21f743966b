// The enhanced issue tools: site issues and issue types grouped by
// category, the issue-type search, classroom technology and student device
// issues, common issues and the keyword look-up, with the module's 404 mapping.
module Issues {
  import opened Text
  import opened Js
  import opened Protocol
  import opened Collections
  import opened Shapes

  /** Every tool the module declares, in declaration order. */
  const IssueToolNames: seq<string> := [
    "issues_get_site_issues", "issues_get_types", "issues_search_types", "issues_get_type_details",
    "issues_get_categories", "issues_get_category_hierarchy", "issues_get_common_categories",
    "issues_get_priorities", "issues_get_priority_sla", "issues_get_classroom_tech",
    "issues_get_student_devices", "issues_get_chromebook_issues", "issues_get_network_issues",
    "issues_get_parent_portal", "issues_get_templates", "issues_get_common_issues",
    "issues_get_by_building", "issues_get_recurring", "issues_get_seasonal", "issues_find_by_keyword"]

  /** The names the handler's switch has a case for. */
  const IssueCaseNames: seq<string> := [
    "issues_get_site_issues", "issues_get_types", "issues_search_types", "issues_get_classroom_tech",
    "issues_get_student_devices", "issues_get_common_issues", "issues_find_by_keyword"]

  datatype Tool = SiteIssues | Types | SearchTypes | ClassroomTech | StudentDevices | CommonIssues | FindByKeyword

  /** The case a name selects, if any. */
  function ToolOf(name: string): (t: Option<Tool>)
    ensures t.Some? <==> name in IssueCaseNames
  {
    match name
    case "issues_get_site_issues" => Some(SiteIssues)
    case "issues_get_types" => Some(Types)
    case "issues_search_types" => Some(SearchTypes)
    case "issues_get_classroom_tech" => Some(ClassroomTech)
    case "issues_get_student_devices" => Some(StudentDevices)
    case "issues_get_common_issues" => Some(CommonIssues)
    case "issues_find_by_keyword" => Some(FindByKeyword)
    case _ => None
  }

  function UnknownIssuesTool(name: string): string {
    "Error: Unknown enhanced issues tool \"" + name + "\"."
  }

  const K12Hint := "This K-12 specific endpoint may not be available. Try using issues_search_types with appropriate filters instead."
  const IssueNotFound := "Issue or resource not found."

  // ----- grouping and the scope filter -----

  /** `issue.Category || issue.Scope || 'Uncategorized'`, as a property name. */
  function SiteKey(issue: Json): string {
    ToStr(Or(Or(Get(issue, "Category"), Get(issue, "Scope")), Str("Uncategorized")))
  }

  /** `type.Category || 'General'`, as a property name. */
  function TypeCategoryKey(t: Json): string {
    ToStr(Or(Get(t, "Category"), Str("General")))
  }

  /** The scope filter applies for a given scope other than 'All'. */
  predicate ScopeApplies(args: Args) {
    Truthy(Arg(args, "scope")) && !StrictEquals(Arg(args, "scope"), Str("All"))
  }

  // ----- the issue-type search -----

  const SearchFacets: seq<Facet> := [Facet("Scope", "scope"), Facet("Category", "category")]

  /** The `issues_search_types` payload. */
  function SearchPayload(args: Args): Json {
    FacetSearch(args, SearchFacets, 50)
  }


  // ----- classroom technology -----

  /** A term group is searched for unless its flag is exactly `false`. */
  predicate Included(args: Args, flag: string) {
    !StrictEquals(Arg(args, flag), Bool(false))
  }

  /** The term groups searched for, in order. */
  function ClassroomTerms(args: Args): seq<string> {
    (if Included(args, "includeProjector") then ["projector"] else [])
    + (if Included(args, "includeBoard") then ["board interactive smartboard"] else [])
    + (if Included(args, "includeAudio") then ["audio microphone speaker"] else [])
  }

  /** The handler's construction: an empty list and three conditional pushes. */
  method CollectTerms(args: Args) returns (terms: seq<string>)
    ensures terms == ClassroomTerms(args)
  {
    terms := [];
    if Included(args, "includeProjector") {
      terms := terms + ["projector"];
    }
    if Included(args, "includeBoard") {
      terms := terms + ["board interactive smartboard"];
    }
    if Included(args, "includeAudio") {
      terms := terms + ["audio microphone speaker"];
    }
  }

  function ClassroomPayload(args: Args): Json {
    Obj(map["OnlyShowDeleted" := Bool(false),
            "FilterByViewPermission" := Bool(false),
            "SearchText" := Str(Join(ClassroomTerms(args), " ")),
            "Filters" := Arr([SearchFilter("Category", Str("Classroom"))]),
            "Paging" := FixedPage(100)])
  }

  const ProjectorIssue: Json -> bool := x => Mentions(x, "projector")
  const BoardIssue: Json -> bool := x => Mentions(x, "board") || Mentions(x, "smart")
  const AudioIssue: Json -> bool := x => Mentions(x, "audio") || Mentions(x, "sound")
  /** Everything not named for a projector, a board or audio; "smart" and
      "sound" are not excluded. */
  const OtherIssue: Json -> bool := x => !Mentions(x, "projector") && !Mentions(x, "board") && !Mentions(x, "audio")

  /** The four categories, each a filter of the issues; at most five others are listed. */
  function ClassroomSections(ys: seq<Json>): seq<Section> {
    SectionIf("Projector Issues", Filter(ys, ProjectorIssue))
    + SectionIf("Interactive Board Issues", Filter(ys, BoardIssue))
    + SectionIf("Audio System Issues", Filter(ys, AudioIssue))
    + SectionIf("Other Classroom Issues", Take(Filter(ys, OtherIssue), 5))
  }

  function ClassroomReport(reply: Json): Outcome<Report> {
    var issues := ItemsOrEmpty(reply);
    if NoLength(issues) then Value(Message("No classroom technology issues found."))
    else
      var xs :- AsList(issues, "classroomIssues.filter");
      var ys :- Named(xs, "i.Name.toLowerCase");
      Value(Sectioned(ClassroomSections(ys)))
  }

  // ----- student devices -----

  /** The device words searched for: the lowercased device type, unless none
      or 'All' is given. */
  function DeviceSearchText(args: Args): Outcome<string> {
    var d := Arg(args, "deviceType");
    if Truthy(d) && !StrictEquals(d, Str("All")) then LowerOf(d, "args.deviceType.toLowerCase") else Value("chromebook ipad laptop hotspot device")
  }

  function DevicePayload(text: string): Json {
    Obj(map["OnlyShowDeleted" := Bool(false),
            "FilterByViewPermission" := Bool(false),
            "SearchText" := Str("student " + text),
            "Paging" := FixedPage(100)])
  }

  /** The device a lowercased issue name is about: the first of the four
      device words it mentions, or 'Other'. */
  function DeviceOf(name: string): string {
    if Contains(name, "chromebook") then "Chromebook"
    else if Contains(name, "ipad") then "iPad"
    else if Contains(name, "laptop") then "Laptop"
    else if Contains(name, "hotspot") then "Hotspot"
    else "Other"
  }

  function DeviceKey(x: Json): string {
    DeviceOf(LowerName(x))
  }

  function DeviceGroups(reply: Json): Outcome<Report> {
    var issues := ItemsOrEmpty(reply);
    if NoLength(issues) then Value(Message("No student device issues found."))
    else
      var xs :- AsList(issues, "deviceIssues.forEach");
      var ys :- Named(xs, "issue.Name.toLowerCase");
      Value(Grouped(Num(|ys|), CappedGroups(ys, DeviceKey, 5)))
  }

  // ----- common issues -----

  /** The fixed list shown when the API has no common issues. */
  const CommonFallback :=
    "Common K-12 Issues (Based on Patterns):\n\n"
    + "Password Reset:\n  • Student password reset\n  • Parent portal password\n  • Staff account locked\n\n"
    + "Device Issues:\n  • Chromebook won't turn on\n  • Broken screen\n  • Lost charger\n  • Keyboard not working\n\n"
    + "Network Problems:\n  • Can't connect to WiFi\n  • Internet is slow\n  • Blocked website\n\n"
    + "Classroom Technology:\n  • Projector not working\n  • No sound from speakers\n  • Interactive board frozen\n\n"
    + "Account Access:\n  • Can't login to Google\n  • Missing from class roster\n  • Parent can't see grades"

  /** The `Steps` of an issue's resolution. */
  function Steps(issue: Json): Json {
    Get(Get(issue, "Resolution"), "Steps")
  }

  /** A truthy `Resolution` without `Steps`: indexing them throws. */
  predicate NoSteps(issue: Json) {
    Truthy(Get(issue, "Resolution")) && (Steps(issue).Null? || Steps(issue).Undefined?)
  }

  function StepsError(issue: Json): Exception {
    TypeError(ReadError(Steps(issue), "0"))
  }

  function CommonReport(args: Args, reply: Json): Outcome<Report> {
    var issues := ArrayOrItems(reply);
    if NoLength(issues) then Value(Message(CommonFallback))
    else
      var xs :- AsList(issues, if issues.Str? then "limitedIssues.map" else "commonIssues.slice");
      var shown :- Walk(xs[..SliceEnd(|xs|, Or(Arg(args, "limit"), Num(10)))], "Name", NoSteps, StepsError);
      Value(Listing(Num(|shown|), shown, 0, None))
  }

  // ----- the keyword look-up -----

  /** The fixed keyword table. */
  const KeywordTable: map<string, seq<string>> := map[
    "password" := ["Password Reset", "Account Locked", "Can't Login"],
    "chromebook" := ["Chromebook Won't Turn On", "Broken Screen", "Keyboard Issue"],
    "wifi" := ["Can't Connect to WiFi", "WiFi Slow", "Network Error"],
    "projector" := ["Projector No Display", "No Signal", "Remote Not Working"],
    "printer" := ["Can't Print", "Paper Jam", "Out of Toner"],
    "google" := ["Google Login Failed", "Google Drive Full", "Classroom Sync"],
    "parent" := ["Parent Portal Access", "Parent Can't Login", "Missing Student"],
    "screen" := ["Broken Screen", "Screen Flickering", "Touch Not Working"],
    "sound" := ["No Audio", "Microphone Not Working", "Speaker Issues"],
    "charger" := ["Lost Charger", "Charger Not Working", "Wrong Charger"]]

  /** `keywordMap[keyword] || [...]` as written: a key the object literal
      inherits from `Object.prototype` yields a function or an object instead
      of a list, and the `map` over it throws. */
  function RelatedAsWritten(keyword: string, original: Json): Outcome<seq<string>> {
    if keyword in KeywordTable then Value(KeywordTable[keyword])
    else if Inherited(keyword) then Throws(NotAFunction("relatedIssues.map"))
    else Value([ToStr(original) + " Issue"])
  }

  /** The table's entries for a keyword it has, and otherwise a single entry
      naming the keyword as the caller wrote it. */
  function Related(keyword: string, original: Json): (r: seq<string>)
    ensures keyword in KeywordTable ==> |r| == 3
    ensures keyword !in KeywordTable ==> |r| == 1 && r[0] == ToStr(original) + " Issue"
  {
    if keyword in KeywordTable then KeywordTable[keyword] else [ToStr(original) + " Issue"]
  }

  function Strs(ss: seq<string>): (r: seq<Json>)
    ensures |r| == |ss| && forall i :: 0 <= i < |ss| ==> r[i] == Str(ss[i])
  {
    seq(|ss|, i requires 0 <= i < |ss| => Str(ss[i]))
  }

  /** The look-up: the lowercased keyword against the table; a keyword that
      is not a string throws before anything is looked up, and one the table
      inherits throws when its entry is mapped. */
  function KeywordReport(args: Args): Outcome<Report> {
    var keyword := Arg(args, "keyword");
    var k :- LowerOf(keyword, "args.keyword.toLowerCase");
    var related :- RelatedAsWritten(k, keyword);
    Value(Listing(keyword, Strs(related), 0, None))
  }

  // ----- the handler -----

  /** The types the scope filter keeps. */
  function KeptTypes(args: Args, xs: seq<Json>): (r: seq<Json>)
    ensures forall t :: t in r <==> t in xs && (ScopeApplies(args) ==> StrictEquals(Get(t, "Scope"), Arg(args, "scope")))
  {
    if ScopeApplies(args) then Filter(xs, FieldIs("Scope", Arg(args, "scope"))) else xs
  }

  function TypeGroups(args: Args, reply: Json): Outcome<Report> {
    var types := ArrayOrItems(reply);
    if NoLength(types) then Value(Message("No issue types found."))
    else
      var xs :- AsList(types, if ScopeApplies(args) then "types.filter" else "filteredTypes.forEach");
      var ys :- if ScopeApplies(args) then Records(xs, "Scope") else Value(xs);
      var zs := KeptTypes(args, ys);
      var groups :- CappedGroupsAsWritten(zs, TypeCategoryKey, |zs|, "Category", TypeSite);
      Value(Grouped(Num(|zs|), groups))
  }

  const TypeSite := "typesByCategory[category].push"
  const SiteSite := "issuesByCategory[category].push"

  /** A truthy `Description` that is not a string has no `substring`. */
  predicate NoExcerpt(issue: Json) {
    Truthy(Get(issue, "Description")) && !Get(issue, "Description").Str?
  }

  function ExcerptError(issue: Json): Exception {
    NotAFunction("issue.Description.substring")
  }

  /** The issues listed under the groups, group after group. */
  function ListedOf(gs: seq<Shown>): seq<Json>
    decreases |gs|
  {
    if |gs| == 0 then [] else gs[0].listed + ListedOf(gs[1..])
  }

  /** The issues of the concatenation are exactly those listed under some group. */
  lemma {:induction false} ListedOfMembers(gs: seq<Shown>)
    ensures forall i, x :: 0 <= i < |gs| && x in gs[i].listed ==> x in ListedOf(gs)
    ensures forall x :: x in ListedOf(gs) ==> exists i :: 0 <= i < |gs| && x in gs[i].listed
    decreases |gs|
  {
    if |gs| > 0 {
      ListedOfMembers(gs[1..]);
      assert ListedOf(gs) == gs[0].listed + ListedOf(gs[1..]);
      forall i, x | 0 <= i < |gs| && x in gs[i].listed ensures x in ListedOf(gs) {
        if i > 0 {
          assert gs[i] == gs[1..][i - 1];
        }
      }
      forall x | x in ListedOf(gs) ensures exists i :: 0 <= i < |gs| && x in gs[i].listed {
        if x !in gs[0].listed {
          var i :| 0 <= i < |gs[1..]| && x in gs[1..][i].listed;
          assert gs[i + 1] == gs[1..][i];
        }
      }
    }
  }

  function SiteIssueGroups(reply: Json): Outcome<Report> {
    var issues := ArrayOrItems(reply);
    if NoLength(issues) then Value(Message("No issues found for this site."))
    else
      var xs :- AsList(issues, "issues.forEach");
      SiteGrouped(xs)
  }

  /** The grouping of the site's issues and the walk over those it lists. */
  function SiteGrouped(ys: seq<Json>): Outcome<Report> {
    var groups :- CappedGroupsAsWritten(ys, SiteKey, 5, "Category", SiteSite);
    var listed :- Walk(ListedOf(groups), "Name", NoExcerpt, ExcerptError);
    Value(Grouped(Num(|ys|), groups))
  }

  /** One case inside the handler's `try`: its requests and what it makes of the replies. */
  function Run(tool: Tool, args: Args, call: Upstream): Outcome<Report> {
    match tool
    case SiteIssues =>
      var reply :- call(GetReq("/issues/site"));
      SiteIssueGroups(reply)
    case Types =>
      var reply :- call(GetReq("/issues/types"));
      TypeGroups(args, reply)
    case SearchTypes =>
      var reply :- call(PostReq("/issues/types", SearchPayload(args)));
      TopItems(reply, 10, "No issue types found matching your criteria.", "response.Items", "Name")
    case ClassroomTech =>
      var reply :- call(PostReq("/issues/types", ClassroomPayload(args)));
      ClassroomReport(reply)
    case StudentDevices =>
      var text :- DeviceSearchText(args);
      var reply :- call(PostReq("/issues/types", DevicePayload(text)));
      DeviceGroups(reply)
    case CommonIssues =>
      var reply :- call(GetReq("/issues/common"));
      CommonReport(args, reply)
    case FindByKeyword => KeywordReport(args)
  }

  function IssuesCatch(name: string, e: Exception): Report {
    CatchNotFound(e, Contains(name, "classroom") || Contains(name, "student"), K12Hint, IssueNotFound)
  }

  function Answer(name: string, tool: Tool, args: Args, call: Upstream): Envelope {
    match Run(tool, args, call)
    case Value(report) => Envelope(report)
    case Throws(e) => Envelope(IssuesCatch(name, e))
  }

  /** `handleEnhancedIssuesTool` */
  function IssuesTool(name: string, args: Args, call: Upstream): Envelope {
    match ToolOf(name)
    case None => Envelope(Message(UnknownIssuesTool(name)))
    case Some(tool) => Answer(name, tool, args, call)
  }

  // ----- properties -----

  /** A name without a case gets the unknown-tool text and sends nothing. */
  lemma UnknownName(name: string, args: Args, call: Upstream)
    requires name !in IssueCaseNames
    ensures IssuesTool(name, args, call) == Envelope(Message(UnknownIssuesTool(name)))
  {
  }

  /** `issues_get_type_details` is declared but has no case. */
  lemma DeclaredWithoutCase(args: Args, call: Upstream)
    ensures "issues_get_type_details" in IssueToolNames
    ensures IssuesTool("issues_get_type_details", args, call) == Envelope(Message(UnknownIssuesTool("issues_get_type_details")))
  {
    assert IssueToolNames[3] == "issues_get_type_details";
    assert ToolOf("issues_get_type_details") == None;
  }

  /** A thrown error is mapped by the tool's name: a 404 gives the K-12 hint
      exactly for names mentioning 'classroom' or 'student' and the generic
      text for the others; no other error is mapped. */
  lemma ErrorMapping(name: string, args: Args, call: Upstream)
    requires ToolOf(name).Some? && Run(ToolOf(name).value, args, call).Throws?
    ensures var e := Run(ToolOf(name).value, args, call).error;
      var r := IssuesTool(name, args, call).report;
      (NotFound(e) ==> (r == Message(K12Hint) <==> Contains(name, "classroom") || Contains(name, "student")))
      && (NotFound(e) ==> (r == Message(IssueNotFound) <==> !(Contains(name, "classroom") || Contains(name, "student"))))
      && (!NotFound(e) ==> r == ErrorText(e))
  {
    var e := Run(ToolOf(name).value, args, call).error;
    assert IssuesTool(name, args, call) == Envelope(IssuesCatch(name, e));
    assert K12Hint != IssueNotFound by {
      assert |K12Hint| != |IssueNotFound|;
    }
  }

  /** The type search uses `includeDeleted || false`, pushes a Scope filter
      then a Category filter for truthy arguments, and pages 50 at a time by default. */
  lemma SearchFilters(args: Args)
    ensures var p := SearchPayload(args).fields;
      p["Filters"] == Arr(Pushed(args, Facet("Scope", "scope")) + Pushed(args, Facet("Category", "category")))
      && p["Paging"] == Paging(args, 50)
      && (!Truthy(Arg(args, "includeDeleted")) ==> p["OnlyShowDeleted"] == Bool(false))
      && (Truthy(Arg(args, "includeDeleted")) ==> p["OnlyShowDeleted"] == Arg(args, "includeDeleted"))
  {
    FacetFilters2(args, Facet("Scope", "scope"), Facet("Category", "category"));
  }

  /** Site issues: a report comes back only when no issue's key is a name
      the grouping object inherits and no listed issue has a description
      without `substring`; then there is one group per key some issue has,
      each counting all its issues and listing the first five. */
  lemma SiteGroups(reply: Json, count: Json, gs: seq<Shown>, i: nat)
    requires SiteIssueGroups(reply) == Value(Grouped(count, gs)) && i < |gs|
    ensures ArrayOrItems(reply).Arr?
    ensures var xs := ArrayOrItems(reply).items;
      forall j :: 0 <= j < |xs| ==> !Inherited(SiteKey(xs[j]))
    ensures var xs := ArrayOrItems(reply).items;
      var g := gs[i];
      count == Num(|xs|)
      && g.size == |Having(xs, SiteKey, g.key)| > 0
      && g.listed == Having(xs, SiteKey, g.key)[..|g.listed|]
      && |g.listed| == Min(5, g.size) && (g.unlisted > 0 <==> g.size > 5)
      && forall x :: x in g.listed ==> !NoExcerpt(x)
  {
    SiteReport(reply, count, gs);
    SiteGroupAt(ArrayOrItems(reply).items, gs, i);
  }

  /** What a grouped site report says about the reply: its issues, their
      keys, the groups and the walk over the listed ones. */
  lemma SiteReport(reply: Json, count: Json, gs: seq<Shown>)
    requires SiteIssueGroups(reply) == Value(Grouped(count, gs))
    ensures ArrayOrItems(reply).Arr?
    ensures var xs := ArrayOrItems(reply).items;
      (forall j :: 0 <= j < |xs| ==> !Inherited(SiteKey(xs[j])))
      && count == Num(|xs|) && gs == CappedGroups(xs, SiteKey, 5)
      && Walk(ListedOf(gs), "Name", NoExcerpt, ExcerptError).Value?
  {
    SiteSucceeded(reply);
    SiteSteps(reply, ArrayOrItems(reply).items);
  }

  /** A group of the site's issues once the walk over the listed ones came back. */
  lemma SiteGroupAt(xs: seq<Json>, gs: seq<Shown>, i: nat)
    requires gs == CappedGroups(xs, SiteKey, 5) && i < |gs|
    requires Walk(ListedOf(gs), "Name", NoExcerpt, ExcerptError).Value?
    ensures var g := gs[i];
      g.size == |Having(xs, SiteKey, g.key)| > 0
      && g.listed == Having(xs, SiteKey, g.key)[..|g.listed|]
      && |g.listed| == Min(5, g.size) && (g.unlisted > 0 <==> g.size > 5)
      && forall x :: x in g.listed ==> !NoExcerpt(x)
  {
    ExcerptsShown(gs, i);
    CappedGroupAt(xs, SiteKey, 5, i);
  }

  /** When the walk over the listed issues comes back, no listed issue has a
      description without `substring`. */
  lemma ExcerptsShown(gs: seq<Shown>, i: nat)
    requires Walk(ListedOf(gs), "Name", NoExcerpt, ExcerptError).Value? && i < |gs|
    ensures forall x :: x in gs[i].listed ==> !NoExcerpt(x)
  {
    var listed := ListedOf(gs);
    ListedOfMembers(gs);
    forall x | x in gs[i].listed ensures !NoExcerpt(x) {
      assert x in listed;
      WalkedPasses(listed, x);
    }
  }

  lemma WalkedPasses(listed: seq<Json>, x: Json)
    requires Walk(listed, "Name", NoExcerpt, ExcerptError).Value? && x in listed
    ensures !NoExcerpt(x)
  {
    var k :| 0 <= k < |listed| && listed[k] == x;
    assert Passes(listed[k], NoExcerpt);
  }

  /** What a site report that comes back says about the reply. */
  lemma SiteSucceeded(reply: Json)
    requires SiteIssueGroups(reply).Value? && SiteIssueGroups(reply).value.Grouped?
    ensures ArrayOrItems(reply).Arr? && |ArrayOrItems(reply).items| > 0
    ensures var xs := ArrayOrItems(reply).items;
      (forall j :: 0 <= j < |xs| ==> !xs[j].Null? && !xs[j].Undefined?)
      && forall j :: 0 <= j < |xs| ==> !Inherited(SiteKey(xs[j]))
  {
    var xs := ArrayOrItems(reply).items;
    assert CappedGroupsAsWritten(xs, SiteKey, 5, "Category", SiteSite).Value?;
  }

  /** The site report of non-null issues none of whose keys is inherited:
      the groups, unless a listed issue throws. */
  lemma SiteSteps(reply: Json, xs: seq<Json>)
    requires ArrayOrItems(reply) == Arr(xs)
    requires |xs| > 0 && forall j :: 0 <= j < |xs| ==> !xs[j].Null? && !xs[j].Undefined?
    requires forall j :: 0 <= j < |xs| ==> !Inherited(SiteKey(xs[j]))
    ensures var gs := CappedGroups(xs, SiteKey, 5);
      var w := Walk(ListedOf(gs), "Name", NoExcerpt, ExcerptError);
      SiteIssueGroups(reply) == if w.Throws? then Throws(w.error) else Value(Grouped(Num(|xs|), gs))
  {
    assert SiteIssueGroups(reply) == SiteGrouped(xs);
    assert CappedGroupsAsWritten(xs, SiteKey, 5, "Category", SiteSite) == Value(CappedGroups(xs, SiteKey, 5));
  }

  /** As written, an issue whose category is a name the grouping object
      inherits makes the grouping throw, and the handler answers with the
      error text. */
  lemma SiteInheritedCategory(name: string, args: Args, call: Upstream, xs: seq<Json>, j: nat)
    requires call(GetReq("/issues/site")) == Value(Arr(xs))
    requires forall i :: 0 <= i < |xs| ==> !xs[i].Null? && !xs[i].Undefined?
    requires j < |xs| && Inherited(SiteKey(xs[j]))
    ensures SiteIssueGroups(Arr(xs)) == Throws(NotAFunction(SiteSite))
    ensures Answer(name, SiteIssues, args, call) == Envelope(ErrorText(NotAFunction(SiteSite)))
  {
    var e := NotAFunction(SiteSite);
    SiteGroupingThrows(xs, j);
    assert Run(SiteIssues, args, call) == Throws(e);
    RunFailed(name, SiteIssues, args, call);
    assert !NotFound(e);
  }

  lemma SiteGroupingThrows(xs: seq<Json>, j: nat)
    requires forall i :: 0 <= i < |xs| ==> !xs[i].Null? && !xs[i].Undefined?
    requires j < |xs| && Inherited(SiteKey(xs[j]))
    ensures SiteIssueGroups(Arr(xs)) == Throws(NotAFunction(SiteSite))
  {
    assert CappedGroupsAsWritten(xs, SiteKey, 5, "Category", SiteSite).Throws?;
  }

  lemma TypeGroupingThrows(args: Args, xs: seq<Json>, j: nat)
    requires !ScopeApplies(args)
    requires forall i :: 0 <= i < |xs| ==> !xs[i].Null? && !xs[i].Undefined?
    requires j < |xs| && Inherited(TypeCategoryKey(xs[j]))
    ensures TypeGroups(args, Arr(xs)) == Throws(NotAFunction(TypeSite))
  {
    assert KeptTypes(args, xs) == xs;
    assert CappedGroupsAsWritten(xs, TypeCategoryKey, |xs|, "Category", TypeSite).Throws?;
  }

  /** The handler's answer to a case that throws is the catch block's. */
  lemma RunFailed(name: string, tool: Tool, args: Args, call: Upstream)
    requires Run(tool, args, call).Throws?
    ensures Answer(name, tool, args, call) == Envelope(IssuesCatch(name, Run(tool, args, call).error))
  {
  }

  /** As written, a single issue whose description is truthy but not a
      string makes the listing throw when `substring` is called on it. */
  lemma SiteExcerptMissing(x: Json)
    requires x.Obj? && NoExcerpt(x) && !Inherited(SiteKey(x))
    ensures SiteIssueGroups(Arr([x])) == Throws(NotAFunction("issue.Description.substring"))
  {
    var xs := [x];
    SiteSteps(Arr(xs), xs);
    var listed := ListedOf(CappedGroups(xs, SiteKey, 5));
    SingleListed(x);
    var w := Walk(listed, "Name", NoExcerpt, ExcerptError);
    assert w.Throws? by {
      var k :| 0 <= k < |listed| && listed[k] == x;
      assert !Passes(listed[k], NoExcerpt);
    }
    var m :| 0 <= m < |listed| && !Passes(listed[m], NoExcerpt) && w.error == WalkError(listed[m], "Name", ExcerptError);
    assert listed[m].Obj? by {
      assert listed[m] in listed;
    }
  }

  /** A single issue is listed under its own group and nothing else is. */
  lemma SingleListed(x: Json)
    ensures var listed := ListedOf(CappedGroups([x], SiteKey, 5));
      x in listed && forall y :: y in listed ==> y == x
  {
    var gs := CappedGroups([x], SiteKey, 5);
    ListedOfMembers(gs);
    var i := SingleGroup(x);
    assert x in gs[i].listed;
    forall y | y in ListedOf(gs) ensures y == x {
      var n :| 0 <= n < |gs| && y in gs[n].listed;
      SingleGroupListed(x, n, y);
    }
  }

  /** The group of a single issue lists it. */
  lemma SingleGroup(x: Json) returns (i: nat)
    ensures var gs := CappedGroups([x], SiteKey, 5);
      i < |gs| && x in gs[i].listed
  {
    var xs := [x];
    var gs := CappedGroups(xs, SiteKey, 5);
    assert Having(xs, SiteKey, SiteKey(x)) == [x];
    CappedGroupKeysCover(xs, SiteKey, 5, SiteKey(x));
    i :| 0 <= i < |gs| && gs[i].key == SiteKey(x);
    CappedGroupAt(xs, SiteKey, 5, i);
  }

  /** Whatever a group of a single issue lists is that issue. */
  lemma SingleGroupListed(x: Json, n: nat, y: Json)
    requires var gs := CappedGroups([x], SiteKey, 5);
      n < |gs| && y in gs[n].listed
    ensures y == x
  {
    CappedGroupAt([x], SiteKey, 5, n);
  }

  /** Issue types: a report comes back only when no kept type's category is
      a name the grouping object inherits, and then it groups the kept types
      by category, listing all of each group. */
  lemma TypeGroupsShape(args: Args, reply: Json)
    requires TypeGroups(args, reply).Value? && TypeGroups(args, reply).value.Grouped?
    ensures var kept := KeptTypes(args, ArrayOrItems(reply).items);
      ArrayOrItems(reply).Arr?
      && (forall j :: 0 <= j < |kept| ==> !Inherited(TypeCategoryKey(kept[j])))
      && TypeGroups(args, reply).value == Grouped(Num(|kept|), CappedGroups(kept, TypeCategoryKey, |kept|))
  {
    var types := ArrayOrItems(reply);
    assert !NoLength(types);
    var site := if ScopeApplies(args) then "types.filter" else "filteredTypes.forEach";
    assert AsList(types, site).Value?;
    var xs := types.items;
    var ys := if ScopeApplies(args) then Records(xs, "Scope") else Value(xs);
    assert ys.Value? && ys.value == xs;
    var zs := KeptTypes(args, xs);
    assert CappedGroupsAsWritten(zs, TypeCategoryKey, |zs|, "Category", TypeSite).Value?;
  }

  /** As written, with no scope filter, a type whose category is a name the
      grouping object inherits makes the grouping throw, and the handler
      answers with the error text. */
  lemma TypeInheritedCategory(name: string, args: Args, call: Upstream, xs: seq<Json>, j: nat)
    requires call(GetReq("/issues/types")) == Value(Arr(xs)) && !ScopeApplies(args)
    requires forall i :: 0 <= i < |xs| ==> !xs[i].Null? && !xs[i].Undefined?
    requires j < |xs| && Inherited(TypeCategoryKey(xs[j]))
    ensures TypeGroups(args, Arr(xs)) == Throws(NotAFunction(TypeSite))
    ensures Answer(name, Types, args, call) == Envelope(ErrorText(NotAFunction(TypeSite)))
  {
    var e := NotAFunction(TypeSite);
    TypeGroupingThrows(args, xs, j);
    assert Run(Types, args, call) == Throws(e);
    RunFailed(name, Types, args, call);
    assert !NotFound(e);
  }

  /** Issue types: one group per category among the types the scope filter
      keeps, each listing all of them, and none of those categories a name
      the grouping object inherits; with a scope other than 'All', every type
      listed has that scope. */
  lemma TypeScopeFilter(args: Args, reply: Json, i: nat)
    requires TypeGroups(args, reply).Value? && TypeGroups(args, reply).value.Grouped?
    requires i < |TypeGroups(args, reply).value.groups|
    ensures var kept := KeptTypes(args, ArrayOrItems(reply).items);
      var g := TypeGroups(args, reply).value.groups[i];
      TypeGroups(args, reply).value.count == Num(|kept|)
      && (forall j :: 0 <= j < |kept| ==> !Inherited(TypeCategoryKey(kept[j])))
      && g.listed == Having(kept, TypeCategoryKey, g.key)
      && forall t :: t in g.listed ==>
           t in ArrayOrItems(reply).items && TypeCategoryKey(t) == g.key
           && (ScopeApplies(args) ==> StrictEquals(Get(t, "Scope"), Arg(args, "scope")))
  {
    TypeGroupsShape(args, reply);
    var kept := KeptTypes(args, ArrayOrItems(reply).items);
    CappedGroupAt(kept, TypeCategoryKey, |kept|, i);
    HavingMembers(kept, TypeCategoryKey, TypeGroups(args, reply).value.groups[i].key);
  }

  /** Each term group is searched for unless its flag is exactly false, and
      without any flags all three are, joined by spaces. */
  lemma ClassroomSearchText(args: Args)
    ensures "projector" in ClassroomTerms(args) <==> Included(args, "includeProjector")
    ensures "board interactive smartboard" in ClassroomTerms(args) <==> Included(args, "includeBoard")
    ensures "audio microphone speaker" in ClassroomTerms(args) <==> Included(args, "includeAudio")
    ensures Included(args, "includeProjector") && Included(args, "includeBoard") && Included(args, "includeAudio") ==>
      ClassroomPayload(args).fields["SearchText"] == Str("projector" + " " + "board interactive smartboard" + " " + "audio microphone speaker")
  {
    var all := ["projector", "board interactive smartboard", "audio microphone speaker"];
    if Included(args, "includeProjector") && Included(args, "includeBoard") && Included(args, "includeAudio") {
      assert ClassroomTerms(args) == all;
      assert all[1..][1..] == ["audio microphone speaker"];
      assert Join(all[1..], " ") == "board interactive smartboard" + " " + "audio microphone speaker";
      assert Join(all, " ") == "projector" + " " + Join(all[1..], " ");
    }
  }

  /** Each classroom section holds exactly the issues of its category, in
      reply order; an issue lands in every category whose words its name
      has, so a "smart" device that is not a board is in both the board and
      the other section. */
  lemma ClassroomCategories(ys: seq<Json>, x: Json)
    requires x in ys
    ensures x in Filter(ys, ProjectorIssue) <==> Mentions(x, "projector")
    ensures x in Filter(ys, BoardIssue) <==> Mentions(x, "board") || Mentions(x, "smart")
    ensures x in Filter(ys, AudioIssue) <==> Mentions(x, "audio") || Mentions(x, "sound")
    ensures x in Filter(ys, OtherIssue) <==> !Mentions(x, "projector") && !Mentions(x, "board") && !Mentions(x, "audio")
    ensures Mentions(x, "smart") && !Mentions(x, "board") && !Mentions(x, "projector") && !Mentions(x, "audio") ==>
      x in Filter(ys, BoardIssue) && x in Filter(ys, OtherIssue)
  {
  }

  /** The classroom report prints only non-empty sections and at most five
      other issues. */
  lemma ClassroomShown(ys: seq<Json>)
    ensures var ss := ClassroomSections(ys);
      |ss| <= 4 && forall i :: 0 <= i < |ss| ==> |ss[i].items| > 0
    ensures var ss := ClassroomSections(ys);
      |ss| > 0 && ss[|ss| - 1].title == "Other Classroom Issues" ==> |ss[|ss| - 1].items| <= 5
  {
    var other := Take(Filter(ys, OtherIssue), 5);
    FourSections(Filter(ys, ProjectorIssue), Filter(ys, BoardIssue), Filter(ys, AudioIssue), other);
  }

  /** The section layout of the classroom report, for any four item lists. */
  lemma FourSections(pa: seq<Json>, pb: seq<Json>, pc: seq<Json>, pd: seq<Json>)
    requires |pd| <= 5
    ensures var ss := SectionIf("Projector Issues", pa) + SectionIf("Interactive Board Issues", pb)
                      + SectionIf("Audio System Issues", pc) + SectionIf("Other Classroom Issues", pd);
      |ss| <= 4 && (forall i :: 0 <= i < |ss| ==> |ss[i].items| > 0)
      && (|ss| > 0 && ss[|ss| - 1].title == "Other Classroom Issues" ==> |ss[|ss| - 1].items| <= 5)
  {
    var a := SectionIf("Projector Issues", pa);
    var b := SectionIf("Interactive Board Issues", pb);
    var c := SectionIf("Audio System Issues", pc);
    var d := SectionIf("Other Classroom Issues", pd);
    var ss := a + b + c + d;
    forall i | 0 <= i < |ss| ensures |ss[i].items| > 0 {
      if i < |a| { assert ss[i] == a[i]; }
      else if i < |a| + |b| { assert ss[i] == b[i - |a|]; }
      else if i < |a| + |b| + |c| { assert ss[i] == c[i - |a| - |b|]; }
      else { assert ss[i] == d[i - |a| - |b| - |c|]; }
    }
    if |ss| > 0 && ss[|ss| - 1].title == "Other Classroom Issues" {
      if |d| > 0 {
        assert ss[|ss| - 1] == d[0];
      }
    }
  }

  /** Device classification is first-match in the order Chromebook, iPad,
      Laptop, Hotspot, and 'Other' when none of the words occurs. */
  lemma DeviceFirstMatch(name: string)
    ensures DeviceOf(name) in {"Chromebook", "iPad", "Laptop", "Hotspot", "Other"}
    ensures DeviceOf(name) == "Chromebook" <==> Contains(name, "chromebook")
    ensures DeviceOf(name) == "iPad" <==> !Contains(name, "chromebook") && Contains(name, "ipad")
    ensures DeviceOf(name) == "Laptop" <==>
      !Contains(name, "chromebook") && !Contains(name, "ipad") && Contains(name, "laptop")
    ensures DeviceOf(name) == "Hotspot" <==>
      !Contains(name, "chromebook") && !Contains(name, "ipad") && !Contains(name, "laptop") && Contains(name, "hotspot")
    ensures DeviceOf(name) == "Other" <==>
      !Contains(name, "chromebook") && !Contains(name, "ipad") && !Contains(name, "laptop") && !Contains(name, "hotspot")
  {
  }

  /** A device type other than 'All' is searched for lowercased; none, or
      'All', searches for every device word. */
  lemma DeviceSearch(args: Args, d: string)
    requires Arg(args, "deviceType") == Str(d)
    ensures d != "" && d != "All" ==> DeviceSearchText(args) == Value(Lower(d))
    ensures d == "All" ==> DeviceSearchText(args) == Value("chromebook ipad laptop hotspot device")
  {
  }

  /** A truthy device type that is not a string cannot be lowercased. */
  lemma DeviceNotText(args: Args)
    requires Truthy(Arg(args, "deviceType")) && !Arg(args, "deviceType").Str?
    ensures DeviceSearchText(args) == Throws(NotAFunction("args.deviceType.toLowerCase"))
  {
  }

  /** Student device issues: one group per device some issue is about, in
      first-seen order, at most five listed each. */
  lemma DeviceGroupsShown(reply: Json, i: nat)
    requires DeviceGroups(reply).Value? && DeviceGroups(reply).value.Grouped?
    requires i < |DeviceGroups(reply).value.groups|
    ensures ItemsOrEmpty(reply).Arr?
    ensures var xs := ItemsOrEmpty(reply).items;
      var g := DeviceGroups(reply).value.groups[i];
      g.size == |Having(xs, DeviceKey, g.key)| > 0
      && |g.listed| == Min(5, g.size)
      && g.key in {"Chromebook", "iPad", "Laptop", "Hotspot", "Other"}
  {
    var xs := ItemsOrEmpty(reply).items;
    CappedGroupAt(xs, DeviceKey, 5, i);
    var g := DeviceGroups(reply).value.groups[i];
    HavingMembers(xs, DeviceKey, g.key);
    var x := Having(xs, DeviceKey, g.key)[0];
    assert DeviceKey(x) == g.key;
    DeviceFirstMatch(LowerName(x));
  }

  /** Common issues are listed up to the limit, 10 by default, and a list
      comes back only when none of them has a truthy resolution without steps. */
  lemma CommonListed(args: Args, reply: Json)
    requires CommonReport(args, reply).Value? && CommonReport(args, reply).value.Listing?
    ensures ArrayOrItems(reply).Arr?
    ensures var xs := ArrayOrItems(reply).items;
      var r := CommonReport(args, reply).value;
      r.listed == xs[..SliceEnd(|xs|, Or(Arg(args, "limit"), Num(10)))]
      && (!Truthy(Arg(args, "limit")) ==> r.listed == xs[..Min(10, |xs|)])
      && forall x :: x in r.listed ==> !NoSteps(x)
  {
    var xs := ArrayOrItems(reply).items;
    var shown := xs[..SliceEnd(|xs|, Or(Arg(args, "limit"), Num(10)))];
    assert Walk(shown, "Name", NoSteps, StepsError).Value?;
    forall x | x in shown ensures !NoSteps(x) {
      var k :| 0 <= k < |shown| && shown[k] == x;
      assert Passes(shown[k], NoSteps);
    }
  }

  /** Common issues that are neither empty nor a list throw where the engine
      first misses a method: `slice` on an object, or `map` on the string a
      string's `slice` returns. */
  lemma CommonNotList(args: Args, reply: Json)
    requires var issues := ArrayOrItems(reply); !NoLength(issues) && !issues.Arr?
    ensures var issues := ArrayOrItems(reply);
      CommonReport(args, reply) == Throws(NotAFunction(if issues.Str? then "limitedIssues.map" else "commonIssues.slice"))
  {
  }

  /** As written, a shown issue whose resolution is truthy but has no steps
      throws when the first step is read. */
  lemma CommonStepsMissing(args: Args, x: Json)
    requires x.Obj? && NoSteps(x) && !Truthy(Arg(args, "limit"))
    ensures CommonReport(args, Arr([x])) == Throws(TypeError(ReadError(Steps(x), "0")))
  {
    assert [x][..SliceEnd(1, Num(10))] == [x];
  }

  /** The look-up ignores the keyword's case when it is in the table. */
  lemma KeywordHit(args: Args, s: string)
    requires Arg(args, "keyword") == Str(s) && Lower(s) in KeywordTable
    ensures KeywordReport(args) == Value(Listing(Str(s), Strs(KeywordTable[Lower(s)]), 0, None))
  {
  }

  /** A keyword outside the table gives one entry naming it as written, in
      its own case, unless the table inherits it, when the look-up throws. */
  lemma KeywordMiss(args: Args, s: string)
    requires Arg(args, "keyword") == Str(s) && Lower(s) !in KeywordTable
    ensures !Inherited(Lower(s)) ==> KeywordReport(args) == Value(Listing(Str(s), [Str(s + " Issue")], 0, None))
    ensures Inherited(Lower(s)) ==> KeywordReport(args) == Throws(NotAFunction("relatedIssues.map"))
  {
    assert Strs([s + " Issue"]) == [Str(s + " Issue")];
  }

  /** A missing or non-string keyword throws before any look-up, and the
      error is not a 404: a missing one cannot have `toLowerCase` read off it,
      and any other is reported as `args.keyword.toLowerCase is not a function`. */
  lemma KeywordNotText(name: string, args: Args, call: Upstream)
    requires !Arg(args, "keyword").Str?
    ensures var k := Arg(args, "keyword");
      (k.Null? || k.Undefined?) ==> KeywordReport(args) == Throws(TypeError(ReadError(k, "toLowerCase")))
    ensures var k := Arg(args, "keyword");
      !k.Null? && !k.Undefined? ==> KeywordReport(args) == Throws(NotAFunction("args.keyword.toLowerCase"))
    ensures Answer(name, FindByKeyword, args, call) == Envelope(ErrorText(KeywordReport(args).error))
  {
  }

  /** As written, "constructor" finds the inherited constructor instead of a
      list and the look-up throws; the own-property look-up gives the
      single fallback entry. */
  lemma RelatedAsWrittenInherited()
    ensures RelatedAsWritten("constructor", Str("constructor")) == Throws(NotAFunction("relatedIssues.map"))
    ensures Related("constructor", Str("constructor")) == ["constructor" + " Issue"]
  {
    assert "constructor" !in KeywordTable;
    assert Inherited("constructor");
  }

  /** Away from inherited names the two look-ups agree. */
  lemma RelatedAgrees(keyword: string, original: Json)
    requires !Inherited(keyword) || keyword in KeywordTable
    ensures RelatedAsWritten(keyword, original) == Value(Related(keyword, original))
  {
  }
}
