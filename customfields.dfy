// The enhanced custom-field tools: the field search, the definitions grouped
// by entity type, field types, a ticket's values, the student fields by
// category, the required fields of an entity type and the look-up by name,
// with the module's 404 mapping.
module CustomFields {
  import opened Text
  import opened Js
  import opened Protocol
  import opened Collections
  import opened Shapes

  /** Every tool the module declares, in declaration order. */
  const FieldToolNames: seq<string> := [
    "customfield_search", "customfield_get_all", "customfield_get_details", "customfield_get_types",
    "customfield_get_type_details", "customfield_get_ticket_values", "customfield_get_asset_values",
    "customfield_get_user_values", "customfield_get_location_values", "customfield_get_student_fields",
    "customfield_get_device_fields", "customfield_get_compliance_fields", "customfield_get_required",
    "customfield_get_options", "customfield_validate_value", "customfield_get_by_entity",
    "customfield_search_values", "customfield_find_by_name"]

  /** The names the handler's switch has a case for. */
  const FieldCaseNames: seq<string> := [
    "customfield_search", "customfield_get_all", "customfield_get_types", "customfield_get_ticket_values",
    "customfield_get_student_fields", "customfield_get_required", "customfield_find_by_name"]

  datatype Tool = Search | GetAll | Types | TicketValues | StudentFields | Required | FindByName

  /** The case a name selects, if any. */
  function ToolOf(name: string): (t: Option<Tool>)
    ensures t.Some? <==> name in FieldCaseNames
  {
    match name
    case "customfield_search" => Some(Search)
    case "customfield_get_all" => Some(GetAll)
    case "customfield_get_types" => Some(Types)
    case "customfield_get_ticket_values" => Some(TicketValues)
    case "customfield_get_student_fields" => Some(StudentFields)
    case "customfield_get_required" => Some(Required)
    case "customfield_find_by_name" => Some(FindByName)
    case _ => None
  }

  function UnknownFieldTool(name: string): string {
    "Error: Unknown enhanced custom field tool \"" + name + "\"."
  }

  const K12Hint := "This K-12 specific endpoint may not be available. Try using customfield_search with appropriate filters instead."
  const FieldNotFound := "Custom field or resource not found."

  // ----- payloads -----

  /** EntityType, then FieldType: `isRequired` and `isActive` have no entry. */
  const SearchFacets: seq<Facet> := [Facet("EntityType", "entityType"), Facet("FieldType", "fieldType")]

  /** The `customfield_search` payload. */
  function SearchPayload(args: Args): Json {
    FacetSearch(args, SearchFacets, 50)
  }

  /** The fixed student-field search: user fields matching the student words. */
  const StudentPayload: Json :=
    Obj(map["OnlyShowDeleted" := Bool(false),
            "FilterByViewPermission" := Bool(false),
            "SearchText" := Str("student grade graduation enrollment IEP 504"),
            "Filters" := Arr([SearchFilter("EntityType", Str("User"))]),
            "Paging" := FixedPage(100)])

  /** The required-fields payload: the entity type, whatever it is, and
      `IsRequired` as the text 'true'; no search text. */
  function RequiredPayload(args: Args): Json {
    Obj(map["OnlyShowDeleted" := Bool(false),
            "FilterByViewPermission" := Bool(false),
            "Filters" := Arr([SearchFilter("EntityType", Arg(args, "entityType")), SearchFilter("IsRequired", Str("true"))]),
            "Paging" := FixedPage(100)])
  }

  /** The look-up payload: the field name as search text, ten hits, no filters. */
  function NamePayload(args: Args): Json {
    Obj(map["OnlyShowDeleted" := Bool(false),
            "FilterByViewPermission" := Bool(false),
            "SearchText" := Arg(args, "fieldName"),
            "Paging" := FixedPage(10)])
  }

  function TicketValuesPath(args: Args): string {
    "/custom-fields/values/for/ticket/" + ToStr(Arg(args, "ticketId"))
  }

  // ----- grouping, values and categories -----

  /** `field.EntityTypeId || 'Unknown'`, as a property name. */
  function EntityKey(field: Json): string {
    ToStr(Or(Get(field, "EntityTypeId"), Str("Unknown")))
  }

  /** A value line: the field's id and `DisplayValue || Value`. */
  function ValueLine(v: Json): (Json, Json) {
    (Get(v, "CustomFieldId"), Or(Get(v, "DisplayValue"), Get(v, "Value")))
  }

  const IdentificationField: Json -> bool := f => Mentions(f, "id") || Mentions(f, "number")
  const AcademicField: Json -> bool := f => Mentions(f, "grade") || Mentions(f, "graduation")
  const SpecialField: Json -> bool := f => Mentions(f, "iep") || Mentions(f, "504")
  const GuardianField: Json -> bool := f => Mentions(f, "parent") || Mentions(f, "guardian")

  /** The four categories, each a filter of the student fields, in print order. */
  function StudentSections(ys: seq<Json>): seq<Section> {
    SectionIf("Identification", Filter(ys, IdentificationField))
    + SectionIf("Academic", Filter(ys, AcademicField))
    + SectionIf("Special Education", Filter(ys, SpecialField))
    + SectionIf("Parent/Guardian", Filter(ys, GuardianField))
  }

  /** The case-insensitive name filter. Each field's name is lowercased,
      then the wanted name; either throws when it is not a string, the first
      field first, with the callee the engine names (`f.Name.toLowerCase` or
      `args.fieldName.toLowerCase`), and an empty list throws nothing. */
  function ExactMatches(xs: seq<Json>, wanted: Json): (r: Outcome<seq<Json>>)
    ensures r.Value? <==> |xs| == 0 || (wanted.Str? && forall i :: 0 <= i < |xs| ==> HasName(xs[i]))
    ensures r.Value? && |xs| > 0 ==> forall x :: x in r.value <==> x in xs && LowerName(x) == Lower(wanted.s)
    ensures |xs| > 0 && !HasName(xs[0]) ==> r == Throws(NameError(xs[0], "f.Name.toLowerCase"))
    ensures |xs| > 0 && HasName(xs[0]) && (wanted.Null? || wanted.Undefined?) ==>
      r == Throws(TypeError(ReadError(wanted, "toLowerCase")))
    ensures |xs| > 0 && HasName(xs[0]) && !wanted.Str? && !wanted.Null? && !wanted.Undefined? ==>
      r == Throws(NotAFunction("args.fieldName.toLowerCase"))
    decreases |xs|
  {
    if |xs| == 0 then Value([])
    else
      var name :- Read(xs[0], "Name");
      var a :- LowerOf(name, "f.Name.toLowerCase");
      var b :- LowerOf(wanted, "args.fieldName.toLowerCase");
      var rest :- ExactMatches(xs[1..], wanted);
      Value(if a == b then [xs[0]] + rest else rest)
  }

  // ----- replies -----

  function AllFields(reply: Json): Outcome<Report> {
    var fields := ArrayOrItems(reply);
    if NoLength(fields) then Value(Message("No custom fields defined."))
    else
      var xs :- AsList(fields, "fields.forEach");
      var groups :- CappedGroupsAsWritten(xs, EntityKey, 5, "EntityTypeId", EntitySite);
      Value(Grouped(Num(|xs|), groups))
  }

  const EntitySite := "fieldsByEntity[entity].push"

  /** `SupportedEntities` that is neither missing nor a list has no `join`. */
  predicate NoJoin(t: Json) {
    var e := Get(t, "SupportedEntities");
    !e.Null? && !e.Undefined? && !e.Arr?
  }

  function JoinError(t: Json): Exception {
    NotAFunction("type.SupportedEntities?.join")
  }

  /** The field types, each read for its name and its supported entities. */
  function TypeList(reply: Json): Outcome<Report> {
    var types := ArrayOrItems(reply);
    if NoLength(types) then Value(Message("No custom field types found."))
    else
      var xs :- AsList(types, "types.map");
      var ys :- Walk(xs, "Name", NoJoin, JoinError);
      Value(Listing(Num(|ys|), ys, 0, None))
  }

  function ValueReport(reply: Json): Outcome<Report> {
    var values := ArrayOrItems(reply);
    if NoLength(values) then Value(Message("No custom field values for this ticket."))
    else
      var xs :- AsList(values, "values.map");
      var ys :- Records(xs, "CustomFieldId");
      Value(Counts(Lines(ys, ValueLine)))
  }

  function StudentReport(reply: Json): Outcome<Report> {
    var fields := ItemsOrEmpty(reply);
    if NoLength(fields) then Value(Message("No student-specific custom fields found."))
    else
      var xs :- AsList(fields, "studentFields.filter");
      var ys :- Named(xs, "f.Name.toLowerCase");
      Value(Sectioned(StudentSections(ys)))
  }

  function NoFieldNamed(args: Args): Report {
    Message("No custom field found with name: " + ToStr(Arg(args, "fieldName")))
  }

  /** The first hit, or with `exactMatch` the first hit whose name is the
      wanted one ignoring case. */
  function NameReport(args: Args, reply: Json): Outcome<Report> {
    var fields := ItemsOrEmpty(reply);
    if Truthy(Arg(args, "exactMatch")) then
      var xs :- AsList(fields, "fields.filter");
      var matches :- ExactMatches(xs, Arg(args, "fieldName"));
      if |matches| == 0 then Value(NoFieldNamed(args)) else Value(Details(matches[0]))
    else if NoLength(fields) then Value(NoFieldNamed(args))
    else
      var field := First(fields);
      if field.Null? || field.Undefined? then Throws(TypeError(ReadError(field, "Name")))
      else Value(Details(field))
  }

  // ----- the handler -----

  /** One case inside the handler's `try`: its request and what it makes of the reply. */
  function Run(tool: Tool, args: Args, call: Upstream): Outcome<Report> {
    match tool
    case Search =>
      var reply :- call(PostReq("/custom-fields", SearchPayload(args)));
      TopItems(reply, 10, "No custom fields found matching your criteria.", "response.Items", "Name")
    case GetAll =>
      var reply :- call(GetReq("/custom-fields"));
      AllFields(reply)
    case Types =>
      var reply :- call(GetReq("/custom-fields/types"));
      TypeList(reply)
    case TicketValues =>
      var reply :- call(GetReq(TicketValuesPath(args)));
      ValueReport(reply)
    case StudentFields =>
      var reply :- call(PostReq("/custom-fields", StudentPayload));
      StudentReport(reply)
    case Required =>
      var reply :- call(PostReq("/custom-fields", RequiredPayload(args)));
      WholeList(ItemsOrEmpty(reply), "No required fields for " + ToStr(Arg(args, "entityType")) + ".", "requiredFields.map", "Name")
    case FindByName =>
      var reply :- call(PostReq("/custom-fields", NamePayload(args)));
      NameReport(args, reply)
  }

  function FieldsCatch(name: string, e: Exception): Report {
    CatchNotFound(e, Contains(name, "student") || Contains(name, "device"), K12Hint, FieldNotFound)
  }

  function Answer(name: string, tool: Tool, args: Args, call: Upstream): Envelope {
    match Run(tool, args, call)
    case Value(report) => Envelope(report)
    case Throws(e) => Envelope(FieldsCatch(name, e))
  }

  /** `handleEnhancedCustomFieldTool` */
  function FieldTool(name: string, args: Args, call: Upstream): Envelope {
    match ToolOf(name)
    case None => Envelope(Message(UnknownFieldTool(name)))
    case Some(tool) => Answer(name, tool, args, call)
  }

  // ----- properties -----

  /** A name without a case gets the unknown-tool text and sends nothing. */
  lemma UnknownName(name: string, args: Args, call: Upstream)
    requires name !in FieldCaseNames
    ensures FieldTool(name, args, call) == Envelope(Message(UnknownFieldTool(name)))
  {
  }

  /** `customfield_get_device_fields` is declared, and its name would earn
      the K-12 hint, but it has no case. */
  lemma DeclaredWithoutCase(args: Args, call: Upstream)
    ensures "customfield_get_device_fields" in FieldToolNames
    ensures FieldTool("customfield_get_device_fields", args, call)
      == Envelope(Message(UnknownFieldTool("customfield_get_device_fields")))
  {
    assert FieldToolNames[10] == "customfield_get_device_fields";
    assert ToolOf("customfield_get_device_fields") == None;
  }

  /** A thrown error is mapped by the tool's name: a 404 gives the K-12 hint
      exactly for names mentioning 'student' or 'device' and the generic text
      for the others; no other error is mapped. */
  lemma ErrorMapping(name: string, args: Args, call: Upstream)
    requires ToolOf(name).Some? && Run(ToolOf(name).value, args, call).Throws?
    ensures var e := Run(ToolOf(name).value, args, call).error;
      var r := FieldTool(name, args, call).report;
      var special := Contains(name, "student") || Contains(name, "device");
      (NotFound(e) ==> (r == Message(K12Hint) <==> special))
      && (NotFound(e) ==> (r == Message(FieldNotFound) <==> !special))
      && (!NotFound(e) ==> r == ErrorText(e))
  {
    assert K12Hint != FieldNotFound by {
      assert |K12Hint| != |FieldNotFound|;
    }
  }

  /** The field search pushes EntityType then FieldType, each for a truthy
      argument, and pages 50 at a time by default. */
  lemma SearchFilters(args: Args)
    ensures var p := SearchPayload(args).fields;
      p["Filters"] == Arr(Pushed(args, Facet("EntityType", "entityType")) + Pushed(args, Facet("FieldType", "fieldType")))
      && p["Paging"] == Paging(args, 50)
      && p["FilterByViewPermission"] == Bool(false)
      && (!Truthy(Arg(args, "includeDeleted")) ==> p["OnlyShowDeleted"] == Bool(false))
  {
    FacetFilters2(args, Facet("EntityType", "entityType"), Facet("FieldType", "fieldType"));
  }

  /** `isRequired` and `isActive` are never sent: changing either leaves the payload as it was. */
  lemma SearchIgnores(args: Args, k: string, v: Json)
    requires k == "isRequired" || k == "isActive"
    ensures SearchPayload(args[k := v]) == SearchPayload(args)
  {
    FacetFiltersIgnore(args, SearchFacets, k, v);
    assert Arg(args[k := v], "includeDeleted") == Arg(args, "includeDeleted");
    assert Arg(args[k := v], "searchText") == Arg(args, "searchText");
    assert Arg(args[k := v], "pageIndex") == Arg(args, "pageIndex");
    assert Arg(args[k := v], "pageSize") == Arg(args, "pageSize");
  }

  /** The search lists the first ten fields of `Items` and counts the rest. */
  lemma SearchListed(name: string, args: Args, call: Upstream, reply: Json)
    requires call(PostReq("/custom-fields", SearchPayload(args))) == Value(reply)
    requires Run(Search, args, call).Value? && Run(Search, args, call).value.Listing?
    ensures Get(reply, "Items").Arr?
    ensures var xs := Get(reply, "Items").items;
      var r := Run(Search, args, call).value;
      r.listed == xs[..Min(10, |xs|)] && r.more == |xs| - Min(10, |xs|)
      && Answer(name, Search, args, call).report == r
  {
  }

  /** The definitions: a report comes back only when no field's entity type
      is a name the grouping object inherits, and then there is one group per
      entity type some field has, each counting all its fields and listing
      the first five. */
  lemma EntityGroups(reply: Json, i: nat)
    requires AllFields(reply).Value? && AllFields(reply).value.Grouped?
    requires i < |AllFields(reply).value.groups|
    ensures ArrayOrItems(reply).Arr?
    ensures var xs := ArrayOrItems(reply).items;
      forall j :: 0 <= j < |xs| ==> !Inherited(EntityKey(xs[j]))
    ensures var xs := ArrayOrItems(reply).items;
      var r := AllFields(reply).value;
      var g := r.groups[i];
      r.count == Num(|xs|)
      && g.size == |Having(xs, EntityKey, g.key)| > 0
      && g.listed == Having(xs, EntityKey, g.key)[..|g.listed|]
      && |g.listed| == Min(5, g.size) && (g.unlisted > 0 <==> g.size > 5)
  {
    FieldsGrouped(reply);
    CappedGroupAt(ArrayOrItems(reply).items, EntityKey, 5, i);
  }

  /** Every entity type that some field has gets a group, and only those do. */
  lemma EntityGroupsCover(reply: Json, k: string)
    requires AllFields(reply).Value? && AllFields(reply).value.Grouped?
    ensures ArrayOrItems(reply).Arr?
    ensures var xs := ArrayOrItems(reply).items;
      var gs := AllFields(reply).value.groups;
      (forall j :: 0 <= j < |xs| ==> !Inherited(EntityKey(xs[j])))
      && ((exists f :: f in xs && EntityKey(f) == k) <==> exists i :: 0 <= i < |gs| && gs[i].key == k)
  {
    FieldsGrouped(reply);
    var xs := ArrayOrItems(reply).items;
    CappedGroupKeysCover(xs, EntityKey, 5, k);
    HavingMembers(xs, EntityKey, k);
    if |Having(xs, EntityKey, k)| > 0 {
      assert Having(xs, EntityKey, k)[0] in Having(xs, EntityKey, k);
    }
  }

  /** A grouped definitions report holds the grouping of the reply's fields,
      none of whose entity types is inherited. */
  lemma FieldsGrouped(reply: Json)
    requires AllFields(reply).Value? && AllFields(reply).value.Grouped?
    ensures ArrayOrItems(reply).Arr?
    ensures var xs := ArrayOrItems(reply).items;
      (forall j :: 0 <= j < |xs| ==> !Inherited(EntityKey(xs[j])))
      && AllFields(reply).value == Grouped(Num(|xs|), CappedGroups(xs, EntityKey, 5))
  {
    var xs := ArrayOrItems(reply).items;
    assert CappedGroupsAsWritten(xs, EntityKey, 5, "EntityTypeId", EntitySite).Value?;
  }

  /** As written, a field whose entity type is a name the grouping object
      inherits makes the grouping throw, and the handler answers with the
      error text. */
  lemma EntityInherited(name: string, args: Args, call: Upstream, xs: seq<Json>, j: nat)
    requires call(GetReq("/custom-fields")) == Value(Arr(xs))
    requires forall i :: 0 <= i < |xs| ==> !xs[i].Null? && !xs[i].Undefined?
    requires j < |xs| && Inherited(EntityKey(xs[j]))
    ensures AllFields(Arr(xs)) == Throws(NotAFunction(EntitySite))
    ensures Answer(name, GetAll, args, call) == Envelope(ErrorText(NotAFunction(EntitySite)))
  {
    assert CappedGroupsAsWritten(xs, EntityKey, 5, "EntityTypeId", EntitySite).Throws?;
    assert Run(GetAll, args, call) == Throws(NotAFunction(EntitySite));
  }

  /** Field types are listed whole, and a list comes back only when every
      type's supported entities are missing or a list. */
  lemma TypesListed(reply: Json)
    requires TypeList(reply).Value? && TypeList(reply).value.Listing?
    ensures ArrayOrItems(reply).Arr?
    ensures var xs := ArrayOrItems(reply).items;
      var r := TypeList(reply).value;
      r.listed == xs && r.count == Num(|xs|) && forall t :: t in xs ==> !NoJoin(t)
  {
    var xs := ArrayOrItems(reply).items;
    assert Walk(xs, "Name", NoJoin, JoinError).Value?;
    forall t | t in xs ensures !NoJoin(t) {
      var k :| 0 <= k < |xs| && xs[k] == t;
      assert Passes(xs[k], NoJoin);
    }
  }

  /** As written, a type whose supported entities are neither missing nor a
      list throws when they are joined. */
  lemma TypeWithoutJoin(t: Json)
    requires t.Obj? && NoJoin(t)
    ensures TypeList(Arr([t])) == Throws(NotAFunction("type.SupportedEntities?.join"))
  {
    assert Walk([t], "Name", NoJoin, JoinError) == Throws(JoinError(t));
  }



  /** A ticket's values: one line per value, showing `DisplayValue` when it
      is truthy and `Value` otherwise. */
  lemma TicketValueLines(reply: Json)
    requires ValueReport(reply).Value? && ValueReport(reply).value.Counts?
    ensures ArrayOrItems(reply).Arr?
    ensures var xs := ArrayOrItems(reply).items;
      var ls := ValueReport(reply).value.lines;
      |ls| == |xs|
      && forall i :: 0 <= i < |xs| ==>
           ls[i].0 == Get(xs[i], "CustomFieldId")
           && (Truthy(Get(xs[i], "DisplayValue")) ==> ls[i].1 == Get(xs[i], "DisplayValue"))
           && (!Truthy(Get(xs[i], "DisplayValue")) ==> ls[i].1 == Get(xs[i], "Value"))
  {
  }

  /** The student categories: a field is listed under each category whose
      words its lowercased name has, so it may be under several or none. */
  lemma StudentCategories(ys: seq<Json>, f: Json)
    requires f in ys
    ensures f in Filter(ys, IdentificationField) <==> Mentions(f, "id") || Mentions(f, "number")
    ensures f in Filter(ys, AcademicField) <==> Mentions(f, "grade") || Mentions(f, "graduation")
    ensures f in Filter(ys, SpecialField) <==> Mentions(f, "iep") || Mentions(f, "504")
    ensures f in Filter(ys, GuardianField) <==> Mentions(f, "parent") || Mentions(f, "guardian")
  {
  }

  /** A field listed in the student report is in a category its name
      names, and only non-empty categories are printed. */
  lemma StudentShown(ys: seq<Json>, i: nat, f: Json)
    requires i < |StudentSections(ys)| && f in StudentSections(ys)[i].items
    ensures f in ys
    ensures |StudentSections(ys)| <= 4 && |StudentSections(ys)[i].items| > 0
    ensures IdentificationField(f) || AcademicField(f) || SpecialField(f) || GuardianField(f)
  {
    var a := SectionIf("Identification", Filter(ys, IdentificationField));
    var b := SectionIf("Academic", Filter(ys, AcademicField));
    var c := SectionIf("Special Education", Filter(ys, SpecialField));
    var d := SectionIf("Parent/Guardian", Filter(ys, GuardianField));
    var ss := a + b + c + d;
    assert StudentSections(ys) == ss;
    if i < |a| { assert ss[i] == a[i]; }
    else if i < |a| + |b| { assert ss[i] == b[i - |a|]; }
    else if i < |a| + |b| + |c| { assert ss[i] == c[i - |a| - |b|]; }
    else { assert ss[i] == d[i - |a| - |b| - |c|]; }
  }

  /** A field whose name has none of the category words is in no section. */
  lemma StudentUncategorised(ys: seq<Json>, f: Json)
    requires !IdentificationField(f) && !AcademicField(f) && !SpecialField(f) && !GuardianField(f)
    ensures forall i :: 0 <= i < |StudentSections(ys)| ==> f !in StudentSections(ys)[i].items
  {
    forall i | 0 <= i < |StudentSections(ys)| ensures f !in StudentSections(ys)[i].items {
      if f in StudentSections(ys)[i].items {
        StudentShown(ys, i, f);
      }
    }
  }

  /** The required-fields query has exactly the EntityType filter and then
      `IsRequired = 'true'`, a fixed page of 100 and no search text. */
  lemma RequiredFilters(args: Args)
    ensures var p := RequiredPayload(args).fields;
      p["Filters"].Arr? && |p["Filters"].items| == 2
      && p["Filters"].items[0] == SearchFilter("EntityType", Arg(args, "entityType"))
      && p["Filters"].items[1] == SearchFilter("IsRequired", Str("true"))
      && p["Paging"] == Obj(map["PageIndex" := Num(0), "PageSize" := Num(100)])
      && "SearchText" !in p
  {
  }

  /** One step of the name filter: the first field is kept exactly when its
      name matches, ahead of what the rest keeps. */
  lemma ExactStep(xs: seq<Json>, wanted: string)
    requires |xs| > 0 && ExactMatches(xs, Str(wanted)).Value?
    ensures ExactMatches(xs[1..], Str(wanted)).Value?
    ensures var rest := ExactMatches(xs[1..], Str(wanted)).value;
      ExactMatches(xs, Str(wanted)).value == if LowerName(xs[0]) == Lower(wanted) then [xs[0]] + rest else rest
  {
    assert HasName(xs[0]);
  }

  /** With `exactMatch`, the field found is the first hit whose name equals
      the wanted one ignoring case; with no such hit the not-found text is given. */
  lemma {:induction false} ExactFirst(xs: seq<Json>, wanted: string)
    requires ExactMatches(xs, Str(wanted)).Value?
    ensures var ms := ExactMatches(xs, Str(wanted)).value;
      (|ms| == 0 <==> forall j :: 0 <= j < |xs| ==> LowerName(xs[j]) != Lower(wanted))
      && (|ms| > 0 ==> exists k :: 0 <= k < |xs| && ms[0] == xs[k] && LowerName(xs[k]) == Lower(wanted)
                        && forall j :: 0 <= j < k ==> LowerName(xs[j]) != Lower(wanted))
    decreases |xs|
  {
    if |xs| > 0 {
      ExactStep(xs, wanted);
      ExactFirst(xs[1..], wanted);
      var ms := ExactMatches(xs, Str(wanted)).value;
      var rest := ExactMatches(xs[1..], Str(wanted)).value;
      if LowerName(xs[0]) == Lower(wanted) {
        assert ms[0] == xs[0];
      } else {
        FirstHitShift(xs, wanted, rest);
      }
    }
  }

  /** The first-hit property of a list's tail carries over to the list when
      its head is not a hit. */
  lemma FirstHitShift(xs: seq<Json>, wanted: string, rest: seq<Json>)
    requires |xs| > 0 && LowerName(xs[0]) != Lower(wanted)
    requires |rest| == 0 <==> forall j :: 0 <= j < |xs[1..]| ==> LowerName(xs[1..][j]) != Lower(wanted)
    requires |rest| > 0 ==> exists k :: 0 <= k < |xs[1..]| && rest[0] == xs[1..][k] && LowerName(xs[1..][k]) == Lower(wanted)
                              && forall j :: 0 <= j < k ==> LowerName(xs[1..][j]) != Lower(wanted)
    ensures |rest| == 0 <==> forall j :: 0 <= j < |xs| ==> LowerName(xs[j]) != Lower(wanted)
    ensures |rest| > 0 ==> exists k :: 0 <= k < |xs| && rest[0] == xs[k] && LowerName(xs[k]) == Lower(wanted)
                             && forall j :: 0 <= j < k ==> LowerName(xs[j]) != Lower(wanted)
  {
    if |rest| > 0 {
      var k :| 0 <= k < |xs[1..]| && rest[0] == xs[1..][k] && LowerName(xs[1..][k]) == Lower(wanted)
               && forall j :: 0 <= j < k ==> LowerName(xs[1..][j]) != Lower(wanted);
      forall j | 0 <= j < k + 1 ensures LowerName(xs[j]) != Lower(wanted) {
        if j > 0 { assert xs[j] == xs[1..][j - 1]; }
      }
      assert rest[0] == xs[k + 1];
    } else {
      forall j | 0 <= j < |xs| ensures LowerName(xs[j]) != Lower(wanted) {
        if j > 0 { assert xs[j] == xs[1..][j - 1]; }
      }
    }
  }

  /** Without `exactMatch`, the first hit of a non-empty list is reported,
      whatever its name. */
  lemma FirstHit(args: Args, reply: Json)
    requires !Truthy(Arg(args, "exactMatch"))
    requires ItemsOrEmpty(reply).Arr? && |ItemsOrEmpty(reply).items| > 0
    requires !ItemsOrEmpty(reply).items[0].Null? && !ItemsOrEmpty(reply).items[0].Undefined?
    ensures NameReport(args, reply) == Value(Details(ItemsOrEmpty(reply).items[0]))
  {
  }

  /** With `exactMatch` and no hits the not-found text is given, even when
      the wanted name is not a string. */
  lemma ExactNoHits(args: Args, reply: Json)
    requires Truthy(Arg(args, "exactMatch")) && ItemsOrEmpty(reply) == Arr([])
    ensures NameReport(args, reply) == Value(NoFieldNamed(args))
  {
  }
}
