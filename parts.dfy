// The enhanced parts tools: inventory listings grouped by category, part
// searches, suppliers, purchase orders, Chromebook parts, the low-stock
// rule and the part-number look-up, with the module's 404 mapping.
module Parts {
  import opened Text
  import opened Js
  import opened Protocol
  import opened Collections
  import opened Shapes

  /** Every tool the module declares, in declaration order. */
  const PartsToolNames: seq<string> := [
    "parts_get_all", "parts_search", "parts_get_details", "parts_check_stock",
    "parts_get_low_stock", "parts_get_suppliers", "parts_get_supplier_details",
    "parts_get_orders", "parts_get_order_details", "parts_get_pending_orders",
    "parts_get_chromebook_parts", "parts_get_ipad_parts", "parts_get_compatible",
    "parts_record_usage", "parts_get_ticket_parts", "parts_get_common_repairs",
    "parts_get_repair_costs", "parts_get_by_location", "parts_transfer", "parts_find_by_number"]

  /** The names the handler's switch has a case for. */
  const PartsCaseNames: seq<string> := [
    "parts_get_all", "parts_search", "parts_get_suppliers", "parts_get_orders",
    "parts_get_chromebook_parts", "parts_get_low_stock", "parts_find_by_number"]

  datatype Tool = GetAll | Search | Suppliers | Orders | ChromebookParts | LowStockParts | FindByNumber

  /** The case a name selects, if any. */
  function ToolOf(name: string): (t: Option<Tool>)
    ensures t.Some? <==> name in PartsCaseNames
  {
    match name
    case "parts_get_all" => Some(GetAll)
    case "parts_search" => Some(Search)
    case "parts_get_suppliers" => Some(Suppliers)
    case "parts_get_orders" => Some(Orders)
    case "parts_get_chromebook_parts" => Some(ChromebookParts)
    case "parts_get_low_stock" => Some(LowStockParts)
    case "parts_find_by_number" => Some(FindByNumber)
    case _ => None
  }

  function UnknownPartsTool(name: string): string {
    "Error: Unknown enhanced parts tool \"" + name + "\"."
  }

  const DeviceHint := "Device-specific endpoint may not be available. Try using parts_search with deviceType filter instead."
  const PartNotFound := "Part or resource not found."

  // ----- the search payloads -----

  /** The filters `parts_search` may push, in the order it pushes them. */
  const SearchFacets: seq<Facet> :=
    [Facet("Category", "category"), Facet("DeviceType", "deviceType"), Facet("Supplier", "supplierId")]

  /** The `parts_search` payload; `SearchText` is copied as given, even when undefined. */
  function SearchPayload(args: Args): Json {
    FacetSearch(args, SearchFacets, 50)
  }


  /** The one filter `parts_get_chromebook_parts` may push after the fixed one. */
  const ChromebookCategory := Facet("Category", "category")

  /** `` `chromebook ${args.model || ''} ${args.category || ''}`.trim() `` */
  function ChromebookText(args: Args): string {
    Trim("chromebook " + ToStr(Or(Arg(args, "model"), Str(""))) + " " + ToStr(Or(Arg(args, "category"), Str(""))))
  }

  function ChromebookPayload(args: Args): Json {
    Obj(map["OnlyShowDeleted" := Bool(false),
            "FilterByViewPermission" := Bool(false),
            "SearchText" := Str(ChromebookText(args)),
            "Filters" := Arr([SearchFilter("DeviceType", Str("Chromebook"))] + FacetFilters(args, [ChromebookCategory])),
            "Paging" := FixedPage(100)])
  }

  function NumberPayload(args: Args): Json {
    Obj(map["OnlyShowDeleted" := Bool(false),
            "FilterByViewPermission" := Bool(false),
            "SearchText" := Arg(args, "partNumber"),
            "Paging" := FixedPage(10)])
  }

  /** The one request each case sends. */
  function PartsRequest(tool: Tool, args: Args): Request {
    match tool
    case GetAll => GetReq("/parts")
    case Search => PostReq("/parts", SearchPayload(args))
    case Suppliers => GetReq("/parts/suppliers")
    case Orders => GetReq("/purchaseorders")
    case ChromebookParts => PostReq("/parts", ChromebookPayload(args))
    case LowStockParts => GetReq("/parts")
    case FindByNumber => PostReq("/parts", NumberPayload(args))
  }

  // ----- the domain rules -----

  /** `part.Category || part.DeviceType || 'Uncategorized'`, as a property name. */
  function CategoryKey(part: Json): string {
    ToStr(Or(Or(Get(part, "Category"), Get(part, "DeviceType")), Str("Uncategorized")))
  }

  /** `part.Category || 'Other'`, as a property name. */
  function ChromebookKey(part: Json): string {
    ToStr(Or(Get(part, "Category"), Str("Other")))
  }

  /** The low-stock rule: against the reorder point when one is set and the
      stock is known, otherwise against a default threshold of 5. */
  predicate LowStock(part: Json) {
    var reorder, onHand := Get(part, "ReorderPoint"), Get(part, "QuantityOnHand");
    if Truthy(reorder) && !onHand.Undefined? then LessEq(onHand, reorder)
    else !onHand.Undefined? && Less(onHand, Num(5))
  }

  function PreferredSupplier(s: Json): bool {
    Truthy(Get(s, "IsPreferred"))
  }

  /** `o.Status === status` */
  function StatusIs(status: Json): Json -> bool {
    o => StrictEquals(Get(o, "Status"), status)
  }

  /** `order.OrderNumber || order.PurchaseOrderId.substring(0, 8)`: the
      order's number, else the first eight characters of its id; a null
      order, or a missing or non-string id behind a falsy number, throws. */
  function OrderLabel(order: Json): (r: Outcome<Json>)
    ensures r.Value? <==> !order.Null? && !order.Undefined?
                          && (Truthy(Get(order, "OrderNumber")) || Get(order, "PurchaseOrderId").Str?)
    ensures r.Value? && Truthy(Get(order, "OrderNumber")) ==> r.value == Get(order, "OrderNumber")
    ensures r.Value? && !Truthy(Get(order, "OrderNumber")) ==> r.value == Str(Take(Get(order, "PurchaseOrderId").s, 8))
  {
    var number :- Read(order, "OrderNumber");
    if Truthy(number) then Value(number)
    else
      var id := Get(order, "PurchaseOrderId");
      var substring :- Read(id, "substring");
      if id.Str? then Value(Str(Take(id.s, 8)))
      else Throws(NotAFunction("order.PurchaseOrderId.substring"))
  }

  /** The labels of the listed orders, in order; the first order whose label
      throws stops the listing. */
  function OrderLabels(orders: seq<Json>): (r: Outcome<seq<Json>>)
    ensures r.Value? <==> forall i :: 0 <= i < |orders| ==> OrderLabel(orders[i]).Value?
    ensures r.Value? ==> |r.value| == |orders|
                         && forall i :: 0 <= i < |orders| ==> r.value[i] == OrderLabel(orders[i]).value
    decreases |orders|
  {
    if |orders| == 0 then Value([])
    else
      var first :- OrderLabel(orders[0]);
      var rest :- OrderLabels(orders[1..]);
      Value([first] + rest)
  }

  // ----- what each case makes of the reply -----

  function AllParts(reply: Json): Outcome<Report> {
    var parts := ArrayOrItems(reply);
    if NoLength(parts) then Value(Message("No parts found in inventory."))
    else
      var xs :- AsList(parts, "parts.forEach");
      var groups :- CappedGroupsAsWritten(xs, CategoryKey, 5, "Category", "partsByCategory[category].push");
      Value(Grouped(Num(|xs|), groups))
  }

  function SupplierList(args: Args, reply: Json): Outcome<Report> {
    var suppliers := ArrayOrItems(reply);
    if NoLength(suppliers) then Value(Message("No suppliers found."))
    else
      var xs :- AsList(suppliers, if Truthy(Arg(args, "preferred")) then "suppliers.filter" else "filteredSuppliers.map");
      var kept :- if Truthy(Arg(args, "preferred")) then
                    (var ys :- Records(xs, "IsPreferred"); Value(Filter(ys, PreferredSupplier)))
                  else Value(xs);
      var shown :- Records(kept, "Name");
      Value(Listing(Num(|shown|), shown, 0, None))
  }

  function OrderList(args: Args, reply: Json): Outcome<Report> {
    var orders := ArrayOrItems(reply);
    var status := Arg(args, "status");
    if NoLength(orders) then Value(Message("No purchase orders found."))
    else
      var xs :- AsList(orders, if Truthy(status) then "orders.filter" else SliceSite(orders, "filteredOrders", "map"));
      var kept :- if Truthy(status) then
                    (var ys :- Records(xs, "Status"); Value(Filter(ys, StatusIs(status))))
                  else Value(xs);
      var shown := Take(kept, 10);
      var labels :- OrderLabels(shown);
      Value(Listing(Num(|kept|), shown, 0, None))
  }

  function ChromebookList(reply: Json): Outcome<Report> {
    var parts := ItemsOrEmpty(reply);
    if NoLength(parts) then Value(Message("No Chromebook parts found."))
    else
      var xs :- AsList(parts, "chromebookParts.forEach");
      var groups :- CappedGroupsAsWritten(xs, ChromebookKey, |xs|, "Category", "categories[cat].push");
      Value(Grouped(Undefined, groups))
  }

  function LowStockList(reply: Json): Outcome<Report> {
    var xs :- AsList(ArrayOrItems(reply), "allParts.filter");
    var ys :- Records(xs, "ReorderPoint");
    var low := Filter(ys, LowStock);
    if |low| == 0 then Value(Message("No parts are currently low on stock."))
    else Value(Listing(Num(|low|), low, 0, None))
  }

  function NumberReport(args: Args, reply: Json): Outcome<Report> {
    var number := Arg(args, "partNumber");
    var matches :- Matching(reply, "PartNumber", number, "response?.Items?.filter");
    if |matches| == 0 then Value(Message("No part found with number: " + ToStr(number)))
    else Value(Details(matches[0]))
  }

  function Render(tool: Tool, args: Args, reply: Json): Outcome<Report> {
    match tool
    case GetAll => AllParts(reply)
    case Search => TopItems(reply, 10, "No parts found matching your criteria.", "response.Items", "Name")
    case Suppliers => SupplierList(args, reply)
    case Orders => OrderList(args, reply)
    case ChromebookParts => ChromebookList(reply)
    case LowStockParts => LowStockList(reply)
    case FindByNumber => NumberReport(args, reply)
  }

  /** The `catch`: a 404 becomes the device hint for names that mention a
      device and the generic text otherwise; any other error is `Error: <message>`. */
  function PartsCatch(name: string, e: Exception): Report {
    CatchNotFound(e, Contains(name, "chromebook") || Contains(name, "ipad"), DeviceHint, PartNotFound)
  }

  function Answer(name: string, tool: Tool, args: Args, call: Upstream): Envelope {
    match (var reply :- call(PartsRequest(tool, args)); Render(tool, args, reply))
    case Value(report) => Envelope(report)
    case Throws(e) => Envelope(PartsCatch(name, e))
  }

  /** `handleEnhancedPartsTool` */
  function PartsTool(name: string, args: Args, call: Upstream): Envelope {
    match ToolOf(name)
    case None => Envelope(Message(UnknownPartsTool(name)))
    case Some(tool) => Answer(name, tool, args, call)
  }

  // ----- properties -----

  /** A reply that renders without a throw is the answer as it is. */
  lemma Rendered(name: string, tool: Tool, args: Args, call: Upstream, reply: Json)
    requires call(PartsRequest(tool, args)) == Value(reply)
    requires Render(tool, args, reply).Value?
    ensures Answer(name, tool, args, call) == Envelope(Render(tool, args, reply).value)
  {
  }

  /** A reply whose rendering throws is answered by the module's `catch`. */
  lemma RenderFailed(name: string, tool: Tool, args: Args, call: Upstream, reply: Json)
    requires call(PartsRequest(tool, args)) == Value(reply)
    requires Render(tool, args, reply).Throws?
    ensures Answer(name, tool, args, call) == Envelope(PartsCatch(name, Render(tool, args, reply).error))
  {
  }

  /** A name without a case gets the unknown-tool text and sends nothing. */
  lemma UnknownName(name: string, args: Args, call: Upstream)
    requires name !in PartsCaseNames
    ensures PartsTool(name, args, call) == Envelope(Message(UnknownPartsTool(name)))
  {
  }

  /** `parts_get_details` is declared but has no case. */
  lemma DeclaredWithoutCase(args: Args, call: Upstream)
    ensures "parts_get_details" in PartsToolNames
    ensures PartsTool("parts_get_details", args, call) == Envelope(Message(UnknownPartsTool("parts_get_details")))
  {
    assert PartsToolNames[2] == "parts_get_details";
    assert ToolOf("parts_get_details") == None;
  }

  /** An error thrown in a case is mapped by the tool's name: a 404 gives the
      device hint exactly for names mentioning 'chromebook' or 'ipad', and
      the generic text for the others; no other error is mapped. */
  lemma ErrorMapping(name: string, args: Args, call: Upstream)
    requires ToolOf(name).Some?
    requires call(PartsRequest(ToolOf(name).value, args)).Throws?
    ensures var e := call(PartsRequest(ToolOf(name).value, args)).error;
      var r := PartsTool(name, args, call).report;
      (NotFound(e) ==> (r == Message(DeviceHint) <==> Contains(name, "chromebook") || Contains(name, "ipad")))
      && (NotFound(e) ==> (r == Message(PartNotFound) <==> !(Contains(name, "chromebook") || Contains(name, "ipad"))))
      && (!NotFound(e) ==> r == ErrorText(e))
  {
    assert DeviceHint != PartNotFound by {
      assert |DeviceHint| != |PartNotFound|;
    }
  }

  lemma ChromebookNameMentions()
    ensures Contains("parts_get_chromebook_parts", "chromebook")
  {
    assert "parts_get_chromebook_parts" == "parts_get_" + "chromebook" + "_parts";
    ContainsMiddle("parts_get_", "chromebook", "_parts");
  }

  /** A 404 while fetching Chromebook parts gives the device hint. */
  lemma ChromebookNotFound(args: Args, call: Upstream)
    requires call(PartsRequest(ChromebookParts, args)).Throws?
    requires NotFound(call(PartsRequest(ChromebookParts, args)).error)
    ensures PartsTool("parts_get_chromebook_parts", args, call) == Envelope(Message(DeviceHint))
  {
    ChromebookNameMentions();
  }

  /** `parts_search` pushes the Category, DeviceType and Supplier filters in
      that order, each only for a truthy argument, and pages 50 at a time by default. */
  lemma SearchFilters(args: Args)
    ensures var p := SearchPayload(args).fields;
      p["Filters"] == Arr(Pushed(args, Facet("Category", "category"))
                          + Pushed(args, Facet("DeviceType", "deviceType"))
                          + Pushed(args, Facet("Supplier", "supplierId")))
      && p["Paging"] == Paging(args, 50)
      && p["FilterByViewPermission"] == Bool(false)
      && (!Truthy(Arg(args, "includeDeleted")) ==> p["OnlyShowDeleted"] == Bool(false))
  {
    FacetFilters3(args, Facet("Category", "category"), Facet("DeviceType", "deviceType"), Facet("Supplier", "supplierId"));
  }

  /** The declared `locationId` and `lowStock` arguments never reach the payload. */
  lemma SearchIgnores(args: Args, k: string, v: Json)
    requires k == "locationId" || k == "lowStock"
    ensures SearchPayload(args[k := v]) == SearchPayload(args)
  {
    FacetFiltersIgnore(args, SearchFacets, k, v);
    assert forall x :: x != k ==> Arg(args[k := v], x) == Arg(args, x);
    assert Paging(args[k := v], 50) == Paging(args, 50);
  }

  /** The Chromebook search always filters on the Chromebook device type
      first, and adds a Category filter exactly when a category is given. */
  lemma ChromebookFilters(args: Args)
    ensures var fs := ChromebookPayload(args).fields["Filters"].items;
      fs[0] == SearchFilter("DeviceType", Str("Chromebook"))
      && (|fs| == 2 <==> Truthy(Arg(args, "category")))
      && |fs| <= 2
      && (|fs| == 2 ==> fs[1] == SearchFilter("Category", Arg(args, "category")))
  {
    FacetFilters1(args, ChromebookCategory);
  }

  /** With a model and a category given, the search text is the word
      "chromebook" followed by both. */
  lemma ChromebookTextBoth(args: Args, model: string, category: string)
    requires Arg(args, "model") == Str(model) && Arg(args, "category") == Str(category)
    requires |model| > 0 && |category| > 0 && !IsSpace(category[|category| - 1])
    ensures ChromebookText(args) == "chromebook " + model + " " + category
  {
    var s := "chromebook " + model + " " + category;
    assert s[0] == 'c';
    assert s[|s| - 1] == category[|category| - 1];
    TrimClean(s);
  }

  /** With neither given, the surrounding spaces are trimmed off. */
  lemma ChromebookTextBare(args: Args)
    requires !Truthy(Arg(args, "model")) && !Truthy(Arg(args, "category"))
    ensures ChromebookText(args) == "chromebook"
  {
    var w := "chromebook";
    assert ToStr(Or(Arg(args, "model"), Str(""))) == "";
    assert ToStr(Or(Arg(args, "category"), Str(""))) == "";
    assert "chromebook " + "" + " " + "" == w + " " + " ";
    assert w[0] == 'c' && w[|w| - 1] == 'k';
    TrimPadded(w);
  }

  /** On numeric fields the rule compares with the reorder point when that
      is non-zero, and with 5 otherwise. */
  lemma LowStockNumbers(part: Json, onHand: int, reorder: int)
    requires Get(part, "QuantityOnHand") == Num(onHand) && Get(part, "ReorderPoint") == Num(reorder)
    ensures LowStock(part) <==> if reorder != 0 then onHand <= reorder else onHand < 5
  {
    CompareNumbers(onHand, reorder);
    CompareNumbers(onHand, 5);
  }

  /** A part whose stock is unknown is never low on stock. */
  lemma LowStockUnknown(part: Json)
    requires Get(part, "QuantityOnHand").Undefined?
    ensures !LowStock(part)
  {
    CompareUndefined(Num(5));
  }

  /** The low-stock listing is the reply's parts filtered by `LowStock`, in
      reply order and with repeats kept, and its heading counts them. */
  lemma LowStockListed(name: string, call: Upstream, reply: Json, args: Args)
    requires call(GetReq("/parts")) == Value(reply)
    requires Answer(name, LowStockParts, args, call).report.Listing?
    ensures var r := Answer(name, LowStockParts, args, call).report;
      ArrayOrItems(reply).Arr?
      && |r.listed| > 0
      && r.listed == Filter(ArrayOrItems(reply).items, LowStock)
      && (forall p :: p in r.listed <==> p in ArrayOrItems(reply).items && LowStock(p))
      && r.count == Num(|r.listed|)
  {
  }

  /** The part-number look-up reports the first part of the reply whose
      `PartNumber` equals the argument exactly. */
  lemma FindByNumberFirst(args: Args, reply: Json)
    requires NumberReport(args, reply).Value? && NumberReport(args, reply).value.Details?
    ensures Get(reply, "Items").Arr?
    ensures var items := Get(reply, "Items").items;
      var p := NumberReport(args, reply).value.entity;
      exists i :: 0 <= i < |items| && items[i] == p
        && StrictEquals(Get(p, "PartNumber"), Arg(args, "partNumber"))
        && forall j :: 0 <= j < i ==> !StrictEquals(Get(items[j], "PartNumber"), Arg(args, "partNumber"))
  {
    var number := Arg(args, "partNumber");
    var m := Matching(reply, "PartNumber", number, "response?.Items?.filter");
    assert m.Value? && |m.value| > 0;
    MatchingFound(reply, "PartNumber", number, "response?.Items?.filter");
    FilterFirst(Get(reply, "Items").items, FieldIs("PartNumber", number));
  }

  /** When no part matches, the look-up says so and names the number. */
  lemma FindByNumberNone(name: string, args: Args, call: Upstream, reply: Json)
    requires call(PostReq("/parts", NumberPayload(args))) == Value(reply)
    requires var items := Get(reply, "Items");
      items.Null? || items.Undefined?
      || (items.Arr? && forall i :: 0 <= i < |items.items| ==>
            !items.items[i].Null? && !items.items[i].Undefined?
            && !StrictEquals(Get(items.items[i], "PartNumber"), Arg(args, "partNumber")))
    ensures Answer(name, FindByNumber, args, call)
         == Envelope(Message("No part found with number: " + ToStr(Arg(args, "partNumber"))))
  {
    MatchingNone(reply, "PartNumber", Arg(args, "partNumber"), "response?.Items?.filter");
    assert Render(FindByNumber, args, reply) == NumberReport(args, reply);
  }

  /** The inventory listing: one group per key that some part has, in
      `Object.entries` order; each group counts all parts with its key and
      lists the first five of them, and is marked "and N more" exactly when
      it has more than five. A listing is only produced when no part's key is
      one an empty object inherits. */
  lemma AllPartsGroups(reply: Json, i: nat)
    requires AllParts(reply).Value? && AllParts(reply).value.Grouped?
    requires i < |AllParts(reply).value.groups|
    ensures ArrayOrItems(reply).Arr?
    ensures var xs := ArrayOrItems(reply).items;
      var g := AllParts(reply).value.groups[i];
      g.size == |Having(xs, CategoryKey, g.key)| > 0
      && g.listed == Having(xs, CategoryKey, g.key)[..|g.listed|]
      && |g.listed| == Min(5, g.size)
      && (g.unlisted > 0 <==> g.size > 5)
      && forall j :: 0 <= j < |xs| ==> !Inherited(CategoryKey(xs[j]))
  {
    var xs := ArrayOrItems(reply).items;
    CappedGroupAt(xs, CategoryKey, 5, i);
  }

  /** Every key some part has is shown once, and a grouping comes back
      only when no key is a name `{}` inherits. */
  lemma AllPartsKeys(reply: Json, k: string)
    requires AllParts(reply).Value? && AllParts(reply).value.Grouped?
    ensures ArrayOrItems(reply).Arr?
    ensures var xs := ArrayOrItems(reply).items;
      var gs := AllParts(reply).value.groups;
      (|Having(xs, CategoryKey, k)| > 0 <==> exists i :: 0 <= i < |gs| && gs[i].key == k)
      && (forall i, j :: 0 <= i < j < |gs| ==> gs[i].key != gs[j].key)
      && forall j :: 0 <= j < |xs| ==> !Inherited(CategoryKey(xs[j]))
  {
    var xs := ArrayOrItems(reply).items;
    assert AllParts(reply).value.groups == CappedGroups(xs, CategoryKey, 5);
    CappedGroupKeysCover(xs, CategoryKey, 5, k);
    CappedGroupKeysDistinct(xs, CategoryKey, 5);
  }

  /** As written, a part filed under a key that `{}` already inherits, such
      as a `Category` of "constructor", makes the push throw, and the tool
      answers with that TypeError. */
  lemma AllPartsInheritedKey(name: string, args: Args, call: Upstream, xs: seq<Json>, j: nat)
    requires call(PartsRequest(GetAll, args)) == Value(Arr(xs))
    requires forall i :: 0 <= i < |xs| ==> !xs[i].Null? && !xs[i].Undefined?
    requires j < |xs| && Inherited(CategoryKey(xs[j]))
    ensures Answer(name, GetAll, args, call)
         == Envelope(ErrorText(NotAFunction("partsByCategory[category].push")))
  {
    var site := "partsByCategory[category].push";
    assert CappedGroupsAsWritten(xs, CategoryKey, 5, "Category", site) == Throws(NotAFunction(site));
    assert AllParts(Arr(xs)) == Throws(NotAFunction(site));
    RenderFailed(name, GetAll, args, call, Arr(xs));
  }

  /** As written, the parts are filed one after the other, so the first part
      the loop cannot get past decides the answer: a null part throws reading
      its `Category`, a part with an inherited key throws at the push, and
      whatever follows it is never read. */
  lemma AllPartsFirstFailing(name: string, args: Args, call: Upstream, xs: seq<Json>, j: nat)
    requires call(PartsRequest(GetAll, args)) == Value(Arr(xs))
    requires j < |xs| && !Groupable(xs[j], CategoryKey)
    requires forall i :: 0 <= i < j ==> Groupable(xs[i], CategoryKey)
    ensures Answer(name, GetAll, args, call)
         == Envelope(ErrorText(GroupError(xs[j], "Category", "partsByCategory[category].push")))
  {
    var site := "partsByCategory[category].push";
    GroupingStopsAtFirst(xs, CategoryKey, 5, "Category", site, j);
    assert AllParts(Arr(xs)) == Throws(GroupError(xs[j], "Category", site));
    RenderFailed(name, GetAll, args, call, Arr(xs));
  }

  /** A "constructor" part ahead of a null one: the push fails before the
      null part is read. */
  lemma InheritedKeyBeforeNull(name: string, args: Args, call: Upstream)
    requires call(PartsRequest(GetAll, args)) == Value(Arr([Obj(map["Category" := Str("constructor")]), Null]))
    ensures Answer(name, GetAll, args, call)
         == Envelope(ErrorText(NotAFunction("partsByCategory[category].push")))
  {
    var part := Obj(map["Category" := Str("constructor")]);
    assert CategoryKey(part) == "constructor";
    AllPartsFirstFailing(name, args, call, [part, Null], 0);
  }

  /** The supplier list shows every supplier of the reply, or only the
      preferred ones when asked, in reply order, under their number. */
  lemma SuppliersListed(args: Args, reply: Json)
    requires SupplierList(args, reply).Value? && SupplierList(args, reply).value.Listing?
    ensures ArrayOrItems(reply).Arr?
    ensures var xs := ArrayOrItems(reply).items;
      var r := SupplierList(args, reply).value;
      r.listed == (if Truthy(Arg(args, "preferred")) then Filter(xs, PreferredSupplier) else xs)
      && r.count == Num(|r.listed|)
      && forall s :: s in r.listed ==> s in xs && (Truthy(Arg(args, "preferred")) ==> Truthy(Get(s, "IsPreferred")))
  {
    var xs := ArrayOrItems(reply).items;
    if Truthy(Arg(args, "preferred")) {
      assert Records(xs, "IsPreferred") == Value(xs);
    }
  }

  /** The order list shows the first ten orders of the reply, or of those
      with the requested status, under the number of all such orders; it is
      only produced when each shown order has a label. */
  lemma OrdersListed(args: Args, reply: Json)
    requires OrderList(args, reply).Value? && OrderList(args, reply).value.Listing?
    ensures ArrayOrItems(reply).Arr?
    ensures var xs := ArrayOrItems(reply).items;
      var kept := if Truthy(Arg(args, "status")) then Filter(xs, StatusIs(Arg(args, "status"))) else xs;
      var r := OrderList(args, reply).value;
      r.listed == kept[..Min(10, |kept|)]
      && r.count == Num(|kept|)
      && forall i :: 0 <= i < |r.listed| ==> OrderLabel(r.listed[i]).Value?
  {
    var xs := ArrayOrItems(reply).items;
    if Truthy(Arg(args, "status")) {
      assert Records(xs, "Status") == Value(xs);
    }
  }

  /** An order with neither a number nor an id makes the order list throw
      the TypeError of reading `substring` of undefined. */
  lemma OrderWithoutLabel(name: string, args: Args, call: Upstream)
    requires call(PartsRequest(Orders, args)) == Value(Arr([Obj(map["Status" := Str("Open")])]))
    requires !Truthy(Arg(args, "status"))
    ensures Answer(name, Orders, args, call)
         == Envelope(ErrorText(TypeError(ReadError(Undefined, "substring"))))
  {
    var o := Obj(map["Status" := Str("Open")]);
    assert Get(o, "OrderNumber") == Undefined && Get(o, "PurchaseOrderId") == Undefined;
    var e := TypeError(ReadError(Undefined, "substring"));
    assert OrderLabel(o) == Throws(e);
    assert Take([o], 10) == [o];
    assert OrderLabels([o]) == Throws(e);
    assert OrderList(args, Arr([o])) == Throws(e);
    RenderFailed(name, Orders, args, call, Arr([o]));
  }

  /** The Chromebook parts are shown grouped by category, every part of a
      group listed, one group per category some part has; a report comes
      back only when no category is a name the grouping object inherits. */
  lemma ChromebookGroups(reply: Json, i: nat, k: string)
    requires ChromebookList(reply).Value? && ChromebookList(reply).value.Grouped?
    requires i < |ChromebookList(reply).value.groups|
    ensures ItemsOrEmpty(reply).Arr?
    ensures var xs := ItemsOrEmpty(reply).items;
      forall j :: 0 <= j < |xs| ==> !Inherited(ChromebookKey(xs[j]))
    ensures var xs := ItemsOrEmpty(reply).items;
      var gs := ChromebookList(reply).value.groups;
      gs[i].listed == Having(xs, ChromebookKey, gs[i].key) && |gs[i].listed| > 0
      && (|Having(xs, ChromebookKey, k)| > 0 <==> exists m :: 0 <= m < |gs| && gs[m].key == k)
      && forall m, n :: 0 <= m < n < |gs| ==> gs[m].key != gs[n].key
  {
    var xs := ItemsOrEmpty(reply).items;
    assert ChromebookList(reply).value.groups == CappedGroups(xs, ChromebookKey, |xs|);
    CappedGroupAt(xs, ChromebookKey, |xs|, i);
    CappedGroupKeysCover(xs, ChromebookKey, |xs|, k);
    CappedGroupKeysDistinct(xs, ChromebookKey, |xs|);
  }

  /** As written, a Chromebook part whose category is a name the grouping
      object inherits makes the push throw. */
  lemma ChromebookInheritedKey(reply: Json, xs: seq<Json>, j: nat)
    requires ItemsOrEmpty(reply) == Arr(xs)
    requires forall i :: 0 <= i < |xs| ==> !xs[i].Null? && !xs[i].Undefined?
    requires j < |xs| && Inherited(ChromebookKey(xs[j]))
    ensures ChromebookList(reply) == Throws(NotAFunction("categories[cat].push"))
  {
    assert CappedGroupsAsWritten(xs, ChromebookKey, |xs|, "Category", "categories[cat].push").Throws?;
  }

  /** The part search lists at most ten parts, the first of the reply's
      `Items`, and counts the rest. */
  lemma SearchListed(name: string, args: Args, call: Upstream, reply: Json)
    requires call(PostReq("/parts", SearchPayload(args))) == Value(reply)
    requires Answer(name, Search, args, call).report.Listing?
    ensures Get(reply, "Items").Arr?
    ensures var xs := Get(reply, "Items").items;
      var r := Answer(name, Search, args, call).report;
      r.listed == xs[..Min(10, |xs|)]
      && r.more == |xs| - |r.listed|
      && 0 < |r.listed| <= 10
  {
  }
}
