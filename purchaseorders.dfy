// The purchase-order tools: each builds one request from its arguments and
// returns the reply serialized; unknown names throw, and the wrapper turns
// any throw into error text.
module PurchaseOrders {
  import opened Text
  import opened Js
  import opened Protocol
  import opened Shapes

  /** Every tool the module declares; each has a case. */
  const OrderToolNames: seq<string> := [
    "purchaseorder_get_all", "purchaseorder_search", "purchaseorder_get_pending", "purchaseorder_get_approved",
    "purchaseorder_get_completed", "purchaseorder_get", "purchaseorder_get_items", "purchaseorder_get_parts",
    "purchaseorder_get_supplier", "purchaseorder_get_attachments", "purchaseorder_get_history",
    "purchaseorder_get_statuses", "purchaseorder_get_types", "purchaseorder_get_summary"]

  datatype Tool =
    | GetAll | Search
      // the pending, approved and completed lists
    | Queue(state: string)
    | Order
      // a sub-resource of one order
    | OrderPart(suffix: string)
    | Statuses | Types | Summary

  /** The case a name selects, if any. */
  function ToolOf(name: string): (t: Option<Tool>)
    ensures t.Some? <==> name in OrderToolNames
  {
    match name
    case "purchaseorder_get_all" => Some(GetAll)
    case "purchaseorder_search" => Some(Search)
    case "purchaseorder_get_pending" => Some(Queue("pending"))
    case "purchaseorder_get_approved" => Some(Queue("approved"))
    case "purchaseorder_get_completed" => Some(Queue("completed"))
    case "purchaseorder_get" => Some(Order)
    case "purchaseorder_get_items" => Some(OrderPart("items"))
    case "purchaseorder_get_parts" => Some(OrderPart("parts"))
    case "purchaseorder_get_supplier" => Some(OrderPart("supplier"))
    case "purchaseorder_get_attachments" => Some(OrderPart("attachments"))
    case "purchaseorder_get_history" => Some(OrderPart("history"))
    case "purchaseorder_get_statuses" => Some(Statuses)
    case "purchaseorder_get_types" => Some(Types)
    case "purchaseorder_get_summary" => Some(Summary)
    case _ => None
  }

  /** The search payload: both flags false, paging 20 by default, and each
      optional field only when its argument is truthy. */
  function SearchPayload(args: Args): map<string, Json> {
    var base := map["OnlyShowDeleted" := Bool(false), "FilterByViewPermission" := Bool(false),
                    "Paging" := Paging(args, 20)];
    Assigned(Assigned(Assigned(Assigned(base, "SearchText", Arg(args, "searchText")),
                                        "Status", Arg(args, "status")),
                               "DateFrom", Arg(args, "dateFrom")),
             "DateTo", Arg(args, "dateTo"))
  }

  /** The handler's statements: the literal, then four conditional assignments. */
  method BuildSearchPayload(args: Args) returns (payload: map<string, Json>)
    ensures payload == SearchPayload(args)
  {
    payload := map["OnlyShowDeleted" := Bool(false), "FilterByViewPermission" := Bool(false),
                   "Paging" := Paging(args, 20)];
    if Truthy(Arg(args, "searchText")) {
      payload := payload["SearchText" := Arg(args, "searchText")];
    }
    if Truthy(Arg(args, "status")) {
      payload := payload["Status" := Arg(args, "status")];
    }
    if Truthy(Arg(args, "dateFrom")) {
      payload := payload["DateFrom" := Arg(args, "dateFrom")];
    }
    if Truthy(Arg(args, "dateTo")) {
      payload := payload["DateTo" := Arg(args, "dateTo")];
    }
  }

  /** The queue lists: the first page, newest first, 50 by default. */
  function QueueParams(args: Args): map<string, Json> {
    map["$p" := Num(0), "$s" := Or(Arg(args, "pageSize"), Num(50)), "$d" := Str("Descending")]
  }

  function OrderPath(args: Args): string {
    "/purchaseorders/" + ToStr(Arg(args, "purchaseOrderId"))
  }

  /** The one request each case sends. */
  function OrderRequest(tool: Tool, args: Args): Request {
    match tool
    case GetAll =>
      GetWith(if Truthy(Arg(args, "status")) then "/purchaseorders/" + ToStr(Arg(args, "status")) else "/purchaseorders",
              ListParams(args, 100))
    case Search => PostReq("/purchaseorders", Obj(SearchPayload(args)))
    case Queue(state) => GetWith("/purchaseorders/" + state, QueueParams(args))
    case Order => GetReq(OrderPath(args))
    case OrderPart(suffix) => GetReq(OrderPath(args) + "/" + suffix)
    case Statuses => GetReq("/purchaseorders/statuses")
    case Types => GetReq("/purchaseorders/types")
    case Summary => GetWith("/purchaseorders/summary", DateBounds(args))
  }

  function UnknownOrderTool(name: string): Exception {
    Error("Unknown purchase order tool: " + name)
  }

  /** `handleToolCall`: the reply, or a throw for a name without a case. */
  function HandleToolCall(name: string, args: Args, call: Upstream): Outcome<Json> {
    match ToolOf(name)
    case None => Throws(UnknownOrderTool(name))
    case Some(tool) => call(OrderRequest(tool, args))
  }

  /** `handlePurchaseOrderTool` */
  function OrderTool(name: string, args: Args, call: Upstream): Envelope {
    Wrapped(HandleToolCall(name, args, call))
  }

  // ----- properties -----

  /** An unknown name throws before any request, and the wrapper shows the error. */
  lemma UnknownName(name: string, args: Args, call: Upstream)
    requires name !in OrderToolNames
    ensures OrderTool(name, args, call) == Envelope(Message("Error: " + "Unknown purchase order tool: " + name))
  {
  }

  /** A known name sends its one request; the reply comes back serialized
      and an upstream error as error text. */
  lemma Envelopes(name: string, args: Args, call: Upstream)
    requires ToolOf(name).Some?
    ensures var r := call(OrderRequest(ToolOf(name).value, args));
      (r.Value? ==> OrderTool(name, args, call) == Envelope(Serialized(r.value)))
      && (r.Throws? ==> OrderTool(name, args, call) == Envelope(ErrorText(r.error)))
  {
  }

  /** `get_all` goes to the status's list iff a status is given, with the
      list parameters' defaults. */
  lemma GetAllRequest(args: Args)
    ensures var q := OrderRequest(GetAll, args);
      q.verb == GET && q.params == Obj(ListParams(args, 100))
      && (Truthy(Arg(args, "status")) ==> q.path == "/purchaseorders/" + ToStr(Arg(args, "status")))
      && (!Truthy(Arg(args, "status")) ==> q.path == "/purchaseorders")
      && (!Truthy(Arg(args, "pageSize")) ==> ListParams(args, 100)["$s"] == Num(100))
      && (!Truthy(Arg(args, "sortDirection")) ==> ListParams(args, 100)["$d"] == Str("Descending"))
  {
  }

  /** The search always sends both flags as false and a paging block, and
      each optional field exactly when its argument is truthy, unchanged. */
  lemma SearchFields(args: Args)
    ensures var p := SearchPayload(args);
      p["OnlyShowDeleted"] == Bool(false) && p["FilterByViewPermission"] == Bool(false)
      && p["Paging"] == Paging(args, 20)
      && ("SearchText" in p <==> Truthy(Arg(args, "searchText")))
      && ("Status" in p <==> Truthy(Arg(args, "status")))
      && ("DateFrom" in p <==> Truthy(Arg(args, "dateFrom")))
      && ("DateTo" in p <==> Truthy(Arg(args, "dateTo")))
      && ("SearchText" in p ==> p["SearchText"] == Arg(args, "searchText"))
      && ("Status" in p ==> p["Status"] == Arg(args, "status"))
      && ("DateFrom" in p ==> p["DateFrom"] == Arg(args, "dateFrom"))
      && ("DateTo" in p ==> p["DateTo"] == Arg(args, "dateTo"))
      && p.Keys <= {"OnlyShowDeleted", "FilterByViewPermission", "Paging", "SearchText", "Status", "DateFrom", "DateTo"}
  {
  }

  /** The three queues differ only in their path: page 0, newest first,
      `pageSize || 50` records. */
  lemma QueueRequests(name: string, args: Args)
    requires ToolOf(name).Some? && ToolOf(name).value.Queue?
    ensures var q := OrderRequest(ToolOf(name).value, args);
      ToolOf(name).value.state in {"pending", "approved", "completed"}
      && q.path == "/purchaseorders/" + ToolOf(name).value.state
      && q.params == Obj(map["$p" := Num(0), "$s" := Or(Arg(args, "pageSize"), Num(50)), "$d" := Str("Descending")])
  {
  }

  /** Per-order calls go to the order's path followed by the sub-resource. */
  lemma OrderPartPaths(name: string, args: Args)
    requires ToolOf(name).Some? && ToolOf(name).value.OrderPart?
    ensures var t := ToolOf(name).value;
      t.suffix in {"items", "parts", "supplier", "attachments", "history"}
      && OrderRequest(t, args) == GetReq("/purchaseorders/" + ToStr(Arg(args, "purchaseOrderId")) + "/" + t.suffix)
  {
  }

  /** The summary sends only the date bounds that are given. */
  lemma SummaryParams(args: Args)
    ensures var q := OrderRequest(Summary, args);
      q.params.Obj?
      && (forall k :: k in q.params.fields <==> (k == "dateFrom" || k == "dateTo") && Truthy(Arg(args, k)))
  {
    DateBoundsGiven(args);
  }
}
