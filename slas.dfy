// The service-level tools: the configured agreements, the metrics and their
// types, and one ticket's agreement status, each as a plain object built
// from one client getter; an unknown name throws.
module Slas {
  import opened Text
  import opened Js
  import opened Protocol
  import opened Shapes
  import opened Client

  /** Every tool the module declares; each has a case. */
  const SlaToolNames: seq<string> := ["sla_list", "sla_get_metrics", "sla_get_metric_types", "sla_get_ticket_status"]

  datatype Tool = List | Metrics | MetricTypes | TicketStatus

  /** The case a name selects, if any. */
  function ToolOf(name: string): (t: Option<Tool>)
    ensures t.Some? <==> name in SlaToolNames
  {
    match name
    case "sla_list" => Some(List)
    case "sla_get_metrics" => Some(Metrics)
    case "sla_get_metric_types" => Some(MetricTypes)
    case "sla_get_ticket_status" => Some(TicketStatus)
    case _ => None
  }

  /** `listSLAs`: an empty result in place of a falsy or zero-length list,
      otherwise the list itself with its length. */
  function SlaList(slas: Json): Json {
    if Empty(slas) then
      Obj(map["message" := Str("No SLAs configured in the system"), "count" := Num(0), "slas" := Arr([])])
    else
      Obj(map["count" := Length(slas), "slas" := slas, "message" := Str("Retrieved configured SLAs")])
  }

  /** `getMetrics`: the list with its length, whatever it holds. */
  function MetricList(metrics: Json): Json {
    Obj(map["count" := Length(metrics), "metrics" := metrics,
            "message" := Str(if Less(Num(0), Length(metrics)) then "Retrieved SLA metrics" else "No SLA metrics found")])
  }

  /** `t.Name || t.MetricTypeName` */
  function TypeName(t: Json): Json {
    Or(Get(t, "Name"), Get(t, "MetricTypeName"))
  }

  /** `getMetricTypes`: the list, its length and each type's name, in order. */
  function TypeList(types: Json): Outcome<Json> {
    var names :- Formatted(types, "types.map", TypeName, "Name");
    Value(Obj(map["count" := Length(types), "types" := types, "available_types" := Arr(names),
                  "message" := Str("Retrieved SLA metric types")]))
  }

  /** `getTicketSLA` once the status is read: a falsy status means no agreement. */
  function TicketSla(id: Json, status: Json): Json {
    if !Truthy(status) then
      Obj(map["ticket_id" := id, "has_sla" := Bool(false), "message" := Str("No SLA assigned to this ticket")])
    else
      Obj(map["ticket_id" := id, "has_sla" := Bool(true), "sla_status" := status,
              "message" := Str("Retrieved ticket SLA status")])
  }

  function Run(tool: Tool, args: Args, call: Upstream): Outcome<Json> {
    match tool
    case List =>
      var slas :- Invoke(SLAs, call);
      Value(SlaList(slas))
    case Metrics =>
      var metrics :- Invoke(SLAMetrics, call);
      Value(MetricList(metrics))
    case MetricTypes =>
      var types :- Invoke(SLAMetricTypes, call);
      TypeList(types)
    case TicketStatus =>
      var id := Arg(args, "ticket_id");
      if !Truthy(id) then Throws(Error("ticket_id is required"))
      else
        var status :- Invoke(TicketSLA(id), call);
        Value(TicketSla(id, status))
  }

  /** `handleToolCall` */
  function HandleToolCall(name: string, args: Args, call: Upstream): Outcome<Json> {
    match ToolOf(name)
    case None => Throws(Error("Unknown tool: " + name))
    case Some(tool) => Run(tool, args, call)
  }

  // ----- properties -----

  /** A name without a case throws before any request. */
  lemma UnknownName(name: string, args: Args, call: Upstream)
    requires name !in SlaToolNames
    ensures HandleToolCall(name, args, call) == Throws(Error("Unknown tool: " + name))
  {
  }

  /** No agreements (a null reply list or an empty one) gives count 0, an
      empty list and the "none configured" message; a non-empty list is
      returned as it came with its length. */
  lemma ListReport(slas: Json)
    ensures var f := SlaList(slas).fields;
      (Empty(slas) <==> f["message"] == Str("No SLAs configured in the system"))
      && (Empty(slas) ==> f["count"] == Num(0) && f["slas"] == Arr([]))
      && (!Empty(slas) ==> f["slas"] == slas && f["count"] == Length(slas))
    ensures slas.Arr? ==> SlaList(slas).fields["count"] == Num(|slas.items|)
    ensures slas.Null? ==> SlaList(slas).fields["count"] == Num(0)
  {
    assert "No SLAs configured in the system"[0] != "Retrieved configured SLAs"[0];
  }

  /** The metrics list is returned unchanged with its length, and the message
      says whether there were any. */
  lemma MetricsReport(xs: seq<Json>)
    ensures var f := MetricList(Arr(xs)).fields;
      f["count"] == Num(|xs|) && f["metrics"] == Arr(xs)
      && (f["message"] == Str("Retrieved SLA metrics") <==> |xs| > 0)
  {
    assert "Retrieved SLA metrics"[0] != "No SLA metrics found"[0];
  }

  /** The metric types: `available_types` names each type in order, its
      `Name` or else its `MetricTypeName`; a non-list throws a TypeError. */
  lemma TypeNames(types: Json)
    ensures !types.Arr? ==> TypeList(types).Throws? && TypeList(types).error.TypeError?
    ensures var r := TypeList(types);
      r.Value? ==>
        types.Arr? && r.value.fields["count"] == Num(|types.items|) && r.value.fields["types"] == types
        && var names := r.value.fields["available_types"];
        names.Arr? && |names.items| == |types.items|
        && forall i :: 0 <= i < |types.items| ==>
             (Truthy(Get(types.items[i], "Name")) ==> names.items[i] == Get(types.items[i], "Name"))
             && (!Truthy(Get(types.items[i], "Name")) ==> names.items[i] == Get(types.items[i], "MetricTypeName"))
  {
    var fm := Formatted(types, "types.map", TypeName, "Name");
    if fm.Value? {
      assert TypeList(types) == Value(Obj(map["count" := Length(types), "types" := types, "available_types" := Arr(fm.value),
                                              "message" := Str("Retrieved SLA metric types")]));
    }
  }

  /** A ticket's status: without a truthy id the tool throws before any
      request; otherwise `has_sla` is true exactly when the status read is
      truthy, and the status is shown only then. */
  lemma TicketStatusReport(args: Args, call: Upstream)
    ensures !Truthy(Arg(args, "ticket_id")) ==> Run(TicketStatus, args, call) == Throws(Error("ticket_id is required"))
    ensures Truthy(Arg(args, "ticket_id")) ==>
      var got := Invoke(TicketSLA(Arg(args, "ticket_id")), call);
      RequestOf(TicketSLA(Arg(args, "ticket_id"))) == GetReq("/tickets/" + ToStr(Arg(args, "ticket_id")) + "/sla")
      && (got.Throws? ==> Run(TicketStatus, args, call) == Throws(got.error))
      && (got.Value? ==>
            var f := Run(TicketStatus, args, call).value.fields;
            f["ticket_id"] == Arg(args, "ticket_id")
            && (f["has_sla"] == Bool(true) <==> Truthy(got.value))
            && ("sla_status" in f <==> Truthy(got.value))
            && ("sla_status" in f ==> f["sla_status"] == got.value))
  {
  }

  /** The status read: the reply's `Item` when truthy, else the reply itself;
      a reply with no `Item` therefore still counts as an agreement. */
  lemma StatusOfReply(id: Json, call: Upstream, r: Json)
    requires call(RequestOf(TicketSLA(id))) == Value(r) && Truthy(r)
    ensures Invoke(TicketSLA(id), call) == Value(if Truthy(Get(r, "Item")) then Get(r, "Item") else r)
    ensures Truthy(Invoke(TicketSLA(id), call).value)
  {
  }
}
