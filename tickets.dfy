// The ticket tools: search, look-ups, status and flag actions, and the
// envelopes they answer with.
module Tickets {
  import opened Text
  import opened Js
  import opened Protocol
  import opened Shapes

  const TicketToolNames: seq<string> := [
    "ticket_search", "ticket_get", "ticket_get_statuses", "ticket_get_priorities",
    "ticket_get_assets", "ticket_get_sla", "ticket_update_status", "ticket_set_urgency",
    "ticket_set_sensitivity", "ticket_confirm_issue", "ticket_cancel", "ticket_unassign",
    "ticket_mark_duplicate", "ticket_get_wizards", "ticket_get_wizards_by_site"]

  /** The tools the module's switch has a case for. */
  datatype Tool =
    | Search | GetTicket | GetStatuses | GetPriorities | GetAssets | GetSla | UpdateStatus
    | SetUrgency | SetSensitivity | ConfirmIssue | Cancel | Unassign | MarkDuplicate
    | GetWizards | GetWizardsBySite

  /** The case a name selects, if any. */
  function ToolOf(name: string): (t: Option<Tool>)
    ensures t.Some? <==> name in TicketToolNames
  {
    match name
    case "ticket_search" => Some(Search)
    case "ticket_get" => Some(GetTicket)
    case "ticket_get_statuses" => Some(GetStatuses)
    case "ticket_get_priorities" => Some(GetPriorities)
    case "ticket_get_assets" => Some(GetAssets)
    case "ticket_get_sla" => Some(GetSla)
    case "ticket_update_status" => Some(UpdateStatus)
    case "ticket_set_urgency" => Some(SetUrgency)
    case "ticket_set_sensitivity" => Some(SetSensitivity)
    case "ticket_confirm_issue" => Some(ConfirmIssue)
    case "ticket_cancel" => Some(Cancel)
    case "ticket_unassign" => Some(Unassign)
    case "ticket_mark_duplicate" => Some(MarkDuplicate)
    case "ticket_get_wizards" => Some(GetWizards)
    case "ticket_get_wizards_by_site" => Some(GetWizardsBySite)
    case _ => None
  }

  const NoTickets := "No tickets found matching your search criteria."

  function UnknownTicketTool(name: string): string {
    "Error: Unknown ticket tool \"" + name + "\"."
  }

  // ----- the search payload -----

  /** The fields every ticket search sends. */
  function SearchBase(args: Args): map<string, Json> {
    map["OnlyShowDeleted" := Or(Arg(args, "onlyShowDeleted"), Bool(false)),
        "FilterByViewPermission" := Bool(false),
        "Paging" := Paging(args, 20)]
  }

  /** The `ticket_search` payload: deleted tickets only on request, never
      filtered by view permission, page 0 of 20 by default, and the search
      text only when one is given. */
  function SearchPayload(args: Args): (p: Json)
    ensures p.Obj?
    ensures p.fields.Keys <= {"OnlyShowDeleted", "FilterByViewPermission", "Paging", "SearchText"}
    ensures "OnlyShowDeleted" in p.fields && "FilterByViewPermission" in p.fields && "Paging" in p.fields
    ensures p.fields["OnlyShowDeleted"] == (if Truthy(Arg(args, "onlyShowDeleted")) then Arg(args, "onlyShowDeleted") else Bool(false))
    ensures p.fields["FilterByViewPermission"] == Bool(false)
    ensures p.fields["Paging"] == Paging(args, 20)
    ensures "SearchText" in p.fields <==> Truthy(Arg(args, "searchText"))
    ensures "SearchText" in p.fields ==> p.fields["SearchText"] == Arg(args, "searchText")
  {
    var text := Arg(args, "searchText");
    if Truthy(text) then Obj(SearchBase(args)["SearchText" := text]) else Obj(SearchBase(args))
  }

  /** The handler's construction of the payload: the literal, then
      `payload.SearchText` assigned when a search text is given. */
  method BuildSearchPayload(args: Args) returns (payload: map<string, Json>)
    ensures Obj(payload) == SearchPayload(args)
  {
    payload := SearchBase(args);
    if Truthy(Arg(args, "searchText")) {
      payload := payload["SearchText" := Arg(args, "searchText")];
    }
  }

  // ----- the page footer -----

  /** The page figure as the footer writes it, `args.pageIndex || 0 + 1`,
      which parses as `args.pageIndex || (0 + 1)`. */
  function PageShownAsWritten(pageIndex: Json): (t: string)
    ensures Truthy(pageIndex) ==> t == ToStr(pageIndex)
    ensures !Truthy(pageIndex) ==> t == "1"
  {
    ToStr(Or(pageIndex, Plus(Num(0), Num(1))))
  }

  /** The first and the second page are both shown as page 1. */
  lemma PageShownAsWrittenCollides()
    ensures PageShownAsWritten(Num(0)) == PageShownAsWritten(Num(1)) == "1"
  {
    assert PageShownAsWritten(Num(1)) == ToStr(Num(1)) == NatToString(1);
  }

  // ----- the request each tool sends -----

  function TicketPath(args: Args): string {
    "/tickets/" + ToStr(Arg(args, "ticketId"))
  }

  /** One of two endpoints of a ticket, chosen by the truthiness of a flag. */
  function Toggle(args: Args, flag: string, on: string, off: string): string {
    TicketPath(args) + (if Truthy(Arg(args, flag)) then on else off)
  }

  /** `/unassign-sla` for the literal `'sla'`, `/unassign/<from>` for anything else. */
  function UnassignPath(args: Args): string {
    var from := Arg(args, "unassignFrom");
    if StrictEquals(from, Str("sla")) then TicketPath(args) + "/unassign-sla"
    else TicketPath(args) + "/unassign/" + ToStr(from)
  }

  /** The one request each ticket tool sends. */
  function TicketRequest(tool: Tool, args: Args): Request {
    var t := TicketPath(args);
    match tool
    case Search => PostReq("/tickets", SearchPayload(args))
    case GetTicket => GetReq(t)
    case GetStatuses => GetReq("/tickets/statuses")
    case GetPriorities => GetReq("/tickets/priorities")
    case GetAssets => GetReq(t + "/assets")
    case GetSla => GetReq(t + "/sla")
    case UpdateStatus => PostReq(t + "/status/" + ToStr(Arg(args, "status")), Undefined)
    case SetUrgency => PostReq(Toggle(args, "isUrgent", "/mark-urgent", "/mark-not-urgent"), Undefined)
    case SetSensitivity => PostReq(Toggle(args, "isSensitive", "/mark-sensitive", "/mark-not-sensitive"), Undefined)
    case ConfirmIssue => PostReq(Toggle(args, "isConfirmed", "/confirm-issue", "/unconfirm-issue"), Undefined)
    case Cancel => PostReq(t + "/cancel", Undefined)
    case Unassign => PostReq(UnassignPath(args), Undefined)
    case MarkDuplicate => PostReq(t + "/mark-as-duplicate/" + ToStr(Arg(args, "originalTicketId")), Undefined)
    case GetWizards => GetReq("/tickets/wizards")
    case GetWizardsBySite => GetReq("/tickets/wizards/site/" + ToStr(Arg(args, "siteId")))
  }

  // ----- what each tool makes of the reply -----

  function SearchFooter(args: Args, reply: Json): Footer {
    Footer(PageShownAsWritten(Arg(args, "pageIndex")), ToStr(Or(Get(Get(reply, "Paging"), "PageCount"), Num(1))))
  }

  function Render(tool: Tool, args: Args, reply: Json): Outcome<Report> {
    match tool
    case Search => ItemsReport(reply, NoTickets, "TicketNumber", Some(SearchFooter(args, reply)))
    case GetTicket => Value(if Truthy(reply) then Details(reply) else Message("Ticket not found."))
    case GetStatuses => ItemsReport(reply, "No ticket statuses found.", "Name", None)
    case GetPriorities => ItemsReport(reply, "No ticket priorities found.", "Name", None)
    case GetAssets => ItemsReport(reply, "No assets linked to this ticket.", "Name", None)
    case GetSla =>
      Value(if Truthy(reply) then Details(reply) else Message("No SLA information found for this ticket."))
    case UpdateStatus =>
      Value(Message("Successfully updated ticket status to \"" + ToStr(Arg(args, "status")) + "\"."))
    case SetUrgency =>
      Value(Message("Successfully marked ticket as " + (if Truthy(Arg(args, "isUrgent")) then "urgent" else "not urgent") + "."))
    case SetSensitivity =>
      Value(Message("Successfully marked ticket as "
                    + (if Truthy(Arg(args, "isSensitive")) then "sensitive" else "not sensitive") + "."))
    case ConfirmIssue =>
      Value(Message("Successfully " + (if Truthy(Arg(args, "isConfirmed")) then "confirmed" else "unconfirmed") + " the issue."))
    case Cancel => Value(Message("Successfully cancelled the ticket."))
    case Unassign => Value(Message("Successfully unassigned ticket from " + ToStr(Arg(args, "unassignFrom")) + "."))
    case MarkDuplicate =>
      Value(Message("Successfully marked ticket as duplicate of " + ToStr(Arg(args, "originalTicketId")) + "."))
    case GetWizards => ItemsReport(reply, "No ticket wizards found.", "Name", None)
    case GetWizardsBySite => ItemsReport(reply, "No ticket wizards found for this site.", "Name", None)
  }

  /** One tool's case inside the handler's `try`: send its request and
      render the reply; any error thrown becomes `Error: <message>`. */
  function Answer(tool: Tool, args: Args, call: Upstream): (e: Envelope)
    ensures call(TicketRequest(tool, args)).Throws? ==>
      e == Envelope(ErrorText(call(TicketRequest(tool, args)).error))
  {
    var result := (var reply :- call(TicketRequest(tool, args)); Render(tool, args, reply));
    match result
    case Value(report) => Envelope(report)
    case Throws(err) => Envelope(ErrorText(err))
  }

  /** `handleTicketTool`: the case the name selects, or the unknown-tool text. */
  function TicketTool(name: string, args: Args, call: Upstream): Envelope {
    match ToolOf(name)
    case None => Envelope(Message(UnknownTicketTool(name)))
    case Some(tool) => Answer(tool, args, call)
  }

  // ----- properties -----

  /** A name outside the module's list gets the unknown-tool text and sends nothing. */
  lemma UnknownName(name: string, args: Args, call: Upstream)
    requires name !in TicketToolNames
    ensures TicketTool(name, args, call) == Envelope(Message(UnknownTicketTool(name)))
  {
  }

  /** A search answers with the no-tickets text when the reply has no
      `Items` or an empty `Items`, and otherwise lists the `Items` or reports
      the error rendering them raised. */
  lemma SearchEmptiness(args: Args, call: Upstream, reply: Json)
    requires call(PostReq("/tickets", SearchPayload(args))) == Value(reply)
    ensures Empty(Get(reply, "Items")) ==> Answer(Search, args, call) == Envelope(Message(NoTickets))
    ensures !Empty(Get(reply, "Items")) ==>
      var r := Answer(Search, args, call).report;
      (r.Listing? && r.listed == Get(reply, "Items").items) || (r.Message? && StartsWith(r.text, "Error: "))
  {
  }

  /** A search with listed tickets shows, as written, the page index itself
      when it is truthy and page 1 otherwise, so the first two pages both
      show as 1, next to the reply's page count or 1. */
  lemma SearchFooterShown(args: Args, call: Upstream, reply: Json)
    requires call(PostReq("/tickets", SearchPayload(args))) == Value(reply)
    requires Answer(Search, args, call).report.Listing?
    ensures Answer(Search, args, call).report.footer.Some?
    ensures var f := Answer(Search, args, call).report.footer.value;
      var p := Arg(args, "pageIndex");
      (Truthy(p) ==> f.page == ToStr(p))
      && (!Truthy(p) ==> f.page == "1")
      && (p == Num(0) || p == Num(1) ==> f.page == "1")
      && f.pages == ToStr(Or(Get(Get(reply, "Paging"), "PageCount"), Num(1)))
  {
    if Arg(args, "pageIndex") == Num(1) {
      PageShownAsWrittenCollides();
    }
  }

  /** A toggle ends in its first endpoint exactly when the flag is truthy. */
  lemma ToggleChoice(args: Args, flag: string, on: string, off: string)
    requires |on| <= |off| && !EndsWith(off, on)
    ensures EndsWith(Toggle(args, flag, on, off), on) <==> Truthy(Arg(args, flag))
  {
    EndsWithAppend(TicketPath(args), on, on);
    EndsWithAppend(TicketPath(args), off, on);
  }

  /** The urgency flag picks `/mark-urgent` exactly when it is truthy. */
  lemma UrgencyEndpoint(args: Args)
    ensures EndsWith(TicketRequest(SetUrgency, args).path, "/mark-urgent")
            <==> Truthy(Arg(args, "isUrgent"))
  {
    assert TicketRequest(SetUrgency, args).path == Toggle(args, "isUrgent", "/mark-urgent", "/mark-not-urgent");
    ToggleChoice(args, "isUrgent", "/mark-urgent", "/mark-not-urgent");
  }

  /** The sensitivity flag picks `/mark-sensitive` exactly when it is truthy. */
  lemma SensitivityEndpoint(args: Args)
    ensures EndsWith(TicketRequest(SetSensitivity, args).path, "/mark-sensitive")
            <==> Truthy(Arg(args, "isSensitive"))
  {
    assert TicketRequest(SetSensitivity, args).path
      == Toggle(args, "isSensitive", "/mark-sensitive", "/mark-not-sensitive");
    ToggleChoice(args, "isSensitive", "/mark-sensitive", "/mark-not-sensitive");
  }

  /** The confirmation flag picks `/confirm-issue` exactly when it is truthy. */
  lemma ConfirmEndpoint(args: Args)
    ensures EndsWith(TicketRequest(ConfirmIssue, args).path, "/confirm-issue")
            <==> Truthy(Arg(args, "isConfirmed"))
  {
    assert TicketRequest(ConfirmIssue, args).path
      == Toggle(args, "isConfirmed", "/confirm-issue", "/unconfirm-issue");
    ToggleChoice(args, "isConfirmed", "/confirm-issue", "/unconfirm-issue");
  }

  /** The success text names the state the chosen endpoint sets. */
  lemma ToggleMessages(args: Args, call: Upstream)
    requires call(TicketRequest(SetUrgency, args)).Value?
    ensures Answer(SetUrgency, args, call).report
      == Message(if EndsWith(TicketRequest(SetUrgency, args).path, "/mark-urgent")
                 then "Successfully marked ticket as urgent." else "Successfully marked ticket as not urgent.")
  {
    UrgencyEndpoint(args);
  }

  /** Only the literal `'sla'` goes to the SLA endpoint; anything else is
      embedded in the path verbatim. */
  lemma UnassignEndpoint(args: Args)
    ensures var from := Arg(args, "unassignFrom");
      TicketRequest(Unassign, args).path
        == TicketPath(args) + (if from == Str("sla") then "/unassign-sla" else "/unassign/" + ToStr(from))
  {
  }
}
