// The notification tools: each returns a plain object built from one client
// getter; the two that name a ticket or a notification demand its id before
// any request, and an unknown name throws.
module Notifications {
  import opened Text
  import opened Js
  import opened Protocol
  import opened Shapes
  import opened Client

  /** Every tool the module declares; each has a case. */
  const NotificationToolNames: seq<string> := [
    "notification_get_ticket_emails", "notification_query", "notification_get_unread",
    "notification_get_unarchived", "notification_mark_all_read", "notification_mark_read"]

  datatype Tool = EmailsOfTicket | Query | Unread | Unarchived | MarkAll | MarkOne

  /** The case a name selects, if any. */
  function ToolOf(name: string): (t: Option<Tool>)
    ensures t.Some? <==> name in NotificationToolNames
  {
    match name
    case "notification_get_ticket_emails" => Some(EmailsOfTicket)
    case "notification_query" => Some(Query)
    case "notification_get_unread" => Some(Unread)
    case "notification_get_unarchived" => Some(Unarchived)
    case "notification_mark_all_read" => Some(MarkAll)
    case "notification_mark_read" => Some(MarkOne)
    case _ => None
  }

  // ----- record formatting -----

  /** `formatEmail`: the sender and recipient fall back to their address fields. */
  function FormatEmail(e: Json): Json {
    Obj(map["id" := Get(e, "EmailId"), "subject" := Get(e, "Subject"), "body" := Get(e, "Body"),
            "from" := Or(Get(e, "From"), Get(e, "FromAddress")), "to" := Or(Get(e, "To"), Get(e, "ToAddress")),
            "created_date" := Get(e, "CreatedDate"), "sent_date" := Get(e, "SentDate"), "is_sent" := Get(e, "IsSent")])
  }

  /** `formatNotification`: subject, body and the two flags each fall back to a second field. */
  function FormatNotification(n: Json): Json {
    Obj(map["id" := Get(n, "NotificationId"), "type" := Get(n, "NotificationType"),
            "subject" := Or(Get(n, "Subject"), Get(n, "Title")), "body" := Or(Get(n, "Body"), Get(n, "Message")),
            "created_date" := Get(n, "CreatedDate"),
            "is_read" := Or(Get(n, "IsRead"), Get(n, "Read")), "is_archived" := Or(Get(n, "IsArchived"), Get(n, "Archived")),
            "entity_type" := Get(n, "EntityType"), "entity_id" := Get(n, "EntityId"),
            "severity" := Get(n, "Severity"), "category" := Get(n, "Category")])
  }

  // ----- the handlers -----

  /** The query flags: read and unarchived ones unless explicitly `false`,
      archived ones only when explicitly `true`. */
  function QueryParams(args: Args): Json {
    Obj(map["IncludeRead" := Bool(!StrictEquals(Arg(args, "include_read"), Bool(false))),
            "IncludeArchived" := Bool(StrictEquals(Arg(args, "include_archived"), Bool(true))),
            "IncludeUnarchived" := Bool(!StrictEquals(Arg(args, "include_unarchived"), Bool(false)))])
  }

  /** A result counting and listing the formatted notifications. */
  function NotificationList(v: Json, message: nat -> string, extra: map<string, Json>): Outcome<Json> {
    var shown :- Formatted(v, "notifications.map", FormatNotification, "NotificationId");
    Value(Obj(extra + map["count" := Num(|shown|), "notifications" := Arr(shown), "message" := Str(message(|shown|))]))
  }

  function FoundMessage(n: nat): string {
    "Found " + IntToString(n) + " notifications"
  }

  function UnreadMessage(n: nat): string {
    if n > 0 then "You have " + IntToString(n) + " unread notifications" else "No unread notifications"
  }

  function UnarchivedMessage(n: nat): string {
    "Found " + IntToString(n) + " unarchived notifications"
  }

  /** The result for the e-mails of ticket `id`. */
  function EmailList(id: Json, emails: Json): Outcome<Json> {
    var shown :- Formatted(emails, "emails.map", FormatEmail, "EmailId");
    Value(Obj(map["ticket_id" := id, "count" := Num(|shown|), "emails" := Arr(shown),
                  "message" := Str(if |shown| > 0 then "Retrieved ticket emails" else "No emails found for this ticket")]))
  }

  function Run(tool: Tool, args: Args, call: Upstream): Outcome<Json> {
    match tool
    case EmailsOfTicket =>
      var id := Arg(args, "ticket_id");
      if !Truthy(id) then Throws(Error("ticket_id is required"))
      else
        var emails :- Invoke(TicketEmails(id), call);
        EmailList(id, emails)
    case Query =>
      var params := QueryParams(args);
      var list :- Invoke(QueryNotifications(params), call);
      NotificationList(list, FoundMessage, map["filters" := params])
    case Unread =>
      var list :- Invoke(UnreadNotifications, call);
      NotificationList(list, UnreadMessage, map[])
    case Unarchived =>
      var list :- Invoke(UnarchivedNotifications, call);
      NotificationList(list, UnarchivedMessage, map[])
    case MarkAll =>
      var success :- Invoke(MarkAllRead, call);
      Value(Obj(map["success" := success,
                    "message" := Str(if Truthy(success) then "All notifications marked as read"
                                     else "Failed to mark notifications as read")]))
    case MarkOne =>
      var id := Arg(args, "notification_id");
      if !Truthy(id) then Throws(Error("notification_id is required"))
      else
        var success :- Invoke(MarkRead(id), call);
        Value(Obj(map["notification_id" := id, "success" := success,
                      "message" := Str(if Truthy(success) then "Notification marked as read"
                                       else "Failed to mark notification as read")]))
  }

  /** `handleToolCall` */
  function HandleToolCall(name: string, args: Args, call: Upstream): Outcome<Json> {
    match ToolOf(name)
    case None => Throws(Error("Unknown tool: " + name))
    case Some(tool) => Run(tool, args, call)
  }

  // ----- properties -----

  /** A name without a case throws before any request. */
  lemma UnknownName(name: string, args: Args, call: Upstream)
    requires name !in NotificationToolNames
    ensures HandleToolCall(name, args, call) == Throws(Error("Unknown tool: " + name))
  {
  }

  /** Without a truthy id the two per-entity tools throw, whatever the API would have said. */
  lemma MissingId(name: string, args: Args, call: Upstream, other: Upstream)
    requires ToolOf(name) == Some(EmailsOfTicket) || ToolOf(name) == Some(MarkOne)
    ensures ToolOf(name) == Some(EmailsOfTicket) && !Truthy(Arg(args, "ticket_id")) ==>
      HandleToolCall(name, args, call) == Throws(Error("ticket_id is required"))
    ensures ToolOf(name) == Some(MarkOne) && !Truthy(Arg(args, "notification_id")) ==>
      HandleToolCall(name, args, call) == Throws(Error("notification_id is required"))
    ensures !Truthy(Arg(args, if ToolOf(name) == Some(MarkOne) then "notification_id" else "ticket_id")) ==>
      HandleToolCall(name, args, call) == HandleToolCall(name, args, other)
  {
  }

  /** The query flags default to read and unarchived but not archived; each
      is changed only by the exact boolean opposite of its default. With no
      flags given they are the client's own default query. */
  lemma QueryFlags(args: Args)
    ensures var p := QueryParams(args).fields;
      (p["IncludeRead"] == Bool(false) <==> Arg(args, "include_read") == Bool(false))
      && (p["IncludeArchived"] == Bool(true) <==> Arg(args, "include_archived") == Bool(true))
      && (p["IncludeUnarchived"] == Bool(false) <==> Arg(args, "include_unarchived") == Bool(false))
      && p.Keys == {"IncludeRead", "IncludeArchived", "IncludeUnarchived"}
    ensures "include_read" !in args && "include_archived" !in args && "include_unarchived" !in args ==>
      QueryParams(args) == DefaultNotificationQuery()
    ensures Arg(args, "include_read") == Str("false") ==> QueryParams(args).fields["IncludeRead"] == Bool(true)
  {
    var p := QueryParams(args).fields;
    assert p.Keys == {"IncludeRead", "IncludeArchived", "IncludeUnarchived"};
  }

  /** A listing result: `count` is the number of notifications listed,
      each formatted in order, beside the extra fields; anything but a list
      makes it throw a TypeError. */
  lemma ListShape(v: Json, message: nat -> string, extra: map<string, Json>)
    requires "count" !in extra && "notifications" !in extra && "message" !in extra
    ensures !v.Arr? ==> NotificationList(v, message, extra).Throws? && NotificationList(v, message, extra).error.TypeError?
    ensures var r := NotificationList(v, message, extra);
      r.Value? ==>
        v.Arr? && r.value.Obj?
        && var f := r.value.fields;
        f.Keys == extra.Keys + {"count", "notifications", "message"}
        && (forall k :: k in extra ==> f[k] == extra[k])
        && f["count"] == Num(|v.items|) && f["notifications"].Arr?
        && |f["notifications"].items| == |v.items|
        && (forall i :: 0 <= i < |v.items| ==> f["notifications"].items[i] == FormatNotification(v.items[i]))
        && f["message"] == Str(message(|v.items|))
  {
  }

  /** The query posts its flags, echoes them as `filters` and reports how
      many notifications it found; an upstream error propagates unchanged. */
  lemma QueryList(args: Args, call: Upstream)
    ensures RequestOf(QueryNotifications(QueryParams(args))) == PostReq("/notifications", QueryParams(args))
    ensures var got := Invoke(QueryNotifications(QueryParams(args)), call);
      (got.Throws? ==> Run(Query, args, call) == Throws(got.error))
      && (got.Value? ==> Run(Query, args, call) == NotificationList(got.value, FoundMessage, map["filters" := QueryParams(args)]))
  {
  }

  /** The unread and unarchived tools list their getter's notifications; an
      upstream error propagates unchanged. */
  lemma UnreadAndUnarchived(args: Args, call: Upstream)
    ensures var got := Invoke(UnreadNotifications, call);
      (got.Throws? ==> Run(Unread, args, call) == Throws(got.error))
      && (got.Value? ==> Run(Unread, args, call) == NotificationList(got.value, UnreadMessage, map[]))
    ensures var got := Invoke(UnarchivedNotifications, call);
      (got.Throws? ==> Run(Unarchived, args, call) == Throws(got.error))
      && (got.Value? ==> Run(Unarchived, args, call) == NotificationList(got.value, UnarchivedMessage, map[]))
  {
  }

  /** The unread tool mentions the count exactly when there is something unread. */
  lemma UnreadText(n: nat)
    ensures UnreadMessage(n) == "No unread notifications" <==> n == 0
  {
    if n > 0 {
      assert UnreadMessage(n)[..9] == "You have ";
    }
  }

  /** The ticket e-mails: the id is echoed, `count` is the number of e-mails,
      each shown formatted in order, and the message says whether there were
      any; anything but a list throws a TypeError. */
  lemma Emails(id: Json, emails: Json)
    ensures var r := EmailList(id, emails);
      (!emails.Arr? ==> r.Throws? && r.error.TypeError?)
      && (r.Value? ==>
            emails.Arr? && r.value.Obj?
            && var f := r.value.fields;
            var xs := emails.items;
            f["ticket_id"] == id && f["count"] == Num(|xs|)
            && f["emails"].Arr? && |f["emails"].items| == |xs|
            && (forall i :: 0 <= i < |xs| ==> f["emails"].items[i] == FormatEmail(xs[i]))
            && (f["message"] == Str("No emails found for this ticket") <==> |xs| == 0))
  {
    assert "Retrieved ticket emails"[0] != "No emails found for this ticket"[0];
  }

  /** With a truthy id the e-mail tool reads that ticket's e-mails once; an
      upstream error propagates unchanged. */
  lemma EmailsRead(args: Args, call: Upstream)
    requires Truthy(Arg(args, "ticket_id"))
    ensures var id := Arg(args, "ticket_id");
      var got := Invoke(TicketEmails(id), call);
      RequestOf(TicketEmails(id)) == GetReq("/notifications/emails/for/ticket/" + ToStr(id))
      && (got.Throws? ==> Run(EmailsOfTicket, args, call) == Throws(got.error))
      && (got.Value? ==> Run(EmailsOfTicket, args, call) == EmailList(id, got.value))
  {
  }

  /** Marking everything as read reports success iff the reply's
      `StatusCode` is the number 200, and the message follows that verdict. */
  lemma MarkingAll(args: Args, call: Upstream, reply: Json)
    requires call(RequestOf(MarkAllRead)) == Value(reply) && !reply.Null? && !reply.Undefined?
    ensures var r := Run(MarkAll, args, call);
      r.Value? && r.value.Obj? && "success" in r.value.fields
      && (r.value.fields["success"] == Bool(true) <==> Get(reply, "StatusCode") == Num(200))
      && (r.value.fields["success"] == Bool(false) <==> Get(reply, "StatusCode") != Num(200))
      && (r.value.fields["message"] == Str("All notifications marked as read") <==> Get(reply, "StatusCode") == Num(200))
  {
    MarkReadReply(MarkAllRead, call, reply);
    assert "All notifications marked as read"[0] != "Failed to mark notifications as read"[0];
  }

  /** Marking one notification: the id is echoed and success is reported iff
      the reply's `StatusCode` is the number 200. */
  lemma MarkingOne(args: Args, call: Upstream, reply: Json)
    requires Truthy(Arg(args, "notification_id"))
    requires call(RequestOf(MarkRead(Arg(args, "notification_id")))) == Value(reply) && !reply.Null? && !reply.Undefined?
    ensures var r := Run(MarkOne, args, call);
      r.Value? && r.value.Obj? && "success" in r.value.fields
      && r.value.fields["notification_id"] == Arg(args, "notification_id")
      && (r.value.fields["success"] == Bool(true) <==> Get(reply, "StatusCode") == Num(200))
      && (r.value.fields["success"] == Bool(false) <==> Get(reply, "StatusCode") != Num(200))
      && (r.value.fields["message"] == Str("Notification marked as read") <==> Get(reply, "StatusCode") == Num(200))
  {
    var id := Arg(args, "notification_id");
    MarkReadReply(MarkRead(id), call, reply);
    assert "Notification marked as read"[0] != "Failed to mark notification as read"[0];
  }

  /** A formatted e-mail carries exactly the documented keys. */
  lemma EmailKeys(e: Json)
    ensures FormatEmail(e).fields.Keys == {"id", "subject", "body", "from", "to", "created_date", "sent_date", "is_sent"}
  {
  }

  /** The id is copied, and sender and recipient fall back to their address fields. */
  lemma EmailFallbacks(e: Json)
    ensures var f := FormatEmail(e).fields;
      f["id"] == Get(e, "EmailId")
      && (Truthy(Get(e, "From")) ==> f["from"] == Get(e, "From"))
      && (!Truthy(Get(e, "From")) ==> f["from"] == Get(e, "FromAddress"))
      && (!Truthy(Get(e, "To")) ==> f["to"] == Get(e, "ToAddress"))
  {
  }

  /** A formatted notification carries exactly the documented keys. */
  lemma NotificationKeys(n: Json)
    ensures FormatNotification(n).fields.Keys ==
      {"id", "type", "subject", "body", "created_date", "is_read", "is_archived",
       "entity_type", "entity_id", "severity", "category"}
  {
  }

  /** The id is copied, and subject, body and both flags fall back to their second field. */
  lemma NotificationFallbacks(n: Json)
    ensures var f := FormatNotification(n).fields;
      f["id"] == Get(n, "NotificationId")
      && (!Truthy(Get(n, "Subject")) ==> f["subject"] == Get(n, "Title"))
      && (!Truthy(Get(n, "Body")) ==> f["body"] == Get(n, "Message"))
      && (!Truthy(Get(n, "IsRead")) ==> f["is_read"] == Get(n, "Read"))
      && (!Truthy(Get(n, "IsArchived")) ==> f["is_archived"] == Get(n, "Archived"))
  {
  }
}
