// The IncidentIQ API client: construction from the environment, the headers
// it sends, the connection test, and the domain getters, each of which sends
// one request and normalises the reply in its own way.
module Client {
  import opened Text
  import opened Js
  import opened Protocol
  import opened Shapes

  /** The process environment: variables that are set, with their values. */
  type Env = map<string, string>

  /** `process.env.k || fallback` */
  function Setting(env: Env, k: string, fallback: string): (v: string)
    ensures k in env && env[k] != "" ==> v == env[k]
    ensures !(k in env && env[k] != "") ==> v == fallback
  {
    if k in env && env[k] != "" then env[k] else fallback
  }

  const DefaultBaseURL := "https://demo.iiqstaging.com/api/v1.0"

  const MissingKey := "IncidentIQ API key is required. Please configure your district's API key."

  /** A constructed client: the base URL requests go to and the headers sent with each. */
  datatype Client = Client(baseURL: string, headers: map<string, string>)

  /** The header record the constructor fills: the three fixed headers, then
      `SiteId` and `ProductId` when their variables are set. */
  function Headers(apiKey: string, env: Env): (h: map<string, string>)
    ensures "Authorization" in h && h["Authorization"] == "Bearer " + apiKey
    ensures "Content-Type" in h && h["Content-Type"] == "application/json"
    ensures "Accept" in h && h["Accept"] == "application/json"
    ensures "SiteId" in h <==> Setting(env, "IIQ_SITE_ID", "") != ""
    ensures "SiteId" in h ==> h["SiteId"] == env["IIQ_SITE_ID"]
    ensures "ProductId" in h <==> Setting(env, "IIQ_PRODUCT_ID_TICKETS", "") != ""
    ensures "ProductId" in h ==> h["ProductId"] == env["IIQ_PRODUCT_ID_TICKETS"]
    ensures h.Keys <= {"Authorization", "Content-Type", "Accept", "SiteId", "ProductId"}
  {
    var fixed := map["Authorization" := "Bearer " + apiKey,
                     "Content-Type" := "application/json",
                     "Accept" := "application/json"];
    var site := Setting(env, "IIQ_SITE_ID", "");
    var withSite := if site != "" then fixed["SiteId" := site] else fixed;
    var product := Setting(env, "IIQ_PRODUCT_ID_TICKETS", "");
    if product != "" then withSite["ProductId" := product] else withSite
  }

  /** The constructor's header assembly: the fixed record, then one
      conditional assignment per optional header. */
  method AssembleHeaders(apiKey: string, env: Env) returns (headers: map<string, string>)
    ensures headers == Headers(apiKey, env)
  {
    headers := map["Authorization" := "Bearer " + apiKey,
                   "Content-Type" := "application/json",
                   "Accept" := "application/json"];
    if Setting(env, "IIQ_SITE_ID", "") != "" {
      headers := headers["SiteId" := env["IIQ_SITE_ID"]];
    }
    if Setting(env, "IIQ_PRODUCT_ID_TICKETS", "") != "" {
      headers := headers["ProductId" := env["IIQ_PRODUCT_ID_TICKETS"]];
    }
  }

  /** `new IncidentIQClient()`: the base URL and key come from the
      environment, and construction throws when no key is configured. */
  function NewClient(env: Env): (r: Outcome<Client>)
    ensures r.Throws? <==> Setting(env, "IIQ_API_KEY", "") == ""
    ensures r.Throws? ==> r.error == Error(MissingKey)
    ensures r.Value? ==> r.value.baseURL == Setting(env, "IIQ_API_BASE_URL", DefaultBaseURL)
    ensures r.Value? ==> r.value.headers == Headers(env["IIQ_API_KEY"], env)
  {
    var apiKey := Setting(env, "IIQ_API_KEY", "");
    if apiKey == "" then Throws(Error(MissingKey))
    else Value(Client(Setting(env, "IIQ_API_BASE_URL", DefaultBaseURL), Headers(apiKey, env)))
  }

  // ----- the connection test -----

  /** `baseURL.split('.')[0].split('//')[1]`: undefined (`None`) when the
      part before the first dot holds no `//`. */
  function DistrictName(baseURL: string): Option<string> {
    var parts := Split(Split(baseURL, ".")[0], "//");
    if |parts| > 1 then Some(parts[1]) else None
  }

  /** For a URL `https://<district>.<rest>` the district name is `<district>`. */
  lemma DistrictNameOfHost(d: string, rest: string)
    requires '.' !in d && '/' !in d
    ensures DistrictName("https://" + d + "." + rest) == Some(d)
  {
    var h := "https://" + d;
    assert '.' !in h by {
      forall i | 0 <= i < |h| ensures h[i] != '.' {
        if i >= 8 { assert h[i] == d[i - 8]; }
      }
    }
    assert "https://" + d + "." + rest == h + ['.'] + rest;
    SplitFirst(h, '.', rest);
    assert At(h, 6, "//");
    forall j | 0 <= j < 6 ensures !At(h, j, "//") {
      assert h[j..j + 2][0] == h[j];
    }
    assert Find(h, "//", 0) == 6;
    assert h[8..] == d;
    forall j | 0 <= j <= |d| ensures !At(d, j, "//") {
      if j + 2 <= |d| { assert d[j..j + 2][0] == d[j]; }
    }
    assert Find(d, "//", 0) == -1;
    assert Split(h, "//") == [h[..6]] + Split(d, "//");
  }

  /** The documented example. */
  lemma DistrictNameExample()
    ensures DistrictName("https://test.incidentiq.com/api/v1.0") == Some("test")
  {
    assert "https://test.incidentiq.com/api/v1.0" == "https://" + "test" + "." + "incidentiq.com/api/v1.0";
    DistrictNameOfHost("test", "incidentiq.com/api/v1.0");
  }

  /** What `testConnection` resolves to; it never throws. */
  datatype Connection = Connected(districtName: Option<string>) | Failed(error: string)

  const ProbeRequest := GetReq("/tickets/statuses")

  /** Any reply to the status probe means connected; a 401 means a bad key,
      and every other failure reports its message. */
  function TestConnection(c: Client, call: Upstream): (r: Connection)
    ensures r.Connected? <==> call(ProbeRequest).Value?
    ensures r.Connected? ==> r.districtName == DistrictName(c.baseURL)
    ensures r.Failed? ==> (r.error == "Invalid API key" <==>
                            call(ProbeRequest).error.HttpError? && call(ProbeRequest).error.status == 401)
    ensures r.Failed? && r.error != "Invalid API key" ==>
              r.error == "Connection failed: " + call(ProbeRequest).error.message
  {
    match call(ProbeRequest)
    case Value(_) => Connected(DistrictName(c.baseURL))
    case Throws(e) =>
      if e.HttpError? && e.status == 401 then Failed("Invalid API key")
      else
        assert ("Connection failed: " + e.message)[0] != "Invalid API key"[0];
        Failed("Connection failed: " + e.message)
  }

  // ----- the domain getters -----

  /** Each getter of the client, with the arguments it takes. */
  datatype Op =
    | SearchTickets(params: Json) | GetTicket(id: Json) | CreateTicket(data: Json)
    | UpdateTicket(id: Json, data: Json) | CloseTicket(id: Json, resolution: Json)
    | TicketStatuses | TicketCategories | TicketPriorities
    | SearchUsers(params: Json) | GetUser(id: Json) | Agents
    | SearchAssets(params: Json) | GetAsset(id: Json) | SearchAssetByTag(tag: Json) | AssetCounts
    | AllLocations | GetLocation(id: Json) | SearchLocations(params: Json)
    | Parts | GetPart(id: Json) | PartsSuppliers | AllTeams | SearchCategories(params: Json)
    | SearchCustomFields(entityType: Json) | CustomFieldTypes | LocationRooms | PurchaseOrders
    | GlobalManufacturers | IssueTypes | AnalyticsReport(reportType: Json, params: Json)
    | SLAs | SLAMetrics | SLAMetricTypes | TicketSLA(id: Json)
    | UserViews | Views | TicketViews | AssetViews | UserSpecificViews
    | TicketEmails(id: Json) | QueryNotifications(params: Json)
    | UnarchivedNotifications | UnreadNotifications
    | MarkAllRead | MarkRead(id: Json)

  /** `{OnlyShowDeleted: false, FilterByViewPermission: false, ...params}` */
  function SearchPayload(params: Json): Json {
    Obj(Spread(SearchDefaults(), params))
  }

  /** The query flags used when `queryNotifications` is given none. */
  function DefaultNotificationQuery(): Json {
    Obj(map["IncludeRead" := Bool(true), "IncludeArchived" := Bool(false), "IncludeUnarchived" := Bool(true)])
  }

  /** The request each getter sends. */
  function RequestOf(op: Op): Request {
    match op
    case SearchTickets(p) => PostReq("/tickets", SearchPayload(p))
    case GetTicket(id) => GetReq("/tickets/" + ToStr(id))
    case CreateTicket(data) => PostReq("/tickets/new", data)
    case UpdateTicket(id, data) => PutReq("/tickets/" + ToStr(id), data)
    case CloseTicket(id, resolution) =>
      PutReq("/tickets/" + ToStr(id) + "/close", Obj(map["Resolution" := resolution]))
    case TicketStatuses => GetReq("/tickets/statuses")
    case TicketCategories => GetReq("/tickets/categories")
    case TicketPriorities => GetReq("/tickets/priorities")
    case SearchUsers(p) => PostReq("/users", SearchPayload(p))
    case GetUser(id) => GetReq("/users/" + ToStr(id))
    case Agents => GetReq("/users/agents")
    case SearchAssets(p) => PostReq("/assets", SearchPayload(p))
    case GetAsset(id) => GetReq("/assets/" + ToStr(id))
    case SearchAssetByTag(tag) =>
      PostReq("/assets", Obj(map["SearchText" := tag, "PageSize" := Num(1),
                                 "OnlyShowDeleted" := Bool(false), "FilterByViewPermission" := Bool(false)]))
    case AssetCounts => GetReq("/assets/counts")
    case AllLocations => GetReq("/locations/all")
    case GetLocation(id) => GetReq("/locations/" + ToStr(id))
    case SearchLocations(p) => PostReq("/locations", SearchPayload(p))
    case Parts => GetReq("/parts")
    case GetPart(id) => GetReq("/parts/" + ToStr(id))
    case PartsSuppliers => GetReq("/parts/suppliers")
    case AllTeams => GetReq("/teams/all")
    case SearchCategories(p) => PostReq("/categories", SearchPayload(p))
    case SearchCustomFields(t) =>
      PostReq("/custom-fields", Obj(map["EntityType" := t, "OnlyShowDeleted" := Bool(false),
                                        "FilterByViewPermission" := Bool(false)]))
    case CustomFieldTypes => GetReq("/custom-fields/types")
    case LocationRooms => GetReq("/locations/rooms")
    case PurchaseOrders => GetReq("/purchaseorders")
    case GlobalManufacturers => GetReq("/assets/manufacturers/global")
    case IssueTypes => GetReq("/issues/types")
    case AnalyticsReport(t, p) => Request(GET, "/analytics/" + ToStr(t), p, Undefined)
    case SLAs => GetReq("/slas")
    case SLAMetrics => GetReq("/metrics")
    case SLAMetricTypes => GetReq("/metrics/types")
    case TicketSLA(id) => GetReq("/tickets/" + ToStr(id) + "/sla")
    case UserViews => GetReq("/users/views")
    case Views => GetReq("/views")
    case TicketViews => GetReq("/views/tickets")
    case AssetViews => GetReq("/views/assets")
    case UserSpecificViews => GetReq("/views/users")
    case TicketEmails(id) => GetReq("/notifications/emails/for/ticket/" + ToStr(id))
    case QueryNotifications(p) => PostReq("/notifications", Or(p, DefaultNotificationQuery()))
    case UnarchivedNotifications => GetReq("/notifications/unarchived")
    case UnreadNotifications => GetReq("/notifications/unread")
    case MarkAllRead => PostReq("/notifications/all-read", Undefined)
    case MarkRead(id) => PostReq("/notifications/" + ToStr(id) + "/read", Undefined)
  }

  /** The expressions getters return their reply through. */
  datatype Shape =
    | Paged          // `r || {Items: [], TotalCount: 0, ...}`
    | ItemsList      // `r?.Items || []`
    | ItemsListStrict  // `r.Items || []`
    | ArrayOrList    // `Array.isArray(r) ? r : r?.Items || []`
    | Data           // `r.Data || null`
    | Success        // `r.Success`
    | FirstItem      // `(r && r.Items && r.Items.length > 0) ? r.Items[0] : null`
    | CountsRecord   // `r || {}`
    | ItemOrReply    // `r.Item || r || null`
    | StatusOk       // `r.StatusCode === 200`

  function ShapeOf(op: Op): Shape {
    match op
    case SearchTickets(_) => Paged
    case SearchUsers(_) => Paged
    case SearchAssets(_) => Paged
    case SearchLocations(_) => Paged
    case SearchCategories(_) => Paged
    case GetTicket(_) => Data
    case CreateTicket(_) => Data
    case UpdateTicket(_, _) => Data
    case GetUser(_) => Data
    case GetAsset(_) => Data
    case GetLocation(_) => Data
    case GetPart(_) => Data
    case AnalyticsReport(_, _) => Data
    case CloseTicket(_, _) => Success
    case SearchAssetByTag(_) => FirstItem
    case AssetCounts => CountsRecord
    case Parts => ArrayOrList
    case SearchCustomFields(_) => ArrayOrList
    case PurchaseOrders => ArrayOrList
    case TicketSLA(_) => ItemOrReply
    case MarkAllRead => StatusOk
    case MarkRead(_) => StatusOk
    case SLAs => ItemsListStrict
    case SLAMetrics => ItemsListStrict
    case SLAMetricTypes => ItemsListStrict
    case UserViews => ItemsListStrict
    case Views => ItemsListStrict
    case TicketViews => ItemsListStrict
    case AssetViews => ItemsListStrict
    case UserSpecificViews => ItemsListStrict
    case TicketEmails(_) => ItemsListStrict
    case QueryNotifications(_) => ItemsListStrict
    case UnarchivedNotifications => ItemsListStrict
    case UnreadNotifications => ItemsListStrict
    case _ => ItemsList
  }

  /** `(r && r.Items && r.Items.length > 0) ? r.Items[0] : null` */
  function FirstOrNull(r: Json): (v: Json)
    ensures r.Obj? && "Items" in r.fields && r.fields["Items"].Arr? ==>
      v == (if |r.fields["Items"].items| > 0 then r.fields["Items"].items[0] else Null)
    ensures !Truthy(r) || !Truthy(Get(r, "Items")) ==> v == Null
  {
    var items := Get(r, "Items");
    if Truthy(r) && Truthy(items) && Less(Num(0), Length(items)) then First(items) else Null
  }

  /** What a getter makes of the reply it receives. */
  function Normalise(shape: Shape, r: Json): Outcome<Json> {
    match shape
    case Paged => Value(PagedOrEmpty(r))
    case ItemsList => Value(ItemsOrEmpty(r))
    case ItemsListStrict => ItemsStrict(r)
    case ArrayOrList => Value(ArrayOrItems(r))
    case Data => DataOrNull(r)
    case Success => Read(r, "Success")
    case FirstItem => Value(FirstOrNull(r))
    case CountsRecord => Value(Or(r, Obj(map[])))
    case ItemOrReply =>
      var item :- Read(r, "Item");
      Value(Or(item, Or(r, Null)))
    case StatusOk =>
      var code :- Read(r, "StatusCode");
      Value(Bool(StrictEquals(code, Num(200))))
  }

  /** A getter call: send its request, then normalise the reply; an error
      from the API propagates unchanged. */
  function Invoke(op: Op, call: Upstream): (r: Outcome<Json>)
    ensures call(RequestOf(op)).Throws? ==> r == Throws(call(RequestOf(op)).error)
  {
    var reply :- call(RequestOf(op));
    Normalise(ShapeOf(op), reply)
  }

  // ----- how the getters disagree -----

  predicate IsSearch(op: Op) {
    op.SearchTickets? || op.SearchUsers? || op.SearchAssets? || op.SearchLocations? || op.SearchCategories?
  }

  /** The getters that return a list. */
  predicate IsListGetter(op: Op) {
    op.TicketStatuses? || op.TicketCategories? || op.TicketPriorities? || op.Agents?
    || op.AllLocations? || op.Parts? || op.PartsSuppliers? || op.AllTeams?
    || op.SearchCustomFields? || op.CustomFieldTypes? || op.LocationRooms? || op.PurchaseOrders?
    || op.GlobalManufacturers? || op.IssueTypes? || op.SLAs? || op.SLAMetrics? || op.SLAMetricTypes?
    || op.UserViews? || op.Views? || op.TicketViews? || op.AssetViews? || op.UserSpecificViews?
    || op.TicketEmails? || op.QueryNotifications? || op.UnarchivedNotifications? || op.UnreadNotifications?
  }

  /** The getters whose code reads a property of the reply with `.` rather than `?.`. */
  predicate ReadsReplyUnguarded(op: Op) {
    op.GetTicket? || op.CreateTicket? || op.UpdateTicket? || op.CloseTicket?
    || op.GetUser? || op.GetAsset? || op.GetLocation? || op.GetPart? || op.AnalyticsReport?
    || op.SLAs? || op.SLAMetrics? || op.SLAMetricTypes? || op.TicketSLA?
    || op.UserViews? || op.Views? || op.TicketViews? || op.AssetViews? || op.UserSpecificViews?
    || op.TicketEmails? || op.QueryNotifications? || op.UnarchivedNotifications? || op.UnreadNotifications?
    || op.MarkAllRead? || op.MarkRead?
  }

  /** Given a non-empty bare array, exactly the parts, purchase-order and
      custom-field getters return it; every other list getter returns `[]`. */
  lemma ListGettersOnBareArray(op: Op, call: Upstream, xs: seq<Json>)
    requires IsListGetter(op) && |xs| > 0 && call(RequestOf(op)) == Value(Arr(xs))
    ensures Invoke(op, call) == Value(Arr(xs)) <==> op.Parts? || op.PurchaseOrders? || op.SearchCustomFields?
    ensures Invoke(op, call) != Value(Arr(xs)) ==> Invoke(op, call) == Value(Arr([]))
  {
    ShapeClasses(op);
    assert ShapeOf(op) == ArrayOrList <==> op.Parts? || op.PurchaseOrders? || op.SearchCustomFields?;
    assert Invoke(op, call) == Normalise(ShapeOf(op), Arr(xs));
    BareArrayNormalised(ShapeOf(op), xs);
  }

  /** What the list normalisations make of a bare non-empty array. */
  lemma BareArrayNormalised(shape: Shape, xs: seq<Json>)
    requires |xs| > 0
    ensures shape.ArrayOrList? ==> Normalise(shape, Arr(xs)) == Value(Arr(xs))
    ensures shape.ItemsList? || shape.ItemsListStrict? ==> Normalise(shape, Arr(xs)) == Value(Arr([]))
    ensures Arr(xs) != Arr([])
  {
    assert Get(Arr(xs), "Items") == Undefined;
  }

  /** The three classes of getter, read off the shapes they return their reply through. */
  lemma ShapeClasses(op: Op)
    ensures IsSearch(op) <==> ShapeOf(op) == Paged
    ensures IsListGetter(op) <==> ShapeOf(op).ItemsList? || ShapeOf(op).ItemsListStrict? || ShapeOf(op).ArrayOrList?
    ensures ReadsReplyUnguarded(op) <==> ShapeOf(op).ItemsListStrict? || ShapeOf(op).Data? || ShapeOf(op).Success?
                                         || ShapeOf(op).ItemOrReply? || ShapeOf(op).StatusOk?
  {
  }

  /** A list getter given a reply with truthy `Items` returns those `Items`. */
  lemma ListGettersOnPage(op: Op, call: Upstream, r: Json)
    requires IsListGetter(op) && r.Obj? && call(RequestOf(op)) == Value(r) && Truthy(Get(r, "Items"))
    ensures Invoke(op, call) == Value(Get(r, "Items"))
  {
    ShapeClasses(op);
  }

  /** What each normalisation makes of a null reply. */
  lemma NullNormalised(shape: Shape)
    ensures Normalise(shape, Null).Throws? <==>
      shape.ItemsListStrict? || shape.Data? || shape.Success? || shape.ItemOrReply? || shape.StatusOk?
    ensures Normalise(shape, Null).Throws? ==> Normalise(shape, Null).error.TypeError?
    ensures shape.Paged? ==> Normalise(shape, Null) == Value(EmptyPage())
    ensures shape.ItemsList? || shape.ArrayOrList? ==> Normalise(shape, Null) == Value(Arr([]))
    ensures shape.FirstItem? ==> Normalise(shape, Null) == Value(Null)
    ensures shape.CountsRecord? ==> Normalise(shape, Null) == Value(Obj(map[]))
  {
  }

  /** A null reply makes exactly the unguarded getters throw; the guarded
      ones fall back to their empty value. */
  lemma NullReply(op: Op, call: Upstream)
    requires call(RequestOf(op)) == Value(Null)
    ensures Invoke(op, call).Throws? <==> ReadsReplyUnguarded(op)
    ensures Invoke(op, call).Throws? ==> Invoke(op, call).error.TypeError?
    ensures IsSearch(op) ==> Invoke(op, call) == Value(EmptyPage())
    ensures IsListGetter(op) && !ReadsReplyUnguarded(op) ==> Invoke(op, call) == Value(Arr([]))
    ensures op.SearchAssetByTag? ==> Invoke(op, call) == Value(Null)
    ensures op.AssetCounts? ==> Invoke(op, call) == Value(Obj(map[]))
  {
    ShapeClasses(op);
    NullNormalised(ShapeOf(op));
    assert Invoke(op, call) == Normalise(ShapeOf(op), Null);
  }

  /** Every search posts the default flags, which the caller's own values override. */
  lemma SearchPayloadFlags(op: Op, k: string)
    requires IsSearch(op) && (k == "OnlyShowDeleted" || k == "FilterByViewPermission")
    ensures RequestOf(op).verb == POST && RequestOf(op).body.Obj?
    ensures var body := RequestOf(op).body.fields;
      k in body && body[k] == (if op.params.Obj? && k in op.params.fields then op.params.fields[k] else Bool(false))
  {
  }

  /** A search returns a truthy reply as it is and the empty page in place of a falsy one. */
  lemma SearchReply(op: Op, call: Upstream, r: Json)
    requires IsSearch(op) && call(RequestOf(op)) == Value(r)
    ensures Invoke(op, call) == Value(if Truthy(r) then r else EmptyPage())
  {
    ShapeClasses(op);
    assert Invoke(op, call) == Normalise(Paged, r);
  }

  /** The single-entity getters return `Data` when it is truthy and null otherwise. */
  lemma SingleEntityReply(op: Op, call: Upstream, r: Json)
    requires op.GetTicket? || op.GetUser? || op.GetAsset? || op.GetLocation? || op.GetPart?
    requires call(RequestOf(op)) == Value(r) && !r.Null? && !r.Undefined?
    ensures Invoke(op, call) == Value(if Truthy(Get(r, "Data")) then Get(r, "Data") else Null)
  {
  }

  /** The tag lookup asks for one match and returns the first item iff the
      reply's `Items` is a non-empty list, else null. */
  lemma AssetByTagReply(tag: Json, call: Upstream, r: Json)
    requires call(RequestOf(SearchAssetByTag(tag))) == Value(r)
    ensures RequestOf(SearchAssetByTag(tag)).body.fields["SearchText"] == tag
    ensures RequestOf(SearchAssetByTag(tag)).body.fields["PageSize"] == Num(1)
    ensures r.Obj? && "Items" in r.fields && r.fields["Items"].Arr? ==>
      Invoke(SearchAssetByTag(tag), call)
        == Value(if |r.fields["Items"].items| > 0 then r.fields["Items"].items[0] else Null)
    ensures !Truthy(r) ==> Invoke(SearchAssetByTag(tag), call) == Value(Null)
  {
  }

  /** Marking as read reports true iff the reply's `StatusCode` is the number 200. */
  lemma MarkReadReply(op: Op, call: Upstream, r: Json)
    requires (op.MarkAllRead? || op.MarkRead?) && call(RequestOf(op)) == Value(r) && !r.Null? && !r.Undefined?
    ensures Invoke(op, call).Value? && Invoke(op, call).value.Bool?
    ensures Invoke(op, call).value.b <==> Get(r, "StatusCode") == Num(200)
  {
    StrictEqualsMeaning(Get(r, "StatusCode"), Num(200));
  }
}
