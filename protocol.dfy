// One exchange between a tool handler and the IncidentIQ REST API, and what a
// handler hands back to the MCP client.
//
// The HTTP client is abstracted as a function from the request the handler
// builds to the reply body it receives, or the error it throws.
module Protocol {
  import opened Text
  import opened Js

  datatype Verb = GET | POST | PUT

  /** A request as a handler passes it to the HTTP client: the method, the
      path relative to the API base URL, the query parameters (`Undefined` when
      there are none) and the body (`Undefined` when there is none). */
  datatype Request = Request(verb: Verb, path: string, params: Json, body: Json)

  /** The API as seen from a handler: a reply body, or the error thrown. */
  type Upstream = Request -> Outcome<Json>

  /** A tool call's arguments object. */
  type Args = map<string, Json>

  /** `args.k` */
  function Arg(args: Args, k: string): (r: Json)
    ensures k in args ==> r == args[k]
    ensures k !in args ==> r == Undefined
  {
    if k in args then args[k] else Undefined
  }

  function GetReq(path: string): Request {
    Request(GET, path, Undefined, Undefined)
  }

  function GetWith(path: string, params: map<string, Json>): Request {
    Request(GET, path, Obj(params), Undefined)
  }

  function PostReq(path: string, body: Json): Request {
    Request(POST, path, Undefined, body)
  }

  function PutReq(path: string, body: Json): Request {
    Request(PUT, path, Undefined, body)
  }

  /** A `{Facet, Id}` search filter. */
  function SearchFilter(facet: string, id: Json): Json {
    Obj(map["Facet" := Str(facet), "Id" := id])
  }

  /** The TypeError a call on a value without that method raises. */
  function NotAFunction(site: string): Exception {
    TypeError(site + " is not a function")
  }

  // ----- what a handler returns -----

  /** One group of a grouped report: its key, its size, the records listed
      under it and how many of its records are left out of the listing. */
  datatype Shown = Shown(key: string, size: nat, listed: seq<Json>, unlisted: nat)

  /** A titled part of a report and the records listed in it. */
  datatype Section = Section(title: string, items: seq<Json>)

  /** The text of a tool result, abstracted to what decides it: exact text for
      messages, and for reports the records selected, in order, with the
      figures shown beside them. */
  datatype Report =
      // a message shown exactly as given
    | Message(text: string)
      // a heading figure, the records listed, the "and N more" figure
      // (0 when that line is absent) and an optional page footer
    | Listing(count: Json, listed: seq<Json>, more: int, footer: Option<Footer>)
      // a heading figure and the groups in the order they are printed
    | Grouped(count: Json, groups: seq<Shown>)
      // one record shown field by field
    | Details(entity: Json)
      // several titled parts
    | Sectioned(sections: seq<Section>)
      // a total and the records it was summed over
    | Totals(total: Json, rows: seq<Json>)
      // label and value pairs, one line each
    | Counts(lines: seq<(Json, Json)>)
      // one line per property of an object, each key with its value
    | Properties(fields: map<string, Json>)
      // `JSON.stringify(value, null, 2)`
    | Serialized(value: Json)
      // several reports printed one after the other
    | Composite(parts: seq<Report>)

  /** "Page <page> of <pages>", each figure as it is rendered. */
  datatype Footer = Footer(page: string, pages: string)

  /** `{content: [{type: 'text', text}]}` */
  datatype Envelope = Envelope(report: Report)

  /** `Error: <message>`, the text every handler gives an error it does not map. */
  function ErrorText(e: Exception): (r: Report)
    ensures r.Message? && StartsWith(r.text, "Error: ")
  {
    Message("Error: " + e.message)
  }

  /** The wrapper around a handler that throws: a result is serialized, a
      throw becomes `Error: <message>`. */
  function Wrapped(r: Outcome<Json>): (env: Envelope)
    ensures r.Value? ==> env == Envelope(Serialized(r.value))
    ensures r.Throws? ==> env == Envelope(ErrorText(r.error))
  {
    match r
    case Value(v) => Envelope(Serialized(v))
    case Throws(e) => Envelope(ErrorText(e))
  }

  /** The error carries an HTTP reply whose status is 404. */
  predicate NotFound(e: Exception) {
    e.HttpError? && e.status == 404
  }

  /** The `catch` several modules share: a 404 becomes `hint` when the tool's
      name mentions one of the module's special words (`special`) and
      `generic` otherwise; any other error is `Error: <message>`. */
  function CatchNotFound(e: Exception, special: bool, hint: string, generic: string): Report {
    if NotFound(e) then Message(if special then hint else generic) else ErrorText(e)
  }
}
