/** What the display code of the `cmd` package sees and prints. An HTTP response
    as the command handlers receive it, the JSON helpers the display code calls,
    and the lines it prints, each as one event of an output trace. A function that
    prints is an `Action`: calling it yields the trace it prints. */
module Screen {
  import opened Wrappers
  import opened Term
  import HubHttp

  /** The parts of an `*http.Response` the display code reads. `body` is what
      reading `resp.Body` to the end yields, or the read error. Unlike
      `HubHttp.Response`, which keeps the whole request that was sent, this keeps
      of the request only its method and URL, and it carries the response
      headers, which the display prints. */
  datatype Response = Response(verb: string, url: string, statusCode: int, status: string,
                               header: map<string, seq<string>>, body: Result<string>)

  /** `encoding/json` as the display code uses it: `indent` is `json.Indent` with
      a two-space indent, and `message` is the `message` member that
      `getMessage` unmarshals. Each yields its error text on malformed input. */
  datatype Json = Json(indent: string -> Result<string>, message: string -> Result<string>)

  const NoContent := 204

  /** One printed line or table. */
  datatype Event =
    | RequestLine(verb: string, url: string)          // "HTTP <method>:<url>"
    | StatusTable(colour: StatusColour, status: string) // status, length, encoding table
    | HeaderTable(header: map<string, seq<string>>)   // "Header Value" table
    | StatusLine(colour: StatusColour, status: string)  // "HTTP Response: <status>"
    | NilResponse                                     // "Nil HTTP Response."
    | MessageLine(message: string)                    // "Message: <message>"
    | JsonBody(pretty: string)                        // "RESP JSON Body:" and the indented body
    | RawBody(text: string)                           // "RESP Body:" and the body as read
    | Body(text: string)                              // "Body:" and the body
    | JsonError(reason: string)                       // "JSON Error: <reason>"
    | BodyReadError(failure: Option<string>)          // "Body Read Error: <failure or <nil>>"
    | ErrorLine(message: string)                      // the error, as `errorDecorate` prints it
    | CmdError(message: string)                       // "Error: <message>"
    | Output(text: string)                            // a line printed by a List or Describe method
    | Crash                                           // a nil pointer dereference ends the command

  /** A `func()` that prints. */
  type Action = () -> seq<Event>

  const Noop: Action := () => []

  /** The trace a `List` or `Describe` method prints: nothing but its own output. */
  ghost predicate OnlyOutput(trace: seq<Event>) {
    forall e :: e in trace ==> e.Output?
  }

  /** `resp.Header.Get("Content-Type")`: the first value stored under the key,
      or "" when there is none. */
  function ContentType(r: Response): (t: string)
    ensures (HubHttp.ContentTypeHeader !in r.header || r.header[HubHttp.ContentTypeHeader] == []) ==> t == ""
    ensures (HubHttp.ContentTypeHeader in r.header && r.header[HubHttp.ContentTypeHeader] != []) ==> t == r.header[HubHttp.ContentTypeHeader][0]
  {
    if HubHttp.ContentTypeHeader in r.header && |r.header[HubHttp.ContentTypeHeader]| > 0 then r.header[HubHttp.ContentTypeHeader][0] else ""
  }
}
