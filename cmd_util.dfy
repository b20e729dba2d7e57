/** The older display helpers of cmd/util.go. They choose which sections of the
    HTTP response `displayHTTPResponse` prints, by the debug and verbose settings
    and whether there was an error. `displayHTTPResponse` reads the response
    through its pointer before anything else, so with no response the command
    ends there (`Crash`), and nothing it would have printed afterwards appears. */
module LegacyDisplay {
  import opened Wrappers
  import opened Term
  import opened Screen
  import Decorate
  import HubHttp

  const EmptyText := "<empty>"

  /** `checkForEmptyString`: a placeholder for the empty string. */
  function CheckForEmptyString(s: string): (r: string)
    ensures r != ""
    ensures s != "" ==> r == s
    ensures s == "" ==> r == EmptyText
  {
    if s == "" then EmptyText else s
  }

  /** `httpStatusFunc`. */
  function HttpStatusFunc(code: int): (c: StatusColour)
    ensures c == Success <==> code < 300
    ensures c == Warn <==> 300 <= code < 400
    ensures c == Fail <==> 400 <= code
  {
    if code < 300 then Success
    else if code < 400 then Warn
    else Fail
  }

  /** A crashed trace stops: nothing printed after the crash appears. */
  function AndThen(first: seq<Event>, next: seq<Event>): (r: seq<Event>)
    ensures Crash in first ==> r == first
    ensures Crash !in first ==> r == first + next
  {
    if Crash in first then first else first + next
  }

  /** What the body section prints: a JSON body indented (or the indentation
      error), any other body as read, and nothing when the read failed. */
  function BodySection(json: Json, r: Response): (trace: seq<Event>)
    ensures r.body.Err? <==> trace == []
    ensures |trace| <= 1 && Crash !in trace
    ensures r.body.Ok? && ContentType(r) != HubHttp.JsonMediaType ==> trace == [Body(r.body.value)]
    ensures r.body.Ok? && ContentType(r) == HubHttp.JsonMediaType && json.indent(r.body.value).Ok? ==>
              trace == [Body(json.indent(r.body.value).value)]
    ensures r.body.Ok? && ContentType(r) == HubHttp.JsonMediaType && json.indent(r.body.value).Err? ==>
              trace == [JsonError(json.indent(r.body.value).message)]
  {
    match r.body
    case Err(_) => []
    case Ok(text) =>
      if ContentType(r) == HubHttp.JsonMediaType then
        match json.indent(text)
        case Ok(pretty) => [Body(pretty)]
        case Err(reason) => [JsonError(reason)]
      else [Body(text)]
  }

  /** `displayHTTPResponse(resp, status, headers, body)`: the request line, then
      the sections asked for, in that order. */
  function DisplayHttpResponse(json: Json, resp: Option<Response>, status: bool, headers: bool, body: bool): (trace: seq<Event>)
    ensures resp.None? ==> trace == [Crash]
    ensures resp.Some? ==> Crash !in trace && |trace| >= 1 && trace[0] == RequestLine(resp.value.verb, resp.value.url)
    ensures resp.Some? ==> (StatusTable(HttpStatusFunc(resp.value.statusCode), resp.value.status) in trace <==> status)
    ensures resp.Some? ==> (HeaderTable(resp.value.header) in trace <==> headers)
    ensures resp.Some? && !body ==> |trace| == 1 + (if status then 1 else 0) + (if headers then 1 else 0)
  {
    match resp
    case None => [Crash]
    case Some(r) =>
      [RequestLine(r.verb, r.url)]
      + (if status then [StatusTable(HttpStatusFunc(r.statusCode), r.status)] else [])
      + (if headers then [HeaderTable(r.header)] else [])
      + (if body then BodySection(json, r) else [])
  }

  /** Everything: status, headers and body. */
  function Full(json: Json, resp: Option<Response>): seq<Event> {
    DisplayHttpResponse(json, resp, true, true, true)
  }

  /** The request line and the status only. */
  function StatusOnly(json: Json, resp: Option<Response>): seq<Event> {
    DisplayHttpResponse(json, resp, true, false, false)
  }

  /** `standardHTTPResponse(resp, err)`. */
  function StandardHttpResponse(json: Json, resp: Option<Response>, err: Option<string>,
                                debug: bool, verbose: bool): (trace: seq<Event>)
    ensures err.None? && debug ==> trace == Full(json, resp)
    ensures err.None? && !debug && verbose ==> trace == StatusOnly(json, resp)
    ensures err.None? && !debug && !verbose ==> trace == []
    ensures err.Some? ==> trace == AndThen(Full(json, resp), [CmdError(err.value)])
  {
    if err.None? then
      if debug then Full(json, resp)
      else if verbose then StatusOnly(json, resp)
      else []
    else AndThen(Full(json, resp), [CmdError(err.value)])
  }

  /** `render(renderFunc, resp, err)`: `renderFunc` is None when nil. */
  function Render(json: Json, renderFunc: Option<Action>, resp: Option<Response>, err: Option<string>,
                  debug: bool, verbose: bool): (trace: seq<Event>)
    ensures err.None? ==>
              trace == AndThen(StandardHttpResponse(json, resp, err, debug, verbose),
                               if renderFunc.Some? then renderFunc.value() else [])
    ensures err.Some? ==> trace == StandardHttpResponse(json, resp, err, debug, verbose)
  {
    if err.None? then
      AndThen(StandardHttpResponse(json, resp, err, debug, verbose),
              if renderFunc.Some? then renderFunc.value() else [])
    else AndThen(Full(json, resp), [CmdError(err.value)])
  }

  /** `List(d, resp, err)` and `Describe(d, resp, err)`: `d` is the object's
      printing method, None for a nil object. */
  function List(json: Json, d: Option<Action>, resp: Option<Response>, err: Option<string>,
                debug: bool, verbose: bool): (trace: seq<Event>)
    ensures d.None? ==> trace == StandardHttpResponse(json, resp, err, debug, verbose)
    ensures d.Some? ==> trace == Render(json, d, resp, err, debug, verbose)
  {
    if d.Some? then Render(json, d, resp, err, debug, verbose)
    else StandardHttpResponse(json, resp, err, debug, verbose)
  }

  /** `doHTTPResponse(resp, err)`: for the direct HTTP commands. */
  function DoHttpResponse(json: Json, resp: Option<Response>, err: Option<string>, verbose: bool): (trace: seq<Event>)
    ensures err.Some? ==> trace == [CmdError(err.value)]
    ensures err.None? && verbose ==> trace == Full(json, resp)
    ensures err.None? && !verbose ==> trace == StatusOnly(json, resp)
  {
    if err.None? then
      if verbose then Full(json, resp) else StatusOnly(json, resp)
    else [CmdError(err.value)]
  }

  /** The placeholder is applied at most once: applying it again changes nothing. */
  lemma CheckForEmptyStringIdempotent(s: string)
    ensures CheckForEmptyString(CheckForEmptyString(s)) == CheckForEmptyString(s)
  {
  }

  /** Both revisions of `httpStatusFunc` colour every status alike. */
  lemma StatusColoursAgree(code: int)
    ensures HttpStatusFunc(code) == Decorate.HttpStatusFunc(code)
  {
  }

  /** With an error, the object's printer is never called: the trace holds none
      of its output, and it ends with the error line once the response was
      shown. */
  lemma ErrorSkipsRenderer(json: Json, d: Action, resp: Response, err: string,
                            debug: bool, verbose: bool)
    ensures var trace := Render(json, Some(d), Some(resp), Some(err), debug, verbose);
            && (forall e :: e in trace ==> !e.Output?)
            && trace[|trace| - 1] == CmdError(err)
  {
  }

  /** Without an error, the object is printed after the standard response, and
      with neither debug nor verbose set it is all that is printed. */
  lemma SuccessRunsRenderer(json: Json, d: Action, resp: Response, debug: bool, verbose: bool)
    ensures var trace := Render(json, Some(d), Some(resp), None, debug, verbose);
            var std := StandardHttpResponse(json, Some(resp), None, debug, verbose);
            && trace == std + d()
            && (!debug && !verbose ==> trace == d())
  {
  }

  /** The body is indented only when the Content-Type is exactly
      "application/json": any other type is printed as read, even a body that
      is valid JSON. */
  lemma JsonOnlyByContentType(json: Json, r: Response)
    requires r.body.Ok?
    ensures var trace := BodySection(json, r);
            (exists pretty :: trace == [Body(pretty)] && pretty != r.body.value) ==> ContentType(r) == HubHttp.JsonMediaType
    ensures ContentType(r) != HubHttp.JsonMediaType ==> BodySection(json, r) == [Body(r.body.value)]
  {
  }

  /** Verbose without debug shows the request line and status and nothing else;
      debug shows all three sections. */
  lemma StandardSections(json: Json, r: Response, verbose: bool)
    ensures StandardHttpResponse(json, Some(r), None, false, true) ==
              [RequestLine(r.verb, r.url), StatusTable(HttpStatusFunc(r.statusCode), r.status)]
    ensures var t := StandardHttpResponse(json, Some(r), None, true, verbose);
            && t[..3] == [RequestLine(r.verb, r.url), StatusTable(HttpStatusFunc(r.statusCode), r.status),
                          HeaderTable(r.header)]
            && t[3..] == BodySection(json, r)
  {
  }

  /** A transport failure comes back as an error with no response. The error
      path shows the response first, so the command crashes before the error is
      printed, whatever the settings: the user never sees why the call failed. */
  lemma TransportErrorCrashes(json: Json, d: Option<Action>, err: string, debug: bool, verbose: bool)
    ensures List(json, d, None, Some(err), debug, verbose) == [Crash]
    ensures CmdError(err) !in List(json, d, None, Some(err), debug, verbose)
  {
  }
}
