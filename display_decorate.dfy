/** The decorator pipeline of cmd/displpay_decorate.go. A decorator takes the
    `func()` that prints an object and returns one that first prints part of the
    HTTP exchange or the error and then calls it. `Render` picks the pipeline
    from the debug and verbose settings and whether there was an error. */
module Decorate {
  import opened Wrappers
  import opened Term
  import opened Screen

  /** `httpStatusFunc`: the colour a status is printed in. */
  function HttpStatusFunc(code: int): (c: StatusColour)
    ensures c == Success <==> code < 300
    ensures c == Warn <==> 300 <= code < 400
    ensures c == Fail <==> 400 <= code
  {
    if code < 300 then Success
    else if code < 400 then Warn
    else Fail
  }

  /** The events the decorators print themselves: none is the error line or a
      line of the object's own output. */
  ghost predicate HttpOnly(trace: seq<Event>) {
    forall e :: e in trace ==> !e.ErrorLine? && !e.Output?
  }

  /** `prettyPrintBody`: an indentable body is printed indented, after its
      `message` member when that is present and non-empty; any other body is
      printed as read, followed by the indentation error. */
  function PrettyPrintBody(json: Json, body: string): (r: seq<Event>)
    ensures HttpOnly(r)
    ensures json.indent(body).Err? ==> r == [RawBody(body), JsonError(json.indent(body).message)]
    ensures 1 <= |r| <= 2
    ensures json.indent(body).Ok? ==> r[|r| - 1] == JsonBody(json.indent(body).value)
    ensures json.indent(body).Ok? ==> (|r| == 2 <==> r[0].MessageLine?)
    ensures r[0].MessageLine? <==>
              json.indent(body).Ok? && json.message(body).Ok? && json.message(body).value != ""
    ensures r[0].MessageLine? ==> json.message(body).Ok? && r[0] == MessageLine(json.message(body).value)
  {
    match json.indent(body)
    case Ok(pretty) =>
      var m := json.message(body);
      (if m.Ok? && m.value != "" then [MessageLine(m.value)] else []) + [JsonBody(pretty)]
    case Err(reason) => [RawBody(body), JsonError(reason)]
  }

  /** Whether a decorator goes on to print the body: it was read and the status
      is not 204 No Content. */
  predicate BodyShown(r: Response) {
    r.body.Ok? && r.statusCode != NoContent
  }

  /** What `shortHTTPDecorate` prints: the status line and the pretty-printed body. */
  function ShortSection(json: Json, resp: Option<Response>): (r: seq<Event>)
    ensures HttpOnly(r)
    ensures resp.None? ==> r == [NilResponse]
    ensures |r| >= 1
    ensures resp.Some? ==> r[0] == StatusLine(HttpStatusFunc(resp.value.statusCode), resp.value.status)
    ensures resp.Some? ==> (|r| > 1 <==> BodyShown(resp.value))
    ensures resp.Some? && BodyShown(resp.value) ==> r[1..] == PrettyPrintBody(json, resp.value.body.value)
  {
    match resp
    case None => [NilResponse]
    case Some(rsp) =>
      [StatusLine(HttpStatusFunc(rsp.statusCode), rsp.status)]
      + (if BodyShown(rsp) then PrettyPrintBody(json, rsp.body.value) else [])
  }

  /** What `errorHTTPDecorate` prints: the status line and, when the body carries
      a non-empty `message` member, that message. */
  function ErrorHttpSection(json: Json, resp: Option<Response>): (r: seq<Event>)
    ensures HttpOnly(r)
    ensures resp.None? ==> r == [NilResponse]
    ensures |r| >= 1
    ensures resp.Some? ==> r[0] == StatusLine(HttpStatusFunc(resp.value.statusCode), resp.value.status)
    ensures resp.Some? ==> (|r| == 2 <==> BodyShown(resp.value) && json.message(resp.value.body.value).Ok?
                                          && json.message(resp.value.body.value).value != "")
    ensures |r| <= 2
    ensures |r| == 2 ==> resp.Some? && resp.value.body.Ok? && json.message(resp.value.body.value).Ok?
                         && r[1] == MessageLine(json.message(resp.value.body.value).value)
  {
    match resp
    case None => [NilResponse]
    case Some(rsp) =>
      var m := if BodyShown(rsp) then json.message(rsp.body.value) else Err("");
      [StatusLine(HttpStatusFunc(rsp.statusCode), rsp.status)]
      + (if m.Ok? && m.value != "" then [MessageLine(m.value)] else [])
  }

  /** What `httpDecorate` prints: the status table, the header table and the
      pretty-printed body, or the body read error (which for a 204 answer is
      `<nil>`). */
  function FullSection(json: Json, resp: Option<Response>): (r: seq<Event>)
    ensures HttpOnly(r)
    ensures resp.None? ==> r == [NilResponse]
    ensures resp.Some? ==> |r| >= 3
    ensures resp.Some? ==> r[..2] == [StatusTable(HttpStatusFunc(resp.value.statusCode), resp.value.status),
                                      HeaderTable(resp.value.header)]
    ensures resp.Some? && BodyShown(resp.value) ==> r[2..] == PrettyPrintBody(json, resp.value.body.value)
    ensures resp.Some? && !BodyShown(resp.value) ==>
              r[2..] == [BodyReadError(if resp.value.body.Err? then Some(resp.value.body.message) else None)]
  {
    match resp
    case None => [NilResponse]
    case Some(rsp) =>
      [StatusTable(HttpStatusFunc(rsp.statusCode), rsp.status), HeaderTable(rsp.header)]
      + (if BodyShown(rsp) then PrettyPrintBody(json, rsp.body.value)
         else [BodyReadError(if rsp.body.Err? then Some(rsp.body.message) else None)])
  }

  /** What `errorDecorate` prints: the error line when there is an error. */
  function ErrorPart(err: Option<string>): (r: seq<Event>)
    ensures err.None? <==> r == []
    ensures err.Some? ==> r == [ErrorLine(err.value)]
  {
    if err.Some? then [ErrorLine(err.value)] else []
  }

  /** `errorDecorate(f, err)`. */
  function ErrorDecorate(f: Action, err: Option<string>): (g: Action)
    ensures g() == ErrorPart(err) + f()
  {
    () => ErrorPart(err) + f()
  }

  /** `shortHTTPDecorate(f, resp)`. */
  function ShortHttpDecorate(json: Json, f: Action, resp: Option<Response>): (g: Action)
    ensures g() == ShortSection(json, resp) + f()
  {
    () => ShortSection(json, resp) + f()
  }

  /** `errorHTTPDecorate(f, resp)`. */
  function ErrorHttpDecorate(json: Json, f: Action, resp: Option<Response>): (g: Action)
    ensures g() == ErrorHttpSection(json, resp) + f()
  {
    () => ErrorHttpSection(json, resp) + f()
  }

  /** `httpDecorate(f, resp)`. */
  function HttpDecorate(json: Json, f: Action, resp: Option<Response>): (g: Action)
    ensures g() == FullSection(json, resp) + f()
  {
    () => FullSection(json, resp) + f()
  }

  /** The HTTP part of what `render` prints, by the branch it takes. */
  function HttpPart(json: Json, resp: Option<Response>, err: Option<string>, debug: bool, verbose: bool): seq<Event>
  {
    if debug then FullSection(json, resp)
    else if verbose then ShortSection(json, resp)
    else if err.None? then []
    else ErrorHttpSection(json, resp)
  }

  /** `render(renderer, resp, err)`: build the pipeline and call it. */
  function Render(json: Json, renderer: Action, resp: Option<Response>, err: Option<string>,
                  debug: bool, verbose: bool): (trace: seq<Event>)
    ensures trace == HttpPart(json, resp, err, debug, verbose) + ErrorPart(err) + renderer()
  {
    if debug then HttpDecorate(json, ErrorDecorate(renderer, err), resp)()
    else if verbose then ShortHttpDecorate(json, ErrorDecorate(renderer, err), resp)()
    else if err.None? then ErrorDecorate(renderer, err)()
    else ErrorHttpDecorate(json, ErrorDecorate(renderer, err), resp)()
  }

  /** `List(d, resp, err)` and `Describe(d, resp, err)`: `d` is the object's
      printing method, None for a nil object. */
  function List(json: Json, d: Option<Action>, resp: Option<Response>, err: Option<string>,
                debug: bool, verbose: bool): (trace: seq<Event>)
    ensures d.None? ==> trace == Display(json, resp, err, debug, verbose)
    ensures d.Some? ==> trace == Render(json, d.value, resp, err, debug, verbose)
  {
    Render(json, if d.Some? then d.value else Noop, resp, err, debug, verbose)
  }

  /** `Display(resp, err)`: only the decoration. */
  function Display(json: Json, resp: Option<Response>, err: Option<string>, debug: bool, verbose: bool): (trace: seq<Event>)
    ensures trace == HttpPart(json, resp, err, debug, verbose) + ErrorPart(err)
    ensures forall e :: e in trace ==> !e.Output?
  {
    Render(json, Noop, resp, err, debug, verbose)
  }

  /** `httpDisplay(resp, err)`: the full HTTP section and the error line, whatever
      the settings. */
  function HttpDisplay(json: Json, resp: Option<Response>, err: Option<string>): (trace: seq<Event>)
    ensures forall verbose :: trace == Display(json, resp, err, true, verbose)
  {
    HttpDecorate(json, ErrorDecorate(Noop, err), resp)()
  }

  /** Every pipeline prints its HTTP part, then the error line, then the object:
      the object's printer runs once, last, and with or without an error. */
  lemma RenderOrder(json: Json, renderer: Action, resp: Option<Response>, err: Option<string>,
                    debug: bool, verbose: bool)
    ensures var trace := Render(json, renderer, resp, err, debug, verbose);
            var n := |HttpPart(json, resp, err, debug, verbose)|;
            && |trace| == n + |ErrorPart(err)| + |renderer()|
            && HttpOnly(trace[..n])
            && trace[n..n + |ErrorPart(err)|] == ErrorPart(err)
            && trace[n + |ErrorPart(err)|..] == renderer()
  {
  }

  /** The error line is printed exactly when there is an error, and exactly
      once, provided the object prints only its own output. */
  lemma {:induction false} ErrorLineIffError(json: Json, renderer: Action, resp: Option<Response>, err: Option<string>,
                                             debug: bool, verbose: bool, message: string)
    requires OnlyOutput(renderer())
    ensures multiset(Render(json, renderer, resp, err, debug, verbose))[ErrorLine(message)] ==
              if err == Some(message) then 1 else 0
  {
    var h := HttpPart(json, resp, err, debug, verbose);
    assert HttpOnly(h);
    assert ErrorLine(message) !in h;
    assert ErrorLine(message) !in renderer();
    assert multiset(h + ErrorPart(err) + renderer()) == multiset(h) + multiset(ErrorPart(err)) + multiset(renderer());
  }

  /** Each line of the object's output appears in the trace exactly as often as
      the object prints it: the printer is called exactly once. */
  lemma {:induction false} RendererRunsOnce(json: Json, renderer: Action, resp: Option<Response>, err: Option<string>,
                                            debug: bool, verbose: bool, text: string)
    ensures multiset(Render(json, renderer, resp, err, debug, verbose))[Output(text)] ==
              multiset(renderer())[Output(text)]
  {
    var h := HttpPart(json, resp, err, debug, verbose);
    assert HttpOnly(h);
    assert Output(text) !in h;
    assert Output(text) !in ErrorPart(err);
    assert multiset(h + ErrorPart(err) + renderer()) == multiset(h) + multiset(ErrorPart(err)) + multiset(renderer());
  }

  /** Debug takes precedence over verbose: with debug set the full HTTP section
      is printed whatever verbose says; verbose alone gives the one-line status;
      with neither, a successful call prints only the object. */
  lemma RenderPrecedence(json: Json, renderer: Action, resp: Option<Response>, err: Option<string>, verbose: bool)
    ensures Render(json, renderer, resp, err, true, verbose) == FullSection(json, resp) + ErrorPart(err) + renderer()
    ensures Render(json, renderer, resp, err, false, true) == ShortSection(json, resp) + ErrorPart(err) + renderer()
    ensures err.None? ==> Render(json, renderer, resp, err, false, false) == renderer()
    ensures err.Some? ==> Render(json, renderer, resp, err, false, false) ==
                            ErrorHttpSection(json, resp) + ErrorPart(err) + renderer()
  {
  }

  /** With no response, a pipeline that shows HTTP prints "Nil HTTP Response." in
      its place, and the error line and the object still follow. */
  lemma NilResponseStillRuns(json: Json, renderer: Action, err: Option<string>, debug: bool, verbose: bool)
    ensures (debug || verbose || err.Some?) ==>
              Render(json, renderer, None, err, debug, verbose) == [NilResponse] + ErrorPart(err) + renderer()
    ensures !(debug || verbose || err.Some?) ==>
              Render(json, renderer, None, err, debug, verbose) == renderer()
  {
  }

  /** A 204 No Content answer never has its body printed; the full section
      prints "Body Read Error: <nil>" in its place. */
  lemma NoContentSkipsBody(json: Json, resp: Response, err: Option<string>, debug: bool, verbose: bool)
    requires resp.statusCode == NoContent
    ensures var h := HttpPart(json, Some(resp), err, debug, verbose);
            forall e :: e in h ==> !e.JsonBody? && !e.RawBody? && !e.MessageLine? && !e.JsonError?
    ensures FullSection(json, Some(resp)) ==
              [StatusTable(Success, resp.status), HeaderTable(resp.header),
               BodyReadError(if resp.body.Err? then Some(resp.body.message) else None)]
  {
  }

  /** A transport failure comes back as an error with no response: the pipeline
      says there was no response, prints the error, and still calls the object's
      printer, whatever the settings. */
  lemma TransportErrorReported(json: Json, d: Option<Action>, err: string, debug: bool, verbose: bool)
    ensures var trace := List(json, d, None, Some(err), debug, verbose);
            && trace[..2] == [NilResponse, ErrorLine(err)]
            && trace[2..] == (if d.Some? then d.value() else [])
  {
  }
}
