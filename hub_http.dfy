/** The HTTP layer of the `jupyterhub` package: building an authorised request
    from a connection, sending it, turning a status of 300 or more into an error
    with a hint, and decoding the body into the caller's result.

    The network (`hubClient.Do`), JSON marshalling and JSON decoding are library
    calls; they are parameters here (`transport`, `marshal`, `decode`). */
module HubHttp {
  import opened Wrappers
  import opened JupyterHub

  const MethodGet := "GET"
  const MethodPost := "POST"
  const MethodDelete := "DELETE"
  const MethodPatch := "PATCH"

  const StatusUnauthorized := 401
  const StatusForbidden := 403
  const StatusNotFound := 404

  const NotFoundHint := "Check for valid argument (user, group etc)."
  const UnauthorizedHint := "Check for valid token."
  const ForbiddenHint := "Check for valid token and token user must be an admin"

  const AuthorizationHeader := "Authorization"
  const ContentTypeHeader := "Content-Type"
  const JsonMediaType := "application/json"

  /** Header values by canonical header name, in the order they were added. */
  type Header = map<string, seq<string>>

  /** An outgoing request. `body` is None when the request has no body. */
  datatype Request = Request(verb: string, url: string, header: Header, body: Option<string>)

  /** What the transport hands back: the status code, the status line text
      (such as "404 Not Found") and the outcome of reading the body. */
  datatype Reply = Reply(statusCode: int, status: string, body: Result<string>)

  /** A response together with the request that produced it. */
  datatype Response = Response(request: Request, statusCode: int, status: string, body: Result<string>)

  /** The `content` argument of Send: nil, a string sent as it is, or any other
      value, which is JSON-marshalled. */
  datatype Content<T> = NoContent | Text(text: string) | Object(value: T)

  /** Everything one call of Send produces: the request that went out (None when
      none did), the response, the error, and what was decoded into `result`. */
  datatype Exchange<R> = Exchange(sent: Option<Request>, resp: Option<Response>, err: Option<string>,
                                  decoded: Option<R>)

  /** `Header.Add`: append a value under a key. */
  function AddHeader(h: Header, key: string, value: string): (r: Header)
    ensures r.Keys == h.Keys + {key}
    ensures r[key] == (if key in h then h[key] else []) + [value]
    ensures forall k :: k in h && k != key ==> r[k] == h[k]
  {
    h[key := (if key in h then h[key] else []) + [value]]
  }

  /** The remediation hint `checkReturnCode` attaches to a failing status. */
  function Hint(statusCode: int): (hint: string)
  {
    if statusCode == StatusNotFound then NotFoundHint
    else if statusCode == StatusUnauthorized then UnauthorizedHint
    else if statusCode == StatusForbidden then ForbiddenHint
    else ""
  }

  const ErrorPrefix := "HTTP Request "
  const ErrorMiddle := ", HTTP Response: "

  /** `httpErrorMesg`: "HTTP Request <method>:<url>, HTTP Response: <status>. <message>". */
  function HttpErrorMesg(resp: Response, message: string): (text: string)
    ensures |text| == |ErrorPrefix| + |resp.request.verb| + 1 + |resp.request.url|
                      + |ErrorMiddle| + |resp.status| + 2 + |message|
  {
    ErrorPrefix + resp.request.verb + ":" + resp.request.url + ErrorMiddle + resp.status + ". " + message
  }

  /** `httpError`: the error text with an empty hint. It ends with the ". "
      separator, and every hinted text is this text followed by its hint. */
  function HttpError(resp: Response): (text: string)
    ensures |text| >= 2 && text[|text| - 2..] == ". "
    ensures forall hint :: HttpErrorMesg(resp, hint) == text + hint
  {
    HttpErrorMesg(resp, "")
  }

  /** `checkReturnCode`: no error below 300; from 300 on an error whose text names
      the request and the status and carries the hint for 404, 401 or 403. */
  function CheckReturnCode(resp: Response): (err: Option<string>)
    ensures err.None? <==> resp.statusCode < 300
    ensures err.Some? ==> err.value == HttpErrorMesg(resp, Hint(resp.statusCode))
  {
    if resp.statusCode >= 300 then
      if resp.statusCode == StatusNotFound then Some(HttpErrorMesg(resp, NotFoundHint))
      else if resp.statusCode == StatusUnauthorized then Some(HttpErrorMesg(resp, UnauthorizedHint))
      else if resp.statusCode == StatusForbidden then Some(HttpErrorMesg(resp, ForbiddenHint))
      else Some(HttpError(resp))
    else None
  }

  /** The hint table: 404 asks to check the argument, 401 the token, 403 the
      token's admin rights, and every other failing status gets no hint. */
  lemma HintsByStatus(resp: Response)
    ensures resp.statusCode == 404 ==> CheckReturnCode(resp) == Some(HttpErrorMesg(resp, NotFoundHint))
    ensures resp.statusCode == 401 ==> CheckReturnCode(resp) == Some(HttpErrorMesg(resp, UnauthorizedHint))
    ensures resp.statusCode == 403 ==> CheckReturnCode(resp) == Some(HttpErrorMesg(resp, ForbiddenHint))
    ensures (resp.statusCode >= 300 && resp.statusCode !in {401, 403, 404}) ==>
              CheckReturnCode(resp) == Some(HttpErrorMesg(resp, ""))
  {
  }

  /** The error text holds, in this order and each at a fixed place, the request
      method, the request URL, the status line and the hint. */
  lemma ErrorTextLayout(resp: Response, message: string)
    ensures var text := HttpErrorMesg(resp, message);
            var m, u, s := resp.request.verb, resp.request.url, resp.status;
            var p1 := |ErrorPrefix|;
            var p2 := p1 + |m| + 1;
            var p3 := p2 + |u| + |ErrorMiddle|;
            var p4 := p3 + |s| + 2;
            && text[..p1] == ErrorPrefix
            && text[p1..p1 + |m|] == m
            && text[p2..p2 + |u|] == u
            && text[p3..p3 + |s|] == s
            && text[p4..] == message
  {
  }

  /** Different hints give different error texts for the same response, so the
      text tells a 404 from a 401, a 403 and any other failure. */
  lemma {:induction false} ErrorTextDeterminesHint(resp: Response, h1: string, h2: string)
    requires HttpErrorMesg(resp, h1) == HttpErrorMesg(resp, h2)
    ensures h1 == h2
  {
    ErrorTextLayout(resp, h1);
    ErrorTextLayout(resp, h2);
  }

  /** `newRequest`: the URL is the connection's hub URL followed by `cmd`, and the
      only header is `Authorization: token <token>`. */
  method NewRequest(conn: Connection, verb: string, cmd: string, body: Option<string>)
    returns (req: Request)
    ensures req.verb == verb && req.url == conn.hubURL + cmd && req.body == body
    ensures req.header == map[AuthorizationHeader := ["token " + conn.token]]
  {
    req := Request(verb, conn.hubURL + cmd, map[], body);
    req := req.(header := AddHeader(req.header, AuthorizationHeader, "token " + conn.token));
    assert [] + ["token " + conn.token] == ["token " + conn.token];
  }

  /** The value `sendReq` computes: send; on a transport error return it with no
      response; otherwise check the status, and only when a result is wanted and
      the status passed, read the body and decode it. A decoding failure is
      dropped; a body read failure is returned. */
  function SendReqSpec<R>(req: Request, wantResult: bool, transport: Request -> Result<Reply>,
                          decode: string -> Result<R>): (x: Exchange<R>)
    ensures x.sent == Some(req)
    ensures transport(req).Err? ==> x.resp.None? && x.err == Some(transport(req).message) && x.decoded.None?
    ensures transport(req).Ok? ==>
              x.resp == Some(Response(req, transport(req).value.statusCode, transport(req).value.status,
                                      transport(req).value.body))
    ensures x.decoded.Some? ==> wantResult && x.err.None? && x.resp.Some? && x.resp.value.statusCode < 300
    ensures x.decoded.Some? ==> x.resp.value.body.Ok? && decode(x.resp.value.body.value) == Ok(x.decoded.value)
    ensures x.resp.Some? && x.resp.value.statusCode >= 300 ==> x.err == CheckReturnCode(x.resp.value)
    ensures x.resp.Some? && x.resp.value.statusCode < 300 ==>
              if wantResult && x.resp.value.body.Err? then x.err == Some(x.resp.value.body.message) && x.decoded.None?
              else x.err.None? && (x.decoded.Some? <==> wantResult && decode(x.resp.value.body.value).Ok?)
  {
    match transport(req)
    case Err(e) => Exchange(Some(req), None, Some(e), None)
    case Ok(reply) =>
      var resp := Response(req, reply.statusCode, reply.status, reply.body);
      var check := CheckReturnCode(resp);
      if wantResult && check.None? then
        match resp.body
        case Err(readError) => Exchange(Some(req), Some(resp), Some(readError), None)
        case Ok(text) =>
          var decoded := if decode(text).Ok? then Some(decode(text).value) else None;
          Exchange(Some(req), Some(resp), None, decoded)
      else
        Exchange(Some(req), Some(resp), check, None)
  }

  /** `sendReq` with its `unmarshal` step. Debug and verbose dumps are left out. */
  method SendReq<R>(req: Request, wantResult: bool, transport: Request -> Result<Reply>,
                    decode: string -> Result<R>)
    returns (resp: Option<Response>, err: Option<string>, decoded: Option<R>)
    ensures Exchange(Some(req), resp, err, decoded) == SendReqSpec(req, wantResult, transport, decode)
  {
    decoded := None;
    var reply := transport(req);
    if reply.Err? {
      resp, err := None, Some(reply.message);
    } else {
      var r := Response(req, reply.value.statusCode, reply.value.status, reply.value.body);
      resp := Some(r);
      err := CheckReturnCode(r);
      if wantResult {
        if err.None? {
          // unmarshal: a read error is returned, a decoding error is not
          if r.body.Err? {
            err := Some(r.body.message);
          } else {
            var d := decode(r.body.value);
            if d.Ok? {
              decoded := Some(d.value);
            }
          }
        }
      }
    }
  }

  /** The value `Send` computes: no content means no body and no Content-Type; a
      string is the body as it is; anything else is marshalled, and when that
      fails nothing is sent. Every request with content carries
      `Content-Type: application/json`. */
  function SendSpec<T, R>(conn: Connection, verb: string, cmd: string, content: Content<T>, wantResult: bool,
                          transport: Request -> Result<Reply>, marshal: T -> Result<string>,
                          decode: string -> Result<R>): (x: Exchange<R>)
  {
    var base := map[AuthorizationHeader := ["token " + conn.token]];
    match content
    case NoContent =>
      SendReqSpec(Request(verb, conn.hubURL + cmd, base, None), wantResult, transport, decode)
    case Text(s) =>
      var h := AddHeader(base, ContentTypeHeader, JsonMediaType);
      SendReqSpec(Request(verb, conn.hubURL + cmd, h, Some(s)), wantResult, transport, decode)
    case Object(v) =>
      match marshal(v)
      case Err(e) => Exchange(None, None, Some(e), None)
      case Ok(b) =>
        var h := AddHeader(base, ContentTypeHeader, JsonMediaType);
        SendReqSpec(Request(verb, conn.hubURL + cmd, h, Some(b)), wantResult, transport, decode)
  }

  /** `Connection.Send`, step by step: marshal, build, add Content-Type, send. */
  method Send<T, R>(conn: Connection, verb: string, cmd: string, content: Content<T>, wantResult: bool,
                    transport: Request -> Result<Reply>, marshal: T -> Result<string>,
                    decode: string -> Result<R>)
    returns (x: Exchange<R>)
    ensures x == SendSpec(conn, verb, cmd, content, wantResult, transport, marshal, decode)
  {
    if content.NoContent? {
      var req := NewRequest(conn, verb, cmd, None);
      var resp, err, decoded := SendReq(req, wantResult, transport, decode);
      x := Exchange(Some(req), resp, err, decoded);
    } else {
      var b: string;
      var err: Option<string> := None;
      if content.Text? {
        b := content.text;
      } else {
        var m := marshal(content.value);
        if m.Ok? {
          b := m.value;
        } else {
          b := "";
          err := Some(m.message);
        }
      }
      if err.None? {
        var req := NewRequest(conn, verb, cmd, Some(b));
        req := req.(header := AddHeader(req.header, ContentTypeHeader, JsonMediaType));
        var resp, decoded;
        resp, err, decoded := SendReq(req, wantResult, transport, decode);
        x := Exchange(Some(req), resp, err, decoded);
      } else {
        x := Exchange(None, None, err, None);
      }
    }
  }

  /** Body handling of Send: what goes out for each kind of content. */
  lemma SendBody<T, R>(conn: Connection, verb: string, cmd: string, content: Content<T>, wantResult: bool,
                       transport: Request -> Result<Reply>, marshal: T -> Result<string>,
                       decode: string -> Result<R>)
    ensures var x := SendSpec(conn, verb, cmd, content, wantResult, transport, marshal, decode);
            && (content.NoContent? ==> x.sent.Some? && x.sent.value.body.None?)
            && (content.Text? ==> x.sent.Some? && x.sent.value.body == Some(content.text))
            && (content.Object? && marshal(content.value).Ok? ==>
                  x.sent.Some? && x.sent.value.body == Some(marshal(content.value).value))
            && (x.sent.Some? ==> x.sent.value.verb == verb && x.sent.value.url == conn.hubURL + cmd
                                 && x.sent.value.header[AuthorizationHeader] == ["token " + conn.token])
  {
  }

  /** A request that goes out carries `Content-Type: application/json` exactly
      when there is content, and then as its only value. */
  lemma SendContentType<T, R>(conn: Connection, verb: string, cmd: string, content: Content<T>, wantResult: bool,
                              transport: Request -> Result<Reply>, marshal: T -> Result<string>,
                              decode: string -> Result<R>)
    ensures var x := SendSpec(conn, verb, cmd, content, wantResult, transport, marshal, decode);
            x.sent.Some? ==>
              && (ContentTypeHeader in x.sent.value.header <==> !content.NoContent?)
              && (!content.NoContent? ==> x.sent.value.header[ContentTypeHeader] == [JsonMediaType])
  {
  }

  /** A marshalling failure sends nothing: no request, no response, the error. */
  lemma MarshalFailureSendsNothing<T, R>(conn: Connection, verb: string, cmd: string, v: T, wantResult: bool,
                                         transport: Request -> Result<Reply>, marshal: T -> Result<string>,
                                         decode: string -> Result<R>)
    requires marshal(v).Err?
    ensures SendSpec(conn, verb, cmd, Object(v), wantResult, transport, marshal, decode)
            == Exchange(None, None, Some(marshal(v).message), None)
  {
  }

  /** The status is checked before decoding: a failing status is reported and
      nothing is decoded; a passing one with a readable body and a wanted result
      decodes exactly when the decoder succeeds, and the error stays nil even if
      decoding fails. */
  lemma StatusCheckedBeforeDecode<R>(req: Request, wantResult: bool, transport: Request -> Result<Reply>,
                                     decode: string -> Result<R>)
    requires transport(req).Ok?
    ensures var x := SendReqSpec(req, wantResult, transport, decode);
            var reply := transport(req).value;
            && (reply.statusCode >= 300 ==> x.decoded.None? && x.err.Some?)
            && (reply.statusCode < 300 && !wantResult ==> x.decoded.None? && x.err.None?)
            && (reply.statusCode < 300 && wantResult && reply.body.Ok? ==>
                  x.err.None? && (x.decoded.Some? <==> decode(reply.body.value).Ok?))
            && (reply.statusCode < 300 && wantResult && reply.body.Err? ==>
                  x.err == Some(reply.body.message) && x.decoded.None?)
  {
  }

  /** `Get`: Send with GET and no content. */
  method Get<R>(conn: Connection, cmd: string, wantResult: bool, transport: Request -> Result<Reply>,
                decode: string -> Result<R>)
    returns (x: Exchange<R>)
    ensures x == SendSpec<string, R>(conn, MethodGet, cmd, NoContent, wantResult, transport, _ => Ok(""), decode)
    ensures x.sent.Some? && x.sent.value.verb == "GET" && x.sent.value.body.None?
  {
    x := Send<string, R>(conn, MethodGet, cmd, NoContent, wantResult, transport, _ => Ok(""), decode);
  }

  /** `Post`: Send with POST. */
  method Post<T, R>(conn: Connection, cmd: string, content: Content<T>, wantResult: bool,
                    transport: Request -> Result<Reply>, marshal: T -> Result<string>,
                    decode: string -> Result<R>)
    returns (x: Exchange<R>)
    ensures x == SendSpec(conn, MethodPost, cmd, content, wantResult, transport, marshal, decode)
    ensures x.sent.Some? ==> x.sent.value.verb == "POST"
  {
    x := Send(conn, MethodPost, cmd, content, wantResult, transport, marshal, decode);
  }

  /** `Delete`: Send with DELETE. */
  method Delete<T, R>(conn: Connection, cmd: string, content: Content<T>, wantResult: bool,
                      transport: Request -> Result<Reply>, marshal: T -> Result<string>,
                      decode: string -> Result<R>)
    returns (x: Exchange<R>)
    ensures x == SendSpec(conn, MethodDelete, cmd, content, wantResult, transport, marshal, decode)
    ensures x.sent.Some? ==> x.sent.value.verb == "DELETE"
  {
    x := Send(conn, MethodDelete, cmd, content, wantResult, transport, marshal, decode);
  }

  /** `Patch`: Send with PATCH. */
  method Patch<T, R>(conn: Connection, cmd: string, content: Content<T>, wantResult: bool,
                     transport: Request -> Result<Reply>, marshal: T -> Result<string>,
                     decode: string -> Result<R>)
    returns (x: Exchange<R>)
    ensures x == SendSpec(conn, MethodPatch, cmd, content, wantResult, transport, marshal, decode)
    ensures x.sent.Some? ==> x.sent.value.verb == "PATCH"
  {
    x := Send(conn, MethodPatch, cmd, content, wantResult, transport, marshal, decode);
  }
}
