# sponde connection and display core, in Dafny

sponde is a command-line client for the JupyterHub REST API. This project
models four parts of it:

- The connection session. It tracks which named Hub connection is current and
  which durable connection a one-command flag override falls back to. It also
  decides whether API tokens are shown, masked or replaced by a placeholder.
  There are two revisions of this logic:
  - `cmd/connection.go`, modelled in module `CmdConnection`;
  - the older `config/connection..go` with its `cmd/root.go` start-up
    sequence, modelled in module `ConfigConnection`.
- The OAuth parameter merge of `jupyterhub/connection.go`, in module
  `JupyterHub`.
- The HTTP layer of `jupyterhub/util.go`, in module `HubHttp`. It:
  - builds a request with `Authorization: token <token>`;
  - adds `Content-Type: application/json` when there is content;
  - checks the status (every status of 300 or more is an error, with a hint
    for 404, 401 and 403);
  - decodes the body into the caller's result only after the status check
    passed.
- How a command prints an HTTP answer. Printing is modelled as a trace of
  output events (module `Screen`). There are two revisions:
  - the decorator pipeline of `cmd/displpay_decorate.go`, modelled in module
    `Decorate`;
  - the older section selection of `cmd/util.go`, modelled in module
    `LegacyDisplay`.

## How state is modelled

Package-level variables that the Go code assigns are the fields of a class:
- `CmdConnection.Session` holds the current connection, the last durable
  connection, `showTokens` and the show-once flag.
- `ConfigConnection.ConfigSession` holds the current and the default
  connection.

Each state change is also a function from one `State` value to the next. Each
class method follows the Go statements one by one, and its postcondition says
that it computes that function. The lemmas about several steps are stated on
the functions.

`HubHttp.Response` and `Screen.Response` are two views of one `http.Response`.
The first keeps the request that was sent, for the error text and the status
check. The second keeps the response headers and only the method and URL of
the request, which is what the display prints. Both use the one pair of
Content-Type constants in `HubHttp`.

A Go nil-pointer dereference is modelled as an explicit outcome, and the
state is then unchanged:
- `Panic` in `CmdConnection`;
- `Crash` in the display traces.

The following are parameters of the model:
- Viper's configuration: a `Config` value.
- The map iteration order of `for k := range m`: a sequence required to
  enumerate the keys exactly once.
- The network: a `transport` function.
- `encoding/json`: `marshal`, `decode`, `indent` and `message` functions that
  may fail.

## Model

| member | source | states |
|---|---|---|
| JupyterHub.MergeAuth | jupyterhub/connection.go:31-41 | Each field of the result is the update's field when that is non-empty, else the receiver's. |
| JupyterHub.UpdateAuth | jupyterhub/connection.go:31-41 | The field-by-field assignments produce exactly MergeAuth. |
| JupyterHub.MergeEmptyIsIdentity | jupyterhub/connection.go:31-41 | An update with all fields empty changes nothing. |
| JupyterHub.MergeIdempotent | jupyterhub/connection.go:31-41 | Applying the same update twice equals applying it once. |
| JupyterHub.MergeComposes | jupyterhub/connection.go:31-41 | Two successive updates equal one update by the merge of the two, in which the later non-empty field wins. |
| JupyterHub.MergeFieldwise | jupyterhub/connection.go:31-41 | Client ID, secret and redirect URL are merged independently: each result field depends only on the same field of the inputs. |
| HubHttp.AddHeader | jupyterhub/util.go:140 | Header.Add appends the value under the key and leaves every other key unchanged. |
| HubHttp.HttpErrorMesg | jupyterhub/util.go:198-201 | The error text's length is the sum of its fixed parts, the method, URL, status and message. |
| HubHttp.HttpError | jupyterhub/util.go:198-205 | The hint-less error text ends with the ". " separator, and every hinted error text for the same response is this text followed by the hint. |
| HubHttp.CheckReturnCode | jupyterhub/util.go:181-196 | No error exactly when the status is below 300; otherwise the error text for this response carries the hint for its status. |
| HubHttp.HintsByStatus | jupyterhub/util.go:183-193 | 404, 401 and 403 each get their own hint; every other status of 300 or more gets none. |
| HubHttp.ErrorTextLayout | jupyterhub/util.go:198-201 | The text holds the prefix, method, URL, status and hint, in that order, each at a fixed position. |
| HubHttp.ErrorTextDeterminesHint | jupyterhub/util.go:181-201 | Equal error texts for one response imply equal hints, so the text tells the failure kinds apart. |
| HubHttp.NewRequest | jupyterhub/util.go:133-143 | The URL is the hub URL followed by the command, and the only header is `Authorization: token <token>`. |
| HubHttp.SendReqSpec | jupyterhub/util.go:86-129 | The request is always sent. On a transport error there is no response and the error is returned. Otherwise the response is the transport's reply to this request. A status of 300 or more yields CheckReturnCode's error. Below 300, a wanted result whose body could not be read returns the read error; otherwise there is no error, and a value is decoded exactly when a result is wanted and decoding succeeds. Anything decoded is what `decode` yields for the body. |
| HubHttp.SendReq | jupyterhub/util.go:86-129 | The step-by-step send, status check and unmarshal compute SendReqSpec. |
| HubHttp.Send | jupyterhub/util.go:35-59 | The step-by-step marshal, build, Content-Type and send compute SendSpec. |
| HubHttp.SendBody | jupyterhub/util.go:35-59 | No content means no body. A string is sent as it is. Another value is sent as its marshalled form. Every sent request has the connection's URL and token. |
| HubHttp.SendContentType | jupyterhub/util.go:51-55 | A sent request has Content-Type exactly when there is content, and then only `application/json`. |
| HubHttp.MarshalFailureSendsNothing | jupyterhub/util.go:48-57 | When marshalling fails, no request goes out, there is no response, and the marshalling error is returned. |
| HubHttp.StatusCheckedBeforeDecode | jupyterhub/util.go:120-125 | A failing status is reported and nothing is decoded. A passing status with a readable body and a wanted result decodes exactly when the decoder succeeds, with no error either way. A body read failure is the error. |
| HubHttp.Get | jupyterhub/util.go:62-64 | Get is Send with GET and no content, so it sends a GET request without a body. |
| HubHttp.Post | jupyterhub/util.go:67-69 | Post is Send with POST. |
| HubHttp.Delete | jupyterhub/util.go:72-74 | Delete is Send with DELETE. |
| HubHttp.Patch | jupyterhub/util.go:77-79 | Patch is Send with PATCH. |
| CmdConnection.Copy | cmd/connection.go:50-59 | The copy exists exactly when the wrapper's pointer is non-nil, and it equals the connection pointed to. |
| CmdConnection.CurrentConnection | cmd/connection.go:67-69 | There is a current connection exactly when one is set with a non-nil pointer, and it is that connection. |
| CmdConnection.GetConnectionFromConfig | cmd/connection.go:197-215 | Found exactly when the name is configured. The result carries that name and the entry's URL, token and auth. |
| CmdConnection.SetCurrent | cmd/connection.go:72-79 | Panics exactly when the current wrapper is nil, and then nothing changes. Otherwise `h` becomes current. `last` changes only to a durable previous current connection, and a durable previous current always becomes `last`. |
| CmdConnection.SetConnectionStep | cmd/connection.go:91-99 | Fails with "couldn't find connection" exactly when the name is unknown, and then nothing changes. A known name is a `setCurrentConnection` of the configured connection: it panics exactly when the current handle is nil, and on success the configured connection is current. The token-display flags never change. |
| CmdConnection.UpdateConnection | cmd/connection.go:111-135 | Name, URL and token are replaced by non-empty update fields. Each auth field is replaced only where the existing field is non-empty, even by an empty update value. |
| CmdConnection.UpdateConnectionErasesAuth | cmd/connection.go:124-133 | An update with an empty client ID erases a configured one. This differs from Auth.UpdateAuth's merge. |
| CmdConnection.Override | cmd/connection.go:105-109 | Succeeds exactly when there is a current connection, and otherwise panics with no change. The result is a flag override whose `last` is the durable connection, whose URL and token are the flag values where given, and whose auth is `updateConnection`'s merge. The token-display flags never change. |
| CmdConnection.Resolve | cmd/connection.go:228-257 | The `default` entry, else the entry `defaultConnection` names, else the fallback when that name is set. With neither, the result is a nil wrapper. |
| CmdConnection.Init | cmd/connection.go:223-271 | The first call makes the resolved default both current and last. Later calls panic exactly on a nil current wrapper, and otherwise succeed and make the durable connection current; no other outcome is possible. showTokens is read from the configuration once. |
| CmdConnection.ToggleShowTokensStep | cmd/connection.go:286-288 | Panics exactly when showTokens is unset. Otherwise it succeeds, negates showTokens and changes nothing else. |
| CmdConnection.SafeToken | cmd/connection.go:144-162 | An empty token gives the placeholder. A non-empty token is revealed exactly when the flags allow it, and otherwise is masked or empty. An unset showTokens panics. |
| CmdConnection.Session.constructor | cmd/connection.go:22-23 | The session starts with no current connection, a nil last, showTokens unset and show-once off. |
| CmdConnection.Session.GetCurrentConnection | cmd/connection.go:67-69 | Returns CurrentConnection of the session. |
| CmdConnection.Session.SetCurrentConnection | cmd/connection.go:72-79 | The new state and outcome are SetCurrent's. |
| CmdConnection.Session.SetConnection | cmd/connection.go:91-99 | The new state and outcome are SetConnectionStep's. |
| CmdConnection.Session.UpdateCurrentConnection | cmd/connection.go:105-109 | The new state and outcome are Override's. |
| CmdConnection.Session.InitConnections | cmd/connection.go:223-271 | The new state and outcome are Init's. |
| CmdConnection.Session.ToggleShowTokens | cmd/connection.go:286-288 | The new state and outcome are ToggleShowTokensStep's. |
| CmdConnection.Session.SetShowTokens | cmd/connection.go:311-313 | Panics with no change exactly when showTokens is unset. Otherwise it succeeds and only showTokens changes, to the argument. |
| CmdConnection.Session.SetShowTokensOnce | cmd/connection.go:292-294 | Only the show-once flag changes, to true. |
| CmdConnection.Session.ResetShowTokensOnce | cmd/connection.go:297-299 | Only the show-once flag changes, to false. |
| CmdConnection.Session.GetSafeToken | cmd/connection.go:144-162 | Returns SafeToken of the session's flags. |
| CmdConnection.GetAllConnectionsFromConfig | cmd/connection.go:183-194 | One connection per configured name, in range order, each equal to its configuration entry, and every configured name is covered. |
| CmdConnection.ApplyKeepsLastDurable | cmd/connection.go:72-79 | When no entry uses the sentinel name, no single command records a flag override as `last`. |
| CmdConnection.RunKeepsLastDurable | cmd/connection.go:72-79 | The same holds over any sequence of commands. |
| CmdConnection.OverridesKeepDurable | cmd/connection.go:105-109 | After one or more overrides, the current connection is a flag override and `last` is the durable connection from before the first. |
| CmdConnection.OverrideThenInitRestores | cmd/connection.go:259-262 | The next initConnections after overrides restores that durable connection. |
| CmdConnection.InitIdempotent | cmd/connection.go:223-271 | Once initConnections succeeds, calling it again changes nothing. |
| CmdConnection.UnresolvedDefaultPanicsLater | cmd/connection.go:228-257 | With no `default` entry and no defaultConnection, the first call stores a nil wrapper. The next initConnections then panics, and so does any set connection to a known name. |
| CmdConnection.FailedSetConnectionChangesNothing | cmd/connection.go:91-99 | An unknown name leaves the session exactly as it was. |
| CmdConnection.NeverShowTokensMasks | cmd/connection.go:144-162 | neverShowTokens masks every non-empty token, whatever the other flags. |
| CmdConnection.ShowTokensOnceIsOneShot | cmd/connection.go:144-162 | After setShowTokensOnce, a display that asks for it reveals the token; after the reset it is masked again. A display that does not ask is unaffected. |
| CmdConnection.ToggleShowTokensTwice | cmd/connection.go:286-288 | Two toggles restore the setting, and toggling on reveals non-empty tokens. |
| ConfigConnection.GetConnectionByName | config/connection..go:147-156 | Found exactly when the name is configured, with that name and the entry's URL and token. |
| ConfigConnection.MakeSafeTokenString | config/connection..go:66-77 | The mask unless neverShowToken is off and showToken is on. In that case the token, or "<empty-token>" for an empty one. |
| ConfigConnection.SetConnectionStep | config/connection..go:33-45 | "default" selects the default connection. Another name succeeds exactly when configured, and otherwise fails with no change. The default connection never changes. |
| ConfigConnection.ResolveDefault | config/connection..go:166-186 | Named "default". It is the `default` entry, else the URL and token of the entry defaultConnection names, else the given URL with an empty token. |
| ConfigConnection.InitStep | config/connection..go:166-192 | The default connection is rebuilt. The current connection is set to it only when none is set yet. |
| ConfigConnection.ConfigSession.constructor | config/connection..go:26-27 | The session starts with no current connection and a zero default connection. |
| ConfigConnection.ConfigSession.SetConnection | config/connection..go:33-45 | The new state and error are SetConnectionStep's. |
| ConfigConnection.ConfigSession.UpdateDefaultHubURL | config/connection..go:80-82 | Only the default connection's URL changes. |
| ConfigConnection.ConfigSession.UpdateDefaultToken | config/connection..go:85-87 | Only the default connection's token changes. |
| ConfigConnection.ConfigSession.InitConnections | config/connection..go:166-192 | The new state is InitStep's. |
| ConfigConnection.ConfigSession.Startup | cmd/root.go:156-164 | The new state is StartupStep's: init, then each flag that was set overwrites that field of the default connection. |
| ConfigConnection.ConfigSession.GetConnections | config/connection..go:106-118 | Every configured connection except "default", each once and equal to its entry, then the default connection last. |
| ConfigConnection.GetConnectionNames | config/connection..go:90-104 | The names in range order, then "default" if no entry has that name. Every name, "default" included, occurs exactly once. |
| ConfigConnection.StartupFlagsReachOnlyDefault | cmd/root.go:156-164 | The flags change only the default connection. The current connection is the default as resolved before the flags, on the first start-up only. |
| ConfigConnection.FlagsMissCurrentConnection | cmd/root.go:156-164 | With no configuration and `--hub-url` set, the current connection keeps the built-in URL while only the default connection has the flag's URL. |
| ConfigConnection.CorrectedStartupStep | config/connection..go:186-191 | Corrected start-up: the default connection is built as before, and on the first start-up the connection in use is that default, flags applied. Later start-ups keep the current connection. |
| ConfigConnection.CorrectedStartupUsesFlags | cmd/root.go:96-98 | After the corrected first start-up, the connection in use has each flag value that was set. With no flag set, the corrected start-up equals the one as written. |
| ConfigConnection.SetDefaultAfterStartupSeesFlags | config/connection..go:33-35 | After start-up with both flags, `set connection default` makes the flag URL and token current. |
| ConfigConnection.StartupIsDurable | config/connection..go:187-191 | A repeated start-up with the same flags changes nothing. |
| Decorate.HttpStatusFunc | cmd/displpay_decorate.go:259-269 | Success below 300, Warn from 300 to 399, Fail from 400. |
| Decorate.PrettyPrintBody | cmd/displpay_decorate.go:239-257 | Indentable JSON is printed indented as the last line, preceded by its message exactly when that is present and non-empty, so it takes two lines exactly when a message leads. Anything else is printed raw, followed by the JSON error. |
| Decorate.ShortSection | cmd/displpay_decorate.go:122-141 | With no response, "Nil HTTP Response.". Otherwise the status line, then the body only when it was read and the status is not 204. |
| Decorate.ErrorHttpSection | cmd/displpay_decorate.go:143-161 | With no response, "Nil HTTP Response.". Otherwise the status line, then the message line exactly when a readable non-204 body has a non-empty message. |
| Decorate.FullSection | cmd/displpay_decorate.go:171-231 | With no response, "Nil HTTP Response.". Otherwise the status and header tables, then the body, or "Body Read Error:" when the read failed or the status is 204. |
| Decorate.ErrorPart | cmd/displpay_decorate.go:106-114 | One error line exactly when there is an error. |
| Decorate.ErrorDecorate | cmd/displpay_decorate.go:106-114 | Prints the error part, then calls the wrapped function. |
| Decorate.ShortHttpDecorate | cmd/displpay_decorate.go:122-141 | Prints the short section, then calls the wrapped function. |
| Decorate.ErrorHttpDecorate | cmd/displpay_decorate.go:143-161 | Prints the error section, then calls the wrapped function. |
| Decorate.HttpDecorate | cmd/displpay_decorate.go:171-231 | Prints the full section, then calls the wrapped function. |
| Decorate.Render | cmd/displpay_decorate.go:85-100 | The trace is the HTTP part chosen by debug, verbose and error, then the error part, then the renderer's output. |
| Decorate.List | cmd/displpay_decorate.go:57-72 | A nil object prints only the decoration. Otherwise the object's method is rendered. |
| Decorate.Display | cmd/displpay_decorate.go:75-77 | Only the decoration, with none of an object's output. |
| Decorate.HttpDisplay | cmd/displpay_decorate.go:80-82 | The same as the debug pipeline whatever verbose is: full HTTP section, then the error. |
| Decorate.RenderOrder | cmd/displpay_decorate.go:102-114 | The HTTP part comes first, contains no error or object line, and is followed by the error part and then the renderer's full output. |
| Decorate.ErrorLineIffError | cmd/displpay_decorate.go:85-114 | The error line occurs exactly once when there is an error, and never otherwise. |
| Decorate.RendererRunsOnce | cmd/displpay_decorate.go:85-114 | Each object line occurs as often as the renderer prints it, so the renderer runs exactly once, with or without an error. |
| Decorate.RenderPrecedence | cmd/displpay_decorate.go:85-100 | Debug gives the full section whatever verbose is. Verbose alone gives the short one. With neither, success prints only the object and an error gets the error section. |
| Decorate.NilResponseStillRuns | cmd/displpay_decorate.go:117-126 | With no response, each HTTP-showing pipeline prints "Nil HTTP Response." and then still the error and the object. |
| Decorate.NoContentSkipsBody | cmd/displpay_decorate.go:189-195 | For 204, no pipeline prints a body or message. The full section prints "Body Read Error:" instead. |
| Decorate.TransportErrorReported | cmd/displpay_decorate.go:57-72 | A transport error with no response prints "Nil HTTP Response.", the error, then the object. |
| LegacyDisplay.CheckForEmptyString | cmd/util.go:20-26 | "" maps to "<empty>" and any other string to itself, so the result is never empty. |
| LegacyDisplay.CheckForEmptyStringIdempotent | cmd/util.go:20-26 | Applying it twice equals applying it once. |
| LegacyDisplay.HttpStatusFunc | cmd/util.go:136-146 | Success below 300, Warn from 300 to 399, Fail from 400. |
| LegacyDisplay.StatusColoursAgree | cmd/util.go:136-146 | Both revisions colour every status alike. |
| LegacyDisplay.AndThen | cmd/util.go:93 | After a crash nothing more is printed. |
| LegacyDisplay.BodySection | cmd/util.go:115-132 | Nothing on a read error. Indented (or the JSON error) when the Content-Type is `application/json`, else the body as read. |
| LegacyDisplay.DisplayHttpResponse | cmd/util.go:91-134 | With no response, a crash. Otherwise the request line first, the status table exactly when asked for, and the header table exactly when asked for. |
| LegacyDisplay.StandardHttpResponse | cmd/util.go:65-76 | Without an error: everything under debug, the status only under verbose alone, else nothing. With an error: everything, then the error line. |
| LegacyDisplay.Render | cmd/util.go:53-63 | Without an error: the standard response, then the renderer if non-nil. With an error: the same as the standard response with the error. |
| LegacyDisplay.List | cmd/util.go:36-50 | A nil object gives only the standard response. Otherwise render is called. |
| LegacyDisplay.DoHttpResponse | cmd/util.go:79-89 | With an error, only the error line. Otherwise everything under verbose, else the status only. |
| LegacyDisplay.ErrorSkipsRenderer | cmd/util.go:59-62 | With an error and a response, no object line is printed, and the error line is last. |
| LegacyDisplay.SuccessRunsRenderer | cmd/util.go:54-58 | Without an error, the object's output follows the standard response. With neither flag, it is all that is printed. |
| LegacyDisplay.JsonOnlyByContentType | cmd/util.go:119-130 | A body that is not `application/json` is printed as read, even if it is valid JSON. |
| LegacyDisplay.StandardSections | cmd/util.go:65-71 | Verbose alone shows the request line and status. Debug shows status, headers and the body section. |
| LegacyDisplay.TransportErrorCrashes | cmd/util.go:93 | An error with no response crashes before the error line is printed, whatever the flags. |

## Findings

| source | as written | input that shows it | evidently intended | confidence | as-written member | corrected member |
|---|---|---|---|---|---|---|
| cmd/util.go:93 | `displayHTTPResponse` reads `resp.Request` before checking `resp`. The error path of `render` and `standardHTTPResponse` calls it before printing the error. | A transport failure: `resp == nil`, `err != nil`, through `List`, `Describe` or `render`. | Report that there was no response, then print the error. The later `displpay_decorate.go` pipeline does this. | high; not executed | LegacyDisplay.TransportErrorCrashes | Decorate.TransportErrorReported |
| cmd/root.go:156-164 | `initConnections` applies `--hub-url` and `--token` to the default connection only. `InitConnections` already made the current connection a copy of the default (config/connection..go:131-133, 189-191), and `GetHubURL` and `GetToken` read the current one (config/connection..go:53-59). | `jhmon --hub-url http://hub.example.org:8081 info` with no configuration: the URL shown is the built-in one. | The flags set the connection in use, as their help text says (cmd/root.go:96-98). | medium; not executed | ConfigConnection.FlagsMissCurrentConnection | ConfigConnection.CorrectedStartupUsesFlags |

## Left out

- Network I/O is not modelled: `hubClient.Do`, request and response dumps, and the debug and verbose logging inside `sendReq` and `unmarshal`. The transport is a function parameter.
- The JSON library is not modelled. `json.Marshal`, `json.Unmarshal`, `json.Indent` and `getMessage` are function parameters that may fail.
- The `decode` parameter of HubHttp.SendReqSpec and HubHttp.SendReq stands for what `json.Unmarshal` leaves in the caller's result. On a type mismatch Unmarshal fills what it can and reports an error, which `unmarshal` drops (jupyterhub/util.go:171); `decode` is then Ok of that partly filled value. `decode` is Err only when nothing is written to the result.
- HubHttp.SendReqSpec and HubHttp.SendReq do not model redirects. The source's client is `http.DefaultClient` (jupyterhub/util.go:21, 104), which follows up to 10 redirects. After a redirect, `resp.Request` is the last hop's request, and a 301, 302 or 303 turns a POST, PATCH or DELETE into a GET with no body; `httpErrorMesg` then names that last request. The model takes `resp.Request` to be the request sent. When the redirect limit is hit, `Do` returns a response together with the error, and `sendReq` returns both (jupyterhub/util.go:104-105, 128). The model's transport yields either a reply or an error, never both.
- Viper and config-file discovery are not modelled. Neither is viper's case-folding of keys and dotted names. The configuration is a plain `Config` value.
- `getMapValues` panics on a malformed `connections` entry. The model's entries are always well-formed.
- `http.NewRequest` returns an error for an unparsable URL, and `newRequest` (jupyterhub/util.go:136-137) then panics. `http.NewRequest` also normalises the URL. The model keeps the URL as the concatenated string and has no such panic.
- Aliasing is not modelled:
  - `cmd.Connection` embeds a `*jh.Connection`, and `updateConnection` also writes through the pointer it is given. The model treats connections as values.
  - `copy` is therefore the identity.
- CmdConnection.GetAllConnectionsFromConfig: the error branch for a name that cannot be built (cmd/connection.go:188-190) is unreachable in the model, where every configured entry is a well-formed Entry. The source reaches it when viper lists a name (`GetStringMap`, cmd/connection.go:184) that it does not report as set (`IsSet`, cmd/connection.go:199), as for an entry with an empty value.
- The following are presentation only and are not modelled:
  - table and colour rendering (`ConnectionList.List`, `term`);
  - the length, transfer-encoding and "uncompressed" columns of the status table;
  - the order of header rows.
- Reading a response body a second time is not modelled. When `sendReq` decodes a result, `unmarshal` reads and closes `resp.Body` (jupyterhub/util.go:149-150). The display reads it again (cmd/displpay_decorate.go:128, 149, 189; cmd/util.go:116). In the source that read yields "" under debug (the dump left a drained buffer) and a read-on-closed-body error otherwise, so no body is shown for a decoded result. In the model the body the display sees, `Screen.Response.body`, is an input independent of `HubHttp.Response.body`.
- Format-string handling of printed text is not modelled. The source passes error and message text as a `Printf` format: `fmt.Printf(fmt.Sprintf("%s\n", t.Error(err)))` at cmd/displpay_decorate.go:109, `t.Fail(e.Error())` at cmd/util.go:17 and cmd/displpay_decorate.go:272, and `t.Alert(m.Message)` at cmd/displpay_decorate.go:154 and 247. A `%` in that text (such as the `%20` of an escaped URL in a `checkReturnCode` error) is printed as a `%!x(MISSING)`-style verb error. The events `ErrorLine`, `CmdError` and `MessageLine` carry the text unchanged.
- Cobra command wiring, the interactive shell and the renderers of individual objects are not modelled. An object's printer is an arbitrary `Action`.
- Some trivial getters are not modelled. Each reads a field, forwards a call, or applies `MakeSafeTokenString` to the current connection:
  - `getShowTokens`, `getShowTokensOnce`, `getConnection` and `getAllConnections` in cmd/connection.go;
  - `GetConnectionName`, `GetHubURL`, `GetToken` and `GetSafeToken` in config/connection..go.
- `jupyterhub.Auth` initialisation outside `UpdateAuth` is not part of this model.
- CmdConnection.UpdateConnection keeps the auth merge as written, which is not the "non-empty wins" rule of `Auth.UpdateAuth`. UpdateConnectionErasesAuth shows the difference.
