/** The connection session of the `cmd` package: which Hub connection is
    current, which durable connection a one-command flag override falls back to,
    and whether tokens are shown.

    The package-level variables `currentConnection`, `lastConnection`,
    `showTokens` and `showTokensOnceState` are the fields of class `Session`.
    Viper is replaced by a `Config` value. Each state change is also given as a
    function on a `State` value (`SetCurrent`, `SetConnectionStep`, `Override`,
    `Init`, ...); the class methods follow the Go code statement by statement and
    are proved to compute those functions, and the lemmas at the end are about
    the functions.

    A Go nil dereference (a panic) is the outcome `Panic`; the state is then left
    as it was. */
module CmdConnection {
  import opened Wrappers
  import opened JupyterHub
  import opened GoMaps

  /** The sentinel name that marks a connection built from command-line flags. */
  const UpdatedConnectionName := "Flag Updated Connection"
  const DefaultConnectionName := "default"
  const DefaultHubURL := "http://127.0.0.1:8081"
  const MaskedToken := "****"
  /** The placeholder for an empty token, spelled as the source spells it. */
  const EmptyTokenText := "<enpty-token>"

  /** One entry under `connections.<name>` in the configuration. */
  datatype Entry = Entry(hubURL: string, token: string, auth: Auth)

  /** What the code reads from viper: the named connections, `defaultConnection`,
      `neverShowTokens` and `showTokens`. */
  datatype Config = Config(connections: map<string, Entry>, defaultConnection: string,
                           neverShowTokens: bool, showTokens: bool)

  /** A `cmd.Connection`: a wrapper around a `*jh.Connection` that may be nil.
      The zero value of the wrapper is `NilHandle`. */
  datatype Handle = NilHandle | Handle(conn: Connection)

  datatype Outcome = Success | Failure(message: string) | Panic

  /** `current` is None while `currentConnection` is nil; `showTokens` is None
      while the `showTokens` pointer is nil. */
  datatype State = State(current: Option<Handle>, last: Handle, showTokens: Option<bool>, showTokensOnce: bool)

  datatype Step = Step(state: State, outcome: Outcome)

  /** The state at program start. */
  const Start := State(None, NilHandle, None, false)

  /** The connection `initConnections` falls back to when the configured default
      name cannot be resolved. */
  const Fallback := Connection(DefaultConnectionName, DefaultHubURL, "", NoAuth)

  /** A connection marked as a one-command flag override. */
  predicate IsTransient(h: Handle) {
    h.Handle? && h.conn.name == UpdatedConnectionName
  }

  function NotFoundMessage(name: string): string {
    "couldn't find connection \"" + name + "\""
  }

  /** `copy`: the copy of the connection a wrapper points to. Dereferencing a nil
      embedded pointer panics, which is None. */
  function Copy(h: Handle): (r: Option<Connection>)
    ensures r.Some? <==> h.Handle?
    ensures r.Some? ==> h == Handle(r.value)
  {
    match h
    case NilHandle => None
    case Handle(c) => Some(c)
  }

  /** `getCurrentConnection`: a copy of the current connection; None when it
      would panic (no current connection yet, or a nil embedded pointer). */
  function CurrentConnection(s: State): (r: Option<Connection>)
    ensures r.Some? <==> s.current.Some? && s.current.value.Handle?
    ensures r.Some? ==> s.current == Some(Handle(r.value))
  {
    if s.current.Some? then Copy(s.current.value) else None
  }

  /** `getConnectionFromConfig`: the configured connection called `name`. */
  function GetConnectionFromConfig(cfg: Config, name: string): (r: Option<Connection>)
    ensures r.Some? <==> name in cfg.connections
    ensures r.Some? ==> && r.value.name == name
                        && r.value.hubURL == cfg.connections[name].hubURL
                        && r.value.token == cfg.connections[name].token
                        && r.value.auth == cfg.connections[name].auth
  {
    if name in cfg.connections then
      var e := cfg.connections[name];
      Some(Connection(name, e.hubURL, e.token, e.auth))
    else None
  }

  /** `setCurrentConnection`: make `h` current; the previous current connection
      becomes `last` unless it is a flag override. Reading the previous current's
      name through a nil pointer panics. */
  function SetCurrent(s: State, h: Handle): (r: Step)
    ensures r.outcome == Panic <==> s.current == Some(NilHandle)
    ensures r.outcome == Panic ==> r.state == s
    ensures r.outcome != Panic ==> r.outcome == Success && r.state.current == Some(h)
    ensures r.state.showTokens == s.showTokens && r.state.showTokensOnce == s.showTokensOnce
    // only a durable previous current connection is ever recorded as last ...
    ensures r.state.last != s.last ==> s.current == Some(r.state.last) && !IsTransient(r.state.last)
    // ... and a durable one always is
    ensures r.outcome == Success && s.current.Some? && !IsTransient(s.current.value) ==> r.state.last == s.current.value
  {
    match s.current
    case None => Step(s.(current := Some(h)), Success)
    case Some(NilHandle) => Step(s, Panic)
    case Some(Handle(c)) =>
      var last := if c.name != UpdatedConnectionName then Handle(c) else s.last;
      Step(s.(current := Some(h), last := last), Success)
  }

  /** `setConnection(name)`: switch to a configured connection, or fail with
      "couldn't find connection" and change nothing. */
  function SetConnectionStep(s: State, cfg: Config, name: string): (r: Step)
    ensures r.outcome.Failure? <==> name !in cfg.connections
    ensures r.outcome.Failure? ==> r.outcome.message == NotFoundMessage(name)
    ensures r.outcome != Success ==> r.state == s
    ensures r.outcome == Panic <==> name in cfg.connections && s.current == Some(NilHandle)
    ensures r.outcome == Success ==> && r.state.current.Some? && r.state.current.value.Handle?
                                     && Some(r.state.current.value.conn) == GetConnectionFromConfig(cfg, name)
    ensures name in cfg.connections ==> r == SetCurrent(s, Handle(GetConnectionFromConfig(cfg, name).value))
    ensures r.state.showTokens == s.showTokens && r.state.showTokensOnce == s.showTokensOnce
  {
    match GetConnectionFromConfig(cfg, name)
    case Some(conn) => SetCurrent(s, Handle(conn))
    case None => Step(s, Failure(NotFoundMessage(name)))
  }

  /** `updateConnection` as written: name, URL and token are replaced only by a
      non-empty update field, but each auth field tests the EXISTING value, so a
      non-empty existing field takes the update's value even when that is empty,
      and an empty existing field stays empty. */
  function UpdateConnection(update: Connection, existing: Connection): (r: Connection)
    ensures update.name != "" ==> r.name == update.name
    ensures update.name == "" ==> r.name == existing.name
    ensures update.hubURL != "" ==> r.hubURL == update.hubURL
    ensures update.hubURL == "" ==> r.hubURL == existing.hubURL
    ensures update.token != "" ==> r.token == update.token
    ensures update.token == "" ==> r.token == existing.token
    ensures existing.auth.clientID != "" ==> r.auth.clientID == update.auth.clientID
    ensures existing.auth.clientID == "" ==> r.auth.clientID == ""
    ensures existing.auth.clientSecret != "" ==> r.auth.clientSecret == update.auth.clientSecret
    ensures existing.auth.clientSecret == "" ==> r.auth.clientSecret == ""
    ensures existing.auth.redirectURL != "" ==> r.auth.redirectURL == update.auth.redirectURL
    ensures existing.auth.redirectURL == "" ==> r.auth.redirectURL == ""
  {
    var conn := existing;
    var conn := if update.name != "" then conn.(name := update.name) else conn;
    var conn := if update.hubURL != "" then conn.(hubURL := update.hubURL) else conn;
    var conn := if update.token != "" then conn.(token := update.token) else conn;
    var conn := if conn.auth.clientID != "" then conn.(auth := conn.auth.(clientID := update.auth.clientID)) else conn;
    var conn := if conn.auth.clientSecret != "" then conn.(auth := conn.auth.(clientSecret := update.auth.clientSecret)) else conn;
    var conn := if conn.auth.redirectURL != "" then conn.(auth := conn.auth.(redirectURL := update.auth.redirectURL)) else conn;
    conn
  }

  /** The auth merge of `updateConnection` differs from "non-empty wins"
      (`MergeAuth`, which `Auth.UpdateAuth` implements): an update with an empty
      client ID erases a configured one. */
  lemma UpdateConnectionErasesAuth(existing: Connection, update: Connection)
    requires existing.auth.clientID != "" && update.auth.clientID == ""
    ensures UpdateConnection(update, existing).auth.clientID == ""
    ensures MergeAuth(existing.auth, update.auth).clientID == existing.auth.clientID
    ensures UpdateConnection(update, existing).auth != MergeAuth(existing.auth, update.auth)
  {
  }

  /** `updateCurrentConnection`: overlay the flag values on a copy of the current
      connection, mark it with the sentinel name and make it current. */
  function Override(s: State, update: Connection): (r: Step)
    ensures r.outcome == Success <==> CurrentConnection(s).Some?
    ensures r.outcome != Success ==> r.outcome == Panic && r.state == s
    ensures r.outcome == Success ==> && r.state.current.Some? && IsTransient(r.state.current.value)
                                     && r.state.last == Durable(s)
                                     && r.state.current.value.conn.hubURL ==
                                          (if update.hubURL != "" then update.hubURL
                                           else CurrentConnection(s).value.hubURL)
                                     && r.state.current.value.conn.token ==
                                          (if update.token != "" then update.token
                                           else CurrentConnection(s).value.token)
                                     && r.state.current.value.conn.auth ==
                                          UpdateConnection(update, CurrentConnection(s).value).auth
    ensures r.state.showTokens == s.showTokens && r.state.showTokensOnce == s.showTokensOnce
  {
    match CurrentConnection(s)
    case None => Step(s, Panic)
    case Some(c) => SetCurrent(s, Handle(UpdateConnection(update, c).(name := UpdatedConnectionName)))
  }

  /** The durable connection of a state: the current one, or `last` while the
      current one is a flag override. */
  function Durable(s: State): Handle
    requires s.current.Some?
  {
    if IsTransient(s.current.value) then s.last else s.current.value
  }

  /** The connection the first `initConnections` starts with: the `default` entry,
      else the entry `defaultConnection` names, else, only when that name is set,
      the fallback. With `defaultConnection` unset the zero wrapper (nil pointer)
      is used: the fallback is never built in that case. */
  function Resolve(cfg: Config): (h: Handle)
    ensures DefaultConnectionName in cfg.connections ==>
              h.Handle? && Some(h.conn) == GetConnectionFromConfig(cfg, DefaultConnectionName)
    ensures (DefaultConnectionName !in cfg.connections && cfg.defaultConnection != ""
             && cfg.defaultConnection in cfg.connections) ==>
              h.Handle? && Some(h.conn) == GetConnectionFromConfig(cfg, cfg.defaultConnection)
    ensures (DefaultConnectionName !in cfg.connections && cfg.defaultConnection != ""
             && cfg.defaultConnection !in cfg.connections) ==> h == Handle(Fallback)
    ensures DefaultConnectionName !in cfg.connections && cfg.defaultConnection == "" ==> h == NilHandle
  {
    match GetConnectionFromConfig(cfg, DefaultConnectionName)
    case Some(c) => Handle(c)
    case None =>
      if cfg.defaultConnection != "" then
        match GetConnectionFromConfig(cfg, cfg.defaultConnection)
        case Some(c) => Handle(c)
        case None => Handle(Fallback)
      else NilHandle
  }

  /** `initConnections`: on the first call resolve the default and make it both
      current and last; later, if the current connection is a flag override,
      return to `last`; otherwise keep it. The show-tokens setting is read from
      the configuration once. */
  function Init(s: State, cfg: Config): (r: Step)
    ensures s.current.None? ==> && r.outcome == Success
                                && r.state.current == Some(Resolve(cfg)) && r.state.last == Resolve(cfg)
    ensures r.outcome == Success || r.outcome == Panic
    ensures s.current == Some(NilHandle) <==> r.outcome == Panic
    ensures r.outcome == Panic ==> r.state == s
    ensures s.current.Some? && r.outcome == Success ==> r.state.current == Some(Durable(s)) && r.state.last == s.last
    ensures r.outcome == Success ==> r.state.showTokens == Some(if s.showTokens.Some? then s.showTokens.value
                                                               else cfg.showTokens)
    ensures r.state.showTokensOnce == s.showTokensOnce
  {
    var first :=
      if s.current.None? then
        Step(s.(last := Resolve(cfg), current := Some(Resolve(cfg))), Success)
      else
        match CurrentConnection(s)
        case None => Step(s, Panic)
        case Some(c) => if c.name == UpdatedConnectionName then SetCurrent(s, s.last) else Step(s, Success);
    if first.outcome == Success && first.state.showTokens.None? then
      first.(state := first.state.(showTokens := Some(cfg.showTokens)))
    else first
  }

  /** `toggleShowTokens`, which dereferences the `showTokens` pointer. */
  function ToggleShowTokensStep(s: State): (r: Step)
    ensures r.outcome == Success || r.outcome == Panic
    ensures r.outcome == Panic <==> s.showTokens.None?
    ensures r.outcome == Panic ==> r.state == s
    ensures r.outcome == Success ==> r.state == s.(showTokens := Some(!s.showTokens.value))
  {
    if s.showTokens.None? then Step(s, Panic) else Step(s.(showTokens := Some(!s.showTokens.value)), Success)
  }

  /** Whether `getSafeToken` reveals a non-empty token. */
  predicate Reveals(neverShowTokens: bool, showTokens: bool, useShowTokensOnce: bool, showTokensOnce: bool) {
    !neverShowTokens && (showTokens || (useShowTokensOnce && showTokensOnce))
  }

  /** `getSafeToken`: an empty token is shown as a placeholder whatever the flags;
      otherwise the token when the flags reveal it, else a mask, or "" when
      `useEmpty`. None is the panic of reading the nil `showTokens` pointer. */
  function SafeToken(s: State, cfg: Config, conn: Connection, useEmpty: bool, useShowTokensOnce: bool)
    : (r: Option<string>)
    ensures conn.token == "" ==> r == Some(EmptyTokenText)
    ensures conn.token != "" && s.showTokens.None? ==> r.None?
    ensures (conn.token != "" && s.showTokens.Some?
             && Reveals(cfg.neverShowTokens, s.showTokens.value, useShowTokensOnce, s.showTokensOnce)) ==>
              r == Some(conn.token)
    ensures (conn.token != "" && s.showTokens.Some?
             && !Reveals(cfg.neverShowTokens, s.showTokens.value, useShowTokensOnce, s.showTokensOnce)) ==>
              r == Some(if useEmpty then "" else MaskedToken)
  {
    if conn.token == "" then Some(EmptyTokenText)
    else if s.showTokens.None? then None
    else
      var show := s.showTokens.value || (useShowTokensOnce && s.showTokensOnce);
      if !cfg.neverShowTokens && show then Some(conn.token)
      else Some(if useEmpty then "" else MaskedToken)
  }

  /** The package-level session state of `cmd/connection.go`. */
  class Session {
    var current: Option<Handle>
    var last: Handle
    var showTokens: Option<bool>
    var showTokensOnce: bool

    function Snapshot(): State
      reads this
    {
      State(current, last, showTokens, showTokensOnce)
    }

    /** The zero values Go gives the package variables. */
    constructor ()
      ensures Snapshot() == Start
    {
      current, last, showTokens, showTokensOnce := None, NilHandle, None, false;
    }

    /** `getCurrentConnection`. */
    method GetCurrentConnection() returns (r: Option<Connection>)
      ensures r == CurrentConnection(Snapshot())
    {
      if current.None? {
        r := None;
      } else {
        r := Copy(current.value);
      }
    }

    /** `setCurrentConnection`. */
    method SetCurrentConnection(h: Handle) returns (outcome: Outcome)
      modifies this
      ensures Step(Snapshot(), outcome) == SetCurrent(old(Snapshot()), h)
    {
      if current.Some? {
        if current.value.NilHandle? {
          outcome := Panic;
          return;
        }
        if current.value.conn.name != UpdatedConnectionName {
          last := current.value;
        }
      }
      current := Some(h);
      outcome := Success;
    }

    /** `setConnection`. */
    method SetConnection(cfg: Config, name: string) returns (outcome: Outcome)
      modifies this
      ensures Step(Snapshot(), outcome) == SetConnectionStep(old(Snapshot()), cfg, name)
    {
      var conn := GetConnectionFromConfig(cfg, name);
      if conn.Some? {
        outcome := SetCurrentConnection(Handle(conn.value));
      } else {
        outcome := Failure(NotFoundMessage(name));
      }
    }

    /** `updateCurrentConnection`. */
    method UpdateCurrentConnection(update: Connection) returns (outcome: Outcome)
      modifies this
      ensures Step(Snapshot(), outcome) == Override(old(Snapshot()), update)
    {
      var existing := GetCurrentConnection();
      if existing.None? {
        outcome := Panic;
        return;
      }
      var newConn := UpdateConnection(update, existing.value);
      newConn := newConn.(name := UpdatedConnectionName);
      outcome := SetCurrentConnection(Handle(newConn));
    }

    /** `initConnections`. */
    method InitConnections(cfg: Config) returns (outcome: Outcome)
      modifies this
      ensures Step(Snapshot(), outcome) == Init(old(Snapshot()), cfg)
    {
      if current.None? {
        var conn := NilHandle;
        var found := GetConnectionFromConfig(cfg, DefaultConnectionName);
        if found.Some? {
          conn := Handle(found.value);
        } else {
          var defaultName := cfg.defaultConnection;
          if defaultName != "" {
            found := GetConnectionFromConfig(cfg, defaultName);
            if found.Some? {
              conn := Handle(found.value);
            } else {
              conn := Handle(Fallback);
            }
          }
        }
        last := conn;
        outcome := SetCurrentConnection(conn);
      } else {
        var c := GetCurrentConnection();
        if c.None? {
          outcome := Panic;
          return;
        }
        if c.value.name == UpdatedConnectionName {
          outcome := SetCurrentConnection(last);
        } else {
          outcome := Success;
        }
      }
      if showTokens.None? {
        showTokens := Some(cfg.showTokens);
      }
    }

    /** `toggleShowTokens`. */
    method ToggleShowTokens() returns (outcome: Outcome)
      modifies this
      ensures Step(Snapshot(), outcome) == ToggleShowTokensStep(old(Snapshot()))
    {
      if showTokens.None? {
        outcome := Panic;
        return;
      }
      showTokens := Some(!showTokens.value);
      outcome := Success;
    }

    /** `setShowTokens`, which also dereferences the pointer. */
    method SetShowTokens(st: bool) returns (outcome: Outcome)
      modifies this
      ensures outcome == Success || outcome == Panic
      ensures outcome == Panic <==> old(showTokens).None?
      ensures outcome == Panic ==> Snapshot() == old(Snapshot())
      ensures outcome == Success ==> Snapshot() == old(Snapshot()).(showTokens := Some(st))
    {
      if showTokens.None? {
        outcome := Panic;
        return;
      }
      showTokens := Some(st);
      outcome := Success;
    }

    /** `setShowTokensOnce`: reveal tokens on the next display that asks for it. */
    method SetShowTokensOnce()
      modifies this
      ensures Snapshot() == old(Snapshot()).(showTokensOnce := true)
    {
      showTokensOnce := true;
    }

    /** `resetShowTokensOnce`. */
    method ResetShowTokensOnce()
      modifies this
      ensures Snapshot() == old(Snapshot()).(showTokensOnce := false)
    {
      showTokensOnce := false;
    }

    /** `getSafeToken`, reading the session's flags. */
    method GetSafeToken(cfg: Config, conn: Connection, useEmpty: bool, useShowTokensOnce: bool)
      returns (token: Option<string>)
      ensures token == SafeToken(Snapshot(), cfg, conn, useEmpty, useShowTokensOnce)
    {
      if conn.token == "" {
        token := Some(EmptyTokenText);
      } else {
        var t := MaskedToken;
        if useEmpty {
          t := "";
        }
        if showTokens.None? {
          token := None;
          return;
        }
        var show := showTokens.value;
        if useShowTokensOnce {
          show := show || showTokensOnce;
        }
        if !cfg.neverShowTokens && show {
          t := conn.token;
        }
        token := Some(t);
      }
    }
  }

  /** `getAllConnectionsFromConfig`: one connection per configured name, in the
      map's range order `order`. */
  method GetAllConnectionsFromConfig(cfg: Config, order: seq<string>) returns (conns: seq<Connection>)
    requires Enumerates(order, cfg.connections.Keys)
    ensures |conns| == |order| == |cfg.connections|
    ensures forall i :: 0 <= i < |conns| ==> GetConnectionFromConfig(cfg, order[i]) == Some(conns[i])
    ensures forall name :: name in cfg.connections <==> exists i :: 0 <= i < |conns| && conns[i].name == name
  {
    EnumerationLength(order, cfg.connections.Keys);
    conns := [];
    var k := 0;
    while k < |order|
      invariant 0 <= k <= |order| && |conns| == k
      invariant forall i :: 0 <= i < k ==> GetConnectionFromConfig(cfg, order[i]) == Some(conns[i])
    {
      var conn := GetConnectionFromConfig(cfg, order[k]);
      if conn.Some? {
        conns := conns + [conn.value];
      } else {
        // the source reports "couldn't create a config for connection"; every
        // name taken from the map resolves, so this branch is never taken
        assert false;
      }
      k := k + 1;
    }
    forall name | name in cfg.connections
      ensures exists i :: 0 <= i < |conns| && conns[i].name == name
    {
      var i :| 0 <= i < |order| && order[i] == name;
      assert conns[i].name == name;
    }
  }

  /** A command of an interactive session, as far as it touches the session. */
  datatype Command =
    | SetConnectionCmd(name: string)
    | OverrideCmd(update: Connection)
    | InitCmd
    | ToggleShowTokensCmd
    | SetShowTokensOnceCmd
    | ResetShowTokensOnceCmd

  function Apply(s: State, cfg: Config, c: Command): Step {
    match c
    case SetConnectionCmd(name) => SetConnectionStep(s, cfg, name)
    case OverrideCmd(update) => Override(s, update)
    case InitCmd => Init(s, cfg)
    case ToggleShowTokensCmd => ToggleShowTokensStep(s)
    case SetShowTokensOnceCmd => Step(s.(showTokensOnce := true), Success)
    case ResetShowTokensOnceCmd => Step(s.(showTokensOnce := false), Success)
  }

  /** Run commands in order; a panic ends the process, so the run stops there. */
  function Run(s: State, cfg: Config, cs: seq<Command>): State
    decreases |cs|
  {
    if cs == [] then s
    else
      var r := Apply(s, cfg, cs[0]);
      if r.outcome == Panic then r.state else Run(r.state, cfg, cs[1..])
  }

  /** A flag override is never recorded as `last` by any single command, as long
      as no configured connection is itself called by the sentinel name. */
  lemma ApplyKeepsLastDurable(s: State, cfg: Config, c: Command)
    requires UpdatedConnectionName !in cfg.connections
    requires !IsTransient(s.last)
    ensures !IsTransient(Apply(s, cfg, c).state.last)
  {
  }

  /** The sentinel is never saved as `last`, over any sequence of commands. */
  lemma {:induction false} RunKeepsLastDurable(s: State, cfg: Config, cs: seq<Command>)
    requires UpdatedConnectionName !in cfg.connections
    requires !IsTransient(s.last)
    ensures !IsTransient(Run(s, cfg, cs).last)
    decreases |cs|
  {
    if cs != [] {
      ApplyKeepsLastDurable(s, cfg, cs[0]);
      var r := Apply(s, cfg, cs[0]);
      if r.outcome != Panic {
        RunKeepsLastDurable(r.state, cfg, cs[1..]);
      }
    }
  }

  /** Successive flag overrides, stopping at a panic. */
  function Overrides(s: State, updates: seq<Connection>): Step
    decreases |updates|
  {
    if updates == [] then Step(s, Success)
    else
      var r := Override(s, updates[0]);
      if r.outcome == Panic then r else Overrides(r.state, updates[1..])
  }

  /** After one or more overrides the current connection is a flag override and
      `last` is the durable connection from before the first one. */
  lemma {:induction false} OverridesKeepDurable(s: State, updates: seq<Connection>)
    requires |updates| > 0 && CurrentConnection(s).Some?
    ensures Overrides(s, updates).outcome == Success
    ensures var t := Overrides(s, updates).state;
            t.current.Some? && IsTransient(t.current.value) && t.last == Durable(s)
    decreases |updates|
  {
    var r := Override(s, updates[0]);
    if |updates| > 1 {
      OverridesKeepDurable(r.state, updates[1..]);
      assert Durable(r.state) == Durable(s);
    }
  }

  /** Override followed by the next `initConnections` restores the durable
      connection that preceded the override(s). */
  lemma OverrideThenInitRestores(s: State, cfg: Config, updates: seq<Connection>)
    requires |updates| > 0 && CurrentConnection(s).Some?
    ensures Init(Overrides(s, updates).state, cfg).outcome == Success
    ensures Init(Overrides(s, updates).state, cfg).state.current == Some(Durable(s))
  {
    OverridesKeepDurable(s, updates);
  }

  /** Once the current connection is durable, `initConnections` changes nothing
      but the one-time show-tokens setting, so calling it again is harmless. */
  lemma InitIdempotent(s: State, cfg: Config)
    requires Init(s, cfg).state.current != Some(NilHandle)
    ensures Init(s, cfg).outcome == Success
    ensures Init(Init(s, cfg).state, cfg) == Init(s, cfg)
  {
  }

  /** With neither a `default` entry nor `defaultConnection`, the first
      `initConnections` stores a wrapper with a nil pointer; the next
      `initConnections`, and any successful `set connection`, then panic. */
  lemma UnresolvedDefaultPanicsLater(s: State, cfg: Config, name: string)
    requires s.current.None?
    requires DefaultConnectionName !in cfg.connections && cfg.defaultConnection == ""
    ensures Init(s, cfg).state.current == Some(NilHandle)
    ensures Init(Init(s, cfg).state, cfg).outcome == Panic
    ensures name in cfg.connections ==> SetConnectionStep(Init(s, cfg).state, cfg, name).outcome == Panic
  {
  }

  /** A failed `set connection` leaves the session exactly as it was. */
  lemma FailedSetConnectionChangesNothing(s: State, cfg: Config, name: string)
    requires name !in cfg.connections
    ensures SetConnectionStep(s, cfg, name) == Step(s, Failure(NotFoundMessage(name)))
  {
  }

  /** `neverShowTokens` hides every non-empty token whatever the other flags. */
  lemma NeverShowTokensMasks(s: State, cfg: Config, conn: Connection, useEmpty: bool, useShowTokensOnce: bool)
    requires cfg.neverShowTokens && conn.token != "" && s.showTokens.Some?
    ensures SafeToken(s, cfg, conn, useEmpty, useShowTokensOnce) == Some(if useEmpty then "" else MaskedToken)
  {
  }

  /** Show-once is one-shot: after `setShowTokensOnce` a display that asks for it
      reveals the token, and after `resetShowTokensOnce` the same display masks
      it again, unless tokens are shown durably. A display that does not ask for
      show-once is not affected. */
  lemma ShowTokensOnceIsOneShot(s: State, cfg: Config, conn: Connection, useEmpty: bool)
    requires conn.token != "" && s.showTokens == Some(false) && !cfg.neverShowTokens
    ensures var once := Apply(s, cfg, SetShowTokensOnceCmd).state;
            var reset := Apply(once, cfg, ResetShowTokensOnceCmd).state;
            && SafeToken(once, cfg, conn, useEmpty, true) == Some(conn.token)
            && SafeToken(reset, cfg, conn, useEmpty, true) == Some(if useEmpty then "" else MaskedToken)
            && SafeToken(once, cfg, conn, useEmpty, false) == Some(if useEmpty then "" else MaskedToken)
  {
  }

  /** The `show-tokens` command toggles: two toggles restore the setting, and
      while tokens are shown durably every non-empty token is revealed. */
  lemma ToggleShowTokensTwice(s: State, cfg: Config, conn: Connection)
    requires s.showTokens.Some? && !cfg.neverShowTokens && conn.token != ""
    ensures var t := ToggleShowTokensStep(s).state;
            && ToggleShowTokensStep(t).state == s
            && (s.showTokens == Some(false) ==> SafeToken(t, cfg, conn, false, false) == Some(conn.token))
  {
  }
}
