/** The older connection bookkeeping of the `config` package: a separate
    `defaultConnection` that always exists, a current connection that is set
    once and then only by `SetConnection`, and its own token-masking rule.

    The package variables `currentConnection` and `defaultConnection` are the
    fields of class `ConfigSession`; the state changes are also given as
    functions on `State`, which the methods are proved to compute and which the
    lemmas are about. `Startup` is the sequence `cmd/root.go` runs on every
    command. */
module ConfigConnection {
  import opened Wrappers
  import opened GoMaps

  const DefaultName := "default"
  const MaskedToken := "*****"
  const EmptyTokenText := "<empty-token>"

  datatype Connection = Connection(name: string, hubURL: string, token: string)

  /** One entry under `connections.<name>`: its `huburl` and `token`. */
  datatype Entry = Entry(hubURL: string, token: string)

  /** What the package reads from viper: the `connections` map, the
      `defaultConnection` name and the `neverShowToken` and `showToken` flags. */
  datatype Config = Config(connections: map<string, Entry>, defaultConnection: string,
                           neverShowToken: bool, showToken: bool)

  /** `current` is None while `currentConnection` is nil. */
  datatype State = State(current: Option<Connection>, defaultConnection: Connection)

  const Start := State(None, Connection("", "", ""))

  /** The command-line flags `cmd/root.go` consults, each with whether it was
      set on this invocation. */
  datatype Flags = Flags(hubURLChanged: bool, hubURL: string, tokenChanged: bool, token: string)

  function NotFoundMessage(name: string): string {
    "couldn't find connection \"" + name + "\""
  }

  /** `getConnectionByName`. */
  function GetConnectionByName(cfg: Config, name: string): (r: Option<Connection>)
    ensures r.Some? <==> name in cfg.connections
    ensures r.Some? ==> && r.value.name == name
                        && r.value.hubURL == cfg.connections[name].hubURL
                        && r.value.token == cfg.connections[name].token
  {
    if name in cfg.connections then
      Some(Connection(name, cfg.connections[name].hubURL, cfg.connections[name].token))
    else None
  }

  /** `MakeSafeTokenString`: the mask unless tokens may be shown; when they may,
      the token, or a placeholder for an empty one. */
  function MakeSafeTokenString(cfg: Config, c: Connection): (r: string)
    ensures !(!cfg.neverShowToken && cfg.showToken) ==> r == MaskedToken
    ensures (!cfg.neverShowToken && cfg.showToken && c.token != "") ==> r == c.token
    ensures (!cfg.neverShowToken && cfg.showToken && c.token == "") ==> r == EmptyTokenText
  {
    var token := MaskedToken;
    if !cfg.neverShowToken then
      if cfg.showToken then
        if c.token == "" then EmptyTokenText else c.token
      else token
    else token
  }

  /** `SetConnection`: "default" always succeeds with the default connection;
      any other name succeeds exactly when it is configured, else an error and
      no change. */
  function SetConnectionStep(s: State, cfg: Config, name: string): (r: (State, Option<string>))
    ensures name == DefaultName ==> r == (s.(current := Some(s.defaultConnection)), None)
    ensures name != DefaultName ==> (r.1.None? <==> name in cfg.connections)
    ensures r.1.Some? ==> r.0 == s && r.1 == Some(NotFoundMessage(name))
    ensures name != DefaultName && r.1.None? ==> r.0.current == GetConnectionByName(cfg, name)
    ensures r.0.defaultConnection == s.defaultConnection
  {
    if name == DefaultName then (s.(current := Some(s.defaultConnection)), None)
    else
      match GetConnectionByName(cfg, name)
      case Some(conn) => (s.(current := Some(conn)), None)
      case None => (s, Some(NotFoundMessage(name)))
  }

  /** The default connection `InitConnections` builds: the `default` entry; else
      one named "default" with the URL and token of the entry `defaultConnection`
      names; else `hubURL` and an empty token. */
  function ResolveDefault(cfg: Config, hubURL: string): (c: Connection)
    ensures c.name == DefaultName
    ensures DefaultName in cfg.connections ==> Some(c) == GetConnectionByName(cfg, DefaultName)
    ensures (DefaultName !in cfg.connections && cfg.defaultConnection != ""
             && cfg.defaultConnection in cfg.connections) ==>
              && c.hubURL == cfg.connections[cfg.defaultConnection].hubURL
              && c.token == cfg.connections[cfg.defaultConnection].token
    ensures (DefaultName !in cfg.connections
             && (cfg.defaultConnection == "" || cfg.defaultConnection !in cfg.connections)) ==>
              c == Connection(DefaultName, hubURL, "")
  {
    match GetConnectionByName(cfg, DefaultName)
    case Some(conn) => conn
    case None =>
      var dnc := if cfg.defaultConnection != "" then GetConnectionByName(cfg, cfg.defaultConnection) else None;
      if dnc.Some? then Connection(DefaultName, dnc.value.hubURL, dnc.value.token)
      else Connection(DefaultName, hubURL, "")
  }

  /** `InitConnections(hubURL)`: rebuild the default connection and make it
      current only when there is no current connection yet. */
  function InitStep(s: State, cfg: Config, hubURL: string): (r: State)
    ensures r.defaultConnection == ResolveDefault(cfg, hubURL)
    ensures s.current.Some? ==> r.current == s.current
    ensures s.current.None? ==> r.current == Some(ResolveDefault(cfg, hubURL))
  {
    var conn := ResolveDefault(cfg, hubURL);
    State(if s.current.None? then Some(conn) else s.current, conn)
  }

  /** `cmd/root.go` `initConnections`: `InitConnections`, then each flag that was
      set on this invocation overwrites that field of the default connection. */
  function StartupStep(s: State, cfg: Config, hubURL: string, flags: Flags): State
  {
    var t := InitStep(s, cfg, hubURL);
    var t := if flags.hubURLChanged then t.(defaultConnection := t.defaultConnection.(hubURL := flags.hubURL)) else t;
    if flags.tokenChanged then t.(defaultConnection := t.defaultConnection.(token := flags.token)) else t
  }

  /** Start-up as the `--hub-url` and `--token` flags evidently intend it: on the
      first start-up the connection in use is the default connection with the
      flags applied. Later start-ups keep the current connection, as before. */
  function CorrectedStartupStep(s: State, cfg: Config, hubURL: string, flags: Flags): (r: State)
    ensures r.defaultConnection == StartupStep(s, cfg, hubURL, flags).defaultConnection
    ensures s.current.Some? ==> r.current == s.current
    ensures s.current.None? ==> r.current == Some(r.defaultConnection)
  {
    var t := StartupStep(s, cfg, hubURL, flags);
    if s.current.None? then t.(current := Some(t.defaultConnection)) else t
  }

  /** The package-level state of `config/connection..go`. */
  class ConfigSession {
    var current: Option<Connection>
    var defaultConnection: Connection

    function Snapshot(): State
      reads this
    {
      State(current, defaultConnection)
    }

    constructor ()
      ensures Snapshot() == Start
    {
      current, defaultConnection := None, Connection("", "", "");
    }

    /** `SetConnection`. */
    method SetConnection(cfg: Config, name: string) returns (err: Option<string>)
      modifies this
      ensures (Snapshot(), err) == SetConnectionStep(old(Snapshot()), cfg, name)
    {
      err := None;
      if name == DefaultName {
        current := Some(defaultConnection);
      } else {
        var conn := GetConnectionByName(cfg, name);
        if conn.Some? {
          current := Some(conn.value);
        } else {
          err := Some(NotFoundMessage(name));
        }
      }
    }

    /** `UpdateDefaultHubURL`: only the default connection's URL changes. */
    method UpdateDefaultHubURL(hubURL: string)
      modifies this
      ensures defaultConnection == old(defaultConnection).(hubURL := hubURL)
      ensures current == old(current)
    {
      defaultConnection := defaultConnection.(hubURL := hubURL);
    }

    /** `UpdateDefaultToken`: only the default connection's token changes. */
    method UpdateDefaultToken(token: string)
      modifies this
      ensures defaultConnection == old(defaultConnection).(token := token)
      ensures current == old(current)
    {
      defaultConnection := defaultConnection.(token := token);
    }

    /** `InitConnections`. */
    method InitConnections(cfg: Config, hubURL: string)
      modifies this
      ensures Snapshot() == InitStep(old(Snapshot()), cfg, hubURL)
    {
      var conn := GetConnectionByName(cfg, DefaultName);
      var c: Connection;
      if conn.Some? {
        c := conn.value;
      } else {
        var url := hubURL;
        var token := "";
        var defaultName := cfg.defaultConnection;
        if defaultName != "" {
          var dnc := GetConnectionByName(cfg, defaultName);
          if dnc.Some? {
            url := dnc.value.hubURL;
            token := dnc.value.token;
          }
        }
        c := Connection(DefaultName, url, token);
      }
      defaultConnection := c;
      if current.None? {
        current := Some(c);
      }
    }

    /** The start-up sequence of `cmd/root.go`. */
    method Startup(cfg: Config, hubURL: string, flags: Flags)
      modifies this
      ensures Snapshot() == StartupStep(old(Snapshot()), cfg, hubURL, flags)
    {
      InitConnections(cfg, hubURL);
      if flags.hubURLChanged {
        UpdateDefaultHubURL(flags.hubURL);
      }
      if flags.tokenChanged {
        UpdateDefaultToken(flags.token);
      }
    }

    /** `GetConnections`: every configured connection except "default", in range
        order and each once, then the default connection as the last element. */
    method GetConnections(cfg: Config, order: seq<string>) returns (conns: seq<Connection>)
      requires Enumerates(order, cfg.connections.Keys)
      ensures |conns| == |cfg.connections.Keys - {DefaultName}| + 1
      ensures conns[|conns| - 1] == defaultConnection
      ensures forall i :: 0 <= i < |conns| - 1 ==>
                conns[i].name != DefaultName && Some(conns[i]) == GetConnectionByName(cfg, conns[i].name)
      ensures Distinct(Names(conns[..|conns| - 1]))
      ensures forall name :: name in Names(conns[..|conns| - 1]) <==> name in cfg.connections && name != DefaultName
    {
      var listed: seq<Connection> := [];
      var k := 0;
      while k < |order|
        invariant 0 <= k <= |order|
        invariant forall i :: 0 <= i < |listed| ==>
                    listed[i].name != DefaultName && Some(listed[i]) == GetConnectionByName(cfg, listed[i].name)
        invariant forall n :: n in Names(listed) <==> n in order[..k] && n != DefaultName
        invariant Distinct(Names(listed))
      {
        var name := order[k];
        assert order[..k + 1] == order[..k] + [name];
        assert name !in order[..k];
        if name != DefaultName {
          var entry := cfg.connections[name];
          var c := Connection(name, entry.hubURL, entry.token);
          assert Names(listed + [c]) == Names(listed) + [name] by {
            assert (listed + [c])[..|listed|] == listed;
          }
          DistinctAppend(Names(listed), name);
          listed := listed + [c];
        }
        k := k + 1;
      }
      assert order[..k] == order;
      ghost var names := Names(listed);
      assert (set n | n in names) == cfg.connections.Keys - {DefaultName};
      DistinctCardinality(names);
      conns := listed + [defaultConnection];
      assert conns[..|conns| - 1] == listed;
    }
  }

  /** The names of a list of connections, in the same order. */
  ghost function Names(cs: seq<Connection>): (r: seq<string>)
    ensures |r| == |cs|
    ensures forall i :: 0 <= i < |cs| ==> r[i] == cs[i].name
  {
    if cs == [] then [] else Names(cs[..|cs| - 1]) + [cs[|cs| - 1].name]
  }

  /** `GetConnectionNames`: every configured name in range order, then "default"
      when no entry has that name. Every name, "default" included, occurs
      exactly once. */
  method GetConnectionNames(cfg: Config, order: seq<string>) returns (names: seq<string>)
    requires Enumerates(order, cfg.connections.Keys)
    ensures |order| <= |names| && names[..|order|] == order
    ensures |names| == |cfg.connections| + (if DefaultName in cfg.connections then 0 else 1)
    ensures forall n :: n in names <==> n in cfg.connections || n == DefaultName
    ensures forall n :: n in names ==> multiset(names)[n] == 1
  {
    EnumerationLength(order, cfg.connections.Keys);
    names := [];
    var noDefault := true;
    var k := 0;
    while k < |order|
      invariant 0 <= k <= |order|
      invariant names == order[..k]
      invariant noDefault <==> DefaultName !in order[..k]
    {
      if order[k] == DefaultName {
        noDefault := false;
      }
      names := names + [order[k]];
      k := k + 1;
    }
    assert names == order;
    if noDefault {
      names := names + [DefaultName];
    }
    assert Distinct(names) by {
      if noDefault {
        assert DefaultName !in order;
      }
    }
    forall n | n in names
      ensures multiset(names)[n] == 1
    {
      DistinctOccursOnce(names, n);
    }
  }

  /** The flags change only the default connection. The current connection is
      the resolved default as it was before the flags were applied on the first
      start-up, and is untouched on later ones. */
  lemma StartupFlagsReachOnlyDefault(s: State, cfg: Config, hubURL: string, flags: Flags)
    ensures var t := StartupStep(s, cfg, hubURL, flags);
            var d := ResolveDefault(cfg, hubURL);
            && t.defaultConnection.name == DefaultName
            && t.defaultConnection.hubURL == (if flags.hubURLChanged then flags.hubURL else d.hubURL)
            && t.defaultConnection.token == (if flags.tokenChanged then flags.token else d.token)
            && t.current == (if s.current.None? then Some(d) else s.current)
  {
  }

  /** As written, a `--hub-url` flag on a one-shot command does not reach the
      connection `GetHubURL` reads: with no configuration, the current connection
      keeps the built-in URL. */
  lemma FlagsMissCurrentConnection()
    ensures var cfg := Config(map[], "", false, false);
            var flags := Flags(true, "http://hub.example.org:8081", false, "");
            var t := StartupStep(Start, cfg, "http://127.0.0.1:8081", flags);
            && t.current.Some? && t.current.value.hubURL == "http://127.0.0.1:8081"
            && t.current.value.hubURL != flags.hubURL
            && t.defaultConnection.hubURL == flags.hubURL
  {
  }

  /** Corrected, every flag set on the first start-up is in the connection in
      use; with no flag set it is the start-up as written. */
  lemma {:induction false} CorrectedStartupUsesFlags(s: State, cfg: Config, hubURL: string, flags: Flags)
    ensures var r := CorrectedStartupStep(s, cfg, hubURL, flags);
            && (s.current.None? && flags.hubURLChanged ==> r.current.value.hubURL == flags.hubURL)
            && (s.current.None? && flags.tokenChanged ==> r.current.value.token == flags.token)
            && (s.current.None? ==> r.current.value.name == DefaultName)
            && (!flags.hubURLChanged && !flags.tokenChanged ==> r == StartupStep(s, cfg, hubURL, flags))
  {
    StartupFlagsReachOnlyDefault(s, cfg, hubURL, flags);
  }

  /** After start-up, `set connection default` picks up the flag values. */
  lemma SetDefaultAfterStartupSeesFlags(s: State, cfg: Config, hubURL: string, flags: Flags)
    requires flags.hubURLChanged && flags.tokenChanged
    ensures var t := SetConnectionStep(StartupStep(s, cfg, hubURL, flags), cfg, DefaultName);
            && t.1.None?
            && t.0.current == Some(Connection(DefaultName, flags.hubURL, flags.token))
  {
  }

  /** Repeated start-ups (interactive mode runs one per command) keep the first
      current connection, and rebuild the same default connection. */
  lemma StartupIsDurable(s: State, cfg: Config, hubURL: string, flags: Flags)
    ensures var t := StartupStep(s, cfg, hubURL, flags);
            StartupStep(t, cfg, hubURL, flags) == t
  {
  }
}
