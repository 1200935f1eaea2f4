/**
 * The serve command (`scripts/command/serve.js`): it resolves the
 * development server's options (project `devServer` options over the
 * configuration's own, command-line arguments over the environment over the
 * project over the defaults), the public URL, the CLI entry, the
 * development clients injected into every entry, the layered server
 * options, and the state machine of the compiler's done hook.  The resolved
 * configuration, the port the port finder settles on, the LAN address,
 * module resolution, proxy preparation and calling a function entry are
 * inputs.
 */
module ServeCommand {
  import opened JsValues
  import opened Env
  import Options

  /** Why the command rejects: a property read through null or undefined. */
  datatype ServeError = TypeError

  const DefaultHost: Value := Str("0.0.0.0")
  const DefaultPort: Value := Num(8080)
  const DefaultHttps: Value := Bool(false)

  // ---------------------------------------------------------------------------
  // First truthy value

  /** The first truthy candidate, or the fallback. */
  function FirstTruthy(candidates: seq<Value>, fallback: Value): Value {
    if candidates == [] then fallback
    else if Truthy(candidates[0]) then candidates[0]
    else FirstTruthy(candidates[1..], fallback)
  }

  /** The result is the first truthy candidate, all before it being falsy,
      and the fallback only when every candidate is falsy. */
  lemma {:induction false} FirstTruthyIsFirst(candidates: seq<Value>, fallback: Value)
    ensures (forall i | 0 <= i < |candidates| :: !Truthy(candidates[i])) ==> FirstTruthy(candidates, fallback) == fallback
    ensures forall i | 0 <= i < |candidates| && Truthy(candidates[i]) && (forall j | 0 <= j < i :: !Truthy(candidates[j])) ::
      FirstTruthy(candidates, fallback) == candidates[i]
    decreases |candidates|
  {
    if candidates != [] {
      FirstTruthyIsFirst(candidates[1..], fallback);
      forall i | 0 <= i < |candidates| && Truthy(candidates[i]) && (forall j | 0 <= j < i :: !Truthy(candidates[j]))
        ensures FirstTruthy(candidates, fallback) == candidates[i]
      {
        if i > 0 {
          assert !Truthy(candidates[0]);
          assert candidates[1..][i - 1] == candidates[i];
          forall j | 0 <= j < i - 1 ensures !Truthy(candidates[1..][j]) {
            assert candidates[1..][j] == candidates[j + 1];
          }
        }
      }
      if forall i | 0 <= i < |candidates| :: !Truthy(candidates[i]) {
        forall j | 0 <= j < |candidates| - 1 ensures !Truthy(candidates[1..][j]) {
          assert candidates[1..][j] == candidates[j + 1];
        }
      }
    }
  }

  /** A chain `a || b || ... || d` of `||` is the first truthy value. */
  lemma OrChain(a: Value, b: Value, c: Value, d: Value)
    ensures Or(Or(Or(a, b), c), d) == FirstTruthy([a, b, c], d)
    ensures Or(Or(a, b), d) == FirstTruthy([a, b], d)
  {
    assert [a, b, c][1..] == [b, c] && [b, c][1..] == [c] && [c][1..] == [];
    assert FirstTruthy([c], d) == Or(c, d);
    assert FirstTruthy([b, c], d) == (if Truthy(b) then b else Or(c, d));
    assert [a, b][1..] == [b] && [b][1..] == [];
    assert FirstTruthy([b], d) == Or(b, d);
  }

  // ---------------------------------------------------------------------------
  // The server options

  /** `Object.assign(webpackConfig.devServer || {}, options.devServer)`: the
      project's keys over the configuration's. */
  function ProjectDevServer(config: Value, devServer: map<string, Value>): map<string, Value> {
    var own := Prop(config, "devServer");
    (if Truthy(own) && own.Obj? then own.fields else map[]) + devServer
  }

  lemma ProjectDevServerOverrides(config: Value, devServer: map<string, Value>)
    ensures forall k | k in devServer :: k in ProjectDevServer(config, devServer) && ProjectDevServer(config, devServer)[k] == devServer[k]
    ensures Prop(config, "devServer").Obj? ==>
      ProjectDevServer(config, devServer).Keys == Prop(config, "devServer").fields.Keys + devServer.Keys
      && forall k | k in Prop(config, "devServer").fields && k !in devServer ::
           ProjectDevServer(config, devServer)[k] == Prop(config, "devServer").fields[k]
    ensures !Prop(config, "devServer").Obj? ==> ProjectDevServer(config, devServer) == devServer
  {
  }

  /** `useHttps`: the argument, then the project option, then `false`. */
  function UseHttps(args: map<string, Value>, pds: map<string, Value>): Value {
    Or(Or(Lookup(args, "https"), Lookup(pds, "https")), DefaultHttps)
  }

  function Protocol(useHttps: Value): string {
    if Truthy(useHttps) then "https" else "http"
  }

  /** `host`: the argument, then `HOST`, then the project option, then
      `0.0.0.0`. */
  function ServeHost(args: map<string, Value>, env: map<string, string>, pds: map<string, Value>): Value {
    Or(Or(Or(Lookup(args, "host"), EnvValue(env, "HOST")), Lookup(pds, "host")), DefaultHost)
  }

  /** `portfinder.basePort`: the argument, then `PORT`, then the project
      option, then 8080. */
  function BasePort(args: map<string, Value>, env: map<string, string>, pds: map<string, Value>): Value {
    Or(Or(Or(Lookup(args, "port"), EnvValue(env, "PORT")), Lookup(pds, "port")), DefaultPort)
  }

  /** Each setting is the first truthy source in its precedence order, so it
      is never empty. */
  lemma Precedence(args: map<string, Value>, env: map<string, string>, pds: map<string, Value>)
    ensures UseHttps(args, pds) == FirstTruthy([Lookup(args, "https"), Lookup(pds, "https")], DefaultHttps)
    ensures ServeHost(args, env, pds) == FirstTruthy([Lookup(args, "host"), EnvValue(env, "HOST"), Lookup(pds, "host")], DefaultHost)
    ensures BasePort(args, env, pds) == FirstTruthy([Lookup(args, "port"), EnvValue(env, "PORT"), Lookup(pds, "port")], DefaultPort)
    ensures Truthy(ServeHost(args, env, pds)) && Truthy(BasePort(args, env, pds))
    ensures Protocol(UseHttps(args, pds)) == "https" <==> Truthy(Lookup(args, "https")) || Truthy(Lookup(pds, "https"))
  {
    OrChain(Lookup(args, "https"), Lookup(pds, "https"), Undefined, DefaultHttps);
    OrChain(Lookup(args, "host"), EnvValue(env, "HOST"), Lookup(pds, "host"), DefaultHost);
    OrChain(Lookup(args, "port"), EnvValue(env, "PORT"), Lookup(pds, "port"), DefaultPort);
  }

  // ---------------------------------------------------------------------------
  // The public URL

  predicate IsAsciiLetter(c: char) {
    ('a' <= c <= 'z') || ('A' <= c <= 'Z')
  }

  /** The length of the run of letters at the start of `s`. */
  function LetterRun(s: string): (n: nat)
    ensures n <= |s|
    ensures forall i | 0 <= i < n :: IsAsciiLetter(s[i])
    ensures n < |s| ==> !IsAsciiLetter(s[n])
  {
    if s != [] && IsAsciiLetter(s[0]) then 1 + LetterRun(s[1..]) else 0
  }

  /** `/^[a-zA-Z]+:\/\//.test(s)`, matched greedily. */
  predicate HasScheme(s: string) {
    var n := LetterRun(s);
    n >= 1 && n + 3 <= |s| && s[n..n + 3] == "://"
  }

  /** What the regular expression accepts: some non-empty run of letters
      followed by `://`.  The greedy match finds it whenever one exists. */
  ghost predicate SchemePrefix(s: string) {
    exists n | 1 <= n && n + 3 <= |s| :: SchemeAt(s, n)
  }

  /** `n` letters and then `://`. */
  ghost predicate SchemeAt(s: string, n: nat)
    requires n + 3 <= |s|
  {
    (forall i | 0 <= i < n :: IsAsciiLetter(s[i])) && s[n..n + 3] == "://"
  }

  lemma HasSchemeMatches(s: string)
    ensures HasScheme(s) <==> SchemePrefix(s)
  {
    var r := LetterRun(s);
    if SchemePrefix(s) {
      var n :| 1 <= n && n + 3 <= |s| && SchemeAt(s, n);
      assert s[n] == ':';
      assert r == n;
    }
    if HasScheme(s) {
      assert SchemeAt(s, r);
    }
  }

  /** `publicUrl`: null without a raw value; a raw value with a scheme is
      kept, any other is put behind the protocol. */
  function PublicUrl(raw: Value, protocol: string): Option<string> {
    if !Truthy(raw) then None
    else if HasScheme(JsString(raw)) then Some(JsString(raw))
    else Some(protocol + "://" + JsString(raw))
  }

  /** A run of letters followed by a non-letter is the whole letter run. */
  lemma {:induction false} LetterRunOf(p: string, rest: string)
    requires forall i | 0 <= i < |p| :: IsAsciiLetter(p[i])
    requires rest != [] && !IsAsciiLetter(rest[0])
    ensures LetterRun(p + rest) == |p|
    decreases |p|
  {
    if p != [] {
      assert (p + rest)[1..] == p[1..] + rest;
      LetterRunOf(p[1..], rest);
    }
  }

  /** With `http` or `https` the public URL always has a scheme, so
      resolving it again keeps it. */
  lemma PublicUrlHasScheme(raw: Value, protocol: string)
    requires protocol == "http" || protocol == "https"
    requires PublicUrl(raw, protocol).Some?
    ensures HasScheme(PublicUrl(raw, protocol).value)
    ensures PublicUrl(Str(PublicUrl(raw, protocol).value), protocol) == PublicUrl(raw, protocol)
  {
    var u := PublicUrl(raw, protocol).value;
    if !HasScheme(JsString(raw)) {
      var n := |protocol|;
      assert u == protocol + ("://" + JsString(raw));
      LetterRunOf(protocol, "://" + JsString(raw));
      assert u[n..n + 3] == "://";
    }
  }

  /** `publicUrl.replace(/([^/])$/, '$1/')`: a trailing slash is added unless
      there already is one. */
  function NetworkUrl(publicUrl: string): string {
    if publicUrl != [] && publicUrl[|publicUrl| - 1] != '/' then publicUrl + "/" else publicUrl
  }

  lemma NetworkUrlSlash(publicUrl: string)
    ensures publicUrl != [] ==> var r := NetworkUrl(publicUrl); r[|r| - 1] == '/'
    ensures NetworkUrl(NetworkUrl(publicUrl)) == NetworkUrl(publicUrl)
    ensures IsPrefix(publicUrl, NetworkUrl(publicUrl)) && |NetworkUrl(publicUrl)| <= |publicUrl| + 1
  {
  }

  // ---------------------------------------------------------------------------
  // The development clients

  /** The sockjs query: the public URL's, or one built from the protocol,
      the LAN address (or `localhost`) and the port. */
  function SockjsQuery(publicUrl: Option<string>, protocol: string, lanUrl: Value, port: nat): string {
    if publicUrl.Some? then "?" + publicUrl.value + "/sockjs-node"
    else "?" + protocol + "://" + JsString(Or(lanUrl, Str("localhost"))) + ":" + NatToString(port) + "/sockjs-node"
  }

  /** `devClients`: the server client with its query, the hot-reload client,
      and the polling client under `APPVEYOR`; `resolveModule` is
      `require.resolve`. */
  function DevClients(resolveModule: string -> string, sockjs: string, hotOnly: Value, env: map<string, string>): (r: seq<string>)
  {
    [resolveModule("webpack-dev-server/client") + sockjs,
     resolveModule(if Truthy(hotOnly) then "webpack/hot/only-dev-server" else "webpack/hot/dev-server")]
    + (if Flag(env, "APPVEYOR") then ["webpack/hot/poll?500"] else [])
  }

  lemma DevClientsList(resolveModule: string -> string, sockjs: string, hotOnly: Value, env: map<string, string>)
    ensures var r := DevClients(resolveModule, sockjs, hotOnly, env);
      (|r| == 3 <==> Flag(env, "APPVEYOR")) && 2 <= |r| <= 3
      && r[0] == resolveModule("webpack-dev-server/client") + sockjs
      && (r[1] == resolveModule("webpack/hot/only-dev-server") <==> Truthy(hotOnly) || resolveModule("webpack/hot/dev-server") == resolveModule("webpack/hot/only-dev-server"))
      && (|r| == 3 ==> r[2] == "webpack/hot/poll?500")
  {
  }

  /** The clients as a list of values. */
  function ClientValues(clients: seq<string>): (r: seq<Value>)
    ensures |r| == |clients| && forall i | 0 <= i < |r| :: r[i] == Str(clients[i])
  {
    seq(|clients|, i requires 0 <= i < |clients| => Str(clients[i]))
  }

  /** `devClient.concat(v)`: a list is spliced in, anything else appended. */
  function Concat(clients: seq<string>, v: Value): Value {
    Arr(ClientValues(clients) + (if v.Arr? then v.items else [v]))
  }

  /** `config[key] = v` on an object; a write to anything else is lost. */
  function SetProp(config: Value, key: string, v: Value): Value {
    if config.Obj? then Obj(config.fields[key := v], config.ruleNames) else config
  }

  /** `addDevClientToEntry(config, devClient)` as a function of the
      configuration; `callEntry` is calling a function entry. */
  function WithDevClients(config: Value, clients: seq<string>, callEntry: (Value, seq<string>) -> Value): Result<Value, ServeError> {
    if Nullish(config) then Err(TypeError)
    else
      var entry := Prop(config, "entry");
      if entry.Null? then Err(TypeError)
      else if entry.Obj? then
        Ok(SetProp(config, "entry", Obj(map k | k in entry.fields :: Concat(clients, entry.fields[k]), entry.ruleNames)))
      else if entry.Func? then Ok(SetProp(config, "entry", callEntry(entry, clients)))
      else Ok(SetProp(config, "entry", Concat(clients, entry)))
  }

  /** The clients' entries removed again: a partner of `Concat`. */
  function DropClients(clients: seq<string>, v: Value): Value
    requires v.Arr? && |v.items| >= |clients|
  {
    var rest := v.items[|clients|..];
    Arr(rest)
  }

  /** Every entry of an object entry (and a non-object entry itself) starts
      with the clients, followed by what it held before. */
  lemma DevClientsFirst(config: Value, clients: seq<string>, callEntry: (Value, seq<string>) -> Value)
    requires config.Obj?
    ensures var entry := Prop(config, "entry");
      var r := WithDevClients(config, clients, callEntry);
      (r.Err? <==> entry.Null?)
      && (entry.Obj? ==>
        r.Ok? && Prop(r.value, "entry").Obj? && Prop(r.value, "entry").fields.Keys == entry.fields.Keys
        && forall k | k in entry.fields ::
             var v := Prop(r.value, "entry").fields[k];
             v.Arr? && |v.items| >= |clients| && v.items[..|clients|] == ClientValues(clients)
             && DropClients(clients, v) == (if entry.fields[k].Arr? then entry.fields[k] else Arr([entry.fields[k]])))
      && (entry.Func? ==> r == Ok(SetProp(config, "entry", callEntry(entry, clients))))
      && (!entry.Obj? && !entry.Func? && !entry.Null? ==>
        r.Ok? && var v := Prop(r.value, "entry");
        v.Arr? && |v.items| >= |clients| && v.items[..|clients|] == ClientValues(clients)
        && DropClients(clients, v) == (if entry.Arr? then entry else Arr([entry])))
      && (r.Ok? ==> (r.value.Obj? && r.value.fields.Keys == config.fields.Keys + {"entry"}
            && forall k | k in config.fields && k != "entry" :: r.value.fields[k] == config.fields[k]))
  {
    var entry := Prop(config, "entry");
    if entry.Obj? {
      var r := WithDevClients(config, clients, callEntry);
      forall k | k in entry.fields
        ensures var v := Prop(r.value, "entry").fields[k];
             v.Arr? && |v.items| >= |clients| && v.items[..|clients|] == ClientValues(clients)
             && DropClients(clients, v) == (if entry.fields[k].Arr? then entry.fields[k] else Arr([entry.fields[k]]))
      {
        var v := Prop(r.value, "entry").fields[k];
        assert v == Concat(clients, entry.fields[k]);
        assert v.items[|clients|..] == (if entry.fields[k].Arr? then entry.fields[k].items else [entry.fields[k]]);
      }
    } else if !entry.Func? && !entry.Null? {
      var r := WithDevClients(config, clients, callEntry);
      var v := Prop(r.value, "entry");
      assert v.items[|clients|..] == (if entry.Arr? then entry.items else [entry]);
    }
  }

  /** `addDevClientToEntry`, updating the entry object key by key. */
  method AddDevClientToEntry(config: Value, clients: seq<string>, callEntry: (Value, seq<string>) -> Value)
    returns (r: Result<Value, ServeError>)
    ensures r == WithDevClients(config, clients, callEntry)
  {
    if Nullish(config) {
      return Err(TypeError);
    }
    var entry := Prop(config, "entry");
    if entry.Null? {
      return Err(TypeError);
    }
    if entry.Obj? {
      var fields := entry.fields;
      var todo := entry.fields.Keys;
      while todo != {}
        invariant todo <= entry.fields.Keys && fields.Keys == entry.fields.Keys
        invariant forall k | k in entry.fields :: fields[k] == if k in todo then entry.fields[k] else Concat(clients, entry.fields[k])
        decreases todo
      {
        var k :| k in todo;
        fields := fields[k := Concat(clients, fields[k])];
        todo := todo - {k};
      }
      assert fields == map k | k in entry.fields :: Concat(clients, entry.fields[k]);
      r := Ok(SetProp(config, "entry", Obj(fields, entry.ruleNames)));
    } else if entry.Func? {
      r := Ok(SetProp(config, "entry", callEntry(entry, clients)));
    } else {
      r := Ok(SetProp(config, "entry", Concat(clients, entry)));
    }
  }

  // ---------------------------------------------------------------------------
  // The server

  /** `path.posix.join(baseUrl, 'index.html')` for a base URL without `.` or
      `..` segments. */
  function IndexPath(baseUrl: string): string {
    if baseUrl != [] && baseUrl[|baseUrl| - 1] == '/' then baseUrl + "index.html"
    else if baseUrl == [] then "index.html"
    else baseUrl + "/index.html"
  }

  /** The fixed first layer of the server options. */
  function ServerDefaults(baseUrl: string, isProduction: bool, h: Host): map<string, Value> {
    map[
      "clientLogLevel" := Str("none"),
      "historyApiFallback" := Plain(map[
        "disableDotRule" := Bool(true),
        "rewrites" := Arr([Plain(map["from" := Str("/./"), "to" := Str(IndexPath(baseUrl))])])]),
      "contentBase" := Str(Resolve(h, "public")),
      "watchContentBase" := Bool(!isProduction),
      "hot" := Bool(!isProduction),
      "quiet" := Bool(true),
      "compress" := Bool(isProduction),
      "publicPath" := Str(baseUrl),
      "overlay" := if isProduction then Bool(false) else Plain(map["warnings" := Bool(false), "errors" := Bool(true)])]
  }

  /** The last layer, which always wins. */
  function ServerForced(useHttps: Value, proxy: Value): map<string, Value> {
    map["https" := useHttps, "proxy" := proxy, "before" := Func("before")]
  }

  /** The options given to the development server. */
  function ServerOptions(baseUrl: string, isProduction: bool, h: Host, pds: map<string, Value>, useHttps: Value, proxy: Value): map<string, Value> {
    ServerDefaults(baseUrl, isProduction, h) + pds + ServerForced(useHttps, proxy)
  }

  /** Later layers win: the forced keys always hold their values, a project
      key overrides a default, and a default survives only where neither
      later layer names its key. */
  lemma ServerOptionsLayers(baseUrl: string, isProduction: bool, h: Host, pds: map<string, Value>, useHttps: Value, proxy: Value)
    ensures var r := ServerOptions(baseUrl, isProduction, h, pds, useHttps, proxy);
      r["https"] == useHttps && r["proxy"] == proxy && r["before"] == Func("before")
      && (forall k | k in pds && k !in ServerForced(useHttps, proxy) :: r[k] == pds[k])
      && (forall k | k in ServerDefaults(baseUrl, isProduction, h) && k !in pds && k !in ServerForced(useHttps, proxy) ::
            r[k] == ServerDefaults(baseUrl, isProduction, h)[k])
      && r.Keys == ServerDefaults(baseUrl, isProduction, h).Keys + pds.Keys + {"https", "proxy", "before"}
  {
  }

  // ---------------------------------------------------------------------------
  // The command

  /** What the command sets up before the first compile. */
  datatype Setup = Setup(
    config: Value,
    serverOptions: map<string, Value>,
    protocol: string,
    host: Value,
    basePort: Value,
    publicUrl: Option<string>,
    clients: seq<string>)

  /** The inputs the command takes from outside the core. */
  datatype Outside = Outside(
    port: nat,
    lanUrl: Value,
    proxy: Value,
    resolveModule: string -> string,
    callEntry: (Value, seq<string>) -> Value)

  /** The configuration with the project `devServer` options written into
      its own `devServer` object, which they were assigned into. */
  function WithDevServer(config: Value, pds: map<string, Value>): Value {
    var own := Prop(config, "devServer");
    if Truthy(own) && own.Obj? then SetProp(config, "devServer", Obj(pds, own.ruleNames)) else config
  }

  /** The entry given on the command line replaces the configured ones. */
  function WithCliEntry(config: Value, positional: seq<Value>, h: Host): Value {
    var entry := if positional == [] then Undefined else positional[0];
    if Truthy(entry) then SetProp(config, "entry", Plain(map["app" := Str(Resolve(h, JsString(entry)))])) else config
  }

  /** The clients injected outside production. */
  function ClientsFor(env: map<string, string>, pds: map<string, Value>, publicUrl: Option<string>, protocol: string, o: Outside): seq<string> {
    if IsProduction(env) then []
    else DevClients(o.resolveModule, SockjsQuery(publicUrl, protocol, o.lanUrl, o.port), Lookup(pds, "hotOnly"), env)
  }

  /** The serve command up to creating the server. */
  function SetupOf(config: Value, options: Options.ProjectOptions, args: map<string, Value>, positional: seq<Value>,
                   env: map<string, string>, h: Host, o: Outside): Result<Setup, ServeError> {
    if Nullish(config) then Err(TypeError)
    else
      var pds := ProjectDevServer(config, options.devServer);
      var withEntry := WithCliEntry(WithDevServer(config, pds), positional, h);
      var useHttps := UseHttps(args, pds);
      var protocol := Protocol(useHttps);
      var publicUrl := PublicUrl(Or(Lookup(args, "public"), Lookup(pds, "public")), protocol);
      var clients := ClientsFor(env, pds, publicUrl, protocol, o);
      var injected := if IsProduction(env) then Ok(withEntry) else WithDevClients(withEntry, clients, o.callEntry);
      if injected.Err? then Err(injected.error)
      else Ok(Setup(injected.value, ServerOptions(options.baseUrl, IsProduction(env), h, pds, useHttps, o.proxy),
                    protocol, ServeHost(args, env, pds), BasePort(args, env, pds), publicUrl, clients))
  }

  /** `serve(args)` up to creating the server. */
  method Serve(config: Value, options: Options.ProjectOptions, args: map<string, Value>, positional: seq<Value>,
               env: map<string, string>, h: Host, o: Outside) returns (r: Result<Setup, ServeError>)
    ensures r == SetupOf(config, options, args, positional, env, h, o)
  {
    if Nullish(config) {
      return Err(TypeError);
    }
    var pds := ProjectDevServer(config, options.devServer);
    var webpackConfig := WithDevServer(config, pds);
    var entry := if positional == [] then Undefined else positional[0];
    if Truthy(entry) {
      webpackConfig := SetProp(webpackConfig, "entry", Plain(map["app" := Str(Resolve(h, JsString(entry)))]));
    }
    ghost var withEntry := webpackConfig;
    assert withEntry == WithCliEntry(WithDevServer(config, pds), positional, h);
    var useHttps := UseHttps(args, pds);
    var protocol := Protocol(useHttps);
    var host := ServeHost(args, env, pds);
    var basePort := BasePort(args, env, pds);
    var publicUrl := PublicUrl(Or(Lookup(args, "public"), Lookup(pds, "public")), protocol);
    var clients: seq<string> := [];
    if !IsProduction(env) {
      clients := ClientsFor(env, pds, publicUrl, protocol, o);
      var injected := AddDevClientToEntry(webpackConfig, clients, o.callEntry);
      if injected.Err? {
        return Err(injected.error);
      }
      webpackConfig := injected.value;
    }
    assert clients == ClientsFor(env, pds, publicUrl, protocol, o);
    assert Ok(webpackConfig) == if IsProduction(env) then Ok(withEntry) else WithDevClients(withEntry, clients, o.callEntry);
    var serverOptions := ServerOptions(options.baseUrl, IsProduction(env), h, pds, useHttps, o.proxy);
    r := Ok(Setup(webpackConfig, serverOptions, protocol, host, basePort, publicUrl, clients));
  }

  /** A CLI entry in development ends up as the single `app` entry holding
      the clients followed by the resolved entry; in production it is that
      entry alone and nothing is injected. */
  lemma CliEntryServed(config: Value, options: Options.ProjectOptions, args: map<string, Value>, positional: seq<Value>,
                       env: map<string, string>, h: Host, o: Outside)
    requires config.Obj? && positional != [] && Truthy(positional[0])
    ensures var r := SetupOf(config, options, args, positional, env, h, o);
      var app := Str(Resolve(h, JsString(positional[0])));
      r.Ok?
      && (IsProduction(env) ==> r.value.clients == [] && Prop(r.value.config, "entry") == Plain(map["app" := app]))
      && (!IsProduction(env) ==> Prop(r.value.config, "entry") == Plain(map["app" := Arr(ClientValues(r.value.clients) + [app])]))
  {
    var pds := ProjectDevServer(config, options.devServer);
    var withEntry := WithCliEntry(WithDevServer(config, pds), positional, h);
    var app := Str(Resolve(h, JsString(positional[0])));
    assert withEntry.Obj? && Prop(withEntry, "entry") == Plain(map["app" := app]);
    if !IsProduction(env) {
      var useHttps := UseHttps(args, pds);
      var protocol := Protocol(useHttps);
      var publicUrl := PublicUrl(Or(Lookup(args, "public"), Lookup(pds, "public")), protocol);
      var clients := ClientsFor(env, pds, publicUrl, protocol, o);
      AppEntryInjected(withEntry, clients, o.callEntry, app);
    }
  }

  /** The clients injected into a single `app` entry. */
  lemma AppEntryInjected(config: Value, clients: seq<string>, callEntry: (Value, seq<string>) -> Value, app: Value)
    requires config.Obj? && Prop(config, "entry") == Plain(map["app" := app])
    ensures WithDevClients(config, clients, callEntry).Ok?
    ensures Prop(WithDevClients(config, clients, callEntry).value, "entry") == Plain(map["app" := Concat(clients, app)])
  {
    assert (map k | k in map["app" := app] :: Concat(clients, map["app" := app][k])) == map["app" := Concat(clients, app)];
  }

  // ---------------------------------------------------------------------------
  // The done hook

  /** The closure the done hook runs in: the first-compile flag, what the
      returned promise resolved with, and the effects counted. */
  class DevServerSession {
    var isFirstCompile: bool
    var resolvedWith: Option<string>
    var listenCalls: nat
    var updateSignals: nat

    constructor()
      ensures isFirstCompile && resolvedWith == None && listenCalls == 0 && updateSignals == 0
    {
      isFirstCompile := true;
      resolvedWith := None;
      listenCalls := 0;
      updateSignals := 0;
    }

    /** The done hook: a compile with errors is ignored; the first
        error-free one resolves with the local URL, later ones signal an
        update under `CLI_TEST`; every error-free one calls `listen`. */
    method OnDone(hasErrors: bool, localUrl: string, cliTest: bool)
      modifies this
      ensures hasErrors ==> (isFirstCompile == old(isFirstCompile) && resolvedWith == old(resolvedWith)
        && listenCalls == old(listenCalls) && updateSignals == old(updateSignals))
      ensures !hasErrors ==> (!isFirstCompile
        && resolvedWith == (if old(isFirstCompile) then Some(localUrl) else old(resolvedWith))
        && listenCalls == old(listenCalls) + 1
        && updateSignals == old(updateSignals) + (if !old(isFirstCompile) && cliTest then 1 else 0))
    {
      if hasErrors {
        return;
      }
      if isFirstCompile {
        isFirstCompile := false;
        resolvedWith := Some(localUrl);
      } else if cliTest {
        updateSignals := updateSignals + 1;
      }
      listenCalls := listenCalls + 1;
    }
  }

  /** The closure's state as a value. */
  datatype SessionState = SessionState(isFirstCompile: bool, resolvedWith: Option<string>, listenCalls: nat, updateSignals: nat)

  /** The state after a sequence of compiles, each given by whether it had
      errors. */
  function Replay(compiles: seq<bool>, localUrl: string, cliTest: bool): SessionState {
    if compiles == [] then SessionState(true, None, 0, 0)
    else
      var s := Replay(compiles[..|compiles| - 1], localUrl, cliTest);
      if compiles[|compiles| - 1] then s
      else SessionState(false, if s.isFirstCompile then Some(localUrl) else s.resolvedWith, s.listenCalls + 1,
                        s.updateSignals + (if !s.isFirstCompile && cliTest then 1 else 0))
  }

  /** The number of compiles without errors. */
  function ErrorFree(compiles: seq<bool>): nat {
    if compiles == [] then 0
    else ErrorFree(compiles[..|compiles| - 1]) + (if compiles[|compiles| - 1] then 0 else 1)
  }

  /** The promise is resolved exactly when some compile was error-free, and
      then with the local URL; `listen` runs on every error-free compile and
      every one after the first signals an update under `CLI_TEST`. */
  lemma {:induction false} ReplayCounts(compiles: seq<bool>, localUrl: string, cliTest: bool)
    ensures var s := Replay(compiles, localUrl, cliTest);
      s.listenCalls == ErrorFree(compiles)
      && (s.resolvedWith.Some? <==> ErrorFree(compiles) > 0)
      && (s.resolvedWith.Some? ==> s.resolvedWith.value == localUrl)
      && (s.isFirstCompile <==> s.resolvedWith.None?)
      && s.updateSignals == (if cliTest && ErrorFree(compiles) > 0 then ErrorFree(compiles) - 1 else 0)
  {
    if compiles != [] {
      ReplayCounts(compiles[..|compiles| - 1], localUrl, cliTest);
    }
  }

  /** The compile that resolves the promise is the first error-free one. */
  lemma {:induction false} ResolvesAtFirst(compiles: seq<bool>, localUrl: string, cliTest: bool, i: nat)
    requires i < |compiles|
    ensures Replay(compiles[..i], localUrl, cliTest).resolvedWith.None? && Replay(compiles[..i + 1], localUrl, cliTest).resolvedWith.Some?
      <==> !compiles[i] && forall j | 0 <= j < i :: compiles[j]
  {
    assert compiles[..i + 1][..i] == compiles[..i];
    NoneUntilErrorFree(compiles[..i], localUrl, cliTest);
    ReplayCounts(compiles[..i], localUrl, cliTest);
  }

  lemma {:induction false} NoneUntilErrorFree(compiles: seq<bool>, localUrl: string, cliTest: bool)
    ensures Replay(compiles, localUrl, cliTest).resolvedWith.None? <==> forall j | 0 <= j < |compiles| :: compiles[j]
  {
    if compiles != [] {
      var init := compiles[..|compiles| - 1];
      NoneUntilErrorFree(init, localUrl, cliTest);
      ReplayCounts(init, localUrl, cliTest);
      if forall j | 0 <= j < |init| :: init[j] {
        assert forall j | 0 <= j < |compiles| - 1 :: compiles[j] == init[j];
      } else {
        var j :| 0 <= j < |init| && !init[j];
        assert !compiles[j];
      }
    }
  }

  /** The dev server's life: one session fed every compile in turn. */
  method Watch(compiles: seq<bool>, localUrl: string, cliTest: bool) returns (session: DevServerSession)
    ensures fresh(session)
    ensures SessionState(session.isFirstCompile, session.resolvedWith, session.listenCalls, session.updateSignals)
      == Replay(compiles, localUrl, cliTest)
  {
    session := new DevServerSession();
    var i := 0;
    while i < |compiles|
      invariant 0 <= i <= |compiles|
      invariant SessionState(session.isFirstCompile, session.resolvedWith, session.listenCalls, session.updateSignals)
        == Replay(compiles[..i], localUrl, cliTest)
    {
      assert compiles[..i + 1][..i] == compiles[..i];
      session.OnDone(compiles[i], localUrl, cliTest);
      i := i + 1;
    }
    assert compiles[..i] == compiles;
  }
}
