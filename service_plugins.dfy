/**
 * The service's plugins and commands (`scripts/base.js`): which plugins the
 * service loads and in what order, what each one registers when applied,
 * the environment defaults `loadEnv` fills in, and how `run` picks the
 * command to call.
 */
module ServicePlugins {
  import opened JsValues
  import opened Chain
  import opened Env
  import opened Options

  // ---------------------------------------------------------------------------
  // Plugins

  /** A chain callback as a plugin registers it: one of the configuration
      plugins, holding the project options it was applied with, or the
      project's own `chainWebpack`. */
  datatype ChainFn =
    | CoreChain(opts: ProjectOptions)
    | CssChain(opts: ProjectOptions)
    | ProdChain(opts: ProjectOptions)
    | AppChain(opts: ProjectOptions)
    | ProjectChain(edit: Tree -> Tree)

  /** What applying a plugin registers, in registration order. */
  datatype Registrations = Registrations(chainFns: seq<ChainFn>, rawFns: seq<RawHook>, commands: seq<string>)

  const NoRegistrations := Registrations([], [], [])

  /** A plugin's `apply` function: one of the built-in plugins, or an inline
      plugin described by what it registers for given project options. */
  datatype PluginApply =
    | ServeApply
    | CoreApply
    | CssApply
    | DevApply
    | ProdApply
    | AppApply
    | InlineApply(registers: ProjectOptions -> Registrations)

  datatype Plugin = Plugin(id: string, apply: PluginApply)

  /** The characters `.` in a regular expression does not match. */
  predicate IsLineTerminator(c: char) {
    c == '\n' || c == '\r' || c == '\U{2028}' || c == '\U{2029}'
  }

  /** `id.replace(/^.\//, 'built-in:')`: any one character followed by `/` at
      the start is replaced, so `./command/serve` is rewritten and
      `../config/core` is not. */
  function PluginId(id: string): string {
    if |id| >= 2 && !IsLineTerminator(id[0]) && id[1] == '/' then "built-in:" + id[2..] else id
  }

  /** The id changes exactly when the pattern matches. */
  lemma PluginIdRewrites(id: string)
    ensures PluginId(id) != id <==> |id| >= 2 && !IsLineTerminator(id[0]) && id[1] == '/'
  {
    if |id| >= 2 && !IsLineTerminator(id[0]) && id[1] == '/' {
      assert PluginId(id)[1] == 'u';
    }
  }

  /** The built-in plugins; the configuration plugins are order sensitive. */
  function BuiltInPlugins(): seq<Plugin> {
    [Plugin(PluginId("./command/serve"), ServeApply),
     Plugin(PluginId("../config/core"), CoreApply),
     Plugin(PluginId("../config/css"), CssApply),
     Plugin(PluginId("../config/dev"), DevApply),
     Plugin(PluginId("../config/prod"), ProdApply),
     Plugin(PluginId("../config/app"), AppApply)]
  }

  /** Only the serve command's id gets the `built-in:` prefix. */
  lemma BuiltInIds()
    ensures var ps := BuiltInPlugins();
      ps[0].id == "built-in:command/serve" && ps[1].id == "../config/core" && ps[2].id == "../config/css"
      && ps[3].id == "../config/dev" && ps[4].id == "../config/prod" && ps[5].id == "../config/app"
  {
    assert "./command/serve"[2..] == "command/serve";
  }

  /** `resolvePlugins(inlinePlugins, useBuiltIn)`. */
  function ResolvePlugins(inline: Option<seq<Plugin>>, useBuiltIn: Value): seq<Plugin> {
    if inline.Some? then
      if useBuiltIn != Bool(false) then BuiltInPlugins() + inline.value else inline.value
    else BuiltInPlugins()
  }

  function Applies(ps: seq<Plugin>): seq<PluginApply> {
    seq(|ps|, i requires 0 <= i < |ps| => ps[i].apply)
  }

  /** The built-in plugins come first, in the order serve, core, css, dev,
      prod, app, and inline plugins follow them; `useBuiltIn: false` with
      inline plugins leaves only those. */
  lemma ResolvePluginsOrder(inline: Option<seq<Plugin>>, useBuiltIn: Value)
    ensures var ps := ResolvePlugins(inline, useBuiltIn);
      if inline.Some? && useBuiltIn == Bool(false) then ps == inline.value
      else
        |ps| >= 6 && Applies(ps[..6]) == [ServeApply, CoreApply, CssApply, DevApply, ProdApply, AppApply]
        && ps[6..] == (if inline.Some? then inline.value else [])
  {
    var ps := ResolvePlugins(inline, useBuiltIn);
    if !(inline.Some? && useBuiltIn == Bool(false)) {
      assert ps[..6] == BuiltInPlugins();
    }
  }

  // ---------------------------------------------------------------------------
  // What the plugins register

  /** What applying one plugin with the project options registers: the serve
      plugin its command, each configuration plugin one chain callback; the
      development configuration plugin is not part of this model and
      registers nothing here. */
  function Registered(a: PluginApply, o: ProjectOptions): Registrations {
    match a
    case ServeApply => Registrations([], [], ["serve"])
    case CoreApply => Registrations([CoreChain(o)], [], [])
    case CssApply => Registrations([CssChain(o)], [], [])
    case DevApply => NoRegistrations
    case ProdApply => Registrations([ProdChain(o)], [], [])
    case AppApply => Registrations([AppChain(o)], [], [])
    case InlineApply(registers) => registers(o)
  }

  function Concat(a: Registrations, b: Registrations): Registrations {
    Registrations(a.chainFns + b.chainFns, a.rawFns + b.rawFns, a.commands + b.commands)
  }

  /** Everything the plugins register, applied in list order. */
  function AllRegistered(ps: seq<Plugin>, o: ProjectOptions): Registrations
    decreases |ps|
  {
    if ps == [] then NoRegistrations
    else Concat(AllRegistered(ps[..|ps| - 1], o), Registered(ps[|ps| - 1].apply, o))
  }

  /** The built-in plugins register the serve command and the four
      configuration callbacks in the order core, css, prod, app, and no raw
      configuration. */
  lemma {:induction false} BuiltInRegistrations(o: ProjectOptions)
    ensures AllRegistered(BuiltInPlugins(), o) ==
      Registrations([CoreChain(o), CssChain(o), ProdChain(o), AppChain(o)], [], ["serve"])
  {
    var ps := BuiltInPlugins();
    assert ps[..0] == [];
    assert ps[..1][..0] == [] && ps[..2][..1] == ps[..1] && ps[..3][..2] == ps[..2];
    assert ps[..4][..3] == ps[..3] && ps[..5][..4] == ps[..4] && ps[..5] == ps[..|ps| - 1];
    assert AllRegistered(ps[..1], o) == Registrations([], [], ["serve"]);
    assert AllRegistered(ps[..2], o) == Registrations([CoreChain(o)], [], ["serve"]);
    assert AllRegistered(ps[..3], o) == Registrations([CoreChain(o), CssChain(o)], [], ["serve"]);
    assert AllRegistered(ps[..4], o) == Registrations([CoreChain(o), CssChain(o)], [], ["serve"]);
    assert AllRegistered(ps[..5], o) == Registrations([CoreChain(o), CssChain(o), ProdChain(o)], [], ["serve"]);
  }

  /** A raw configuration the project gives: a function, or a truthy literal. */
  predicate HookGiven(h: Option<RawHook>) {
    h.Some? && (h.value.RawFunction? || Truthy(h.value.literal))
  }

  /** The project's own `chainWebpack` and `configureWebpack`, registered
      after every plugin's. */
  function ProjectHooks(o: ProjectOptions): Registrations {
    Registrations(
      if o.chainWebpack.Some? then [ProjectChain(o.chainWebpack.value)] else [],
      if HookGiven(o.configureWebpack) then [o.configureWebpack.value] else [],
      [])
  }

  /** The callbacks `init` leaves registered: the plugins', then the project's. */
  function InitRegistrations(ps: seq<Plugin>, o: ProjectOptions): Registrations {
    Concat(AllRegistered(ps, o), ProjectHooks(o))
  }

  /** The project's chain callback is the last one and its raw configuration
      the last raw hook, whatever the plugins registered. */
  lemma ProjectHooksLast(ps: seq<Plugin>, o: ProjectOptions)
    ensures var r := InitRegistrations(ps, o);
      (o.chainWebpack.Some? ==> |r.chainFns| > 0 && r.chainFns[|r.chainFns| - 1] == ProjectChain(o.chainWebpack.value))
      && (HookGiven(o.configureWebpack) ==> |r.rawFns| > 0 && r.rawFns[|r.rawFns| - 1] == o.configureWebpack.value)
      && r.chainFns[..|AllRegistered(ps, o).chainFns|] == AllRegistered(ps, o).chainFns
  {
  }

  // ---------------------------------------------------------------------------
  // Environment defaults

  /** `NODE_ENV` and `BABEL_ENV` default to the mode for `production` and
      `test`, to `development` otherwise. */
  function DefaultNodeEnv(mode: Value): string {
    if mode == Str("production") || mode == Str("test") then mode.s else "development"
  }

  /** Under tests (unless testing the environment itself) the defaults are
      forced. */
  predicate ForceDefaultEnv(env: map<string, string>) {
    Flag(env, "CLI_TEST") && !Flag(env, "CLI_TEST_TESTING_ENV")
  }

  /** The environment after `loadEnv(mode)`: nothing changes without a mode;
      otherwise each of the two variables that is unset, or every one when
      forced, takes the default. */
  function ModeEnv(env: map<string, string>, mode: Value): map<string, string> {
    if !Truthy(mode) then env
    else
      var d := DefaultNodeEnv(mode);
      var force := ForceDefaultEnv(env);
      var withNode := if force || "NODE_ENV" !in env then env["NODE_ENV" := d] else env;
      if force || "BABEL_ENV" !in withNode then withNode["BABEL_ENV" := d] else withNode
  }

  /** A variable already set wins over the default unless forced; an unset
      one takes it; nothing else changes. */
  lemma ModeEnvNodeEnv(env: map<string, string>, mode: Value)
    requires Truthy(mode)
    ensures var e := ModeEnv(env, mode);
      "NODE_ENV" in e && "BABEL_ENV" in e
      && e["NODE_ENV"] == (if ForceDefaultEnv(env) || "NODE_ENV" !in env then DefaultNodeEnv(mode) else env["NODE_ENV"])
      && e["BABEL_ENV"] == (if ForceDefaultEnv(env) || "BABEL_ENV" !in env then DefaultNodeEnv(mode) else env["BABEL_ENV"])
      && forall k | k in env && k != "NODE_ENV" && k != "BABEL_ENV" :: k in e && e[k] == env[k]
  {
  }

  /** Loading the defaults twice is loading them once. */
  lemma ModeEnvIdempotent(env: map<string, string>, mode: Value)
    ensures ModeEnv(ModeEnv(env, mode), mode) == ModeEnv(env, mode)
  {
    if Truthy(mode) {
      var e := ModeEnv(env, mode);
      assert ForceDefaultEnv(e) == ForceDefaultEnv(env) by {
        assert EnvValue(e, "CLI_TEST") == EnvValue(env, "CLI_TEST");
        assert EnvValue(e, "CLI_TEST_TESTING_ENV") == EnvValue(env, "CLI_TEST_TESTING_ENV");
      }
      ModeEnvNodeEnv(env, mode);
      ModeEnvNodeEnv(e, mode);
      if ForceDefaultEnv(env) {
        assert ModeEnv(e, mode) == e;
      }
    }
  }

  // ---------------------------------------------------------------------------
  // Command dispatch

  /** Parsed command-line arguments: the named options and the positional
      ones (`args._`, an empty list when absent). */
  datatype Args = Args(flags: map<string, Value>, positional: seq<Value>)

  /** What `run` ends in: the process exits with a code, the missing help
      command is dereferenced (a `TypeError`), or a command's function is
      called with the given arguments. */
  datatype Dispatch =
    | Exited(code: int)
    | MissingHelp
    | Invoke(command: string, args: Args, rawArgv: seq<string>)

  /** `Array.prototype.shift` on a list, for its effect on the list. */
  function Shift<T>(xs: seq<T>): seq<T> {
    if xs == [] then [] else xs[1..]
  }

  /** `--mode`, or `development`. */
  function RunMode(args: Args): Value {
    Or(Lookup(args.flags, "mode"), Str("development"))
  }

  /** The command `run(name, args, rawArgv)` calls once the service is
      initialised with the registered `commands`. */
  function DispatchCommand(commands: set<string>, name: Option<string>, args: Args, rawArgv: seq<string>): Dispatch {
    var found := name.Some? && name.value in commands;
    if !found && name.Some? && name.value != "" then Exited(1)
    else if !found || Truthy(Lookup(args.flags, "help")) then
      if "help" in commands then Invoke("help", args, rawArgv) else MissingHelp
    else Invoke(name.value, Args(args.flags, Shift(args.positional)), Shift(rawArgv))
  }

  /** An explicitly named command that is not registered exits with code 1. */
  lemma DispatchUnknown(commands: set<string>, name: string, args: Args, rawArgv: seq<string>)
    requires name != "" && name !in commands
    ensures DispatchCommand(commands, Some(name), args, rawArgv) == Exited(1)
  {
  }

  /** A registered command is called with its own name shifted off both
      argument lists, unless `--help` is given; then, like a missing name,
      it falls back to the help command with the arguments untouched. */
  lemma DispatchFound(commands: set<string>, name: string, args: Args, rawArgv: seq<string>)
    requires name in commands
    ensures !Truthy(Lookup(args.flags, "help")) ==>
      DispatchCommand(commands, Some(name), args, rawArgv) == Invoke(name, Args(args.flags, Shift(args.positional)), Shift(rawArgv))
    ensures Truthy(Lookup(args.flags, "help")) ==>
      DispatchCommand(commands, Some(name), args, rawArgv) ==
        (if "help" in commands then Invoke("help", args, rawArgv) else MissingHelp)
  {
  }

  /** The built-in plugins register only `serve`: without a name there is no
      help command to fall back to, and `build` is unknown. */
  lemma BuiltInDispatch(o: ProjectOptions, args: Args, rawArgv: seq<string>)
    ensures var commands := set c | c in AllRegistered(BuiltInPlugins(), o).commands;
      DispatchCommand(commands, None, args, rawArgv) == MissingHelp
      && DispatchCommand(commands, Some("build"), args, rawArgv) == Exited(1)
      && (!Truthy(Lookup(args.flags, "help")) ==>
            DispatchCommand(commands, Some("serve"), args, rawArgv).Invoke?)
  {
    BuiltInRegistrations(o);
    assert (set c | c in ["serve"]) == {"serve"};
  }
}
