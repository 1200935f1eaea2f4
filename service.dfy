/**
 * The service object (`BaseService` in `scripts/base.js`): it resolves its
 * plugins once, and on `init` loads the environment defaults and the
 * project options, applies every plugin (which registers commands and
 * configuration callbacks on it) and appends the project's own callbacks;
 * `run` dispatches a command, and the two resolve methods build the bundler
 * configuration from the registered callbacks.
 */
module Service {
  import opened JsValues
  import opened Chain
  import opened Env
  import opened Options
  import opened ServiceOptions
  import opened RuleNames
  import opened ServicePlugins
  import opened ServiceConfig
  import CoreConfig
  import CssConfig
  import ProdConfig
  import AppConfig
  import ChunkSort

  /** The names a list of registrations holds. */
  function Names(xs: seq<string>): set<string> {
    set c | c in xs
  }

  /** The `baseUrl` of the options, once they are loaded. */
  function BaseUrlOf(o: Option<ProjectOptions>): Option<string> {
    if o.Some? then Some(o.value.baseUrl) else None
  }

  /** One chain callback on the shared builder; `thrown` when it throws.
      The application callback patches the chunk sorters. */
  method ApplyChainFn(f: ChainFn, cfg: ChainConfig, sorters: ChunkSort.ChunkSorters, env: map<string, string>, h: Host)
    returns (thrown: bool)
    modifies cfg, sorters
    ensures thrown <==> ChainStep(f, old(cfg.tree), env, h).None?
    ensures !thrown ==> cfg.tree == ChainStep(f, old(cfg.tree), env, h).value
    ensures f.AppChain? ==> sorters.dependency == ChunkSort.FallbackPatch(old(sorters.dependency)) && sorters.auto == sorters.dependency
    ensures !f.AppChain? ==> sorters.dependency == old(sorters.dependency) && sorters.auto == old(sorters.auto)
  {
    ghost var t := cfg.tree;
    thrown := false;
    match f {
      case CoreChain(o) =>
        CoreConfig.ApplyCore(cfg, o, env, h);
      case CssChain(o) =>
        thrown := CssConfig.ApplyCss(cfg, o, env, h);
      case ProdChain(o) =>
        ProdConfig.ApplyProd(cfg, o, env, h);
      case AppChain(o) =>
        AppConfig.ApplyApp(cfg, sorters, o, env, h);
      case ProjectChain(edit) =>
        cfg.Edit(edit);
    }
    assert ChainStep(f, t, env, h) == (if thrown then None else Some(cfg.tree));
  }

  class BaseService {
    var initialized: bool
    var mode: Value
    var webpackChainFns: seq<ChainFn>
    var webpackRawConfigFns: seq<RawHook>
    /** The names of the registered commands; what each command does is
        outside the service. */
    var commands: set<string>
    var projectOptions: Option<ProjectOptions>

    const plugins: seq<Plugin>
    /** What the plugins learn from the project on disk. */
    const host: Host
    /** The project's configuration file, read when the options are loaded. */
    const configFile: ConfigFile
    const inlineOptions: Option<UserOptions>
    /** The options module's `defaults()`. */
    const defaults: ProjectOptions

    constructor (host: Host, configFile: ConfigFile, inlineOptions: Option<UserOptions>,
                 inlinePlugins: Option<seq<Plugin>>, useBuiltIn: Value, defaults: ProjectOptions)
      ensures !initialized && webpackChainFns == [] && webpackRawConfigFns == [] && commands == {}
      ensures projectOptions == None && mode == Undefined
      ensures plugins == ResolvePlugins(inlinePlugins, useBuiltIn)
      ensures this.host == host && this.configFile == configFile && this.inlineOptions == inlineOptions
      ensures this.defaults == defaults
    {
      initialized := false;
      mode := Undefined;
      webpackChainFns := [];
      webpackRawConfigFns := [];
      commands := {};
      projectOptions := None;
      plugins := ResolvePlugins(inlinePlugins, useBuiltIn);
      this.host := host;
      this.configFile := configFile;
      this.inlineOptions := inlineOptions;
      this.defaults := defaults;
    }

    /** The project options `init` arrives at: the loaded user options over
        the defaults, `None` when validation rejects them. */
    function LoadedOptions(): Option<ProjectOptions> {
      WithDefaults(LoadUserOptions(configFile, inlineOptions), defaults)
    }

    /** `loadEnv(mode)`. */
    method LoadEnv(proc: Process, m: Value)
      modifies proc
      ensures proc.env == ModeEnv(old(proc.env), m)
    {
      if Truthy(m) {
        var force := Flag(proc.env, "CLI_TEST") && !Flag(proc.env, "CLI_TEST_TESTING_ENV");
        var d := DefaultNodeEnv(m);
        if force || "NODE_ENV" !in proc.env {
          proc.Set("NODE_ENV", Str(d));
        }
        if force || "BABEL_ENV" !in proc.env {
          proc.Set("BABEL_ENV", Str(d));
        }
      }
    }

    /** Applying one plugin: it registers its commands and callbacks. */
    method ApplyPlugin(a: PluginApply, o: ProjectOptions)
      modifies this`webpackChainFns, this`webpackRawConfigFns, this`commands
      ensures var r := Registered(a, o);
        webpackChainFns == old(webpackChainFns) + r.chainFns
        && webpackRawConfigFns == old(webpackRawConfigFns) + r.rawFns
        && commands == old(commands) + Names(r.commands)
    {
      var r := Registered(a, o);
      webpackChainFns := webpackChainFns + r.chainFns;
      webpackRawConfigFns := webpackRawConfigFns + r.rawFns;
      commands := commands + Names(r.commands);
    }

    /** Every plugin applied in order with the project options. */
    method ApplyPlugins(o: ProjectOptions)
      modifies this`webpackChainFns, this`webpackRawConfigFns, this`commands
      ensures var r := AllRegistered(plugins, o);
        webpackChainFns == old(webpackChainFns) + r.chainFns
        && webpackRawConfigFns == old(webpackRawConfigFns) + r.rawFns
        && commands == old(commands) + Names(r.commands)
    {
      var i := 0;
      while i < |plugins|
        invariant 0 <= i <= |plugins|
        invariant webpackChainFns == old(webpackChainFns) + AllRegistered(plugins[..i], o).chainFns
        invariant webpackRawConfigFns == old(webpackRawConfigFns) + AllRegistered(plugins[..i], o).rawFns
        invariant commands == old(commands) + Names(AllRegistered(plugins[..i], o).commands)
      {
        ApplyPlugin(plugins[i].apply, o);
        assert plugins[..i + 1][..i] == plugins[..i];
        i := i + 1;
      }
      assert plugins[..i] == plugins;
    }

    /** `init(mode)`: does nothing the second time; otherwise loads the
        environment defaults, the options (`exited` when validation makes the
        process exit), then applies the plugins in order and appends the
        project's own callbacks. */
    method Init(proc: Process, m: Value) returns (exited: bool)
      modifies this, proc
      ensures old(initialized) ==> !exited && unchanged(this) && unchanged(proc)
      ensures !old(initialized) ==> initialized && mode == m && proc.env == ModeEnv(old(proc.env), m)
      ensures !old(initialized) && LoadedOptions().None? ==>
        exited && webpackChainFns == old(webpackChainFns) && webpackRawConfigFns == old(webpackRawConfigFns)
        && commands == old(commands) && projectOptions == old(projectOptions)
      ensures !old(initialized) && LoadedOptions().Some? ==>
        var r := InitRegistrations(plugins, LoadedOptions().value);
        !exited && projectOptions == LoadedOptions()
        && webpackChainFns == old(webpackChainFns) + r.chainFns
        && webpackRawConfigFns == old(webpackRawConfigFns) + r.rawFns
        && commands == old(commands) + Names(r.commands)
    {
      if initialized {
        return false;
      }
      initialized := true;
      mode := m;
      LoadEnv(proc, m);
      var loaded := LoadedOptions();
      if loaded.None? {
        return true;
      }
      exited := false;
      var o := loaded.value;
      projectOptions := Some(o);
      ApplyPlugins(o);
      if o.chainWebpack.Some? {
        webpackChainFns := webpackChainFns + [ProjectChain(o.chainWebpack.value)];
      }
      if HookGiven(o.configureWebpack) {
        webpackRawConfigFns := webpackRawConfigFns + [o.configureWebpack.value];
      }
    }

    /** `run(name, args, rawArgv)`: initialises with `--mode` (default
        `development`), then dispatches. */
    method Run(proc: Process, name: Option<string>, args: Args, rawArgv: seq<string>) returns (d: Dispatch)
      modifies this, proc
      ensures old(initialized) ==>
        unchanged(this) && unchanged(proc) && d == DispatchCommand(commands, name, args, rawArgv)
      ensures !old(initialized) ==> initialized && mode == RunMode(args) && proc.env == ModeEnv(old(proc.env), RunMode(args))
      ensures !old(initialized) && LoadedOptions().None? ==> d == Exited(1)
      ensures !old(initialized) && LoadedOptions().Some? ==>
        commands == old(commands) + Names(InitRegistrations(plugins, LoadedOptions().value).commands)
        && d == DispatchCommand(commands, name, args, rawArgv)
    {
      var exited := Init(proc, RunMode(args));
      if exited {
        return Exited(1);
      }
      var found := name.Some? && name.value in commands;
      if !found && name.Some? && name.value != "" {
        return Exited(1);
      }
      if !found || Truthy(Lookup(args.flags, "help")) {
        if "help" in commands {
          d := Invoke("help", args, rawArgv);
        } else {
          d := MissingHelp;
        }
      } else {
        d := Invoke(name.value, Args(args.flags, Shift(args.positional)), Shift(rawArgv));
      }
    }

    /** `resolveChainableWebpackConfig()`: a new builder, and every chain
        callback called on it in order (`failed` when one throws); the
        application callback patches the chunk sorters each time. */
    method ResolveChainableWebpackConfig(proc: Process, sorters: ChunkSort.ChunkSorters) returns (cfg: ChainConfig, failed: bool)
      modifies sorters
      ensures fresh(cfg)
      ensures var run := ChainFold(webpackChainFns, EmptyTree, proc.env, host);
        (failed <==> run.tree.None?) && (!failed ==> cfg.tree == run.tree.value)
        && sorters.dependency == PatchTimes(old(sorters.dependency), run.patches)
        && sorters.auto == (if run.patches == 0 then old(sorters.auto) else sorters.dependency)
    {
      cfg := new ChainConfig();
      ghost var dependency0, auto0 := sorters.dependency, sorters.auto;
      ghost var run := ChainRun(Some(EmptyTree), 0);
      var i := 0;
      while i < |webpackChainFns|
        invariant 0 <= i <= |webpackChainFns| && fresh(cfg)
        invariant run == ChainFold(webpackChainFns[..i], EmptyTree, proc.env, host)
        invariant run.tree == Some(cfg.tree) && sorters.dependency == PatchTimes(dependency0, run.patches)
        invariant sorters.auto == (if run.patches == 0 then auto0 else sorters.dependency)
      {
        ghost var f := webpackChainFns[i];
        ghost var next := ChainRun(ChainStep(f, cfg.tree, proc.env, host), run.patches + if f.AppChain? then 1 else 0);
        assert next == ChainFold(webpackChainFns[..i + 1], EmptyTree, proc.env, host) by {
          ChainFoldPrefix(webpackChainFns, i + 1, EmptyTree, proc.env, host);
          assert webpackChainFns[..i + 1][..i] == webpackChainFns[..i];
        }
        var thrown := ApplyChainFn(webpackChainFns[i], cfg, sorters, proc.env, host);
        if thrown {
          assert ChainFold(webpackChainFns, EmptyTree, proc.env, host) == next by {
            ChainFoldStops(webpackChainFns, i + 1, EmptyTree, proc.env, host);
          }
          return cfg, true;
        }
        run := next;
        i := i + 1;
      }
      assert webpackChainFns[..i] == webpackChainFns;
      failed := false;
    }

    /** `resolveWebpackConfig(chainableConfig)` on the builder's tree `t`. */
    method ResolveWebpackConfig(proc: Process, t: Tree) returns (r: Result<Value, ServiceError>)
      ensures r == ResolvedConfig(initialized, t, webpackRawConfigFns, proc.env, BaseUrlOf(projectOptions))
    {
      if !initialized {
        return Err(NotInitialized);
      }
      ghost var start := Finalize(t);
      var config := Finalize(t);
      var original := config;
      var merged := false;
      var i := 0;
      while i < |webpackRawConfigFns|
        invariant 0 <= i <= |webpackRawConfigFns|
        invariant RawFold(webpackRawConfigFns[..i], start) == RawState(config, original, merged)
      {
        assert webpackRawConfigFns[..i + 1][..i] == webpackRawConfigFns[..i];
        match webpackRawConfigFns[i] {
          case RawFunction(run) =>
            var res := run(config);
            if !merged {
              original := res.config;
            }
            config := res.config;
            if Truthy(res.returned) {
              config := DeepMerge(config, res.returned);
              merged := true;
            }
          case RawLiteral(literal) =>
            if Truthy(literal) {
              config := DeepMerge(config, literal);
              merged := true;
            }
        }
        i := i + 1;
      }
      assert webpackRawConfigFns[..i] == webpackRawConfigFns;
      if merged {
        if Nullish(config) || Nullish(original) {
          return Err(TypeError);
        }
        config := WithRules(config, CloneRuleNames(RulesOf(config), RulesOf(original)));
      }
      var target := EnvValue(proc.env, "CLI_BUILD_TARGET");
      if !Flag(proc.env, "CLI_TEST") && Truthy(target) && target != Str("app") {
        if Nullish(Prop(config, "output")) || projectOptions.None? {
          return Err(TypeError);
        }
        if Prop(Prop(config, "output"), "publicPath") != Str(projectOptions.value.baseUrl) {
          return Err(PublicPathModified);
        }
      }
      r := Ok(config);
    }

    /** `resolveWebpackConfig()` without an argument: the default argument
        runs the chain callbacks first, even before the `init` check. */
    method ResolveDefaultWebpackConfig(proc: Process, sorters: ChunkSort.ChunkSorters) returns (r: Result<Value, ServiceError>)
      modifies sorters
      ensures var run := ChainFold(webpackChainFns, EmptyTree, proc.env, host);
        (run.tree.None? ==> r == Err(CallbackThrew))
        && (run.tree.Some? ==> r == ResolvedConfig(initialized, run.tree.value, webpackRawConfigFns, proc.env, BaseUrlOf(projectOptions)))
        && sorters.dependency == PatchTimes(old(sorters.dependency), run.patches)
    {
      var cfg, failed := ResolveChainableWebpackConfig(proc, sorters);
      if failed {
        return Err(CallbackThrew);
      }
      r := ResolveWebpackConfig(proc, cfg.tree);
    }
  }

  /** A service over the built-in plugins whose project gives neither
      `chainWebpack` nor `configureWebpack` registers exactly the four
      configuration callbacks, and its configuration, when the callbacks do
      not throw, resolves unchanged for every build target. */
  lemma BuiltInService(o: ProjectOptions, env: map<string, string>, h: Host)
    requires o.chainWebpack.None? && !HookGiven(o.configureWebpack)
    ensures InitRegistrations(BuiltInPlugins(), o).chainFns == BuiltInChain(o)
    ensures InitRegistrations(BuiltInPlugins(), o).rawFns == []
    ensures ChainFold(BuiltInChain(o), EmptyTree, env, h).tree.Some? ==>
      var t := ChainFold(BuiltInChain(o), EmptyTree, env, h).tree.value;
      ResolvedConfig(true, t, InitRegistrations(BuiltInPlugins(), o).rawFns, env, Some(o.baseUrl)) == Ok(Finalize(t))
  {
    BuiltInRegistrations(o);
    if ChainFold(BuiltInChain(o), EmptyTree, env, h).tree.Some? {
      BuiltInResolves(o, env, h);
    }
  }
}
