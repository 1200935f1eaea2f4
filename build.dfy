/**
 * The build command (`scripts/command/build/index.js`): it fills in the
 * default arguments, publishes the build target in the environment, and runs
 * one bundling pass, or for a modern application build a legacy pass and
 * then a modern pass, signalled to the configuration plugins through
 * environment flags.  Each pass resolves the configuration, applies the
 * `--dest` and `--watch` overrides to every configuration, removes the
 * target directory when cleaning, and calls the bundler.  Resolving the
 * configuration and the bundler itself are inputs.
 */
module BuildCommand {
  import opened JsValues
  import opened Env

  // ---------------------------------------------------------------------------
  // Arguments

  /** The default arguments, in declaration order. */
  const DefaultArgs: seq<(string, Value)> :=
    [("clean", Bool(true)), ("target", Str("app")), ("formats", Str("commonjs,umd,umd-min")), ("unsafe-inline", Bool(true))]

  /** The default for `key`, if it has one. */
  function DefaultFor(key: string): Option<Value> {
    if key == "clean" then Some(Bool(true))
    else if key == "target" then Some(Str("app"))
    else if key == "formats" then Some(Str("commonjs,umd,umd-min"))
    else if key == "unsafe-inline" then Some(Bool(true))
    else None
  }

  /** The keys with a default. */
  const DefaultKeys: set<string> := {"clean", "target", "formats", "unsafe-inline"}

  /** `args` with the defaults filled in. */
  function Filled(args: map<string, Value>): map<string, Value> {
    map k | k in args.Keys + DefaultKeys ::
      if DefaultFor(k).Some? && Nullish(Lookup(args, k)) then DefaultFor(k).value else args[k]
  }

  /** A key whose argument is null or undefined takes its default; every
      other argument is kept, and no key without a default is added. */
  lemma FilledMeaning(args: map<string, Value>)
    ensures forall k | DefaultFor(k).Some? :: k in Filled(args) && Filled(args)[k] == (if Nullish(Lookup(args, k)) then DefaultFor(k).value else args[k])
    ensures forall k | k in args && DefaultFor(k).None? :: k in Filled(args) && Filled(args)[k] == args[k]
    ensures forall k | k in args && !Nullish(args[k]) :: k in Filled(args) && Filled(args)[k] == args[k]
    ensures Filled(args).Keys == args.Keys + DefaultKeys
  {
  }

  /** The keys the loop has visited after `i` steps. */
  function KeysBefore(i: nat): set<string>
    requires i <= |DefaultArgs|
  {
    set j | 0 <= j < i :: DefaultArgs[j].0
  }

  /** The defaults loop. */
  method FillDefaults(args: map<string, Value>) returns (r: map<string, Value>)
    ensures r == Filled(args)
  {
    r := args;
    var i := 0;
    while i < |DefaultArgs|
      invariant 0 <= i <= |DefaultArgs|
      invariant forall j | 0 <= j < i :: var k := DefaultArgs[j].0;
        k in r && r[k] == (if Nullish(Lookup(args, k)) then DefaultArgs[j].1 else args[k])
      invariant forall k | k !in KeysBefore(i) :: (k in r <==> k in args) && (k in args ==> r[k] == args[k])
    {
      var (key, value) := DefaultArgs[i];
      assert KeysBefore(i + 1) == KeysBefore(i) + {key};
      if Nullish(Lookup(r, key)) {
        r := r[key := value];
      }
      i := i + 1;
    }
    FilledAfterLoop(args, r);
  }

  /** What the loop leaves is `Filled(args)`. */
  lemma FilledAfterLoop(args: map<string, Value>, r: map<string, Value>)
    requires forall j | 0 <= j < |DefaultArgs| :: var k := DefaultArgs[j].0;
      k in r && r[k] == (if Nullish(Lookup(args, k)) then DefaultArgs[j].1 else args[k])
    requires forall k | k !in KeysBefore(|DefaultArgs|) :: (k in r <==> k in args) && (k in args ==> r[k] == args[k])
    ensures r == Filled(args)
  {
    AllKeysVisited();
    forall k
      ensures (k in r <==> k in Filled(args)) && (k in r ==> r[k] == Filled(args)[k])
    {
      if k == "clean" { assert DefaultArgs[0].0 == k; }
      else if k == "target" { assert DefaultArgs[1].0 == k; }
      else if k == "formats" { assert DefaultArgs[2].0 == k; }
      else if k == "unsafe-inline" { assert DefaultArgs[3].0 == k; }
    }
  }

  lemma AllKeysVisited()
    ensures KeysBefore(|DefaultArgs|) == DefaultKeys
  {
    assert DefaultArgs[0].0 in KeysBefore(|DefaultArgs|);
    assert DefaultArgs[1].0 in KeysBefore(|DefaultArgs|);
    assert DefaultArgs[2].0 in KeysBefore(|DefaultArgs|);
    assert DefaultArgs[3].0 in KeysBefore(|DefaultArgs|);
  }

  /** `args.entry || args._[0]`. */
  function EntryArg(args: map<string, Value>, positional: seq<Value>): Value {
    Or(Lookup(args, "entry"), if positional == [] then Undefined else positional[0])
  }

  /** A modern application build runs two passes. */
  predicate TwoPasses(args: map<string, Value>) {
    Truthy(Lookup(args, "modern")) && Lookup(args, "target") == Str("app")
  }

  /** The arguments of the legacy pass. */
  function LegacyPassArgs(args: map<string, Value>): map<string, Value> {
    args["modernBuild" := Bool(false)]["keepAlive" := Bool(true)]
  }

  /** The arguments of the modern pass. */
  function ModernPassArgs(args: map<string, Value>): map<string, Value> {
    args["modernBuild" := Bool(true)]["clean" := Bool(false)]
  }

  /** `isLegacyBuild`. */
  predicate IsLegacyBuild(args: map<string, Value>) {
    Lookup(args, "target") == Str("app") && Truthy(Lookup(args, "modern")) && !Truthy(Lookup(args, "modernBuild"))
  }

  // ---------------------------------------------------------------------------
  // The environment flags

  function TargetEnv(env: map<string, string>, args: map<string, Value>): map<string, string> {
    env["CLI_BUILD_TARGET" := JsString(Lookup(args, "target"))]
  }

  /** During the legacy pass: modern mode on, the modern build flag absent. */
  function LegacyEnv(env: map<string, string>): map<string, string> {
    env["CLI_MODERN_MODE" := "true"] - {"CLI_MODERN_BUILD"}
  }

  /** During the modern pass: both flags on. */
  function ModernEnv(env: map<string, string>): map<string, string> {
    LegacyEnv(env)["CLI_MODERN_BUILD" := "true"]
  }

  /** The configuration plugins see a legacy bundle in the first pass only. */
  lemma PassEnvs(env: map<string, string>)
    ensures IsLegacyBundle(LegacyEnv(env))
    ensures !IsLegacyBundle(ModernEnv(env))
    ensures Flag(ModernEnv(env), "CLI_MODERN_MODE")
  {
    assert EnvValue(LegacyEnv(env), "CLI_MODERN_BUILD") == Undefined;
  }

  /** The legacy pass is the legacy build and the modern pass is not, and
      only the modern pass skips the clean. */
  lemma PassArgs(args: map<string, Value>)
    requires TwoPasses(args)
    ensures IsLegacyBuild(LegacyPassArgs(args)) && !IsLegacyBuild(ModernPassArgs(args))
    ensures Lookup(LegacyPassArgs(args), "clean") == Lookup(args, "clean")
    ensures Lookup(ModernPassArgs(args), "clean") == Bool(false)
    ensures Lookup(LegacyPassArgs(args), "keepAlive") == Bool(true)
  {
  }

  // ---------------------------------------------------------------------------
  // The configuration overrides

  /** Why a pass rejects: the undefined `buildMode` is read, a property of a
      missing value is written, the bundler reports an error, or the stats
      have errors. */
  datatype BuildError = ReferenceError | TypeError | BundlerFailed(err: Value) | FailedWithErrors

  /** The two in-place edits of a configuration. */
  datatype ConfigEdit = SetOutputPath(dir: string) | SetWatch

  /** One edit on one configuration: `config.output.path = dir` or
      `config.watch = true`.  Writing through a missing value throws; a write
      to a primitive is ignored. */
  function EditOne(e: ConfigEdit, c: Value): Result<Value, BuildError> {
    match e
    case SetOutputPath(dir) =>
      var out := Prop(c, "output");
      if Nullish(out) then Err(TypeError)
      else if out.Obj? then Ok(Obj(c.fields["output" := Obj(out.fields["path" := Str(dir)], out.ruleNames)], c.ruleNames))
      else Ok(c)
    case SetWatch =>
      if Nullish(c) then Err(TypeError)
      else if c.Obj? then Ok(Obj(c.fields["watch" := Bool(true)], c.ruleNames))
      else Ok(c)
  }

  /** The output path is the target directory afterwards, and nothing else
      of the configuration changes. */
  lemma EditOutputPath(dir: string, c: Value)
    requires EditOne(SetOutputPath(dir), c).Ok? && Prop(c, "output").Obj?
    ensures var r := EditOne(SetOutputPath(dir), c).value;
      r.Obj? && r.fields.Keys == c.fields.Keys
      && Prop(Prop(r, "output"), "path") == Str(dir)
      && (forall k | k in c.fields && k != "output" :: r.fields[k] == c.fields[k])
      && (forall k | k in c.fields["output"].fields && k != "path" :: Prop(Prop(r, "output"), k) == c.fields["output"].fields[k])
  {
  }

  /** `watch` is on afterwards, and nothing else changes. */
  lemma EditWatch(c: Value)
    requires c.Obj?
    ensures var r := EditOne(SetWatch, c);
      r.Ok? && r.value.Obj? && Prop(r.value, "watch") == Bool(true)
      && r.value.fields.Keys == c.fields.Keys + {"watch"}
      && forall k | k in c.fields && k != "watch" :: r.value.fields[k] == c.fields[k]
  {
  }

  /** Editing twice is editing once. */
  lemma EditIdempotent(e: ConfigEdit, c: Value)
    requires EditOne(e, c).Ok?
    ensures EditOne(e, EditOne(e, c).value) == EditOne(e, c)
  {
    var r := EditOne(e, c).value;
    match e
    case SetOutputPath(dir) =>
      if Prop(c, "output").Obj? {
        var out := c.fields["output"];
        assert r.fields["output"].fields["path" := Str(dir)] == r.fields["output"].fields;
        assert r.fields["output" := Obj(r.fields["output"].fields, out.ruleNames)] == r.fields;
      }
    case SetWatch =>
      if c.Obj? {
        assert r.fields["watch" := Bool(true)] == r.fields;
      }
  }

  /** `modifyConfig(config, fn)`: the edit on every configuration of a list,
      or on the single configuration. */
  function ModifyAll(e: ConfigEdit, config: Value): (r: Result<Value, BuildError>)
    ensures config.Arr? && r.Ok? ==> r.value.Arr? && |r.value.items| == |config.items|
  {
    if config.Arr? then
      if forall i | 0 <= i < |config.items| :: EditOne(e, config.items[i]).Ok? then
        Ok(Arr(seq(|config.items|, i requires 0 <= i < |config.items| => EditOne(e, config.items[i]).value)))
      else Err(TypeError)
    else EditOne(e, config)
  }

  /** Every configuration of a list gets the edit, or the whole call
      throws; a single configuration gets it alone. */
  lemma ModifyAllEach(e: ConfigEdit, config: Value)
    ensures !config.Arr? ==> ModifyAll(e, config) == EditOne(e, config)
    ensures config.Arr? ==>
      (ModifyAll(e, config).Ok? <==> forall i | 0 <= i < |config.items| :: EditOne(e, config.items[i]).Ok?)
    ensures config.Arr? && ModifyAll(e, config).Ok? ==>
      forall i | 0 <= i < |config.items| :: ModifyAll(e, config).value.items[i] == EditOne(e, config.items[i]).value
  {
  }

  /** The `forEach` over a list of configurations. */
  method ModifyConfig(config: Value, e: ConfigEdit) returns (r: Result<Value, BuildError>)
    ensures r == ModifyAll(e, config)
  {
    if !config.Arr? {
      return EditOne(e, config);
    }
    var items: seq<Value> := [];
    var i := 0;
    while i < |config.items|
      invariant 0 <= i <= |config.items| && |items| == i
      invariant forall j | 0 <= j < i :: EditOne(e, config.items[j]).Ok? && items[j] == EditOne(e, config.items[j]).value
    {
      var one := EditOne(e, config.items[i]);
      if one.Err? {
        return Err(TypeError);
      }
      items := items + [one.value];
      i := i + 1;
    }
    assert items == seq(|config.items|, i requires 0 <= i < |config.items| => EditOne(e, config.items[i]).value);
    r := Ok(Arr(items));
  }

  // ---------------------------------------------------------------------------
  // One pass

  /** What the bundler reports: an error, or stats that may hold errors. */
  datatype Compiled = BundlerError(err: Value) | Stats(hasErrors: bool)

  datatype Banner = NoBanner | DeployReady(dir: string) | Watching

  datatype PassOutcome = Completed | Failed(error: BuildError)

  /** What a pass did: the directory it removed, the configuration it gave
      the bundler, the banner it printed, and how it ended. */
  datatype Pass = Pass(removed: Option<string>, bundled: Option<Value>, banner: Banner, outcome: PassOutcome)

  /** `api.resolve(args.dest || options.outputDir)`. */
  function TargetDir(args: map<string, Value>, outputDir: string, h: Host): string {
    var dest := Lookup(args, "dest");
    Resolve(h, if Truthy(dest) then JsString(dest) else outputDir)
  }

  /** The resolved configuration with the `--dest` and `--watch` overrides. */
  function Overridden(config: Value, args: map<string, Value>, targetDir: string): Result<Value, BuildError> {
    var withDest := if Truthy(Lookup(args, "dest")) then ModifyAll(SetOutputPath(targetDir), config) else Ok(config);
    if withDest.Err? || !Truthy(Lookup(args, "watch")) then withDest else ModifyAll(SetWatch, withDest.value)
  }

  /** The banner of a completed pass. */
  function BannerOf(args: map<string, Value>, targetDir: string): Banner {
    if Truthy(Lookup(args, "silent")) || IsLegacyBuild(args) then NoBanner
    else if Truthy(Lookup(args, "watch")) then Watching
    else DeployReady(targetDir)
  }

  /** `build(args, api, options)`: given how the configuration is resolved
      for the pass and what the bundler reports on a configuration. */
  function PassOf(args: map<string, Value>, env: map<string, string>, outputDir: string, h: Host,
                  resolveConfig: (map<string, Value>, map<string, string>) -> Value,
                  bundler: (Value, map<string, string>) -> Compiled): Pass {
    if Lookup(args, "target") != Str("app") then Pass(None, None, NoBanner, Failed(ReferenceError))
    else
      var targetDir := TargetDir(args, outputDir, h);
      var config := Overridden(resolveConfig(args, env), args, targetDir);
      if config.Err? then Pass(None, None, NoBanner, Failed(config.error))
      else
        var removed := if Truthy(Lookup(args, "clean")) then Some(targetDir) else None;
        match bundler(config.value, env)
        case BundlerError(err) => Pass(removed, Some(config.value), NoBanner, Failed(BundlerFailed(err)))
        case Stats(hasErrors) =>
          if hasErrors then Pass(removed, Some(config.value), NoBanner, Failed(FailedWithErrors))
          else Pass(removed, Some(config.value), BannerOf(args, targetDir), Completed)
  }

  /** A target other than `app` always rejects before anything happens: the
      progress message reads the undefined `buildMode`. */
  lemma PassNonApp(args: map<string, Value>, env: map<string, string>, outputDir: string, h: Host,
                   resolveConfig: (map<string, Value>, map<string, string>) -> Value,
                   bundler: (Value, map<string, string>) -> Compiled)
    requires Lookup(args, "target") != Str("app")
    ensures var p := PassOf(args, env, outputDir, h, resolveConfig, bundler);
      p.outcome == Failed(ReferenceError) && p.removed.None? && p.bundled.None?
  {
  }

  /** The pass completes exactly when the bundler reports stats without
      errors; a bundler error rejects with that error and stats with errors
      reject with `Build failed with errors.`. */
  lemma PassOutcomes(args: map<string, Value>, env: map<string, string>, outputDir: string, h: Host,
                     resolveConfig: (map<string, Value>, map<string, string>) -> Value,
                     bundler: (Value, map<string, string>) -> Compiled)
    ensures var p := PassOf(args, env, outputDir, h, resolveConfig, bundler);
      (p.outcome == Completed <==> p.bundled.Some? && bundler(p.bundled.value, env) == Stats(false))
      && (p.bundled.Some? && bundler(p.bundled.value, env).BundlerError? ==> p.outcome == Failed(BundlerFailed(bundler(p.bundled.value, env).err)))
      && (p.bundled.Some? && bundler(p.bundled.value, env) == Stats(true) ==> p.outcome == Failed(FailedWithErrors))
  {
  }

  /** The target directory is removed before bundling exactly when the pass
      gets as far as bundling with `clean` set. */
  lemma PassClean(args: map<string, Value>, env: map<string, string>, outputDir: string, h: Host,
                  resolveConfig: (map<string, Value>, map<string, string>) -> Value,
                  bundler: (Value, map<string, string>) -> Compiled)
    ensures var p := PassOf(args, env, outputDir, h, resolveConfig, bundler);
      (p.removed.Some? <==> p.bundled.Some? && Truthy(Lookup(args, "clean")))
      && (p.removed.Some? ==> p.removed.value == TargetDir(args, outputDir, h))
  {
  }

  /** The banner is printed only by a completed, non-legacy, non-silent
      pass, and names the target directory unless watching. */
  lemma PassBanner(args: map<string, Value>, env: map<string, string>, outputDir: string, h: Host,
                   resolveConfig: (map<string, Value>, map<string, string>) -> Value,
                   bundler: (Value, map<string, string>) -> Compiled)
    ensures var p := PassOf(args, env, outputDir, h, resolveConfig, bundler);
      (p.banner != NoBanner <==>
        p.outcome == Completed && !Truthy(Lookup(args, "silent")) && !IsLegacyBuild(args))
      && (p.banner.DeployReady? ==> !Truthy(Lookup(args, "watch")) && p.banner.dir == TargetDir(args, outputDir, h))
  {
  }

  /** With `--dest` every configuration the bundler gets writes to the
      target directory. */
  lemma PassDest(args: map<string, Value>, env: map<string, string>, outputDir: string, h: Host,
                 resolveConfig: (map<string, Value>, map<string, string>) -> Value,
                 bundler: (Value, map<string, string>) -> Compiled)
    requires Truthy(Lookup(args, "dest")) && !Truthy(Lookup(args, "watch"))
    ensures var p := PassOf(args, env, outputDir, h, resolveConfig, bundler);
      var dir := TargetDir(args, outputDir, h);
      var c := resolveConfig(args, env);
      p.bundled.Some? ==> (p.bundled.value == ModifyAll(SetOutputPath(dir), c).value
        && (c.Arr? ==> forall i | 0 <= i < |c.items| && Prop(c.items[i], "output").Obj? ::
              Prop(Prop(p.bundled.value.items[i], "output"), "path") == Str(dir))
        && (!c.Arr? && Prop(c, "output").Obj? ==> Prop(Prop(p.bundled.value, "output"), "path") == Str(dir)))
  {
    var p := PassOf(args, env, outputDir, h, resolveConfig, bundler);
    var dir := TargetDir(args, outputDir, h);
    var c := resolveConfig(args, env);
    if p.bundled.Some? {
      ModifyAllEach(SetOutputPath(dir), c);
      if c.Arr? {
        forall i | 0 <= i < |c.items| && Prop(c.items[i], "output").Obj?
          ensures Prop(Prop(p.bundled.value.items[i], "output"), "path") == Str(dir)
        {
          EditOutputPath(dir, c.items[i]);
        }
      } else if Prop(c, "output").Obj? {
        EditOutputPath(dir, c);
      }
    }
  }

  /** One pass, as the command awaits it. */
  method BuildPass(args: map<string, Value>, env: map<string, string>, outputDir: string, h: Host,
                   resolveConfig: (map<string, Value>, map<string, string>) -> Value,
                   bundler: (Value, map<string, string>) -> Compiled) returns (p: Pass)
    ensures p == PassOf(args, env, outputDir, h, resolveConfig, bundler)
  {
    if Lookup(args, "target") != Str("app") {
      return Pass(None, None, NoBanner, Failed(ReferenceError));
    }
    var targetDir := TargetDir(args, outputDir, h);
    var config := resolveConfig(args, env);
    if Truthy(Lookup(args, "dest")) {
      var r := ModifyConfig(config, SetOutputPath(targetDir));
      if r.Err? {
        return Pass(None, None, NoBanner, Failed(r.error));
      }
      config := r.value;
    }
    if Truthy(Lookup(args, "watch")) {
      var r := ModifyConfig(config, SetWatch);
      if r.Err? {
        return Pass(None, None, NoBanner, Failed(r.error));
      }
      config := r.value;
    }
    var removed := if Truthy(Lookup(args, "clean")) then Some(targetDir) else None;
    match bundler(config, env) {
      case BundlerError(err) =>
        p := Pass(removed, Some(config), NoBanner, Failed(BundlerFailed(err)));
      case Stats(hasErrors) =>
        if hasErrors {
          p := Pass(removed, Some(config), NoBanner, Failed(FailedWithErrors));
        } else {
          p := Pass(removed, Some(config), BannerOf(args, targetDir), Completed);
        }
    }
  }

  // ---------------------------------------------------------------------------
  // The command

  /** One pass as it ran: its arguments, the environment it saw, and what it
      did. */
  datatype PassRun = PassRun(args: map<string, Value>, env: map<string, string>, pass: Pass)

  /** The command's arguments once the defaults and the entry are filled in. */
  function CommandArgs(args: map<string, Value>, positional: seq<Value>): map<string, Value>
  {
    var filled := Filled(args);
    filled["entry" := EntryArg(filled, positional)]
  }

  /** The passes of a modern application build on arguments `a` in the
      environment `e`: the legacy pass, then the modern pass exactly when the
      legacy one completed; the build succeeds when both completed. */
  ghost predicate ModernRuns(runs: seq<PassRun>, ok: bool, a: map<string, Value>, e: map<string, string>) {
    1 <= |runs| <= 2
    && runs[0].args == LegacyPassArgs(a) && runs[0].env == LegacyEnv(e)
    && (|runs| == 2 <==> runs[0].pass.outcome == Completed)
    && (|runs| == 2 ==> runs[1].args == ModernPassArgs(a) && runs[1].env == ModernEnv(e))
    && (ok <==> |runs| == 2 && runs[1].pass.outcome == Completed)
  }

  /** The legacy pass and then, if it completed, the modern pass, with the
      modern-mode flags set around them and cleared only after both
      completed. */
  method RunModern(proc: Process, a: map<string, Value>, outputDir: string, h: Host,
                   resolveConfig: (map<string, Value>, map<string, string>) -> Value,
                   bundler: (Value, map<string, string>) -> Compiled) returns (runs: seq<PassRun>, ok: bool)
    modifies proc
    ensures ModernRuns(runs, ok, a, old(proc.env))
    ensures proc.env == if ok then ModernEnv(old(proc.env)) - {"CLI_MODERN_MODE", "CLI_MODERN_BUILD"} else runs[|runs| - 1].env
    ensures forall i | 0 <= i < |runs| :: runs[i].pass == PassOf(runs[i].args, runs[i].env, outputDir, h, resolveConfig, bundler)
  {
    proc.Set("CLI_MODERN_MODE", Bool(true));
    proc.Delete("CLI_MODERN_BUILD");
    var legacyArgs := LegacyPassArgs(a);
    var legacy := BuildPass(legacyArgs, proc.env, outputDir, h, resolveConfig, bundler);
    runs := [PassRun(legacyArgs, proc.env, legacy)];
    if legacy.outcome != Completed {
      return runs, false;
    }
    proc.Set("CLI_MODERN_BUILD", Bool(true));
    var modernArgs := ModernPassArgs(a);
    var modern := BuildPass(modernArgs, proc.env, outputDir, h, resolveConfig, bundler);
    runs := runs + [PassRun(modernArgs, proc.env, modern)];
    if modern.outcome != Completed {
      return runs, false;
    }
    proc.Delete("CLI_MODERN_MODE");
    proc.Delete("CLI_MODERN_BUILD");
    assert proc.env == ModernEnv(old(proc.env)) - {"CLI_MODERN_MODE", "CLI_MODERN_BUILD"};
    ok := true;
  }

  lemma RemoveTwice(m: map<string, string>, keys: set<string>, key: string)
    ensures m - keys - {key} == m - (keys + {key})
  {
  }

  /** The passes of the build command on the filled-in arguments `a`,
      started in the environment `before` and leaving `after`: the target is
      published for the configuration plugins, and withdrawn again (with the
      modern-mode flags) only when every pass completed. */
  ghost predicate CommandRuns(runs: seq<PassRun>, ok: bool, a: map<string, Value>, before: map<string, string>, after: map<string, string>) {
    var e := TargetEnv(before, a);
    if TwoPasses(a) then
      ModernRuns(runs, ok, a, e)
      && after == if ok then ModernEnv(e) - {"CLI_MODERN_MODE", "CLI_MODERN_BUILD", "CLI_BUILD_TARGET"} else runs[|runs| - 1].env
    else
      |runs| == 1 && runs[0].args == a && runs[0].env == e
      && (ok <==> runs[0].pass.outcome == Completed)
      && after == if ok then e - {"CLI_BUILD_TARGET"} else e
  }

  /** The command once its arguments are filled in. */
  method RunPasses(proc: Process, a: map<string, Value>, outputDir: string, h: Host,
                   resolveConfig: (map<string, Value>, map<string, string>) -> Value,
                   bundler: (Value, map<string, string>) -> Compiled) returns (runs: seq<PassRun>, ok: bool)
    modifies proc
    ensures CommandRuns(runs, ok, a, old(proc.env), proc.env)
    ensures forall i | 0 <= i < |runs| :: runs[i].pass == PassOf(runs[i].args, runs[i].env, outputDir, h, resolveConfig, bundler)
  {
    proc.Set("CLI_BUILD_TARGET", Lookup(a, "target"));
    ghost var e := proc.env;
    if Truthy(Lookup(a, "modern")) && Lookup(a, "target") == Str("app") {
      runs, ok := RunModern(proc, a, outputDir, h, resolveConfig, bundler);
      if !ok {
        return;
      }
      ghost var cleared := proc.env;
      proc.Delete("CLI_BUILD_TARGET");
      assert proc.env == ModernEnv(e) - {"CLI_MODERN_MODE", "CLI_MODERN_BUILD", "CLI_BUILD_TARGET"} by {
        RemoveTwice(ModernEnv(e), {"CLI_MODERN_MODE", "CLI_MODERN_BUILD"}, "CLI_BUILD_TARGET");
        assert {"CLI_MODERN_MODE", "CLI_MODERN_BUILD"} + {"CLI_BUILD_TARGET"} == {"CLI_MODERN_MODE", "CLI_MODERN_BUILD", "CLI_BUILD_TARGET"};
      }
    } else {
      var single := BuildPass(a, proc.env, outputDir, h, resolveConfig, bundler);
      runs := [PassRun(a, proc.env, single)];
      if single.outcome != Completed {
        return runs, false;
      }
      proc.Delete("CLI_BUILD_TARGET");
      ok := true;
    }
  }

  /** The build command's function on `args` and its positional arguments. */
  method RunBuild(proc: Process, args: map<string, Value>, positional: seq<Value>, outputDir: string, h: Host,
                  resolveConfig: (map<string, Value>, map<string, string>) -> Value,
                  bundler: (Value, map<string, string>) -> Compiled) returns (runs: seq<PassRun>, ok: bool)
    modifies proc
    ensures CommandRuns(runs, ok, CommandArgs(args, positional), old(proc.env), proc.env)
    ensures forall i | 0 <= i < |runs| :: runs[i].pass == PassOf(runs[i].args, runs[i].env, outputDir, h, resolveConfig, bundler)
  {
    var a := FillDefaults(args);
    a := a["entry" := EntryArg(a, positional)];
    runs, ok := RunPasses(proc, a, outputDir, h, resolveConfig, bundler);
  }

  /** In a modern application build the first pass is the legacy bundle and
      the second the modern one, the configuration plugins can tell them
      apart through the environment, and the second never cleans. */
  lemma ModernBuildPasses(runs: seq<PassRun>, a: map<string, Value>, e: map<string, string>, outputDir: string, h: Host,
                          resolveConfig: (map<string, Value>, map<string, string>) -> Value,
                          bundler: (Value, map<string, string>) -> Compiled)
    requires TwoPasses(a) && |runs| == 2
    requires runs[0].args == LegacyPassArgs(a) && runs[0].env == LegacyEnv(e)
    requires runs[1].args == ModernPassArgs(a) && runs[1].env == ModernEnv(e)
    requires forall i | 0 <= i < |runs| :: runs[i].pass == PassOf(runs[i].args, runs[i].env, outputDir, h, resolveConfig, bundler)
    ensures IsLegacyBuild(runs[0].args) && IsLegacyBundle(runs[0].env)
    ensures !IsLegacyBuild(runs[1].args) && !IsLegacyBundle(runs[1].env)
    ensures runs[1].pass.removed.None?
    ensures runs[0].pass.banner == NoBanner
  {
    PassArgs(a);
    PassEnvs(e);
    PassClean(runs[1].args, runs[1].env, outputDir, h, resolveConfig, bundler);
    PassBanner(runs[0].args, runs[0].env, outputDir, h, resolveConfig, bundler);
  }
}
