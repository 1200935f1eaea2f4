/**
 * The production configuration plugin (`config/prod.js`): in production it
 * switches the mode, the source maps and the script file names, keeps module
 * ids stable, and minifies with terser unless running under tests.
 */
module ProdConfig {
  import opened JsValues
  import opened Keyed
  import opened Chain
  import opened Env
  import opened Options
  import CoreConfig

  const HashModuleIds := "webpack/lib/HashedModuleIdsPlugin"
  const Terser := "terser-webpack-plugin"

  /** The script file-name pattern before the asset directory is applied:
      `-legacy` for the legacy half of a modern build, an 8-character content
      hash when file names are hashed. */
  function ProdPattern(legacy: bool, hashing: bool): string {
    "js/[name]" + (if legacy then "-legacy" else "") + (if hashing then ".[contenthash:8]" else "") + ".js"
  }

  /** The pattern names scripts under `js/`, ends in `.js`, and carries the
      legacy marker and the hash exactly when asked to. */
  lemma ProdPatternShape(legacy: bool, hashing: bool)
    ensures var p := ProdPattern(legacy, hashing);
      IsPrefix("js/[name]", p) && |p| >= 12 && p[|p| - 3..] == ".js"
      && (legacy <==> |p| > 9 && p[9] == '-')
      && (hashing <==> |p| >= 19 && p[|p| - 19..|p| - 3] == ".[contenthash:8]")
  {
  }

  /** Different choices give different patterns, so the two halves of a
      modern build never name their scripts alike. */
  lemma ProdPatternInjective(legacy: bool, hashing: bool, legacy': bool, hashing': bool)
    requires ProdPattern(legacy, hashing) == ProdPattern(legacy', hashing')
    ensures legacy == legacy' && hashing == hashing'
  {
    ProdPatternShape(legacy, hashing);
    ProdPatternShape(legacy', hashing');
  }

  /** The script file name, for entry and split chunks alike. */
  function ProdFilename(opts: ProjectOptions, env: map<string, string>, h: Host): string {
    h.assetPath(ProdPattern(IsLegacyBundle(env), opts.filenameHashing))
  }

  /** The devtool: full source maps when production source maps are on,
      none otherwise. */
  function ProdDevtool(opts: ProjectOptions): Value {
    if opts.productionSourceMap then Str("source-map") else Bool(false)
  }

  /** Mode, devtool and the two file-name settings. */
  function ProdSettingsOps(opts: ProjectOptions, env: map<string, string>, h: Host): seq<Op> {
    [SetMode("production"), SetDevtool(ProdDevtool(opts)),
     SetOutput("filename", Str(ProdFilename(opts, env, h))),
     SetOutput("chunkFilename", Str(ProdFilename(opts, env, h)))]
  }

  /** Module ids hashed in hexadecimal, stable while vendor modules are. */
  function HashModuleIdsOps(): seq<Op> {
    [AddPlugin("hash-module-ids", HashModuleIds, [Plain(map["hashDigest" := Str("hex")])])]
  }

  /** Minification switched off under tests, terser otherwise. */
  function MinifyOps(env: map<string, string>, h: Host): seq<Op> {
    if Flag(env, "CLI_TEST") then [SetMinimize(false)]
    else [AddMinimizer("terser", Terser, [h.terserOptions])]
  }

  /** Every builder call of the production callback: none outside production. */
  function ProdOps(opts: ProjectOptions, env: map<string, string>, h: Host): seq<Op> {
    if IsProduction(env) then ProdSettingsOps(opts, env, h) + HashModuleIdsOps() + MinifyOps(env, h) else []
  }

  /** The production chain callback on the shared builder. */
  method ApplyProd(cfg: ChainConfig, opts: ProjectOptions, env: map<string, string>, h: Host)
    modifies cfg
    ensures cfg.tree == Run(old(cfg.tree), ProdOps(opts, env, h))
  {
    if IsProduction(env) {
      ghost var t0 := cfg.tree;
      var settings := ProdSettingsOps(opts, env, h);
      cfg.Perform(settings);
      cfg.Perform(HashModuleIdsOps());
      var minify: seq<Op>;
      if Flag(env, "CLI_TEST") {
        minify := [SetMinimize(false)];
      } else {
        minify := [AddMinimizer("terser", Terser, [h.terserOptions])];
      }
      cfg.Perform(minify);
      RunAppend(t0, settings + HashModuleIdsOps(), minify);
      RunAppend(t0, settings, HashModuleIdsOps());
    }
  }

  // ---------------------------------------------------------------------------
  // Properties of the callback

  /** Outside production the callback changes nothing. */
  lemma ProdOnlyInProduction(t: Tree, opts: ProjectOptions, env: map<string, string>, h: Host)
    ensures ProdOps(opts, env, h) == [] <==> !IsProduction(env)
    ensures !IsProduction(env) ==> Run(t, ProdOps(opts, env, h)) == t
  {
  }

  lemma ProdMode(t: Tree, opts: ProjectOptions, env: map<string, string>, h: Host)
    requires IsProduction(env)
    ensures Observe(Run(t, ProdOps(opts, env, h)), ModeSlot) == Text("production")
  {
    RunLastWrite(t, ProdOps(opts, env, h), 0, ModeSlot);
  }

  lemma ProdDevtoolSet(t: Tree, opts: ProjectOptions, env: map<string, string>, h: Host)
    requires IsProduction(env)
    ensures Observe(Run(t, ProdOps(opts, env, h)), DevtoolSlot) ==
      Val(if opts.productionSourceMap then Str("source-map") else Bool(false))
  {
    RunLastWrite(t, ProdOps(opts, env, h), 1, DevtoolSlot);
  }

  /** Entry scripts and split chunks share the production file name. */
  lemma ProdFilenames(t: Tree, opts: ProjectOptions, env: map<string, string>, h: Host)
    requires IsProduction(env)
    ensures Observe(Run(t, ProdOps(opts, env, h)), OutputSlot("filename")) == Val(Str(ProdFilename(opts, env, h)))
    ensures Observe(Run(t, ProdOps(opts, env, h)), OutputSlot("chunkFilename")) == Val(Str(ProdFilename(opts, env, h)))
  {
    RunLastWrite(t, ProdOps(opts, env, h), 2, OutputSlot("filename"));
    RunLastWrite(t, ProdOps(opts, env, h), 3, OutputSlot("chunkFilename"));
  }

  /** `hash-module-ids` is always registered in production, hashing in
      hexadecimal. */
  lemma ProdHashModuleIds(t: Tree, opts: ProjectOptions, env: map<string, string>, h: Host)
    requires IsProduction(env)
    ensures Observe(Run(t, ProdOps(opts, env, h)), PluginSlot("hash-module-ids")) ==
      Registration(PluginUse(HashModuleIds, [Plain(map["hashDigest" := Str("hex")])]))
  {
    RunLastWrite(t, ProdOps(opts, env, h), 4, PluginSlot("hash-module-ids"));
  }

  /** It is the only plugin the callback registers. */
  lemma ProdPlugins(t: Tree, opts: ProjectOptions, env: map<string, string>, h: Host)
    requires IsProduction(env)
    ensures KeysOf(Run(t, ProdOps(opts, env, h)), PluginList) == AddOnce(KeysOf(t, PluginList), "hash-module-ids")
  {
    RunKeys(t, ProdOps(opts, env, h), PluginList);
    AddedByOnly(ProdOps(opts, env, h), PluginList, 4);
  }

  /** Under tests minification is switched off ... */
  lemma ProdTestMinimizeOff(t: Tree, opts: ProjectOptions, env: map<string, string>, h: Host)
    requires IsProduction(env) && Flag(env, "CLI_TEST")
    ensures Observe(Run(t, ProdOps(opts, env, h)), MinimizeSlot) == Toggle(false)
  {
    RunLastWrite(t, ProdOps(opts, env, h), 5, MinimizeSlot);
  }

  /** ... and no minimizer is added. */
  lemma ProdTestNoMinimizer(t: Tree, opts: ProjectOptions, env: map<string, string>, h: Host)
    requires IsProduction(env) && Flag(env, "CLI_TEST")
    ensures KeysOf(Run(t, ProdOps(opts, env, h)), MinimizerList) == KeysOf(t, MinimizerList)
  {
    RunKeys(t, ProdOps(opts, env, h), MinimizerList);
    AddedByNone(ProdOps(opts, env, h), MinimizerList);
  }

  /** Otherwise terser is the minimizer, with the project's terser options ... */
  lemma ProdTerser(t: Tree, opts: ProjectOptions, env: map<string, string>, h: Host)
    requires IsProduction(env) && !Flag(env, "CLI_TEST")
    ensures Observe(Run(t, ProdOps(opts, env, h)), MinimizerSlot("terser")) == Registration(PluginUse(Terser, [h.terserOptions]))
  {
    RunLastWrite(t, ProdOps(opts, env, h), 5, MinimizerSlot("terser"));
  }

  /** ... registered as the one new minimizer ... */
  lemma ProdMinimizers(t: Tree, opts: ProjectOptions, env: map<string, string>, h: Host)
    requires IsProduction(env) && !Flag(env, "CLI_TEST")
    ensures KeysOf(Run(t, ProdOps(opts, env, h)), MinimizerList) == AddOnce(KeysOf(t, MinimizerList), "terser")
  {
    RunKeys(t, ProdOps(opts, env, h), MinimizerList);
    AddedByOnly(ProdOps(opts, env, h), MinimizerList, 5);
  }

  /** ... and the minimize switch is left as it was. */
  lemma ProdMinimizeKept(t: Tree, opts: ProjectOptions, env: map<string, string>, h: Host)
    requires IsProduction(env) && !Flag(env, "CLI_TEST")
    ensures Observe(Run(t, ProdOps(opts, env, h)), MinimizeSlot) == Observe(t, MinimizeSlot)
  {
    UntouchedOf(ProdOps(opts, env, h), MinimizeSlot);
    RunKeeps(t, ProdOps(opts, env, h), MinimizeSlot);
  }

  // ---------------------------------------------------------------------------
  // After the core callback

  /** The production callback runs after the core one, so in production its
      mode replaces core's `development`, and elsewhere core's stays. */
  lemma ProdModeAfterCore(t: Tree, opts: ProjectOptions, env: map<string, string>, h: Host)
    ensures Observe(Run(Run(t, CoreConfig.CoreOps(opts, env, h)), ProdOps(opts, env, h)), ModeSlot) ==
      Text(if IsProduction(env) then "production" else "development")
  {
    var t1 := Run(t, CoreConfig.CoreOps(opts, env, h));
    if IsProduction(env) {
      ProdMode(t1, opts, env, h);
    } else {
      CoreConfig.CoreMode(t, opts, env, h, CoreConfig.UrlLoaderOptions(opts, h, "img"),
        CoreConfig.UrlLoaderOptions(opts, h, "media"), CoreConfig.UrlLoaderOptions(opts, h, "fonts"));
      ProdOnlyInProduction(t1, opts, env, h);
    }
  }

  /** Likewise the production script name replaces core's. */
  lemma ProdFilenameAfterCore(t: Tree, opts: ProjectOptions, env: map<string, string>, h: Host)
    ensures Observe(Run(Run(t, CoreConfig.CoreOps(opts, env, h)), ProdOps(opts, env, h)), OutputSlot("filename")) ==
      Val(Str(if IsProduction(env) then ProdFilename(opts, env, h) else CoreConfig.OutputFilename(env)))
  {
    var t1 := Run(t, CoreConfig.CoreOps(opts, env, h));
    if IsProduction(env) {
      ProdFilenames(t1, opts, env, h);
    } else {
      CoreConfig.CoreOutputFilename(t, opts, env, h, CoreConfig.UrlLoaderOptions(opts, h, "img"),
        CoreConfig.UrlLoaderOptions(opts, h, "media"), CoreConfig.UrlLoaderOptions(opts, h, "fonts"));
      ProdOnlyInProduction(t1, opts, env, h);
    }
  }
}
