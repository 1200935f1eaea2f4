/**
 * The base configuration plugin (`config/core.js`): the chain callback that
 * sets the mode, context, entry, output, module resolution, the rules for
 * TypeScript sources and static assets, and the always-on plugins.
 */
module CoreConfig {
  import opened JsValues
  import opened Keyed
  import opened Chain
  import opened Env
  import opened Options

  /** Assets up to this many bytes are inlined by `url-loader`. */
  const InlineLimit := 4096

  const CoreRuleKeys := ["compile", "images", "media", "fonts"]
  const CorePluginKeys := ["define", "case-sensitive-paths", "friendly-errors"]
  const CoreExtensions := [".ts", ".tsx", ".mjs", ".js", ".jsx", ".json", ".wasm"]

  /** Rule conditions, as the source text of their regular expressions. */
  const CompileTest := "/\\.(ts|tsx)$/"
  const ImagesTest := "/\\.(png|jpe?g|gif|webp)(\\?.*)?$/"
  const MediaTest := "/\\.(mp4|webm|ogg|mp3|wav|flac|aac)(\\?.*)?$/"
  const FontsTest := "/\\.(woff2?|eot|ttf|otf)(\\?.*)?$/i"

  /** The file-name pattern of an emitted asset under `dir`, with an 8-character
      hash exactly when file names are hashed. */
  function AssetSubPath(dir: string, hashing: bool): (p: string)
    ensures IsPrefix(dir + "/[name]", p)
    ensures hashing ==> p == dir + "/[name].[hash:8].[ext]"
    ensures !hashing ==> p == dir + "/[name].[ext]"
  {
    dir + "/[name]" + (if hashing then ".[hash:8]" else "") + ".[ext]"
  }

  /** Whatever the directory, an asset name carries the 8-character hash
      before its extension exactly when file names are hashed, and keeps the
      original name and extension either way. */
  lemma AssetHashing(dir: string, hashing: bool)
    ensures var p := AssetSubPath(dir, hashing);
      (|p| >= 15 && p[|p| - 15..] == ".[hash:8].[ext]") <==> hashing
    ensures var p := AssetSubPath(dir, hashing);
      p[..|dir| + 7] == dir + "/[name]" && p[|p| - 6..] == ".[ext]"
  {
    var p := AssetSubPath(dir, hashing);
    if !hashing && |p| >= 15 {
      assert p[|p| - 8] == 'e';
      assert (".[hash:8].[ext]")[7] == '8';
    }
  }

  /** The `url-loader` options for assets under `dir`: inline below the limit,
      otherwise fall back to `file-loader` naming the file by `AssetSubPath`. */
  function UrlLoaderOptions(opts: ProjectOptions, h: Host, dir: string): (v: Value)
    ensures Prop(v, "limit") == Num(InlineLimit)
    ensures Prop(Prop(v, "fallback"), "loader") == Str("file-loader")
    ensures Prop(Prop(Prop(v, "fallback"), "options"), "name") == Str(h.assetPath(AssetSubPath(dir, opts.filenameHashing)))
  {
    Plain(map[
      "limit" := Num(InlineLimit),
      "fallback" := Plain(map[
        "loader" := Str("file-loader"),
        "options" := Plain(map["name" := Str(h.assetPath(AssetSubPath(dir, opts.filenameHashing)))])])])
  }

  /** The output file-name pattern: the legacy half of a modern build gets
      its own names. */
  function OutputFilename(env: map<string, string>): (f: string)
    ensures IsLegacyBundle(env) <==> f == "[name]-legacy.js"
    ensures f == "[name]-legacy.js" || f == "[name].js"
  {
    if IsLegacyBundle(env) then "[name]-legacy.js" else "[name].js"
  }

  // ---------------------------------------------------------------------------
  // The callback's builder calls, statement by statement

  /** Mode, context, the single `app` entry and the output settings. */
  function SettingsOps(opts: ProjectOptions, env: map<string, string>, h: Host): seq<Op> {
    [SetMode("development"), SetContext(h.context), AddEntry("app", ResolveLocal(h, "src/main.ts")),
     SetOutput("path", Str(Resolve(h, opts.outputDir))), SetOutput("filename", Str(OutputFilename(env))),
     SetOutput("publicPath", Str(opts.baseUrl))]
  }

  /** Extensions, the module and loader search paths, and the `@` alias. */
  function ResolutionOps(h: Host): seq<Op> {
    [MergeExtensions(CoreExtensions), AddModule("node_modules"), AddModule(Resolve(h, "node_modules")),
     AddModule(ResolveLocal(h, "node_modules")), SetAlias("@", Resolve(h, "src")),
     AddLoaderModule("node_modules"), AddLoaderModule(Resolve(h, "node_modules")),
     AddLoaderModule(ResolveLocal(h, "node_modules"))]
  }

  /** The `compile` rule: TypeScript sources under the package's `src`,
      loaded by `ts-loader`. */
  function CompileRuleOps(h: Host): seq<Op> {
    [SetRuleTest("compile", CompileTest), AddRuleInclude("compile", ResolveLocal(h, "src")),
     AddRuleUse("compile", "ts-loader", "ts-loader", None)]
  }

  /** A static-asset rule: its test and a `url-loader` use with `options`. */
  function AssetRuleOps(key: string, test: string, options: Value): seq<Op> {
    [SetRuleTest(key, test), AddRuleUse(key, "url-loader", "url-loader", Some(options))]
  }

  /** The four rules, the asset rules' loader options given. */
  function RuleOps(h: Host, images: Value, media: Value, fonts: Value): seq<Op> {
    [SetRuleTest("compile", CompileTest), AddRuleInclude("compile", ResolveLocal(h, "src")),
     AddRuleUse("compile", "ts-loader", "ts-loader", None),
     SetRuleTest("images", ImagesTest), AddRuleUse("images", "url-loader", "url-loader", Some(images)),
     SetRuleTest("media", MediaTest), AddRuleUse("media", "url-loader", "url-loader", Some(media)),
     SetRuleTest("fonts", FontsTest), AddRuleUse("fonts", "url-loader", "url-loader", Some(fonts))]
  }

  /** Client-side constants, case-sensitive paths, friendlier errors. */
  function CorePluginOps(h: Host): seq<Op> {
    [AddPlugin("define", "webpack/lib/DefinePlugin", [h.clientEnv]),
     AddPlugin("case-sensitive-paths", "case-sensitive-paths-webpack-plugin", []),
     AddPlugin("friendly-errors", "friendly-errors-webpack-plugin", [FriendlyErrorsOptions])]
  }

  /** The loader-error handlers given to the friendly-errors plugin. */
  const FriendlyErrorsOptions := Plain(map[
    "additionalTransformers" := Arr([Func("transformer")]),
    "additionalFormatters" := Arr([Func("formatter")])])

  /** The core callback's statements, in order, the asset rules' loader
      options given. */
  function CoreStatements(opts: ProjectOptions, env: map<string, string>, h: Host, images: Value, media: Value, fonts: Value): seq<seq<Op>> {
    [SettingsOps(opts, env, h), ResolutionOps(h), RuleOps(h, images, media, fonts), CorePluginOps(h)]
  }

  /** Every builder call of the core callback, in order. */
  function CoreOps(opts: ProjectOptions, env: map<string, string>, h: Host): seq<Op> {
    Flatten(CoreStatements(opts, env, h, UrlLoaderOptions(opts, h, "img"), UrlLoaderOptions(opts, h, "media"),
      UrlLoaderOptions(opts, h, "fonts")))
  }

  /** The core chain callback: its statements, in order, on the shared builder. */
  method ApplyCore(cfg: ChainConfig, opts: ProjectOptions, env: map<string, string>, h: Host)
    modifies cfg
    ensures cfg.tree == Run(old(cfg.tree), CoreOps(opts, env, h))
  {
    cfg.Perform(CoreOps(opts, env, h));
  }

  // ---------------------------------------------------------------------------
  // The keys each statement registers

  lemma SettingsSilent(opts: ProjectOptions, env: map<string, string>, h: Host)
    ensures forall c: Collection | !c.EntryList? :: AddedBy(SettingsOps(opts, env, h), c) == []
  {
    forall c: Collection | !c.EntryList? {
      AddedByNone(SettingsOps(opts, env, h), c);
    }
  }

  lemma ResolutionSilent(h: Host)
    ensures forall c: Collection | !(c.ExtensionList? || c.ModuleList? || c.LoaderModuleList? || c.AliasList?) ::
      AddedBy(ResolutionOps(h), c) == []
  {
    forall c: Collection | !(c.ExtensionList? || c.ModuleList? || c.LoaderModuleList? || c.AliasList?) {
      AddedByNone(ResolutionOps(h), c);
    }
  }

  lemma RuleSilent(h: Host, images: Value, media: Value, fonts: Value)
    ensures forall c: Collection | !(c.RuleList? || c.IncludeList? || c.UseList?) ::
      AddedBy(RuleOps(h, images, media, fonts), c) == []
  {
    forall c: Collection | !(c.RuleList? || c.IncludeList? || c.UseList?) {
      AddedByNone(RuleOps(h, images, media, fonts), c);
    }
  }

  lemma CorePluginSilent(h: Host)
    ensures forall c: Collection | !c.PluginList? :: AddedBy(CorePluginOps(h), c) == []
  {
    forall c: Collection | !c.PluginList? {
      AddedByNone(CorePluginOps(h), c);
    }
  }

  lemma SettingsEntries(opts: ProjectOptions, env: map<string, string>, h: Host)
    ensures AddedBy(SettingsOps(opts, env, h), EntryList) == ["app"]
  {
    AddedByOnly(SettingsOps(opts, env, h), EntryList, 2);
  }

  lemma ResolutionExtensions(h: Host)
    ensures AddedBy(ResolutionOps(h), ExtensionList) == CoreExtensions
  {
    AddedByOnly(ResolutionOps(h), ExtensionList, 0);
  }

  lemma CorePluginKeysAdded(h: Host)
    ensures AddedBy(CorePluginOps(h), PluginList) == CorePluginKeys
  {
    AddedByThree(CorePluginOps(h)[0], CorePluginOps(h)[1], CorePluginOps(h)[2], PluginList);
  }

  /** The rule statement is the compile rule followed by the three asset rules. */
  lemma RuleOpsParts(h: Host, images: Value, media: Value, fonts: Value)
    ensures RuleOps(h, images, media, fonts) == CompileRuleOps(h) + AssetRuleOps("images", ImagesTest, images)
      + AssetRuleOps("media", MediaTest, media) + AssetRuleOps("fonts", FontsTest, fonts)
  {
  }

  lemma CompileAdded(h: Host, c: Collection)
    ensures AddedBy(CompileRuleOps(h), c) ==
      if c.RuleList? then ["compile", "compile", "compile"]
      else if c == IncludeList("compile") then [ResolveLocal(h, "src")]
      else if c == UseList("compile") then ["ts-loader"]
      else []
  {
    AddedByThree(CompileRuleOps(h)[0], CompileRuleOps(h)[1], CompileRuleOps(h)[2], c);
  }

  lemma AssetAdded(key: string, test: string, options: Value, c: Collection)
    ensures AddedBy(AssetRuleOps(key, test, options), c) ==
      if c.RuleList? then [key, key] else if c == UseList(key) then ["url-loader"] else []
  {
    AddedByTwo(SetRuleTest(key, test), AddRuleUse(key, "url-loader", "url-loader", Some(options)), c);
  }

  lemma RuleAdded(h: Host, images: Value, media: Value, fonts: Value, c: Collection)
    ensures AddedBy(RuleOps(h, images, media, fonts), c) ==
      AddedBy(CompileRuleOps(h), c) + AddedBy(AssetRuleOps("images", ImagesTest, images), c)
      + AddedBy(AssetRuleOps("media", MediaTest, media), c) + AddedBy(AssetRuleOps("fonts", FontsTest, fonts), c)
  {
    var a := CompileRuleOps(h);
    var b := AssetRuleOps("images", ImagesTest, images);
    var d := AssetRuleOps("media", MediaTest, media);
    var e := AssetRuleOps("fonts", FontsTest, fonts);
    RuleOpsParts(h, images, media, fonts);
    AddedByAppend(a + b + d, e, c);
    AddedByAppend(a + b, d, c);
    AddedByAppend(a, b, c);
  }

  /** Each rule is registered by each of its calls, in order. */
  lemma RuleNames(h: Host, images: Value, media: Value, fonts: Value)
    ensures AddedBy(RuleOps(h, images, media, fonts), RuleList) ==
      ["compile", "compile", "compile"] + ["images", "images"] + ["media", "media"] + ["fonts", "fonts"]
  {
    RuleAdded(h, images, media, fonts, RuleList);
    CompileAdded(h, RuleList);
    AssetAdded("images", ImagesTest, images, RuleList);
    AssetAdded("media", MediaTest, media, RuleList);
    AssetAdded("fonts", FontsTest, fonts, RuleList);
  }

  /** The uses the rule statement registers for rule `r`. */
  lemma RuleUseNames(h: Host, images: Value, media: Value, fonts: Value, r: string)
    requires r in CoreRuleKeys
    ensures AddedBy(RuleOps(h, images, media, fonts), UseList(r)) == [if r == "compile" then "ts-loader" else "url-loader"]
  {
    RuleAdded(h, images, media, fonts, UseList(r));
    if r == "compile" {
      CompileUseNames(h, images, media, fonts);
    } else {
      AssetUseNames(h, images, media, fonts, r);
    }
  }

  lemma CompileUseNames(h: Host, images: Value, media: Value, fonts: Value)
    ensures AddedBy(CompileRuleOps(h), UseList("compile")) + AddedBy(AssetRuleOps("images", ImagesTest, images), UseList("compile"))
      + AddedBy(AssetRuleOps("media", MediaTest, media), UseList("compile"))
      + AddedBy(AssetRuleOps("fonts", FontsTest, fonts), UseList("compile")) == ["ts-loader"]
  {
    CompileAdded(h, UseList("compile"));
    AssetAdded("images", ImagesTest, images, UseList("compile"));
    AssetAdded("media", MediaTest, media, UseList("compile"));
    AssetAdded("fonts", FontsTest, fonts, UseList("compile"));
  }

  lemma AssetUseNames(h: Host, images: Value, media: Value, fonts: Value, r: string)
    requires r == "images" || r == "media" || r == "fonts"
    ensures AddedBy(CompileRuleOps(h), UseList(r)) + AddedBy(AssetRuleOps("images", ImagesTest, images), UseList(r))
      + AddedBy(AssetRuleOps("media", MediaTest, media), UseList(r))
      + AddedBy(AssetRuleOps("fonts", FontsTest, fonts), UseList(r)) == ["url-loader"]
  {
    CompileAdded(h, UseList(r));
    AssetAdded("images", ImagesTest, images, UseList(r));
    AssetAdded("media", MediaTest, media, UseList(r));
    AssetAdded("fonts", FontsTest, fonts, UseList(r));
  }

  /** Registering each rule once or more, in order, is registering each once. */
  lemma RuleOrder(s: seq<string>)
    ensures AddAll(s, ["compile", "compile", "compile"] + ["images", "images"] + ["media", "media"] + ["fonts", "fonts"])
      == AddAll(s, CoreRuleKeys)
  {
    var a, b, d, e := ["compile", "compile", "compile"], ["images", "images"], ["media", "media"], ["fonts", "fonts"];
    AddAllAppend(s, a + b + d, e);
    AddAllAppend(s, a + b, d);
    AddAllAppend(s, a, b);
    AddAllRepeated(s, "compile", a);
    AddAllRepeated(AddOnce(s, "compile"), "images", b);
    AddAllRepeated(AddOnce(AddOnce(s, "compile"), "images"), "media", d);
    AddAllRepeated(AddOnce(AddOnce(AddOnce(s, "compile"), "images"), "media"), "fonts", e);
    assert CoreRuleKeys == ["compile"] + ["images"] + ["media"] + ["fonts"];
    AddAllAppend(s, ["compile"] + ["images"] + ["media"], ["fonts"]);
    AddAllAppend(s, ["compile"] + ["images"], ["media"]);
    AddAllAppend(s, ["compile"], ["images"]);
  }


  // ---------------------------------------------------------------------------
  // The settings each statement leaves alone

  lemma SettingsUntouched(opts: ProjectOptions, env: map<string, string>, h: Host)
    ensures forall s: Slot | !(s.ModeSlot? || s.ContextSlot? || s.OutputSlot?) :: Untouched(SettingsOps(opts, env, h), s)
  {
    forall s: Slot | !(s.ModeSlot? || s.ContextSlot? || s.OutputSlot?) {
      UntouchedOf(SettingsOps(opts, env, h), s);
    }
  }

  lemma ResolutionUntouched(h: Host)
    ensures forall s: Slot | !s.AliasSlot? :: Untouched(ResolutionOps(h), s)
  {
    forall s: Slot | !s.AliasSlot? {
      UntouchedOf(ResolutionOps(h), s);
    }
  }

  lemma RuleUntouched(h: Host, images: Value, media: Value, fonts: Value)
    ensures forall s: Slot | !(s.TestSlot? || s.UseSlot?) :: Untouched(RuleOps(h, images, media, fonts), s)
  {
    forall s: Slot | !(s.TestSlot? || s.UseSlot?) {
      UntouchedOf(RuleOps(h, images, media, fonts), s);
    }
  }

  lemma CorePluginUntouched(h: Host)
    ensures forall s: Slot | !s.PluginSlot? :: Untouched(CorePluginOps(h), s)
  {
    forall s: Slot | !s.PluginSlot? {
      UntouchedOf(CorePluginOps(h), s);
    }
  }

  /** The statements after the `k`-th leave the settings that statement writes alone. */
  lemma LaterUntouched(opts: ProjectOptions, env: map<string, string>, h: Host, images: Value, media: Value, fonts: Value)
    ensures var stmts := CoreStatements(opts, env, h, images, media, fonts);
      forall s: Slot | !(s.AliasSlot? || s.TestSlot? || s.UseSlot? || s.PluginSlot?) ::
        Untouched(stmts[1], s) && Untouched(stmts[2], s) && Untouched(stmts[3], s)
  {
    ResolutionUntouched(h);
    RuleUntouched(h, images, media, fonts);
    CorePluginUntouched(h);
  }

  // ---------------------------------------------------------------------------
  // What the core callback guarantees, whatever the builder held before

  /** The mode is always `development` (production builds override it later). */
  lemma CoreMode(t: Tree, opts: ProjectOptions, env: map<string, string>, h: Host, images: Value, media: Value, fonts: Value)
    ensures Observe(Run(t, Flatten(CoreStatements(opts, env, h, images, media, fonts))), ModeSlot) == Text("development")
  {
    LaterUntouched(opts, env, h, images, media, fonts);
    RunStatements(t, CoreStatements(opts, env, h, images, media, fonts), 0, 0, ModeSlot);
  }

  /** The context is the service's context directory. */
  lemma CoreContext(t: Tree, opts: ProjectOptions, env: map<string, string>, h: Host, images: Value, media: Value, fonts: Value)
    ensures Observe(Run(t, Flatten(CoreStatements(opts, env, h, images, media, fonts))), ContextSlot) == Text(h.context)
  {
    LaterUntouched(opts, env, h, images, media, fonts);
    RunStatements(t, CoreStatements(opts, env, h, images, media, fonts), 0, 1, ContextSlot);
  }

  /** Bundles are written to the resolved `outputDir`. */
  lemma CoreOutputPath(t: Tree, opts: ProjectOptions, env: map<string, string>, h: Host, images: Value, media: Value, fonts: Value)
    ensures Observe(Run(t, Flatten(CoreStatements(opts, env, h, images, media, fonts))), OutputSlot("path")) == Val(Str(Resolve(h, opts.outputDir)))
  {
    LaterUntouched(opts, env, h, images, media, fonts);
    RunStatements(t, CoreStatements(opts, env, h, images, media, fonts), 0, 3, OutputSlot("path"));
  }

  /** Bundles are named by `OutputFilename`: the legacy half of a modern build gets `-legacy` names. */
  lemma CoreOutputFilename(t: Tree, opts: ProjectOptions, env: map<string, string>, h: Host, images: Value, media: Value, fonts: Value)
    ensures Observe(Run(t, Flatten(CoreStatements(opts, env, h, images, media, fonts))), OutputSlot("filename")) == Val(Str(OutputFilename(env)))
  {
    LaterUntouched(opts, env, h, images, media, fonts);
    RunStatements(t, CoreStatements(opts, env, h, images, media, fonts), 0, 4, OutputSlot("filename"));
  }

  /** Bundles are served from the project's `baseUrl`. */
  lemma CorePublicPath(t: Tree, opts: ProjectOptions, env: map<string, string>, h: Host, images: Value, media: Value, fonts: Value)
    ensures Observe(Run(t, Flatten(CoreStatements(opts, env, h, images, media, fonts))), OutputSlot("publicPath")) == Val(Str(opts.baseUrl))
  {
    LaterUntouched(opts, env, h, images, media, fonts);
    RunStatements(t, CoreStatements(opts, env, h, images, media, fonts), 0, 5, OutputSlot("publicPath"));
  }

  /** The core callback registers the entry `app` after any already there. */
  lemma CoreEntry(t: Tree, opts: ProjectOptions, env: map<string, string>, h: Host, images: Value, media: Value, fonts: Value)
    ensures KeysOf(Run(t, Flatten(CoreStatements(opts, env, h, images, media, fonts))), EntryList) == AddOnce(KeysOf(t, EntryList), "app")
  {
    ResolutionSilent(h);
    RuleSilent(h, images, media, fonts);
    CorePluginSilent(h);
    SettingsEntries(opts, env, h);
    RunStatementKeys(t, CoreStatements(opts, env, h, images, media, fonts), 0, EntryList);
  }

  /** On a fresh builder `app` is the only entry. */
  lemma CoreSingleEntry(opts: ProjectOptions, env: map<string, string>, h: Host, images: Value, media: Value, fonts: Value)
    ensures KeysOf(Run(EmptyTree, Flatten(CoreStatements(opts, env, h, images, media, fonts))), EntryList) == ["app"]
  {
    CoreEntry(EmptyTree, opts, env, h, images, media, fonts);
  }


  /** The seven extensions are merged in order after any already there. */
  lemma CoreExtensionsMerged(t: Tree, opts: ProjectOptions, env: map<string, string>, h: Host, images: Value, media: Value, fonts: Value)
    ensures KeysOf(Run(t, Flatten(CoreStatements(opts, env, h, images, media, fonts))), ExtensionList) == AddAll(KeysOf(t, ExtensionList), CoreExtensions)
  {
    SettingsSilent(opts, env, h);
    RuleSilent(h, images, media, fonts);
    CorePluginSilent(h);
    ResolutionExtensions(h);
    RunStatementKeys(t, CoreStatements(opts, env, h, images, media, fonts), 1, ExtensionList);
  }

  /** `@` names the project's `src` directory. */
  lemma CoreAlias(t: Tree, opts: ProjectOptions, env: map<string, string>, h: Host, images: Value, media: Value, fonts: Value)
    ensures Observe(Run(t, Flatten(CoreStatements(opts, env, h, images, media, fonts))), AliasSlot("@")) == Text(Resolve(h, "src"))
  {
    RuleUntouched(h, images, media, fonts);
    CorePluginUntouched(h);
    RunStatements(t, CoreStatements(opts, env, h, images, media, fonts), 1, 4, AliasSlot("@"));
  }

  /** The rules `compile`, `images`, `media`, `fonts` are registered in that
      order after any already there. */
  lemma CoreRules(t: Tree, opts: ProjectOptions, env: map<string, string>, h: Host, images: Value, media: Value, fonts: Value)
    ensures KeysOf(Run(t, Flatten(CoreStatements(opts, env, h, images, media, fonts))), RuleList) == AddAll(KeysOf(t, RuleList), CoreRuleKeys)
  {
    SettingsSilent(opts, env, h);
    ResolutionSilent(h);
    CorePluginSilent(h);
    RuleNames(h, images, media, fonts);
    RuleOrder(KeysOf(t, RuleList));
    RunStatementKeys(t, CoreStatements(opts, env, h, images, media, fonts), 2, RuleList);
  }


  /** Each core rule gains exactly one keyed use: `ts-loader` for `compile`,
      `url-loader` for the asset rules. */
  lemma CoreRuleUses(t: Tree, opts: ProjectOptions, env: map<string, string>, h: Host, images: Value, media: Value, fonts: Value, r: string)
    requires r in CoreRuleKeys
    ensures KeysOf(Run(t, Flatten(CoreStatements(opts, env, h, images, media, fonts))), UseList(r)) ==
      AddAll(KeysOf(t, UseList(r)), [if r == "compile" then "ts-loader" else "url-loader"])
  {
    SettingsSilent(opts, env, h);
    ResolutionSilent(h);
    CorePluginSilent(h);
    RuleUseNames(h, images, media, fonts, r);
    RunStatementKeys(t, CoreStatements(opts, env, h, images, media, fonts), 2, UseList(r));
  }


  /** The `compile` rule matches TypeScript sources. */
  lemma CoreCompileTest(t: Tree, opts: ProjectOptions, env: map<string, string>, h: Host, images: Value, media: Value, fonts: Value)
    ensures Observe(Run(t, Flatten(CoreStatements(opts, env, h, images, media, fonts))), TestSlot("compile")) == Text(CompileTest)
  {
    CorePluginUntouched(h);
    RunStatements(t, CoreStatements(opts, env, h, images, media, fonts), 2, 0, TestSlot("compile"));
  }

  /** The `images` rule matches raster images. */
  lemma CoreImagesTest(t: Tree, opts: ProjectOptions, env: map<string, string>, h: Host, images: Value, media: Value, fonts: Value)
    ensures Observe(Run(t, Flatten(CoreStatements(opts, env, h, images, media, fonts))), TestSlot("images")) == Text(ImagesTest)
  {
    CorePluginUntouched(h);
    RunStatements(t, CoreStatements(opts, env, h, images, media, fonts), 2, 3, TestSlot("images"));
  }

  /** The `media` rule matches audio and video. */
  lemma CoreMediaTest(t: Tree, opts: ProjectOptions, env: map<string, string>, h: Host, images: Value, media: Value, fonts: Value)
    ensures Observe(Run(t, Flatten(CoreStatements(opts, env, h, images, media, fonts))), TestSlot("media")) == Text(MediaTest)
  {
    CorePluginUntouched(h);
    RunStatements(t, CoreStatements(opts, env, h, images, media, fonts), 2, 5, TestSlot("media"));
  }

  /** The `fonts` rule matches web fonts. */
  lemma CoreFontsTest(t: Tree, opts: ProjectOptions, env: map<string, string>, h: Host, images: Value, media: Value, fonts: Value)
    ensures Observe(Run(t, Flatten(CoreStatements(opts, env, h, images, media, fonts))), TestSlot("fonts")) == Text(FontsTest)
  {
    CorePluginUntouched(h);
    RunStatements(t, CoreStatements(opts, env, h, images, media, fonts), 2, 7, TestSlot("fonts"));
  }

  /** The `images` rule's `url-loader` use carries exactly the given options. */
  lemma CoreImagesLoader(t: Tree, opts: ProjectOptions, env: map<string, string>, h: Host, images: Value, media: Value, fonts: Value)
    ensures Observe(Run(t, Flatten(CoreStatements(opts, env, h, images, media, fonts))), UseSlot("images", "url-loader")) == Loader(Use(Some("url-loader"), images))
  {
    CorePluginUntouched(h);
    RunStatements(t, CoreStatements(opts, env, h, images, media, fonts), 2, 4, UseSlot("images", "url-loader"));
  }

  /** The `media` rule's `url-loader` use carries exactly the given options. */
  lemma CoreMediaLoader(t: Tree, opts: ProjectOptions, env: map<string, string>, h: Host, images: Value, media: Value, fonts: Value)
    ensures Observe(Run(t, Flatten(CoreStatements(opts, env, h, images, media, fonts))), UseSlot("media", "url-loader")) == Loader(Use(Some("url-loader"), media))
  {
    CorePluginUntouched(h);
    RunStatements(t, CoreStatements(opts, env, h, images, media, fonts), 2, 6, UseSlot("media", "url-loader"));
  }

  /** The `fonts` rule's `url-loader` use carries exactly the given options. */
  lemma CoreFontsLoader(t: Tree, opts: ProjectOptions, env: map<string, string>, h: Host, images: Value, media: Value, fonts: Value)
    ensures Observe(Run(t, Flatten(CoreStatements(opts, env, h, images, media, fonts))), UseSlot("fonts", "url-loader")) == Loader(Use(Some("url-loader"), fonts))
  {
    CorePluginUntouched(h);
    RunStatements(t, CoreStatements(opts, env, h, images, media, fonts), 2, 8, UseSlot("fonts", "url-loader"));
  }

  /** With the callback's own loader options: images, media and fonts are
      inlined up to 4096 bytes and otherwise emitted under `img`, `media` and
      `fonts`. */
  lemma CoreAssetLoaders(t: Tree, opts: ProjectOptions, env: map<string, string>, h: Host)
    ensures Observe(Run(t, CoreOps(opts, env, h)), UseSlot("images", "url-loader")) ==
      Loader(Use(Some("url-loader"), UrlLoaderOptions(opts, h, "img")))
    ensures Observe(Run(t, CoreOps(opts, env, h)), UseSlot("media", "url-loader")) ==
      Loader(Use(Some("url-loader"), UrlLoaderOptions(opts, h, "media")))
    ensures Observe(Run(t, CoreOps(opts, env, h)), UseSlot("fonts", "url-loader")) ==
      Loader(Use(Some("url-loader"), UrlLoaderOptions(opts, h, "fonts")))
  {
    var images, media, fonts := UrlLoaderOptions(opts, h, "img"), UrlLoaderOptions(opts, h, "media"),
      UrlLoaderOptions(opts, h, "fonts");
    CoreImagesLoader(t, opts, env, h, images, media, fonts);
    CoreMediaLoader(t, opts, env, h, images, media, fonts);
    CoreFontsLoader(t, opts, env, h, images, media, fonts);
  }

  /** The three plugins are registered in order after any already there. */
  lemma CorePlugins(t: Tree, opts: ProjectOptions, env: map<string, string>, h: Host, images: Value, media: Value, fonts: Value)
    ensures KeysOf(Run(t, Flatten(CoreStatements(opts, env, h, images, media, fonts))), PluginList) == AddAll(KeysOf(t, PluginList), CorePluginKeys)
  {
    SettingsSilent(opts, env, h);
    ResolutionSilent(h);
    RuleSilent(h, images, media, fonts);
    CorePluginKeysAdded(h);
    RunStatementKeys(t, CoreStatements(opts, env, h, images, media, fonts), 3, PluginList);
  }

  /** `define` receives the client environment. */
  lemma CoreDefine(t: Tree, opts: ProjectOptions, env: map<string, string>, h: Host, images: Value, media: Value, fonts: Value)
    ensures Observe(Run(t, Flatten(CoreStatements(opts, env, h, images, media, fonts))), PluginSlot("define")) == Registration(PluginUse("webpack/lib/DefinePlugin", [h.clientEnv]))
  {
    RunStatements(t, CoreStatements(opts, env, h, images, media, fonts), 3, 0, PluginSlot("define"));
  }
}
