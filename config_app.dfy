/**
 * The application configuration plugin (`config/app.js`): code splitting,
 * the HTML page with its template and, in production, its minification,
 * stable chunk names, resource hints, the optional move of the page, CORS and
 * integrity attributes, and the copy of the `public` folder.  It also patches
 * the HTML plugin's chunk sorters (module ChunkSort).
 */
module AppConfig {
  import opened JsValues
  import opened Keyed
  import opened Chain
  import opened Env
  import opened Options
  import ChunkSort

  const MovePlugin := "./webpack/MovePlugin"
  const NamedChunksPlugin := "webpack/lib/NamedChunksPlugin"
  const HtmlPlugin := "html-webpack-plugin"
  const PreloadPlugin := "preload-webpack-plugin"
  const CorsPlugin := "./webpack/CorsPlugin"
  const CopyPlugin := "copy-webpack-plugin"

  /** The default page name; any other `indexPath` moves the page. */
  const DefaultIndex := "index.html"

  /** Vendor modules in `chunk-vendors`, modules shared by two chunks in
      `chunk-common`, both for initial chunks only. */
  function SplitChunksValue(): Value {
    Plain(map["cacheGroups" := Plain(map[
      "vendors" := Plain(map["name" := Str("chunk-vendors"), "test" := Str("/[\\\\/]node_modules[\\\\/]/"),
        "priority" := Num(-10), "chunks" := Str("initial")]),
      "common" := Plain(map["name" := Str("chunk-common"), "minChunks" := Num(2), "priority" := Num(-20),
        "chunks" := Str("initial"), "reuseExistingChunk" := Bool(true)])])])
  }

  /** The HTML minifier's settings in production. */
  function MinifyValue(): Value {
    Plain(map["removeComments" := Bool(true), "collapseWhitespace" := Bool(true),
      "removeAttributeQuotes" := Bool(true), "collapseBooleanAttributes" := Bool(true),
      "removeScriptTypeAttributes" := Bool(true)])
  }

  /** The HTML plugin's options: the template-parameter function, the
      minifier settings in production, and the template. */
  function HtmlOptions(isProd: bool, template: string): map<string, Value> {
    map["templateParameters" := Func("templateParameters"), "template" := Str(template)]
    + (if isProd then map["minify" := MinifyValue()] else map[])
  }

  /** The page template is `public/index.html`; the page is minified exactly
      in production. */
  lemma HtmlOptionsShape(isProd: bool, template: string)
    ensures var o := HtmlOptions(isProd, template);
      Lookup(o, "template") == Str(template)
      && ("minify" in o <==> isProd)
      && (isProd ==> o["minify"] == MinifyValue())
      && Lookup(o, "templateParameters").Func?
      && o.Keys <= {"templateParameters", "template", "minify"}
  {
  }

  /** The `templateParameters` function: the HTML plugin's own parameters,
      overridden by the raw client environment (`Object.assign`); the
      compilation's statistics are given rather than computed lazily. */
  function TemplateParameters(compilation: Value, stats: Value, assets: Value, pluginOptions: Value, clientEnvRaw: Value): map<string, Value> {
    Assign(map["webpack" := stats, "compilation" := compilation, "webpackConfig" := Prop(compilation, "options"),
      "htmlWebpackPlugin" := Plain(map["files" := assets, "options" := pluginOptions])], clientEnvRaw)
  }

  /** Client variables win over the plugin's parameters of the same name;
      the others are the plugin's. */
  lemma TemplateParametersOverride(compilation: Value, stats: Value, assets: Value, pluginOptions: Value, clientEnvRaw: Value, k: string)
    ensures var r := TemplateParameters(compilation, stats, assets, pluginOptions, clientEnvRaw);
      (clientEnvRaw.Obj? && k in clientEnvRaw.fields ==> k in r && r[k] == clientEnvRaw.fields[k])
      && (!(clientEnvRaw.Obj? && k in clientEnvRaw.fields) && k == "webpack" ==> r[k] == stats)
      && (!(clientEnvRaw.Obj? && k in clientEnvRaw.fields) && k == "htmlWebpackPlugin" ==>
            r[k] == Plain(map["files" := assets, "options" := pluginOptions]))
  {
  }

  /** Whether CORS or integrity attributes are wanted:
      `crossorigin != null || integrity`. */
  predicate WantsCors(opts: ProjectOptions) {
    opts.crossorigin.Some? || opts.integrity
  }

  function CorsOptions(opts: ProjectOptions): Value {
    Plain(map["crossorigin" := (if opts.crossorigin.Some? then Str(opts.crossorigin.value) else Undefined),
      "integrity" := Bool(opts.integrity), "baseUrl" := Str(opts.baseUrl)])
  }

  /** One copy pattern: the `public` folder into the output directory, the
      page template and `.DS_Store` excepted. */
  function CopyPatterns(publicDir: string, outputDir: string): Value {
    Arr([Plain(map["from" := Str(publicDir), "to" := Str(outputDir), "toType" := Str("dir"),
      "ignore" := Arr([Str(DefaultIndex), Str(".DS_Store")])])])
  }

  // ---------------------------------------------------------------------------
  // The callback's builder calls, statement by statement

  function SplitOps(isProd: bool): seq<Op> {
    if isProd then [SetSplitChunks(SplitChunksValue())] else []
  }

  function MoveIndexOps(isProd: bool, indexPath: string, outputDir: string): seq<Op> {
    if isProd && indexPath != DefaultIndex
    then [AddPlugin("move-index", MovePlugin, [Str(PathResolve(outputDir, DefaultIndex)), Str(PathResolve(outputDir, indexPath))])]
    else []
  }

  function NamedChunksOps(isProd: bool): seq<Op> {
    if isProd then [AddPlugin("named-chunks", NamedChunksPlugin, [Func("namedChunkId")])] else []
  }

  function HtmlOps(isProd: bool, template: string): seq<Op> {
    [AddPlugin("html", HtmlPlugin, [Plain(HtmlOptions(isProd, template))])]
  }

  function PreloadOps(isProd: bool): seq<Op> {
    if isProd then
      [AddPlugin("preload", PreloadPlugin, [Plain(map["rel" := Str("preload"), "include" := Str("initial"),
         "fileBlacklist" := Arr([Str("/\\.map$/"), Str("/hot-update\\.js$/")])])]),
       AddPlugin("prefetch", PreloadPlugin, [Plain(map["rel" := Str("prefetch"), "include" := Str("asyncChunks")])])]
    else []
  }

  function CorsOps(opts: ProjectOptions): seq<Op> {
    if WantsCors(opts) then [AddPlugin("cors", CorsPlugin, [CorsOptions(opts)])] else []
  }

  function CopyOps(publicDirExists: bool, publicDir: string, outputDir: string): seq<Op> {
    if publicDirExists then [AddPlugin("copy", CopyPlugin, [CopyPatterns(publicDir, outputDir)])] else []
  }

  function AppStatements(opts: ProjectOptions, env: map<string, string>, h: Host): seq<seq<Op>> {
    var isProd := IsProduction(env);
    var outputDir := Resolve(h, opts.outputDir);
    [SplitOps(isProd), MoveIndexOps(isProd, opts.indexPath, outputDir), NamedChunksOps(isProd),
     HtmlOps(isProd, Resolve(h, "public/index.html")), PreloadOps(isProd), CorsOps(opts),
     CopyOps(h.publicDirExists, Resolve(h, "public"), outputDir)]
  }

  /** Every builder call of the application callback, in order. */
  function AppOps(opts: ProjectOptions, env: map<string, string>, h: Host): seq<Op> {
    Flatten(AppStatements(opts, env, h))
  }

  /** The application chain callback: it patches the chunk sorters, then
      makes its builder calls on the shared builder. */
  method ApplyApp(cfg: ChainConfig, sorters: ChunkSort.ChunkSorters, opts: ProjectOptions, env: map<string, string>, h: Host)
    modifies cfg, sorters
    ensures cfg.tree == Run(old(cfg.tree), AppOps(opts, env, h))
    ensures sorters.dependency == ChunkSort.FallbackPatch(old(sorters.dependency))
    ensures sorters.auto == sorters.dependency
  {
    sorters.Patch();
    cfg.Perform(AppOps(opts, env, h));
  }

  // ---------------------------------------------------------------------------
  // The plugins registered

  // The plugin keys each statement registers
  function MoveIndexKeys(isProd: bool, indexPath: string): seq<string> {
    if isProd && indexPath != DefaultIndex then ["move-index"] else []
  }

  function NamedChunksKeys(isProd: bool): seq<string> {
    if isProd then ["named-chunks"] else []
  }

  function PreloadKeys(isProd: bool): seq<string> {
    if isProd then ["preload", "prefetch"] else []
  }

  function CorsKeys(opts: ProjectOptions): seq<string> {
    if WantsCors(opts) then ["cors"] else []
  }

  function CopyKeys(publicDirExists: bool): seq<string> {
    if publicDirExists then ["copy"] else []
  }

  /** The plugin keys the callback registers, in order. */
  function AppPluginNames(opts: ProjectOptions, env: map<string, string>, h: Host): seq<string> {
    var isProd := IsProduction(env);
    MoveIndexKeys(isProd, opts.indexPath) + (NamedChunksKeys(isProd) + (["html"]
    + (PreloadKeys(isProd) + (CorsKeys(opts) + CopyKeys(h.publicDirExists)))))
  }

  /** The page is moved exactly in production with another page name. */
  lemma AppMoveIndexWhen(opts: ProjectOptions, env: map<string, string>, h: Host)
    ensures "move-index" in AppPluginNames(opts, env, h) <==> IsProduction(env) && opts.indexPath != DefaultIndex
  {
  }

  /** Stable chunk names and resource hints exactly in production; the page
      always. */
  lemma AppProductionPlugins(opts: ProjectOptions, env: map<string, string>, h: Host)
    ensures var names := AppPluginNames(opts, env, h);
      ("named-chunks" in names <==> IsProduction(env))
      && ("preload" in names <==> IsProduction(env))
      && ("prefetch" in names <==> IsProduction(env))
      && "html" in names
  {
  }

  /** CORS exactly when `crossorigin` is set or integrity is on; the copy
      exactly when there is a `public` folder. */
  lemma AppOptionalPlugins(opts: ProjectOptions, env: map<string, string>, h: Host)
    ensures var names := AppPluginNames(opts, env, h);
      ("cors" in names <==> opts.crossorigin.Some? || opts.integrity)
      && ("copy" in names <==> h.publicDirExists)
  {
  }

  /** No plugin key is registered twice. */
  lemma AppPluginNamesUnique(opts: ProjectOptions, env: map<string, string>, h: Host)
    ensures Unique(AppPluginNames(opts, env, h))
  {
    var isProd := IsProduction(env);
    var copy := CopyKeys(h.publicDirExists);
    var cors := CorsKeys(opts) + copy;
    var preload := PreloadKeys(isProd) + cors;
    var html := ["html"] + preload;
    var named := NamedChunksKeys(isProd) + html;
    assert Unique(CorsKeys(opts) + copy) by {
      UniqueAppend(CorsKeys(opts), copy);
    }
    assert Unique(PreloadKeys(isProd) + cors) by {
      UniqueAppend(PreloadKeys(isProd), cors);
    }
    assert Unique(["html"] + preload) by {
      UniqueAppend(["html"], preload);
    }
    assert Unique(NamedChunksKeys(isProd) + html) by {
      UniqueAppend(NamedChunksKeys(isProd), html);
    }
    UniqueAppend(MoveIndexKeys(isProd, opts.indexPath), named);
  }

  lemma MoveIndexAdded(isProd: bool, indexPath: string, outputDir: string)
    ensures AddedBy(MoveIndexOps(isProd, indexPath, outputDir), PluginList) ==
      MoveIndexKeys(isProd, indexPath)
  {
    var ops := MoveIndexOps(isProd, indexPath, outputDir);
    if ops != [] {
      AddedByOne(ops[0], PluginList);
    }
  }

  lemma NamedChunksAdded(isProd: bool)
    ensures AddedBy(NamedChunksOps(isProd), PluginList) == NamedChunksKeys(isProd)
  {
    if isProd {
      AddedByOne(NamedChunksOps(isProd)[0], PluginList);
    }
  }

  lemma HtmlAdded(isProd: bool, template: string)
    ensures AddedBy(HtmlOps(isProd, template), PluginList) == ["html"]
  {
    AddedByOne(HtmlOps(isProd, template)[0], PluginList);
  }

  lemma PreloadAdded(isProd: bool)
    ensures AddedBy(PreloadOps(isProd), PluginList) == PreloadKeys(isProd)
  {
    if isProd {
      var ops := PreloadOps(isProd);
      AddedByTwo(ops[0], ops[1], PluginList);
    }
  }

  lemma CorsAdded(opts: ProjectOptions)
    ensures AddedBy(CorsOps(opts), PluginList) == CorsKeys(opts)
  {
    if WantsCors(opts) {
      AddedByOne(CorsOps(opts)[0], PluginList);
    }
  }

  lemma CopyAdded(publicDirExists: bool, publicDir: string, outputDir: string)
    ensures AddedBy(CopyOps(publicDirExists, publicDir, outputDir), PluginList) == CopyKeys(publicDirExists)
  {
    if publicDirExists {
      AddedByOne(CopyOps(publicDirExists, publicDir, outputDir)[0], PluginList);
    }
  }

  /** The keys the statements register, one after another. */
  lemma AppAddedPlugins(opts: ProjectOptions, env: map<string, string>, h: Host)
    ensures AddedByEach(AppStatements(opts, env, h), PluginList) == AppPluginNames(opts, env, h)
  {
    var isProd := IsProduction(env);
    var outputDir := Resolve(h, opts.outputDir);
    var stmts := AppStatements(opts, env, h);
    assert AddedBy(stmts[0], PluginList) == [] by {
      AddedByNone(SplitOps(isProd), PluginList);
    }
    assert AddedBy(stmts[1], PluginList) == MoveIndexKeys(isProd, opts.indexPath) by {
      MoveIndexAdded(isProd, opts.indexPath, outputDir);
    }
    assert AddedBy(stmts[2], PluginList) == NamedChunksKeys(isProd) by {
      NamedChunksAdded(isProd);
    }
    assert AddedBy(stmts[3], PluginList) == ["html"] by {
      HtmlAdded(isProd, Resolve(h, "public/index.html"));
    }
    assert AddedBy(stmts[4], PluginList) == PreloadKeys(isProd) by {
      PreloadAdded(isProd);
    }
    assert AddedBy(stmts[5], PluginList) == CorsKeys(opts) by {
      CorsAdded(opts);
    }
    assert AddedBy(stmts[6], PluginList) == CopyKeys(h.publicDirExists) by {
      CopyAdded(h.publicDirExists, Resolve(h, "public"), outputDir);
    }
    AddedByEachSeven(stmts, PluginList, MoveIndexKeys(isProd, opts.indexPath), NamedChunksKeys(isProd), ["html"],
      PreloadKeys(isProd), CorsKeys(opts), CopyKeys(h.publicDirExists));
  }

  /** The callback registers exactly `AppPluginNames`, in order. */
  lemma AppPlugins(t: Tree, opts: ProjectOptions, env: map<string, string>, h: Host)
    ensures KeysOf(Run(t, AppOps(opts, env, h)), PluginList) == AddAll(KeysOf(t, PluginList), AppPluginNames(opts, env, h))
  {
    RunKeys(t, AppOps(opts, env, h), PluginList);
    FlattenAddedEach(AppStatements(opts, env, h), PluginList);
    AppAddedPlugins(opts, env, h);
  }

  // ---------------------------------------------------------------------------
  // How each plugin is configured

  /** The plugin keys the `m`-th statement may register. */
  function StatementPlugins(m: nat): set<string>
    requires m < 7
  {
    [{}, {"move-index"}, {"named-chunks"}, {"html"}, {"preload", "prefetch"}, {"cors"}, {"copy"}][m]
  }

  /** Statements after the `k`-th leave plugin `key` alone when none of them
      may register it. */
  lemma AppLaterUntouched(opts: ProjectOptions, env: map<string, string>, h: Host, k: nat, key: string)
    requires k < 7
    requires forall m | k < m < 7 :: key !in StatementPlugins(m)
    ensures var stmts := AppStatements(opts, env, h);
      forall m | k < m < |stmts| :: Untouched(stmts[m], PluginSlot(key))
  {
    var stmts := AppStatements(opts, env, h);
    forall m | k < m < |stmts|
      ensures Untouched(stmts[m], PluginSlot(key))
    {
      assert key !in StatementPlugins(m);
      UntouchedOf(stmts[m], PluginSlot(key));
    }
  }

  /** The page is always generated from `public/index.html`, with the
      options `HtmlOptions` describes. */
  lemma AppHtml(t: Tree, opts: ProjectOptions, env: map<string, string>, h: Host)
    ensures Observe(Run(t, AppOps(opts, env, h)), PluginSlot("html")) ==
      Registration(PluginUse(HtmlPlugin, [Plain(HtmlOptions(IsProduction(env), Resolve(h, "public/index.html")))]))
  {
    AppLaterUntouched(opts, env, h, 3, "html");
    RunStatements(t, AppStatements(opts, env, h), 3, 0, PluginSlot("html"));
  }

  /** In production with another page name, the page is moved from
      `index.html` to `indexPath`, both under the output directory. */
  lemma AppMoveIndex(t: Tree, opts: ProjectOptions, env: map<string, string>, h: Host)
    requires IsProduction(env) && opts.indexPath != DefaultIndex
    ensures Observe(Run(t, AppOps(opts, env, h)), PluginSlot("move-index")) ==
      Registration(PluginUse(MovePlugin, [Str(Resolve(h, opts.outputDir) + "/" + DefaultIndex),
        Str(PathResolve(Resolve(h, opts.outputDir), opts.indexPath))]))
  {
    AppLaterUntouched(opts, env, h, 1, "move-index");
    RunStatements(t, AppStatements(opts, env, h), 1, 0, PluginSlot("move-index"));
  }

  /** CORS and integrity attributes carry the project's settings. */
  lemma AppCors(t: Tree, opts: ProjectOptions, env: map<string, string>, h: Host)
    requires WantsCors(opts)
    ensures Observe(Run(t, AppOps(opts, env, h)), PluginSlot("cors")) == Registration(PluginUse(CorsPlugin, [CorsOptions(opts)]))
  {
    AppLaterUntouched(opts, env, h, 5, "cors");
    RunStatements(t, AppStatements(opts, env, h), 5, 0, PluginSlot("cors"));
  }

  /** The `public` folder is copied into the output directory. */
  lemma AppCopy(t: Tree, opts: ProjectOptions, env: map<string, string>, h: Host)
    requires h.publicDirExists
    ensures Observe(Run(t, AppOps(opts, env, h)), PluginSlot("copy")) ==
      Registration(PluginUse(CopyPlugin, [CopyPatterns(Resolve(h, "public"), Resolve(h, opts.outputDir))]))
  {
    RunStatements(t, AppStatements(opts, env, h), 6, 0, PluginSlot("copy"));
  }

  /** Code splitting is configured in production ... */
  lemma AppSplitChunks(t: Tree, opts: ProjectOptions, env: map<string, string>, h: Host)
    requires IsProduction(env)
    ensures Observe(Run(t, AppOps(opts, env, h)), SplitChunksSlot) == Val(SplitChunksValue())
  {
    var stmts := AppStatements(opts, env, h);
    forall m | 0 < m < |stmts|
      ensures Untouched(stmts[m], SplitChunksSlot)
    {
      UntouchedOf(stmts[m], SplitChunksSlot);
    }
    RunStatements(t, stmts, 0, 0, SplitChunksSlot);
  }

  /** ... and left alone otherwise. */
  lemma AppNoSplitChunks(t: Tree, opts: ProjectOptions, env: map<string, string>, h: Host)
    requires !IsProduction(env)
    ensures Observe(Run(t, AppOps(opts, env, h)), SplitChunksSlot) == Observe(t, SplitChunksSlot)
  {
    var stmts := AppStatements(opts, env, h);
    forall m | 0 <= m < |stmts|
      ensures Untouched(stmts[m], SplitChunksSlot)
    {
      UntouchedOf(stmts[m], SplitChunksSlot);
    }
    FlattenUntouched(stmts, SplitChunksSlot);
    RunKeeps(t, AppOps(opts, env, h), SplitChunksSlot);
  }
}
