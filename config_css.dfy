/**
 * The style-sheet configuration plugin (`config/css.js`): the chain callback
 * that registers one rule per style-sheet language, each with a single
 * alternative `normal` whose loaders run in a fixed order, and, when CSS is
 * extracted, the extraction and minification plugins.
 */
module CssConfig {
  import opened JsValues
  import opened Keyed
  import opened Chain
  import opened Env
  import opened Options

  const CssRuleKeys := ["css", "scss", "less", "stylus"]
  const NormalOneOf := "normal"

  /** Rule conditions, as the source text of their regular expressions. */
  const CssTest := "/\\.css$/"
  const ScssTest := "/\\.scss$/"
  const LessTest := "/\\.less$/"
  const StylusTest := "/\\.styl(us)?$/"

  const DefaultLocalIdentName := "[name]_[local]_[hash:base64:5]"

  /** The loader exported by the extraction plugin's package. */
  const ExtractLoader := "mini-css-extract-plugin/loader"

  /** The PostCSS configuration files looked for in the project, in order. */
  const PostCssConfigFiles := [".postcssrc", ".postcssrc.js", "postcss.config.js", ".postcssrc.yaml", ".postcssrc.json"]

  // ---------------------------------------------------------------------------
  // The `css` options with their defaults

  /** The `css` options after destructuring with defaults. */
  datatype CssSettings = CssSettings(modules: bool, extract: Extract, sourceMap: bool, loaderOptions: LoaderOptions)

  /** `modules` defaults to off, `extract` to whether this is a production
      build, `sourceMap` to off and `loaderOptions` to `{}`. */
  function Settings(css: CssOptions, isProd: bool): CssSettings {
    CssSettings(css.modules.GetOr(false), css.extract.GetOr(ExtractFlag(isProd)), css.sourceMap.GetOr(false),
      css.loaderOptions.GetOr(NoLoaderOptions))
  }

  /** `extract !== false`. */
  predicate ShouldExtract(e: Extract) {
    e != ExtractFlag(false)
  }

  lemma SettingsDefaults(css: CssOptions, isProd: bool)
    ensures css.modules.None? ==> !Settings(css, isProd).modules
    ensures css.sourceMap.None? ==> !Settings(css, isProd).sourceMap
    ensures css.loaderOptions.None? ==> Settings(css, isProd).loaderOptions == NoLoaderOptions
    ensures css.extract.None? ==> (ShouldExtract(Settings(css, isProd).extract) <==> isProd)
    ensures css.extract.Some? ==> (ShouldExtract(Settings(css, isProd).extract) <==> css.extract.value != ExtractFlag(false))
  {
  }

  // ---------------------------------------------------------------------------
  // Extraction options and the relative public path of extracted CSS

  /** The name pattern of extracted CSS files, with a content hash exactly when
      file names are hashed. */
  function CssFilename(opts: ProjectOptions, h: Host): string {
    h.assetPath("css/[name]" + (if opts.filenameHashing then ".[contenthash:8]" else "") + ".css")
  }

  /** The extraction plugin's options: the same pattern for entry and chunk
      files, overridden key by key by an object-valued `extract`. */
  function ExtractOptions(filename: string, extract: Extract): (r: map<string, Value>)
    ensures "filename" in r && "chunkFilename" in r
    ensures extract.ExtractWith? ==> forall k | k in extract.fields :: k in r && r[k] == extract.fields[k]
    ensures (extract.ExtractFlag? || "filename" !in extract.fields) ==> r["filename"] == Str(filename)
    ensures (extract.ExtractFlag? || "chunkFilename" !in extract.fields) ==> r["chunkFilename"] == Str(filename)
    ensures extract.ExtractFlag? ==> r.Keys == {"filename", "chunkFilename"}
  {
    Assign(map["filename" := Str(filename), "chunkFilename" := Str(filename)],
      if extract.ExtractWith? then Plain(extract.fields) else Undefined)
  }

  /** Unless `extract` names them, entry and chunk files share one pattern. */
  lemma ExtractSharedName(filename: string, extract: Extract)
    requires extract.ExtractWith? ==> "filename" !in extract.fields && "chunkFilename" !in extract.fields
    ensures ExtractOptions(filename, extract)["filename"] == ExtractOptions(filename, extract)["chunkFilename"]
  {
  }

  predicate IsSep(c: char) {
    c == '/' || c == '\\'
  }

  /** The path with a leading `./` or `.\` removed. */
  function StripDotSlash(s: string): (r: string)
    ensures |s| >= 2 && s[0] == '.' && IsSep(s[1]) ==> r == s[2..]
    ensures !(|s| >= 2 && s[0] == '.' && IsSep(s[1])) ==> r == s
  {
    if |s| >= 2 && s[0] == '.' && IsSep(s[1]) then s[2..] else s
  }

  /** `s.split(/[\/\\]/g)`: the pieces between separators. */
  function Split(s: string): (parts: seq<string>)
    ensures |parts| >= 1
    decreases |s|
  {
    if s == [] then [""]
    else
      var rest := Split(s[1..]);
      if IsSep(s[0]) then [""] + rest else [[s[0]] + rest[0]] + rest[1..]
  }

  function SepCount(s: string): nat
    decreases |s|
  {
    if s == [] then 0 else (if IsSep(s[0]) then 1 else 0) + SepCount(s[1..])
  }

  /** Pieces joined with `/`. */
  function JoinSlash(parts: seq<string>): string
    decreases |parts|
  {
    if parts == [] then "" else if |parts| == 1 then parts[0] else parts[0] + "/" + JoinSlash(parts[1..])
  }

  /** Every separator written as `/`. */
  function ForwardSlashes(s: string): (r: string)
    ensures |r| == |s|
    decreases |s|
  {
    if s == [] then "" else [if IsSep(s[0]) then '/' else s[0]] + ForwardSlashes(s[1..])
  }

  /** A path splits into one piece more than it has separators. */
  lemma {:induction false} SplitCount(s: string)
    ensures |Split(s)| == SepCount(s) + 1
    decreases |s|
  {
    if s != [] {
      SplitCount(s[1..]);
    }
  }

  /** The pieces hold no separator. */
  lemma {:induction false} SplitPieces(s: string)
    ensures forall i | 0 <= i < |Split(s)| :: SepCount(Split(s)[i]) == 0
    decreases |s|
  {
    if s != [] {
      SplitPieces(s[1..]);
      var rest := Split(s[1..]);
      if IsSep(s[0]) {
        assert SepCount("") == 0;
      } else {
        assert SepCount([s[0]] + rest[0]) == SepCount(rest[0]) by {
          assert ([s[0]] + rest[0])[1..] == rest[0];
        }
      }
    }
  }

  /** Joining the pieces with `/` gives the path back with every separator
      written as `/`. */
  lemma {:induction false} SplitJoin(s: string)
    ensures JoinSlash(Split(s)) == ForwardSlashes(s)
    decreases |s|
  {
    if s != [] {
      SplitJoin(s[1..]);
      var rest := Split(s[1..]);
      if IsSep(s[0]) {
        assert ([""] + rest)[1..] == rest;
      } else {
        assert ([[s[0]] + rest[0]] + rest[1..])[1..] == rest[1..];
        if |rest| > 1 {
          assert JoinSlash(rest) == rest[0] + "/" + JoinSlash(rest[1..]);
        }
      }
    }
  }

  /** `'../'.repeat(n)`. */
  function Repeat(s: string, n: nat): (r: string)
    ensures |r| == n * |s|
  {
    if n == 0 then "" else s + Repeat(s, n - 1)
  }

  /** `Repeat` gives `n` copies of `s`: one repetition is `s` itself, and
      `a + b` repetitions are `a` repetitions followed by `b`. */
  lemma {:induction false} RepeatCopies(s: string, a: nat, b: nat)
    ensures Repeat(s, 1) == s
    ensures Repeat(s, a + b) == Repeat(s, a) + Repeat(s, b)
    decreases a
  {
    assert Repeat(s, 1) == s + "";
    if a > 0 {
      RepeatCopies(s, a - 1, b);
      assert Repeat(s, a + b) == s + Repeat(s, (a - 1) + b);
    }
  }

  /** The `publicPath` the extraction loader writes into extracted CSS: one
      `../` per directory level of the file name pattern. */
  function CssPublicPath(filename: string): string {
    Repeat("../", |Split(StripDotSlash(filename))| - 1)
  }

  lemma CssPublicPathDepth(filename: string)
    ensures CssPublicPath(filename) == Repeat("../", SepCount(StripDotSlash(filename)))
  {
    SplitCount(StripDotSlash(filename));
  }

  /** One leading `./` does not count as a level (a second one would). */
  lemma CssPublicPathDotSlash(filename: string)
    ensures CssPublicPath("./" + filename) == Repeat("../", SepCount(filename))
  {
    assert StripDotSlash("./" + filename) == filename by {
      assert ("./" + filename)[0] == '.' && ("./" + filename)[1] == '/';
      assert ("./" + filename)[2..] == filename;
    }
    CssPublicPathDepth("./" + filename);
  }

  lemma {:induction false} SepCountAppend(a: string, b: string)
    ensures SepCount(a + b) == SepCount(a) + SepCount(b)
    decreases |a|
  {
    if a == [] {
      assert a + b == b;
    } else {
      assert (a + b)[1..] == a[1..] + b;
      SepCountAppend(a[1..], b);
    }
  }

  /** A file name one directory deep is served from one level up. */
  lemma CssPublicPathOneLevel(dir: string, name: string)
    requires dir != [] && dir[0] != '.' && SepCount(dir) == 0 && SepCount(name) == 0
    ensures CssPublicPath(dir + "/" + name) == "../"
  {
    var f := dir + "/" + name;
    CssPublicPathDepth(f);
    assert f[0] == dir[0];
    assert StripDotSlash(f) == f;
    SepCountAppend(dir, "/" + name);
    assert ("/" + name)[1..] == name;
    assert SepCount(f) == 1 by {
      assert f == dir + ("/" + name);
    }
    assert Repeat("../", 1) == "../";
  }

  // ---------------------------------------------------------------------------
  // Does the project configure PostCSS?

  /** The first of `files` present in the project, if any. */
  function FirstExisting(files: seq<string>, existing: set<string>): (r: Option<string>)
    decreases |files|
  {
    if files == [] then None
    else if files[0] in existing then Some(files[0])
    else FirstExisting(files[1..], existing)
  }

  /** Found iff one of the files is present; what is found is present and
      comes before every other present file. */
  lemma {:induction false} FirstExistingSpec(files: seq<string>, existing: set<string>)
    ensures FirstExisting(files, existing).Some? <==> exists i | 0 <= i < |files| :: files[i] in existing
    ensures FirstExisting(files, existing).Some? ==>
      exists i | 0 <= i < |files| :: files[i] == FirstExisting(files, existing).value && files[i] in existing
        && forall j | 0 <= j < i :: files[j] !in existing
    decreases |files|
  {
    if files != [] && files[0] !in existing {
      FirstExistingSpec(files[1..], existing);
      if FirstExisting(files, existing).Some? {
        var i :| 0 <= i < |files[1..]| && files[1..][i] == FirstExisting(files, existing).value && files[1..][i] in existing
          && forall j | 0 <= j < i :: files[1..][j] !in existing;
        assert files[i + 1] == files[1..][i];
        forall j | 0 <= j < i + 1
          ensures files[j] !in existing
        {
          if j > 0 {
            assert files[j] == files[1..][j - 1];
          }
        }
      } else {
        forall i | 0 <= i < |files|
          ensures files[i] !in existing
        {
          if i > 0 {
            assert files[i] == files[1..][i - 1];
          }
        }
      }
    }
  }

  /** `findExisting`: tries the files in order. */
  method FindExisting(files: seq<string>, existing: set<string>) returns (r: Option<string>)
    ensures r == FirstExisting(files, existing)
  {
    var i := 0;
    while i < |files|
      invariant 0 <= i <= |files|
      invariant FirstExisting(files, existing) == FirstExisting(files[i..], existing)
    {
      assert files[i..][1..] == files[i + 1..];
      if files[i] in existing {
        return Some(files[i]);
      }
      i := i + 1;
    }
    return None;
  }

  /** A `postcss` field in package.json, or one of the PostCSS configuration files. */
  predicate HasPostCssConfig(h: Host) {
    Truthy(h.pkgPostcss) || FirstExisting(PostCssConfigFiles, h.existingFiles).Some?
  }

  // ---------------------------------------------------------------------------
  // Loader and plugin options

  /** The minifier options; a separate source map only when production
      source maps and CSS source maps are both on. */
  function CssnanoOptions(opts: ProjectOptions, st: CssSettings): (v: map<string, Value>)
    ensures "preset" in v
    ensures "map" in v <==> opts.productionSourceMap && st.sourceMap
    ensures "map" in v ==> v["map"] == Plain(map["inline" := Bool(false)])
  {
    var base := map["preset" := Arr([Str("default"),
      Plain(map["mergeLonghand" := Bool(false), "cssDeclarationSorter" := Bool(false)])])];
    if opts.productionSourceMap && st.sourceMap then base["map" := Plain(map["inline" := Bool(false)])] else base
  }

  /** The identifier pattern of CSS modules: the project's, or the default. */
  function LocalIdentName(css: Value): (v: Value)
    ensures Prop(css, "localIdentName").Undefined? ==> v == Str(DefaultLocalIdentName)
    ensures !Prop(css, "localIdentName").Undefined? ==> v == Prop(css, "localIdentName")
  {
    if Prop(css, "localIdentName").Undefined? then Str(DefaultLocalIdentName) else Prop(css, "localIdentName")
  }

  /** `css-loader`'s options: source maps as configured, one loader before it
      exactly when PostCSS runs, the project's `loaderOptions.css` on top, and
      for CSS modules the module flag and identifier pattern. */
  function CssLoaderOptions(st: CssSettings, postcss: bool): (v: map<string, Value>)
    ensures "sourceMap" in v && "importLoaders" in v
    ensures !(st.loaderOptions.css.Obj? && "importLoaders" in st.loaderOptions.css.fields) ==>
      v["importLoaders"] == Num(if postcss then 1 else 0)
    ensures !(st.loaderOptions.css.Obj? && "sourceMap" in st.loaderOptions.css.fields) ==> v["sourceMap"] == Bool(st.sourceMap)
    ensures st.loaderOptions.css.Obj? ==> forall k | k in st.loaderOptions.css.fields ::
      k in v && (v[k] == st.loaderOptions.css.fields[k] || (st.modules && (k == "modules" || k == "localIdentName")))
    ensures st.modules ==> ("modules" in v && v["modules"] == Bool(true)
      && "localIdentName" in v && v["localIdentName"] == LocalIdentName(st.loaderOptions.css))
  {
    var base := Assign(map["sourceMap" := Bool(st.sourceMap), "importLoaders" := Num(if postcss then 1 else 0)],
      st.loaderOptions.css);
    if st.modules then base["modules" := Bool(true)]["localIdentName" := LocalIdentName(st.loaderOptions.css)]
    else base
  }

  /** A language loader's options: source maps as configured, under the given ones. */
  function LanguageLoaderOptions(sourceMap: bool, options: Value): (v: Value)
    ensures v.Obj? && "sourceMap" in v.fields
    ensures !(options.Obj? && "sourceMap" in options.fields) ==> v.fields["sourceMap"] == Bool(sourceMap)
    ensures options.Obj? ==> forall k | k in options.fields :: k in v.fields && v.fields[k] == options.fields[k]
  {
    Plain(Assign(map["sourceMap" := Bool(sourceMap)], options))
  }

  /** Stylus resolves paths the bundler's way unless the project says otherwise. */
  function StylusOptions(stylus: Value): (v: Value)
    ensures !(stylus.Obj? && "preferPathResolver" in stylus.fields) ==> Prop(v, "preferPathResolver") == Str("webpack")
  {
    Plain(Assign(map["preferPathResolver" := Str("webpack")], stylus))
  }

  // ---------------------------------------------------------------------------
  // The builder calls of one style-sheet rule

  /** What `applyLoaders` needs to know, decided once for all rules: whether
      CSS is extracted and the extraction loader's public path, the options of
      `css-loader`, and those of `postcss-loader` when PostCSS is configured. */
  datatype LoaderPlan = LoaderPlan(extract: bool, publicPath: string, cssOptions: Value, postcss: Option<Value>)

  /** A language's own loader and its options. */
  datatype LangLoader = LangLoader(name: string, options: Value)

  /** The style loader: the extraction loader with the relative public path
      when extracting, `style-loader` otherwise. */
  function StyleLoaderOp(lang: string, plan: LoaderPlan): Op {
    if plan.extract
    then AddOneOfUse(lang, NormalOneOf, "extract-css-loader", ExtractLoader, Some(Plain(map["publicPath" := Str(plan.publicPath)])))
    else AddOneOfUse(lang, NormalOneOf, "style-loader", "style-loader", None)
  }

  /** The rule's condition, its `normal` alternative, the style loader and
      `css-loader`. */
  function CssRuleHead(lang: string, test: string, plan: LoaderPlan): seq<Op> {
    [SetRuleTest(lang, test), AddOneOf(lang, NormalOneOf), StyleLoaderOp(lang, plan),
     AddOneOfUse(lang, NormalOneOf, "css-loader", "css-loader", Some(plan.cssOptions))]
  }

  /** `postcss-loader`, when PostCSS is configured. */
  function PostCssLoaderOps(lang: string, plan: LoaderPlan): seq<Op> {
    if plan.postcss.Some? then [AddOneOfUse(lang, NormalOneOf, "postcss-loader", "postcss-loader", plan.postcss)] else []
  }

  /** The language's own loader, when it has one. */
  function OwnLoaderOps(lang: string, loader: Option<LangLoader>): seq<Op> {
    if loader.Some? then [AddOneOfUse(lang, NormalOneOf, loader.value.name, loader.value.name, Some(loader.value.options))] else []
  }

  /** `createCSSRule(lang, test, loader, options)`: the calls in the order
      `applyLoaders` makes them. */
  function CssRuleOps(lang: string, test: string, plan: LoaderPlan, loader: Option<LangLoader>): seq<Op> {
    CssRuleHead(lang, test, plan) + PostCssLoaderOps(lang, plan) + OwnLoaderOps(lang, loader)
  }

  /** The keys of the `normal` alternative's loaders, in order. */
  function LoaderNames(plan: LoaderPlan, loader: Option<LangLoader>): seq<string> {
    [if plan.extract then "extract-css-loader" else "style-loader", "css-loader"]
    + (if plan.postcss.Some? then ["postcss-loader"] else [])
    + (if loader.Some? then [loader.value.name] else [])
  }

  /** The loader order: extraction or style injection first, `css-loader`
      second, `postcss-loader` exactly when PostCSS is configured, the
      language's loader last when there is one, and never `cssnano`. */
  lemma LoaderNamesOrder(plan: LoaderPlan, loader: Option<LangLoader>)
    requires loader.Some? ==> loader.value.name !in {"extract-css-loader", "style-loader", "css-loader", "postcss-loader", "cssnano"}
    ensures var names := LoaderNames(plan, loader);
      2 <= |names| <= 4
      && (names[0] == "extract-css-loader" <==> plan.extract)
      && (names[0] == "style-loader" <==> !plan.extract)
      && names[1] == "css-loader"
      && ("postcss-loader" in names <==> plan.postcss.Some?)
      && (plan.postcss.Some? ==> names[2] == "postcss-loader")
      && (loader.Some? ==> names[|names| - 1] == loader.value.name)
      && (loader.None? ==> names[|names| - 1] in {"css-loader", "postcss-loader"})
      && "cssnano" !in names
      && Unique(names)
  {
  }

  /** `createCSSRule` and `applyLoaders` on the shared builder. */
  method CreateCssRule(cfg: ChainConfig, lang: string, test: string, plan: LoaderPlan, loader: Option<LangLoader>)
    modifies cfg
    ensures cfg.tree == Run(old(cfg.tree), CssRuleOps(lang, test, plan, loader))
  {
    ghost var t0 := cfg.tree;
    var head := CssRuleHead(lang, test, plan);
    cfg.Perform(head);
    var post := PostCssLoaderOps(lang, plan);
    if post != [] {
      cfg.Perform(post);
    }
    var own := OwnLoaderOps(lang, loader);
    if own != [] {
      cfg.Perform(own);
    }
    RunAppend(t0, head + post, own);
    RunAppend(t0, head, post);
  }

  // ---------------------------------------------------------------------------
  // The callback

  /** The extraction plugin and, in production, the CSS minifier. */
  function CssPluginOps(extract: bool, isProd: bool, extractOptions: Value, optimizeOptions: Value): seq<Op> {
    if extract then
      [AddPlugin("extract-css", "mini-css-extract-plugin", [extractOptions])]
      + (if isProd then [AddPlugin("optimize-css", "@intervolga/optimize-cssnano-plugin", [optimizeOptions])] else [])
    else []
  }

  /** The four rules, then the plugins, the per-language loader options given. */
  function CssStatements(plan: LoaderPlan, sass: Value, less: Value, stylus: Value, isProd: bool,
                         extractOptions: Value, optimizeOptions: Value): seq<seq<Op>> {
    [CssRuleOps("css", CssTest, plan, None),
     CssRuleOps("scss", ScssTest, plan, Some(LangLoader("sass-loader", sass))),
     CssRuleOps("less", LessTest, plan, Some(LangLoader("less-loader", less))),
     CssRuleOps("stylus", StylusTest, plan, Some(LangLoader("stylus-loader", stylus))),
     CssPluginOps(plan.extract, isProd, extractOptions, optimizeOptions)]
  }

  /** The language loader of the `k`-th rule. */
  function LoaderFor(k: nat, sass: Value, less: Value, stylus: Value): Option<LangLoader>
    requires k < 4
  {
    if k == 0 then None
    else if k == 1 then Some(LangLoader("sass-loader", sass))
    else if k == 2 then Some(LangLoader("less-loader", less))
    else Some(LangLoader("stylus-loader", stylus))
  }

  /** The loader plan the callback derives from the options and the project. */
  function PlanOf(opts: ProjectOptions, st: CssSettings, h: Host, publicPath: string): LoaderPlan {
    var postcss := HasPostCssConfig(h);
    LoaderPlan(ShouldExtract(st.extract), publicPath, Plain(CssLoaderOptions(st, postcss)),
      if postcss then Some(LanguageLoaderOptions(st.sourceMap, st.loaderOptions.postcss)) else None)
  }

  /** The minifier plugin's options. */
  function OptimizeOptions(opts: ProjectOptions, st: CssSettings): Value {
    Plain(map["sourceMap" := Bool(opts.productionSourceMap && st.sourceMap),
      "cssnanoOptions" := Plain(CssnanoOptions(opts, st))])
  }

  /** Every builder call of the callback, or `None` when the extraction file
      name is not a string (computing the public path then throws). */
  function CssOps(opts: ProjectOptions, env: map<string, string>, h: Host): (r: Option<seq<Op>>)
    ensures r.None? <==> !ExtractOptions(CssFilename(opts, h), Settings(opts.css, IsProduction(env)).extract)["filename"].Str?
  {
    var st := Settings(opts.css, IsProduction(env));
    var extractOptions := ExtractOptions(CssFilename(opts, h), st.extract);
    if !extractOptions["filename"].Str? then None
    else
      var plan := PlanOf(opts, st, h, CssPublicPath(extractOptions["filename"].s));
      Some(Flatten(CssStatements(plan,
        LanguageLoaderOptions(st.sourceMap, st.loaderOptions.sass),
        LanguageLoaderOptions(st.sourceMap, st.loaderOptions.less),
        LanguageLoaderOptions(st.sourceMap, StylusOptions(st.loaderOptions.stylus)),
        IsProduction(env), Plain(extractOptions), OptimizeOptions(opts, st))))
  }

  /** The CSS chain callback on the shared builder; reports the error it
      throws, before any builder call, on a non-string extraction file name. */
  method ApplyCss(cfg: ChainConfig, opts: ProjectOptions, env: map<string, string>, h: Host) returns (failed: bool)
    modifies cfg
    ensures failed <==> CssOps(opts, env, h).None?
    ensures failed ==> cfg.tree == old(cfg.tree)
    ensures !failed ==> cfg.tree == Run(old(cfg.tree), CssOps(opts, env, h).value)
  {
    var isProd := IsProduction(env);
    var st := Settings(opts.css, isProd);
    var extractOptions := ExtractOptions(CssFilename(opts, h), st.extract);
    if !extractOptions["filename"].Str? {
      return true;
    }
    var publicPath := CssPublicPath(extractOptions["filename"].s);
    var postcss := Truthy(h.pkgPostcss);
    if !postcss {
      var found := FindExisting(PostCssConfigFiles, h.existingFiles);
      postcss := found.Some?;
    }
    var plan := LoaderPlan(ShouldExtract(st.extract), publicPath, Plain(CssLoaderOptions(st, postcss)),
      if postcss then Some(LanguageLoaderOptions(st.sourceMap, st.loaderOptions.postcss)) else None);
    assert plan == PlanOf(opts, st, h, publicPath);
    CreateCssRules(cfg, plan,
      LanguageLoaderOptions(st.sourceMap, st.loaderOptions.sass),
      LanguageLoaderOptions(st.sourceMap, st.loaderOptions.less),
      LanguageLoaderOptions(st.sourceMap, StylusOptions(st.loaderOptions.stylus)),
      isProd, Plain(extractOptions), OptimizeOptions(opts, st));
    failed := false;
  }

  /** The four `createCSSRule` calls and the plugin registrations. */
  method CreateCssRules(cfg: ChainConfig, plan: LoaderPlan, sass: Value, less: Value, stylus: Value, isProd: bool,
                        extractOptions: Value, optimizeOptions: Value)
    modifies cfg
    ensures cfg.tree == Run(old(cfg.tree), Flatten(CssStatements(plan, sass, less, stylus, isProd, extractOptions, optimizeOptions)))
  {
    ghost var stmts := CssStatements(plan, sass, less, stylus, isProd, extractOptions, optimizeOptions);
    ghost var t0 := cfg.tree;
    CreateCssRule(cfg, "css", CssTest, plan, None);
    CreateCssRule(cfg, "scss", ScssTest, plan, Some(LangLoader("sass-loader", sass)));
    CreateCssRule(cfg, "less", LessTest, plan, Some(LangLoader("less-loader", less)));
    CreateCssRule(cfg, "stylus", StylusTest, plan, Some(LangLoader("stylus-loader", stylus)));
    ghost var t4 := cfg.tree;
    if plan.extract {
      var extractCss := [AddPlugin("extract-css", "mini-css-extract-plugin", [extractOptions])];
      cfg.Perform(extractCss);
      if isProd {
        var optimizeCss := [AddPlugin("optimize-css", "@intervolga/optimize-cssnano-plugin", [optimizeOptions])];
        cfg.Perform(optimizeCss);
        RunAppend(t4, extractCss, optimizeCss);
      }
    }
    RunFlattenFive(t0, stmts);
  }

  lemma RunFlattenFive(t: Tree, stmts: seq<seq<Op>>)
    requires |stmts| == 5
    ensures Run(t, Flatten(stmts)) == Run(Run(Run(Run(Run(t, stmts[0]), stmts[1]), stmts[2]), stmts[3]), stmts[4])
  {
    RunFlatten(t, stmts);
    RunFlatten(Run(t, stmts[0]), stmts[1..]);
    RunFlatten(Run(Run(t, stmts[0]), stmts[1]), stmts[2..]);
    RunFlatten(Run(Run(Run(t, stmts[0]), stmts[1]), stmts[2]), stmts[3..]);
    RunFlatten(Run(Run(Run(Run(t, stmts[0]), stmts[1]), stmts[2]), stmts[3]), stmts[4..]);
    assert stmts[1..][0] == stmts[1] && stmts[2..][0] == stmts[2] && stmts[3..][0] == stmts[3];
    assert stmts[4..][0] == stmts[4] && stmts[4..][1..] == [];
  }

  // ---------------------------------------------------------------------------
  // What one rule statement does

  /** A rule statement touches only its own rule's condition and the loaders
      of its own alternatives. */
  lemma CssRuleUntouched(lang: string, test: string, plan: LoaderPlan, loader: Option<LangLoader>, s: Slot)
    requires s != TestSlot(lang) && !(s.OneOfUseSlot? && s.rule == lang)
    ensures Untouched(CssRuleOps(lang, test, plan, loader), s)
  {
    UntouchedOf(CssRuleOps(lang, test, plan, loader), s);
  }

  /** A rule statement registers only its rule, its `normal` alternative and
      that alternative's loaders. */
  lemma CssRuleSilent(lang: string, test: string, plan: LoaderPlan, loader: Option<LangLoader>, c: Collection)
    requires c != RuleList && c != OneOfList(lang) && c != OneOfUseList(lang, NormalOneOf)
    ensures AddedBy(CssRuleOps(lang, test, plan, loader), c) == []
  {
    AddedByNone(CssRuleOps(lang, test, plan, loader), c);
  }

  /** Every call of a rule statement registers the rule `lang`. */
  lemma CssRuleAddsRule(lang: string, test: string, plan: LoaderPlan, loader: Option<LangLoader>)
    ensures var added := AddedBy(CssRuleOps(lang, test, plan, loader), RuleList);
      added != [] && forall i | 0 <= i < |added| :: added[i] == lang
  {
    AddedByRepeated(CssRuleOps(lang, test, plan, loader), RuleList, lang);
  }

  /** Every call but the first registers the alternative `normal`. */
  lemma CssRuleAddsNormal(lang: string, test: string, plan: LoaderPlan, loader: Option<LangLoader>)
    ensures var added := AddedBy(CssRuleOps(lang, test, plan, loader), OneOfList(lang));
      added != [] && forall i | 0 <= i < |added| :: added[i] == NormalOneOf
  {
    var head := CssRuleHead(lang, test, plan);
    var rest := PostCssLoaderOps(lang, plan) + OwnLoaderOps(lang, loader);
    assert CssRuleOps(lang, test, plan, loader) == [head[0]] + (head[1..] + rest);
    AddedByAppend([head[0]], head[1..] + rest, OneOfList(lang));
    assert AddedBy([head[0]], OneOfList(lang)) == [] by {
      assert [head[0]][1..] == [];
    }
    AddedByRepeated(head[1..] + rest, OneOfList(lang), NormalOneOf);
  }

  lemma HeadAddsLoaders(lang: string, test: string, plan: LoaderPlan)
    ensures AddedBy(CssRuleHead(lang, test, plan), OneOfUseList(lang, NormalOneOf)) ==
      [if plan.extract then "extract-css-loader" else "style-loader", "css-loader"]
  {
    var c := OneOfUseList(lang, NormalOneOf);
    var head := CssRuleHead(lang, test, plan);
    assert head == [head[0], head[1]] + [head[2], head[3]];
    AddedByAppend([head[0], head[1]], [head[2], head[3]], c);
    AddedByTwo(head[0], head[1], c);
    AddedByTwo(head[2], head[3], c);
  }

  lemma PostCssAddsLoaders(lang: string, plan: LoaderPlan)
    ensures AddedBy(PostCssLoaderOps(lang, plan), OneOfUseList(lang, NormalOneOf)) ==
      (if plan.postcss.Some? then ["postcss-loader"] else [])
  {
    var post := PostCssLoaderOps(lang, plan);
    if post != [] {
      assert post[1..] == [];
    }
  }

  lemma OwnAddsLoaders(lang: string, loader: Option<LangLoader>)
    ensures AddedBy(OwnLoaderOps(lang, loader), OneOfUseList(lang, NormalOneOf)) ==
      (if loader.Some? then [loader.value.name] else [])
  {
    var own := OwnLoaderOps(lang, loader);
    if own != [] {
      assert own[1..] == [];
    }
  }

  /** The `normal` alternative's loaders are registered in `LoaderNames` order. */
  lemma CssRuleAddsLoaders(lang: string, test: string, plan: LoaderPlan, loader: Option<LangLoader>)
    ensures AddedBy(CssRuleOps(lang, test, plan, loader), OneOfUseList(lang, NormalOneOf)) == LoaderNames(plan, loader)
  {
    var c := OneOfUseList(lang, NormalOneOf);
    var head := CssRuleHead(lang, test, plan);
    var post := PostCssLoaderOps(lang, plan);
    AddedByAppend(head + post, OwnLoaderOps(lang, loader), c);
    AddedByAppend(head, post, c);
    HeadAddsLoaders(lang, test, plan);
    PostCssAddsLoaders(lang, plan);
    OwnAddsLoaders(lang, loader);
  }

  /** Every call of a rule statement registers its rule. */
  lemma CssRuleRegistersRule(t: Tree, lang: string, test: string, plan: LoaderPlan, loader: Option<LangLoader>)
    ensures KeysOf(Run(t, CssRuleOps(lang, test, plan, loader)), RuleList) == AddOnce(KeysOf(t, RuleList), lang)
  {
    RunKeys(t, CssRuleOps(lang, test, plan, loader), RuleList);
    CssRuleAddsRule(lang, test, plan, loader);
    AddAllRepeated(KeysOf(t, RuleList), lang, AddedBy(CssRuleOps(lang, test, plan, loader), RuleList));
  }

  // ---------------------------------------------------------------------------
  // What the plugin statement does

  function CssPluginNames(extract: bool, isProd: bool): seq<string> {
    if extract then ["extract-css"] + (if isProd then ["optimize-css"] else []) else []
  }

  lemma CssPluginsKeepKeys(t: Tree, extract: bool, isProd: bool, extractOptions: Value, optimizeOptions: Value, c: Collection)
    requires !c.PluginList?
    ensures KeysOf(Run(t, CssPluginOps(extract, isProd, extractOptions, optimizeOptions)), c) == KeysOf(t, c)
  {
    RunKeys(t, CssPluginOps(extract, isProd, extractOptions, optimizeOptions), c);
    AddedByNone(CssPluginOps(extract, isProd, extractOptions, optimizeOptions), c);
  }

  /** The plugins the statement registers, in order. */
  lemma CssPluginsAdd(extract: bool, isProd: bool, extractOptions: Value, optimizeOptions: Value)
    ensures AddedBy(CssPluginOps(extract, isProd, extractOptions, optimizeOptions), PluginList) == CssPluginNames(extract, isProd)
  {
    var ops := CssPluginOps(extract, isProd, extractOptions, optimizeOptions);
    if extract {
      if isProd {
        AddedByTwo(ops[0], ops[1], PluginList);
      } else {
        assert ops[1..] == [];
      }
    }
  }

  /** The extraction plugin is configured once, by the first call. */
  lemma CssExtractOnce(isProd: bool, extractOptions: Value, optimizeOptions: Value)
    ensures var ops := CssPluginOps(true, isProd, extractOptions, optimizeOptions);
      Writes(ops[0], PluginSlot("extract-css"))
      && Written(ops[0]).value == Registration(PluginUse("mini-css-extract-plugin", [extractOptions]))
      && forall j | 0 < j < |ops| :: !Touches(ops[j], PluginSlot("extract-css"))
  {
  }

  // ---------------------------------------------------------------------------
  // What one rule statement does, call by call

  /** Only the first call sets the rule's condition. */
  lemma CssRuleTestOnce(lang: string, test: string, plan: LoaderPlan, loader: Option<LangLoader>)
    ensures var ops := CssRuleOps(lang, test, plan, loader);
      Writes(ops[0], TestSlot(lang)) && Written(ops[0]).value == Text(test)
      && forall j | 0 < j < |ops| :: !Touches(ops[j], TestSlot(lang))
  {
  }

  /** The fourth call configures `css-loader`, and no later call of the same
      statement touches it when the language's loader has another name. */
  lemma CssRuleCssLoaderOnce(lang: string, test: string, plan: LoaderPlan, loader: Option<LangLoader>)
    requires loader.Some? ==> loader.value.name != "css-loader"
    ensures var ops := CssRuleOps(lang, test, plan, loader);
      |ops| > 3 && Writes(ops[3], OneOfUseSlot(lang, NormalOneOf, "css-loader"))
      && Written(ops[3]).value == Loader(Use(Some("css-loader"), plan.cssOptions))
      && forall j | 3 < j < |ops| :: !Touches(ops[j], OneOfUseSlot(lang, NormalOneOf, "css-loader"))
  {
  }

  // ---------------------------------------------------------------------------
  // What the whole callback does

  /** The test of the `k`-th rule. */
  function CssTestFor(k: nat): string
    requires k < 4
  {
    [CssTest, ScssTest, LessTest, StylusTest][k]
  }

  lemma CssStatementShape(plan: LoaderPlan, sass: Value, less: Value, stylus: Value, isProd: bool,
                          extractOptions: Value, optimizeOptions: Value, m: nat)
    requires m < 4
    ensures CssStatements(plan, sass, less, stylus, isProd, extractOptions, optimizeOptions)[m] ==
      CssRuleOps(CssRuleKeys[m], CssTestFor(m), plan, LoaderFor(m, sass, less, stylus))
  {
  }

  /** Only the `k`-th rule statement registers anything in a collection of
      the `k`-th rule's alternatives or their loaders. */
  lemma CssOthersSilent(plan: LoaderPlan, sass: Value, less: Value, stylus: Value, isProd: bool,
                        extractOptions: Value, optimizeOptions: Value, k: nat, c: Collection)
    requires k < 4
    requires c == OneOfList(CssRuleKeys[k]) || c == OneOfUseList(CssRuleKeys[k], NormalOneOf)
    ensures var stmts := CssStatements(plan, sass, less, stylus, isProd, extractOptions, optimizeOptions);
      forall m | 0 <= m < |stmts| && m != k :: AddedBy(stmts[m], c) == []
  {
    var stmts := CssStatements(plan, sass, less, stylus, isProd, extractOptions, optimizeOptions);
    forall m | 0 <= m < |stmts| && m != k
      ensures AddedBy(stmts[m], c) == []
    {
      if m < 4 {
        CssStatementShape(plan, sass, less, stylus, isProd, extractOptions, optimizeOptions, m);
        CssRuleSilent(CssRuleKeys[m], CssTestFor(m), plan, LoaderFor(m, sass, less, stylus), c);
      } else {
        AddedByNone(stmts[m], c);
      }
    }
  }

  /** Each of the four rules gets the single alternative `normal`. */
  lemma CssNormalAlternative(t: Tree, plan: LoaderPlan, sass: Value, less: Value, stylus: Value, isProd: bool,
                             extractOptions: Value, optimizeOptions: Value, k: nat)
    requires k < 4
    ensures KeysOf(Run(t, Flatten(CssStatements(plan, sass, less, stylus, isProd, extractOptions, optimizeOptions))),
                   OneOfList(CssRuleKeys[k])) ==
      AddOnce(KeysOf(t, OneOfList(CssRuleKeys[k])), NormalOneOf)
  {
    var stmts := CssStatements(plan, sass, less, stylus, isProd, extractOptions, optimizeOptions);
    var c := OneOfList(CssRuleKeys[k]);
    CssOthersSilent(plan, sass, less, stylus, isProd, extractOptions, optimizeOptions, k, c);
    RunStatementKeys(t, stmts, k, c);
    CssStatementShape(plan, sass, less, stylus, isProd, extractOptions, optimizeOptions, k);
    CssRuleAddsNormal(CssRuleKeys[k], CssTestFor(k), plan, LoaderFor(k, sass, less, stylus));
    AddAllRepeated(KeysOf(t, c), NormalOneOf, AddedBy(stmts[k], c));
  }

  /** Each rule's `normal` alternative gains the style loader, `css-loader`,
      `postcss-loader` when configured and the language's loader, in that
      order. */
  lemma CssLoaderChain(t: Tree, plan: LoaderPlan, sass: Value, less: Value, stylus: Value, isProd: bool,
                       extractOptions: Value, optimizeOptions: Value, k: nat)
    requires k < 4
    ensures KeysOf(Run(t, Flatten(CssStatements(plan, sass, less, stylus, isProd, extractOptions, optimizeOptions))),
                   OneOfUseList(CssRuleKeys[k], NormalOneOf)) ==
      AddAll(KeysOf(t, OneOfUseList(CssRuleKeys[k], NormalOneOf)), LoaderNames(plan, LoaderFor(k, sass, less, stylus)))
  {
    var stmts := CssStatements(plan, sass, less, stylus, isProd, extractOptions, optimizeOptions);
    var c := OneOfUseList(CssRuleKeys[k], NormalOneOf);
    CssOthersSilent(plan, sass, less, stylus, isProd, extractOptions, optimizeOptions, k, c);
    RunStatementKeys(t, stmts, k, c);
    CssStatementShape(plan, sass, less, stylus, isProd, extractOptions, optimizeOptions, k);
    CssRuleAddsLoaders(CssRuleKeys[k], CssTestFor(k), plan, LoaderFor(k, sass, less, stylus));
  }

  /** Statements after the `k`-th leave the `k`-th rule's condition and
      loaders alone. */
  lemma CssLaterUntouched(plan: LoaderPlan, sass: Value, less: Value, stylus: Value, isProd: bool,
                          extractOptions: Value, optimizeOptions: Value, k: nat, s: Slot)
    requires k < 4
    requires s == TestSlot(CssRuleKeys[k]) || (s.OneOfUseSlot? && s.rule == CssRuleKeys[k])
    ensures var stmts := CssStatements(plan, sass, less, stylus, isProd, extractOptions, optimizeOptions);
      forall m | k < m < |stmts| :: Untouched(stmts[m], s)
  {
    var stmts := CssStatements(plan, sass, less, stylus, isProd, extractOptions, optimizeOptions);
    forall m | k < m < |stmts|
      ensures Untouched(stmts[m], s)
    {
      if m < 4 {
        CssStatementShape(plan, sass, less, stylus, isProd, extractOptions, optimizeOptions, m);
        CssRuleUntouched(CssRuleKeys[m], CssTestFor(m), plan, LoaderFor(m, sass, less, stylus), s);
      } else {
        UntouchedOf(stmts[m], s);
      }
    }
  }

  /** Each rule matches its language's file extension. */
  lemma CssRuleTests(t: Tree, plan: LoaderPlan, sass: Value, less: Value, stylus: Value, isProd: bool,
                     extractOptions: Value, optimizeOptions: Value, k: nat)
    requires k < 4
    ensures Observe(Run(t, Flatten(CssStatements(plan, sass, less, stylus, isProd, extractOptions, optimizeOptions))),
                    TestSlot(CssRuleKeys[k])) == Text(CssTestFor(k))
  {
    var stmts := CssStatements(plan, sass, less, stylus, isProd, extractOptions, optimizeOptions);
    CssStatementShape(plan, sass, less, stylus, isProd, extractOptions, optimizeOptions, k);
    CssRuleTestOnce(CssRuleKeys[k], CssTestFor(k), plan, LoaderFor(k, sass, less, stylus));
    CssLaterUntouched(plan, sass, less, stylus, isProd, extractOptions, optimizeOptions, k, TestSlot(CssRuleKeys[k]));
    RunStatements(t, stmts, k, 0, TestSlot(CssRuleKeys[k]));
  }

  /** Every rule's `css-loader` receives the options computed for it. */
  lemma CssLoaderOptionsUsed(t: Tree, plan: LoaderPlan, sass: Value, less: Value, stylus: Value, isProd: bool,
                             extractOptions: Value, optimizeOptions: Value, k: nat)
    requires k < 4
    ensures Observe(Run(t, Flatten(CssStatements(plan, sass, less, stylus, isProd, extractOptions, optimizeOptions))),
                    OneOfUseSlot(CssRuleKeys[k], NormalOneOf, "css-loader")) ==
      Loader(Use(Some("css-loader"), plan.cssOptions))
  {
    var stmts := CssStatements(plan, sass, less, stylus, isProd, extractOptions, optimizeOptions);
    var slot := OneOfUseSlot(CssRuleKeys[k], NormalOneOf, "css-loader");
    CssStatementShape(plan, sass, less, stylus, isProd, extractOptions, optimizeOptions, k);
    CssRuleCssLoaderOnce(CssRuleKeys[k], CssTestFor(k), plan, LoaderFor(k, sass, less, stylus));
    CssLaterUntouched(plan, sass, less, stylus, isProd, extractOptions, optimizeOptions, k, slot);
    RunStatements(t, stmts, k, 3, slot);
  }

  /** The callback registers the extraction plugin exactly when it extracts,
      and the minifier only besides it in production. */
  lemma CssPlugins(t: Tree, plan: LoaderPlan, sass: Value, less: Value, stylus: Value, isProd: bool,
                   extractOptions: Value, optimizeOptions: Value)
    ensures KeysOf(Run(t, Flatten(CssStatements(plan, sass, less, stylus, isProd, extractOptions, optimizeOptions))), PluginList) ==
      AddAll(KeysOf(t, PluginList), CssPluginNames(plan.extract, isProd))
  {
    var stmts := CssStatements(plan, sass, less, stylus, isProd, extractOptions, optimizeOptions);
    forall m | 0 <= m < |stmts| && m != 4
      ensures AddedBy(stmts[m], PluginList) == []
    {
      CssStatementShape(plan, sass, less, stylus, isProd, extractOptions, optimizeOptions, m);
      CssRuleSilent(CssRuleKeys[m], CssTestFor(m), plan, LoaderFor(m, sass, less, stylus), PluginList);
    }
    RunStatementKeys(t, stmts, 4, PluginList);
    CssPluginsAdd(plan.extract, isProd, extractOptions, optimizeOptions);
  }

  /** When extracting, the extraction plugin is constructed with the
      extraction options. */
  lemma CssExtractRegistered(t: Tree, plan: LoaderPlan, sass: Value, less: Value, stylus: Value, isProd: bool,
                             extractOptions: Value, optimizeOptions: Value)
    requires plan.extract
    ensures Observe(Run(t, Flatten(CssStatements(plan, sass, less, stylus, isProd, extractOptions, optimizeOptions))),
                    PluginSlot("extract-css")) ==
      Registration(PluginUse("mini-css-extract-plugin", [extractOptions]))
  {
    var stmts := CssStatements(plan, sass, less, stylus, isProd, extractOptions, optimizeOptions);
    CssExtractOnce(isProd, extractOptions, optimizeOptions);
    RunStatements(t, stmts, 4, 0, PluginSlot("extract-css"));
  }

  /** The four rules are registered in the order css, scss, less, stylus. */
  lemma CssRules(t: Tree, plan: LoaderPlan, sass: Value, less: Value, stylus: Value, isProd: bool,
                 extractOptions: Value, optimizeOptions: Value)
    ensures KeysOf(Run(t, Flatten(CssStatements(plan, sass, less, stylus, isProd, extractOptions, optimizeOptions))), RuleList) ==
      AddAll(KeysOf(t, RuleList), CssRuleKeys)
  {
    var stmts := CssStatements(plan, sass, less, stylus, isProd, extractOptions, optimizeOptions);
    RunFlattenFive(t, stmts);
    var t1 := Run(t, stmts[0]);
    var t2 := Run(t1, stmts[1]);
    var t3 := Run(t2, stmts[2]);
    var t4 := Run(t3, stmts[3]);
    CssRuleRegistersRule(t, "css", CssTest, plan, None);
    CssRuleRegistersRule(t1, "scss", ScssTest, plan, LoaderFor(1, sass, less, stylus));
    CssRuleRegistersRule(t2, "less", LessTest, plan, LoaderFor(2, sass, less, stylus));
    CssRuleRegistersRule(t3, "stylus", StylusTest, plan, LoaderFor(3, sass, less, stylus));
    CssPluginsKeepKeys(t4, plan.extract, isProd, extractOptions, optimizeOptions, RuleList);
    var s := KeysOf(t, RuleList);
    assert CssRuleKeys[1..] == ["scss", "less", "stylus"] && CssRuleKeys[2..] == ["less", "stylus"];
    assert CssRuleKeys[3..] == ["stylus"] && CssRuleKeys[4..] == [];
    assert AddAll(s, CssRuleKeys) == AddOnce(AddOnce(AddOnce(AddOnce(s, "css"), "scss"), "less"), "stylus");
  }

  /** The callback changes no setting outside the four rules' conditions and
      loaders and its own plugins. */
  lemma CssKeepsOthers(t: Tree, plan: LoaderPlan, sass: Value, less: Value, stylus: Value, isProd: bool,
                       extractOptions: Value, optimizeOptions: Value, s: Slot)
    requires !s.PluginSlot?
    requires !(s.TestSlot? && s.rule in CssRuleKeys) && !(s.OneOfUseSlot? && s.rule in CssRuleKeys)
    ensures Observe(Run(t, Flatten(CssStatements(plan, sass, less, stylus, isProd, extractOptions, optimizeOptions))), s) ==
      Observe(t, s)
  {
    var stmts := CssStatements(plan, sass, less, stylus, isProd, extractOptions, optimizeOptions);
    forall m | 0 <= m < |stmts|
      ensures Untouched(stmts[m], s)
    {
      if m < 4 {
        CssStatementShape(plan, sass, less, stylus, isProd, extractOptions, optimizeOptions, m);
        CssRuleUntouched(CssRuleKeys[m], CssTestFor(m), plan, LoaderFor(m, sass, less, stylus), s);
      } else {
        UntouchedOf(stmts[m], s);
      }
    }
    FlattenUntouched(stmts, s);
    RunKeeps(t, Flatten(stmts), s);
  }
}
