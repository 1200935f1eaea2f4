/**
 * Project options: what a project's `river.config.js` (or the inline
 * options) may say, after validation and after the defaults have been
 * filled in.  The schema and the defaults themselves live in a module that
 * is not part of this model; `WithDefaults` checks the type of every key the core
 * reads and fills each missing one from the `defaults` it is given, which is
 * what `_defaultsDeep(userOptions, defaults())` does for a valid object.
 */
module Options {
  import opened JsValues
  import Chain

  /** The result of a raw configuration function: the configuration object
      after the function's own in-place edits, and what it returned. */
  datatype HookResult = HookResult(config: Value, returned: Value)

  /** A raw configuration hook: a function of the configuration, or a
      literal object to merge in. */
  datatype RawHook =
    | RawFunction(run: Value -> HookResult)
    | RawLiteral(literal: Value)

  /** `css.extract`: a flag, or the options of the extraction plugin. */
  datatype Extract = ExtractFlag(on: bool) | ExtractWith(fields: map<string, Value>)

  /** `css.loaderOptions`: per-loader options objects, undefined when absent. */
  datatype LoaderOptions = LoaderOptions(css: Value, sass: Value, less: Value, stylus: Value, postcss: Value)

  const NoLoaderOptions := LoaderOptions(Undefined, Undefined, Undefined, Undefined, Undefined)

  datatype CssOptions = CssOptions(
    modules: Option<bool>,
    extract: Option<Extract>,
    sourceMap: Option<bool>,
    loaderOptions: Option<LoaderOptions>)

  datatype ProjectOptions = ProjectOptions(
    baseUrl: string,
    outputDir: string,
    indexPath: string,
    filenameHashing: bool,
    productionSourceMap: bool,
    crossorigin: Option<string>,
    integrity: bool,
    css: CssOptions,
    devServer: map<string, Value>,
    chainWebpack: Option<Chain.Tree -> Chain.Tree>,
    configureWebpack: Option<RawHook>)

  /** Options as a configuration file exports them: plain data, plus the two
      function-valued hooks. */
  datatype UserOptions = UserOptions(
    fields: map<string, Value>,
    chainWebpack: Option<Chain.Tree -> Chain.Tree>,
    configureWebpack: Option<RawHook>)

  // ---------------------------------------------------------------------------
  // Typed reading of one key, with its default

  function StringField(fs: map<string, Value>, key: string, default: string): (r: Option<string>)
    ensures Lookup(fs, key).Undefined? ==> r == Some(default)
    ensures Lookup(fs, key).Str? ==> r == Some(Lookup(fs, key).s)
    ensures r.Some? <==> Lookup(fs, key).Undefined? || Lookup(fs, key).Str?
  {
    match Lookup(fs, key)
    case Undefined => Some(default)
    case Str(s) => Some(s)
    case _ => None
  }

  function BoolField(fs: map<string, Value>, key: string, default: bool): (r: Option<bool>)
    ensures Lookup(fs, key).Undefined? ==> r == Some(default)
    ensures Lookup(fs, key).Bool? ==> r == Some(Lookup(fs, key).b)
    ensures r.Some? <==> Lookup(fs, key).Undefined? || Lookup(fs, key).Bool?
  {
    match Lookup(fs, key)
    case Undefined => Some(default)
    case Bool(b) => Some(b)
    case _ => None
  }

  /** A key that, when given, must hold an object (or be left undefined). */
  predicate ObjectOrAbsent(v: Value) {
    v.Undefined? || v.Obj?
  }

  function OptBoolField(fs: map<string, Value>, key: string, default: Option<bool>): Option<Option<bool>> {
    match Lookup(fs, key)
    case Undefined => Some(default)
    case Bool(b) => Some(Some(b))
    case _ => None
  }

  function ExtractField(v: Value, default: Option<Extract>): Option<Option<Extract>> {
    match v
    case Undefined => Some(default)
    case Bool(b) => Some(Some(ExtractFlag(b)))
    case Obj(fs, _) => Some(Some(ExtractWith(fs)))
    case _ => None
  }

  function LoaderOptionsField(v: Value, default: Option<LoaderOptions>): Option<Option<LoaderOptions>> {
    match v
    case Undefined => Some(default)
    case Obj(fs, _) =>
      var d := default.GetOr(NoLoaderOptions);
      var css := Lookup(fs, "css");
      var sass := Lookup(fs, "sass");
      var less := Lookup(fs, "less");
      var stylus := Lookup(fs, "stylus");
      var postcss := Lookup(fs, "postcss");
      if ObjectOrAbsent(css) && ObjectOrAbsent(sass) && ObjectOrAbsent(less)
         && ObjectOrAbsent(stylus) && ObjectOrAbsent(postcss)
      then
        Some(Some(LoaderOptions(
          if css.Undefined? then d.css else css,
          if sass.Undefined? then d.sass else sass,
          if less.Undefined? then d.less else less,
          if stylus.Undefined? then d.stylus else stylus,
          if postcss.Undefined? then d.postcss else postcss)))
      else None
    case _ => None
  }

  function CssField(v: Value, d: CssOptions): Option<CssOptions> {
    match v
    case Undefined => Some(d)
    case Obj(fs, _) =>
      var modules := OptBoolField(fs, "modules", d.modules);
      var extract := ExtractField(Lookup(fs, "extract"), d.extract);
      var sourceMap := OptBoolField(fs, "sourceMap", d.sourceMap);
      var loaders := LoaderOptionsField(Lookup(fs, "loaderOptions"), d.loaderOptions);
      if modules.Some? && extract.Some? && sourceMap.Some? && loaders.Some?
      then Some(CssOptions(modules.value, extract.value, sourceMap.value, loaders.value))
      else None
    case _ => None
  }

  function CrossoriginField(v: Value, default: Option<string>): Option<Option<string>> {
    match v
    case Undefined => Some(default)
    case Str(s) => Some(Some(s))
    case _ => None
  }

  function DevServerField(v: Value, default: map<string, Value>): Option<map<string, Value>> {
    match v
    case Undefined => Some(default)
    case Obj(fs, _) => Some(default + fs)
    case _ => None
  }

  /** Validation followed by filling in the defaults: `None` when a key the
      core reads has the wrong type (the validator then ends the process).
      A given value always wins over the default; nested `css` and
      `devServer` objects are filled key by key. */
  function WithDefaults(user: UserOptions, d: ProjectOptions): (r: Option<ProjectOptions>)
    ensures r.Some? ==> Lookup(user.fields, "baseUrl").Str? ==> r.value.baseUrl == Lookup(user.fields, "baseUrl").s
    ensures r.Some? ==> Lookup(user.fields, "baseUrl").Undefined? ==> r.value.baseUrl == d.baseUrl
    ensures r.Some? ==> Lookup(user.fields, "outputDir").Str? ==> r.value.outputDir == Lookup(user.fields, "outputDir").s
    ensures r.Some? ==> Lookup(user.fields, "outputDir").Undefined? ==> r.value.outputDir == d.outputDir
    ensures r.Some? ==> r.value.chainWebpack == (if user.chainWebpack.Some? then user.chainWebpack else d.chainWebpack)
    ensures r.Some? ==> r.value.configureWebpack == (if user.configureWebpack.Some? then user.configureWebpack else d.configureWebpack)
    ensures r.Some? ==> forall k :: k in d.devServer ==> k in r.value.devServer
    ensures r.Some? && Lookup(user.fields, "devServer").Obj? ==>
      forall k :: k in Lookup(user.fields, "devServer").fields ==> k in r.value.devServer && r.value.devServer[k] == Lookup(user.fields, "devServer").fields[k]
    ensures !(Lookup(user.fields, "baseUrl").Undefined? || Lookup(user.fields, "baseUrl").Str?) ==> r.None?
    ensures !(Lookup(user.fields, "outputDir").Undefined? || Lookup(user.fields, "outputDir").Str?) ==> r.None?
    ensures user.fields == map[] ==> r.Some? && r.value.baseUrl == d.baseUrl && r.value.css == d.css && r.value.devServer == d.devServer
  {
    var fs := user.fields;
    var baseUrl := StringField(fs, "baseUrl", d.baseUrl);
    var outputDir := StringField(fs, "outputDir", d.outputDir);
    var indexPath := StringField(fs, "indexPath", d.indexPath);
    var hashing := BoolField(fs, "filenameHashing", d.filenameHashing);
    var sourceMap := BoolField(fs, "productionSourceMap", d.productionSourceMap);
    var crossorigin := CrossoriginField(Lookup(fs, "crossorigin"), d.crossorigin);
    var integrity := BoolField(fs, "integrity", d.integrity);
    var css := CssField(Lookup(fs, "css"), d.css);
    var devServer := DevServerField(Lookup(fs, "devServer"), d.devServer);
    if baseUrl.Some? && outputDir.Some? && indexPath.Some? && hashing.Some? && sourceMap.Some?
       && crossorigin.Some? && integrity.Some? && css.Some? && devServer.Some?
    then
      Some(ProjectOptions(
        baseUrl.value, outputDir.value, indexPath.value, hashing.value, sourceMap.value,
        crossorigin.value, integrity.value, css.value, devServer.value,
        if user.chainWebpack.Some? then user.chainWebpack else d.chainWebpack,
        if user.configureWebpack.Some? then user.configureWebpack else d.configureWebpack))
    else None
  }
}
