# river-scaffold build orchestration, modelled in Dafny

This project models the service and commands of river-scaffold, a command-line tool that drives webpack for TypeScript applications:

- **The service object** (`BaseService`, `scripts/base.js`). It resolves the plugin list once. On `init` it does four things in order:
  - loads the `NODE_ENV`/`BABEL_ENV` defaults;
  - loads and normalises the project options;
  - applies every plugin, each of which registers commands and configuration callbacks;
  - appends the project's own `chainWebpack`/`configureWebpack` hooks.

  `run` dispatches a command. `resolveChainableWebpackConfig` calls every chain callback on one shared builder. `resolveWebpackConfig` finalises it, merges the raw hooks, restores the rule-name annotations and guards `output.publicPath`.
- **The four configuration plugins**: `config/core.js`, `config/css.js`, `config/prod.js` and `config/app.js`. Each is a sequence of builder calls on a webpack-chain builder. Their effects are stated setting by setting: the mode, output names, rules and their loaders, registered plugins and their options. `config/app.js` also monkey-patches the HTML plugin's chunk sorters.
- **The `build` command** (`scripts/command/build/index.js`). It fills in the argument defaults and runs one pass, or a legacy and a modern pass. It sets and clears the build environment flags. Each pass applies the `--dest`/`--watch` overrides, cleans the target, runs the bundler and reports.
- **The `serve` command** (`scripts/command/serve.js`). It settles the precedence of host, port, https and public URL, and injects the dev clients into the entry. It layers the dev-server options and tracks the done hook over a sequence of compiles.

## How the model is organised

JavaScript values are modelled by the `Value` datatype in `JsValues`. An object carries its enumerable fields and, separately, webpack-chain's non-enumerable `__ruleNames` annotation.

The webpack-chain builder is modelled as follows:

- `Chain.Tree` is the builder state and `Chain.Op` is one builder call.
- `Keyed` models the ordered keyed collections. Keys keep their first insertion order, as in `ChainedMap`/`ChainedSet`.
- `Chain.ChainConfig` is the builder object the callbacks share. Its `Perform` method makes the calls in order.
- Every configuration callback is a method (`ApplyCore`, `ApplyCss`, `ApplyProd`, `ApplyApp`) proved to leave `Run(old tree, <its calls>)`.
- The lemmas state what `Observe` (the value of one setting) and `KeysOf` (the keys of one collection) give after the run.

Everything outside the core is a parameter:

- the file system, `api.resolve` (`Env.Resolve`), `getAssetPath`, the client environment and the terser options, all carried by `Env.Host`;
- the bundler (`bundler`);
- `resolveConfig`;
- module resolution (`resolveModule`);
- the port finder and the URLs `prepareURLs` computes (`ServeCommand.Outside`).

`process.env` is the `Env.Process` class, whose `Set` stores the string coercion of a value and whose `Delete` removes a key.

## Model

| member | source | states |
|---|---|---|
| JsValues.Assign | scripts/command/serve.js:46 | `Object.assign(target, source)`: the source's keys win, the target's other keys are kept, a non-object source changes nothing |
| JsValues.Strip | scripts/base.js:172-177 | the copy a merge makes has no rule-name annotation anywhere and keeps the shape: same kind, same keys, same list length |
| JsValues.StripIdempotent | scripts/base.js:172-177 | copying twice is copying once |
| JsValues.StripIdentity | scripts/base.js:172-177 | a value without annotations is its own copy |
| JsValues.DeepMerge | scripts/base.js:165-168 | the merge result carries no annotation; objects merge to the union of keys, lists concatenate, an undefined right side keeps a copy of the left, and any other right-hand scalar wins |
| JsValues.MergeRightScalarWins | scripts/base.js:165-168 | a scalar the hook returns under a key replaces the configuration's value there |
| JsValues.NatToString | scripts/command/build/index.js:36 | the string coercion of a number is its decimal notation: digits without a leading zero whose decimal value is the number |
| Keyed.AddOnceMembers | config/core.js:38-40 | after `add(x)`, `x` is present, nothing else is added, and duplicate-freedom is kept |
| Keyed.AddAllMembers | config/core.js:35-36 | `merge(xs)` holds exactly the old keys and `xs`, keeps the old keys as a prefix and adds no duplicate |
| Keyed.AddAllFresh | config/core.js:35-36 | merging distinct new keys lists them after the existing ones, in order |
| Keyed.AddAllAppend | config/core.js:35-36 | merging `xs` then `ys` is merging `xs + ys` |
| Keyed.AddAllPresent | config/core.js:51-78 | re-adding keys that are already present changes nothing |
| Keyed.AddAllRepeated | config/core.js:51-78 | calling `rule(k)` several times registers `k` once |
| Keyed.Put | config/core.js:42 | `set(k, v)` stores `v` under `k`, and `k` joins the order only if it is new |
| Keyed.PutOther | config/core.js:42 | `set(k, v)` leaves every other key and its value alone |
| Keyed.PutValid | config/core.js:42 | `set` keeps the order listing each key exactly once |
| Chain.ChainConfig.constructor | scripts/base.js:147 | `new Config()` starts from the empty builder |
| Chain.ChainConfig.Perform | scripts/base.js:149 | a callback's builder calls leave the tree `Run(old tree, calls)` |
| Chain.ChainConfig.Edit | scripts/base.js:149 | a project `chainWebpack` hook leaves the tree its edit computes |
| Chain.RunAppend | scripts/base.js:149 | running calls `a` then `b` is running `a + b` |
| Chain.StepObserve | config/prod.js:11-15 | one builder call writes the setting it targets and leaves every setting it does not touch |
| Chain.RunKeeps | config/prod.js:11-15 | calls that never touch a setting leave it as it was |
| Chain.RunLastWrite | config/prod.js:11-15 | the last call writing a setting decides its value, so `mode('production')` overrides an earlier `mode('development')` |
| Chain.RunStatements | config/core.js:25-93 | across a callback's statements, the last write to a setting decides it when no later statement touches it |
| Chain.RunKeys | config/core.js:25-93 | the keys of a collection after some calls are the old keys with each registered key added once, in call order |
| Chain.RunStatementKeys | config/core.js:25-93 | when one statement alone registers in a collection, the callback adds exactly that statement's keys |
| Chain.FlattenAddedEach | config/app.js:91-182 | statements run one after another register their keys one after another |
| Chain.RulesToConfig | scripts/base.js:172-174 | `toConfig()` annotates each rule with the rule names leading to it |
| Chain.Finalize | scripts/base.js:158 | `toConfig()` gives an object whose `output.publicPath`, `module.rules` and `mode` are the builder's |
| Env.Process.constructor | scripts/command/build/index.js:36-39 | the process environment starts as given |
| Env.Process.Set | scripts/command/build/index.js:36-38 | `process.env[key] = v` stores the string coercion of `v` and changes nothing else |
| Env.Process.Delete | scripts/command/build/index.js:59-60 | `delete process.env[key]` removes that key only |
| Env.PathResolveMeaning | config/app.js:100-101 | `path.resolve(dir, p)` ends in `p`; an absolute `p` is returned as it is, a relative one lands under `dir`; the result is absolute when `dir` is |
| Env.PathResolveIdempotent | config/core.js:31 | resolving an already resolved path, as `api.resolve` does for an absolute `outputDir`, changes nothing |
| Options.WithDefaults | scripts/base.js:48 | `defaultsDeep(user, defaults())`: given paths win and undefined ones default, the hooks are the user's when given, default dev-server keys survive, ill-typed paths are rejected, and empty user options give the defaults |
| RuleNames.CloneAligned | scripts/base.js:269-275 | position `i` of the merged rules takes the annotation of position `i` of the original rules, and positions without a counterpart are untouched |
| RuleNames.CloneNeedsLists | scripts/base.js:266-268 | without two rule lists nothing happens |
| RuleNames.CloneKeepsContent | scripts/base.js:265-277 | `cloneRuleNames` changes annotations only, never enumerable content |
| RuleNames.CloneRestores | scripts/base.js:172-177 | copying annotations back from the original onto its merged copy restores the original exactly |
| ServiceOptions.EnsureSlashKeeps | scripts/base.js:249-257 | `ensureSlash` keeps the value and adds at most one `/` on each side |
| ServiceOptions.EnsureSlashTrailing | scripts/base.js:255 | an empty value stays empty; anything else ends in `/` |
| ServiceOptions.EnsureSlashLeading | scripts/base.js:252-254 | a relative non-http value that does not start with `.` gains a leading `/`, exactly when its first character is neither `/` nor `.` |
| ServiceOptions.EnsureSlashIdempotent | scripts/base.js:249-257 | normalising twice is normalising once |
| ServiceOptions.DropDotSlash | scripts/base.js:226-228 | one leading `./` is removed and nothing else changes |
| ServiceOptions.NormalizeBaseUrlRelative | scripts/base.js:225-228 | `./x` becomes `x/`, and `./` becomes empty |
| ServiceOptions.RemoveSlashOne | scripts/base.js:259-263 | one trailing `/` is removed; a value without one is unchanged |
| ServiceOptions.RemoveSlashOnlyOne | scripts/base.js:261 | only one slash goes: `dist//` becomes `dist/` |
| ServiceOptions.NormalizeFields | scripts/base.js:224-229 | only `baseUrl` and `outputDir` change, and each only when it is a string |
| ServiceOptions.LoadUserOptionsSource | scripts/base.js:199-222 | an exported config file wins over the inline options; without either, no option is set; the result is normalised |
| ServicePlugins.PluginIdRewrites | scripts/base.js:120-123 | the id changes exactly when it matches `^.\/`: any first character except a line terminator, then `/` |
| ServicePlugins.BuiltInIds | scripts/base.js:127-135 | only the serve plugin's id gets the `built-in:` prefix |
| ServicePlugins.ResolvePluginsOrder | scripts/base.js:137-143 | the built-ins come first (serve, core, css, dev, prod, app) and the inline plugins follow; with `useBuiltIn: false` only the inline plugins remain |
| ServicePlugins.BuiltInRegistrations | scripts/base.js:51-53 | applying the built-ins registers the four configuration callbacks in order and the `serve` command |
| ServicePlugins.ProjectHooksLast | scripts/base.js:55-61 | the project's `chainWebpack` and `configureWebpack`, when given, are registered after every plugin callback |
| ServicePlugins.ModeEnvNodeEnv | scripts/base.js:89-105 | `NODE_ENV`/`BABEL_ENV` default to `production`/`test` for those modes and `development` otherwise; they are forced under tests and otherwise only set when absent; other variables are kept |
| ServicePlugins.ModeEnvIdempotent | scripts/base.js:89-105 | loading the defaults twice is loading them once |
| ServicePlugins.DispatchUnknown | scripts/base.js:74-78 | an unregistered non-empty command name exits with code 1 |
| ServicePlugins.DispatchFound | scripts/base.js:79-86 | a registered command runs with its name shifted off both argument lists; `--help` falls back to the help command with untouched arguments |
| ServicePlugins.BuiltInDispatch | scripts/base.js:74-86 | the built-ins register only `serve`: `build` exits with code 1, and no name finds no help command |
| ServiceConfig.ChainFoldFails | scripts/base.js:149 | resolving the chain fails exactly when one of the callbacks throws |
| ServiceConfig.ChainFoldLastFails | scripts/base.js:149 | one more callback fails the walk when the walk had failed or when it throws |
| ServiceConfig.ChainFoldStops | scripts/base.js:149 | after a throw, later callbacks change nothing |
| ServiceConfig.AnyThrowsLast | scripts/base.js:149 | some callback throws iff one of the earlier ones does or the last one does |
| ServiceConfig.ChainFoldPatches | config/app.js:47-49 | the chunk sorters are patched once per application callback run, and once per application callback when none throws |
| ServiceConfig.PatchTimesUnpatched | config/app.js:48-49 | however often it is patched, the sorter wraps the same original |
| ServiceConfig.PatchTimesCollapse | config/app.js:48-49 | a sorter patched once or more behaves as one patched once, and never throws |
| ServiceConfig.CssKeepsOutput | config/css.js:12-157 | the CSS callback leaves every output setting alone |
| ServiceConfig.ProdKeepsPublicPath | config/prod.js:11-15 | the production callback leaves `output.publicPath` alone |
| ServiceConfig.AppKeepsOutput | config/app.js:15-184 | the application callback leaves every output setting alone |
| ServiceConfig.StepKeepsPublicPath | scripts/base.js:149 | the callbacks after the core one leave `output.publicPath` alone |
| ServiceConfig.ChainFoldPrefix | scripts/base.js:149 | a successful walk over the first `k` callbacks is the walk over `k - 1` followed by callback `k` |
| ServiceConfig.BuiltInPublicPath | config/core.js:33 | after the built-in callbacks, `output.publicPath` is the project's `baseUrl` |
| ServiceConfig.BuiltInSteps | scripts/base.js:149 | the successful walk over the built-in callbacks runs core, CSS, production and application calls in that order |
| ServiceConfig.RawFoldMerged | scripts/base.js:161-170 | the configuration is replaced by a merge exactly when some function hook returns a truthy value or some literal hook is truthy; otherwise it is the original object |
| ServiceConfig.RawFoldLiterals | scripts/base.js:166-169 | with only literal hooks, the original configuration object is the finalised one |
| ServiceConfig.RepairRestores | scripts/base.js:175-177 | after a merge, `cloneRuleNames` restores the original rules' annotations |
| ServiceConfig.RepairKeepsContent | scripts/base.js:175-177 | restoring the annotations changes no enumerable content of the rules |
| ServiceConfig.ResolvedPublicPath | scripts/base.js:179-189 | for a non-`app` build target outside tests, a resolved configuration has `output.publicPath` equal to `baseUrl` |
| ServiceConfig.ResolvedUnguarded | scripts/base.js:179-189 | the `app` target, an absent target and test runs are never refused for the public path |
| ServiceConfig.ResolvedWithoutHooks | scripts/base.js:153-192 | without raw hooks, and with the public path equal to `baseUrl`, the result is the finalised builder |
| ServiceConfig.BuiltInResolves | scripts/base.js:153-192 | the built-in callbacks' configuration resolves unchanged, whatever the target |
| Service.ApplyChainFn | scripts/base.js:149 | one chain callback on the shared builder: it throws exactly when its model does, otherwise it leaves its result; only the application callback patches the sorters |
| Service.BaseService.constructor | scripts/base.js:14-29 | a new service is uninitialised, with no callbacks or commands and the resolved plugin list |
| Service.BaseService.LoadEnv | scripts/base.js:89-105 | `loadEnv(mode)` leaves the environment with the mode's defaults |
| Service.BaseService.ApplyPlugin | scripts/base.js:51-53 | applying a plugin appends what it registers |
| Service.BaseService.ApplyPlugins | scripts/base.js:51-53 | applying the plugins in order appends everything they register |
| Service.BaseService.Init | scripts/base.js:31-62 | the second `init` does nothing; the first sets the mode and the environment defaults, loads the options, and registers the plugins' callbacks and commands followed by the project's hooks |
| Service.BaseService.Run | scripts/base.js:64-87 | `run` initialises with `--mode` (default `development`) and dispatches the command |
| Service.BaseService.ResolveChainableWebpackConfig | scripts/base.js:146-151 | a fresh builder after every chain callback in order; it fails when one throws; the sorters are patched once per application callback |
| Service.BaseService.ResolveWebpackConfig | scripts/base.js:153-192 | the `init` check, the raw-hook merge, the annotation repair and the public-path guard, as `ResolvedConfig` states them |
| Service.BaseService.ResolveDefaultWebpackConfig | scripts/base.js:153 | the default argument runs the chain callbacks first, even before the `init` check |
| Service.BuiltInService | scripts/base.js:51-61 | with the built-ins and no project hooks, the four configuration callbacks are registered and their configuration resolves unchanged |
| CoreConfig.AssetHashing | config/core.js:8-10 | an asset name starts with `dir/[name]`, ends in `.[ext]`, and ends in `.[hash:8].[ext]` exactly when file names are hashed, whatever `dir` is |
| CoreConfig.UrlLoaderOptions | config/core.js:12-23 | assets are inlined below 4096 bytes and otherwise handed to `file-loader` under the asset name |
| CoreConfig.ApplyCore | config/core.js:25-93 | the core callback makes its builder calls, in order, on the shared builder |
| CoreConfig.CoreMode | config/core.js:26 | the mode is `development` |
| CoreConfig.CoreContext | config/core.js:27 | the context is the service's context directory |
| CoreConfig.CoreEntry | config/core.js:28-30 | the entry `app` is registered after any entries already there |
| CoreConfig.CoreSingleEntry | config/core.js:28-30 | on a fresh builder, `app` is the only entry |
| CoreConfig.CoreOutputPath | config/core.js:31 | bundles go to the resolved `outputDir` |
| CoreConfig.CoreOutputFilename | config/core.js:32 | bundles are named `[name]-legacy.js` exactly when `CLI_MODERN_MODE` is set and `CLI_MODERN_BUILD` is not, and `[name].js` otherwise |
| CoreConfig.CorePublicPath | config/core.js:33 | bundles are served from `baseUrl` |
| CoreConfig.CoreExtensionsMerged | config/core.js:35-36 | the seven extensions are merged, in order, after any already there |
| CoreConfig.CoreAlias | config/core.js:42 | `@` names the project's `src` directory |
| CoreConfig.RuleNames | config/core.js:51-78 | the rule statements register compile, images, media and fonts, each once per call |
| CoreConfig.RuleOrder | config/core.js:51-78 | registering each rule once or more, in order, is registering each once |
| CoreConfig.CoreRules | config/core.js:51-78 | the rules `compile`, `images`, `media` and `fonts` are registered in that order |
| CoreConfig.CoreRuleUses | config/core.js:51-78 | each core rule gains exactly one use: `ts-loader` for `compile`, `url-loader` for the asset rules |
| CoreConfig.CoreCompileTest | config/core.js:53 | `compile` matches TypeScript sources |
| CoreConfig.CoreImagesTest | config/core.js:61 | `images` matches raster images |
| CoreConfig.CoreMediaTest | config/core.js:68 | `media` matches audio and video |
| CoreConfig.CoreFontsTest | config/core.js:75 | `fonts` matches web fonts |
| CoreConfig.CoreImagesLoader | config/core.js:62-64 | the `images` use carries exactly its options |
| CoreConfig.CoreMediaLoader | config/core.js:69-71 | the `media` use carries exactly its options |
| CoreConfig.CoreFontsLoader | config/core.js:76-78 | the `fonts` use carries exactly its options |
| CoreConfig.CoreAssetLoaders | config/core.js:59-78 | images, media and fonts use `url-loader` with the `img`, `media` and `fonts` options |
| CoreConfig.CorePlugins | config/core.js:81-93 | `define`, `case-sensitive-paths` and `friendly-errors` are registered in order |
| CoreConfig.CoreDefine | config/core.js:81 | `define` receives the client environment |
| CssConfig.SettingsDefaults | config/css.js:15-19 | `modules` and `sourceMap` default to false and `loaderOptions` to `{}`; `extract` defaults to production; only an explicit `false` turns extraction off |
| CssConfig.ExtractOptions | config/css.js:21-28 | the same pattern for entry and chunk files, overridden key by key by an object-valued `extract` |
| CssConfig.ExtractSharedName | config/css.js:21-28 | unless `extract` names them, entry and chunk files share one pattern |
| CssConfig.SplitCount | config/css.js:31 | a path splits into one piece more than it has separators |
| CssConfig.SplitPieces | config/css.js:31 | no piece holds a separator |
| CssConfig.SplitJoin | config/css.js:31 | joining the pieces with `/` gives back the path with every separator written as `/` |
| CssConfig.RepeatCopies | config/css.js:31 | `'../'.repeat(n)` is `n` copies: one repetition is the string itself, and `a + b` repetitions are `a` repetitions followed by `b` |
| CssConfig.CssPublicPathDepth | config/css.js:31 | the CSS public path climbs one `../` per directory level of the extracted file name |
| CssConfig.CssPublicPathDotSlash | config/css.js:31 | one leading `./` does not count as a level |
| CssConfig.CssPublicPathOneLevel | config/css.js:31 | a name one directory deep is served from one level up |
| CssConfig.FirstExistingSpec | config/css.js:4-10 | a file is found iff one of the candidates exists, and what is found exists and precedes every other existing candidate |
| CssConfig.FindExisting | config/css.js:4-10 | the loop returns the first existing candidate |
| CssConfig.CssnanoOptions | config/css.js:49-60 | a separate source map is configured only when production source maps and CSS source maps are both on |
| CssConfig.CssLoaderOptions | config/css.js:81-95 | `css-loader` gets the configured source maps and one import loader exactly when PostCSS runs, with `loaderOptions.css` on top, and for CSS modules the module flag and identifier pattern |
| CssConfig.LanguageLoaderOptions | config/css.js:119-124 | a language loader gets the configured source maps under its own options |
| CssConfig.StylusOptions | config/css.js:135-140 | Stylus resolves paths the webpack way unless the project says otherwise |
| CssConfig.LoaderNamesOrder | config/css.js:69-125 | the loaders run in order: extraction or style injection, `css-loader`, then `postcss-loader` when configured, then the language loader; never `cssnano` |
| CssConfig.CreateCssRule | config/css.js:62-126 | `createCSSRule` makes its builder calls on the shared builder |
| CssConfig.CssOps | config/css.js:21-31 | the callback throws exactly when the extraction file name is not a string |
| CssConfig.ApplyCss | config/css.js:12-157 | the CSS callback throws before any builder call on a non-string extraction name, and otherwise makes all its calls |
| CssConfig.CreateCssRules | config/css.js:128-156 | the four `createCSSRule` calls and the plugin registrations, in order |
| CssConfig.CssRuleUntouched | config/css.js:62-126 | a rule statement touches only its own rule's condition and its alternatives' loaders |
| CssConfig.CssRuleSilent | config/css.js:62-126 | a rule statement registers only its rule, its `normal` alternative and that alternative's loaders |
| CssConfig.CssRuleAddsRule | config/css.js:63 | every call of a rule statement registers the rule |
| CssConfig.CssRuleAddsNormal | config/css.js:66 | every call after the first registers the alternative `normal` |
| CssConfig.CssRuleAddsLoaders | config/css.js:69-125 | the `normal` alternative's loaders are registered in `LoaderNames` order |
| CssConfig.CssRuleRegistersRule | config/css.js:63 | a rule statement adds its rule once |
| CssConfig.CssPluginsAdd | config/css.js:144-156 | the plugin statement registers `extract-css`, then in production `optimize-css` |
| CssConfig.CssPluginsKeepKeys | config/css.js:144-156 | the plugin statement registers nothing outside the plugin list |
| CssConfig.CssExtractOnce | config/css.js:145 | the extraction plugin is configured by one call |
| CssConfig.CssRuleTestOnce | config/css.js:63 | only the first call of a rule statement sets the rule's condition |
| CssConfig.CssRuleCssLoaderOnce | config/css.js:97-100 | `css-loader` is configured by one call, and no later call of the statement touches it |
| CssConfig.CssNormalAlternative | config/css.js:66 | each of the four rules gets the single alternative `normal` |
| CssConfig.CssLoaderChain | config/css.js:69-125 | each rule's `normal` alternative gains the style loader, `css-loader`, `postcss-loader` when configured and the language loader, in that order |
| CssConfig.CssOthersSilent | config/css.js:128-141 | only the `k`-th rule statement registers anything for the `k`-th rule's alternatives and loaders |
| CssConfig.CssLaterUntouched | config/css.js:128-156 | the statements after the `k`-th leave the `k`-th rule's condition and loaders alone |
| CssConfig.CssRuleTests | config/css.js:128-141 | each rule matches its language's file extension |
| CssConfig.CssLoaderOptionsUsed | config/css.js:81-100 | every rule's `css-loader` receives the options computed for it |
| CssConfig.CssPlugins | config/css.js:144-156 | the extraction plugin is registered exactly when extracting, and the minifier only beside it in production |
| CssConfig.CssExtractRegistered | config/css.js:145 | when extracting, the extraction plugin is constructed with the extraction options |
| CssConfig.CssRules | config/css.js:128-141 | the rules are registered in the order css, scss, less, stylus |
| CssConfig.CssKeepsOthers | config/css.js:12-157 | the callback changes no setting outside the four rules and its own plugins |
| ProdConfig.ProdPatternShape | config/prod.js:6-9 | production scripts are named under `js/` with a `.js` suffix, with the legacy marker and the hash exactly when asked for |
| ProdConfig.ProdPatternInjective | config/prod.js:6-9 | different choices give different patterns, so the two halves of a modern build never share script names |
| ProdConfig.ApplyProd | config/prod.js:2-32 | the production callback makes its builder calls on the shared builder |
| ProdConfig.ProdOnlyInProduction | config/prod.js:3 | outside production the callback changes nothing |
| ProdConfig.ProdMode | config/prod.js:12 | in production the mode is `production` |
| ProdConfig.ProdDevtoolSet | config/prod.js:13 | `devtool` is `source-map` with production source maps, and `false` otherwise |
| ProdConfig.ProdFilenames | config/prod.js:14-15 | entry scripts and chunks share the production file name |
| ProdConfig.ProdHashModuleIds | config/prod.js:18-22 | `hash-module-ids` is registered with a hexadecimal digest |
| ProdConfig.ProdPlugins | config/prod.js:18-22 | `hash-module-ids` is the only plugin the callback registers |
| ProdConfig.ProdTestMinimizeOff | config/prod.js:24-25 | under tests minification is switched off |
| ProdConfig.ProdTestNoMinimizer | config/prod.js:24-25 | under tests no minimizer is added |
| ProdConfig.ProdTerser | config/prod.js:26-29 | otherwise terser is the minimizer, with the project's terser options |
| ProdConfig.ProdMinimizers | config/prod.js:26-29 | terser is the one minimizer the callback registers |
| ProdConfig.ProdMinimizeKept | config/prod.js:26-29 | outside tests the minimize switch is left as it was |
| ProdConfig.ProdModeAfterCore | config/prod.js:11-12 | after core and production, the mode is `production` in production and `development` elsewhere |
| ProdConfig.ProdFilenameAfterCore | config/prod.js:6-15 | after core and production, the production script name replaces core's in production |
| AppConfig.HtmlOptionsShape | config/app.js:69-89 | the page template is given, the page is minified exactly in production, and the template parameters are a function |
| AppConfig.TemplateParametersOverride | config/app.js:70-88 | client variables win over the HTML plugin's parameters of the same name; the other parameters are the plugin's |
| AppConfig.ApplyApp | config/app.js:15-184 | the application callback patches the chunk sorters, then makes its builder calls |
| AppConfig.AppMoveIndexWhen | config/app.js:91-103 | the page is moved exactly in production with another `indexPath` |
| AppConfig.AppProductionPlugins | config/app.js:118-156 | `named-chunks`, `preload` and `prefetch` are registered exactly in production; `html` always |
| AppConfig.AppOptionalPlugins | config/app.js:158-182 | `cors` exactly when `crossorigin` is set or integrity is on; `copy` exactly when there is a `public` folder |
| AppConfig.AppPluginNamesUnique | config/app.js:91-182 | no plugin key is registered twice |
| AppConfig.AppPlugins | config/app.js:91-182 | the callback registers exactly its plugin names, in order |
| AppConfig.AppHtml | config/app.js:131-139 | the page is generated from `public/index.html` with the computed options |
| AppConfig.AppMoveIndex | config/app.js:97-102 | `index.html` is moved to `indexPath`, both under the output directory |
| AppConfig.AppCors | config/app.js:159-167 | the CORS plugin carries `crossorigin`, `integrity` and `baseUrl` |
| AppConfig.AppCopy | config/app.js:170-182 | the `public` folder is copied into the output directory |
| AppConfig.AppSplitChunks | config/app.js:21-39 | in production code splitting uses the vendors and common cache groups |
| AppConfig.AppNoSplitChunks | config/app.js:21-39 | outside production code splitting is left alone |
| ChunkSort.CompareByRank | config/app.js:54-65 | unless both chunks are `app`, the comparator orders chunks by rank |
| ChunkSort.CompareAppLast | config/app.js:57-60 | `app` compares greater than any other chunk, from either side |
| ChunkSort.CompareEntries | config/app.js:61-64 | between two other chunks, a non-entry chunk comes before an entry chunk, and equal flags compare equal |
| ChunkSort.OfRankMembers | config/app.js:54-65 | the chunks of one rank are exactly those of the input with that rank |
| ChunkSort.FallbackPermutation | config/app.js:54-65 | the fallback sort reorders the chunks, adding and losing none |
| ChunkSort.FallbackStable | config/app.js:54-65 | the fallback sort keeps the order of the chunks within each rank |
| ChunkSort.FallbackRankAt | config/app.js:54-65 | the result lists the chunks of rank 0, then rank 1, then rank 2 |
| ChunkSort.FallbackRanksSorted | config/app.js:54-65 | ranks never decrease along the result |
| ChunkSort.OneApp | config/app.js:57-60 | with at most one `app` chunk, at most one chunk has the top rank |
| ChunkSort.FallbackOrdered | config/app.js:54-65 | with at most one `app` chunk, the result is ordered by the comparator |
| ChunkSort.FallbackAppLast | config/app.js:55-60 | an `app` chunk ends the result |
| ChunkSort.PatchedSort | config/app.js:49-66 | a patched sorter never throws: it returns what the wrapped sorter returns, and the fallback sort when that throws |
| ChunkSort.PatchesCollapse | config/app.js:48-49 | patching a patched sorter behaves as patching once |
| ChunkSort.ChunkSorters.constructor | config/app.js:47-48 | the sorters start as the plugin's own |
| ChunkSort.ChunkSorters.Patch | config/app.js:48-49 | `auto` and `dependency` both become the patch around the current `dependency` |
| ChunkSort.NamedChunkId | config/app.js:119-127 | a chunk's own name, or `chunk-` followed by the hash of its module ids |
| ChunkSort.NamedChunkIdStable | config/app.js:119-127 | unnamed chunks with the same modules get the same id |
| BuildCommand.FilledMeaning | scripts/command/build/index.js:29-33 | each defaulted key gets its default when null or undefined and keeps its value otherwise; other keys are unchanged |
| BuildCommand.FillDefaults | scripts/command/build/index.js:29-33 | the defaults loop leaves exactly `Filled(args)` |
| BuildCommand.FilledAfterLoop | scripts/command/build/index.js:29-33 | what the loop leaves after visiting every default is `Filled(args)` |
| BuildCommand.AllKeysVisited | scripts/command/build/index.js:1-6 | the loop visits every defaulted key |
| BuildCommand.PassEnvs | scripts/command/build/index.js:37-49 | the configuration plugins see a legacy bundle in the first pass only, and modern mode in both |
| BuildCommand.PassArgs | scripts/command/build/index.js:40-57 | the first pass is the legacy build and keeps `clean` and sets `keepAlive`; the second is modern and never cleans |
| BuildCommand.EditOutputPath | scripts/command/build/index.js:108-112 | `--dest` sets `output.path` to the target directory and changes nothing else |
| BuildCommand.EditWatch | scripts/command/build/index.js:114-118 | `--watch` turns `watch` on and changes nothing else |
| BuildCommand.EditIdempotent | scripts/command/build/index.js:108-118 | applying an override twice is applying it once |
| BuildCommand.ModifyAll | scripts/command/build/index.js:8-14 | a list of configurations stays a list of the same length |
| BuildCommand.ModifyAllEach | scripts/command/build/index.js:8-14 | every configuration in a list gets the edit, or the call throws; a single configuration gets it alone |
| BuildCommand.ModifyConfig | scripts/command/build/index.js:8-14 | the `forEach` leaves `ModifyAll` |
| BuildCommand.PassNonApp | scripts/command/build/index.js:89-95 | a target other than `app` rejects before anything is removed or bundled |
| BuildCommand.PassOutcomes | scripts/command/build/index.js:124-152 | a pass completes exactly when the bundler reports stats without errors; a bundler error rejects with that error, and stats with errors reject with `Build failed with errors.` |
| BuildCommand.PassClean | scripts/command/build/index.js:120-122 | the target directory is removed exactly when the pass reaches bundling with `clean` set |
| BuildCommand.PassBanner | scripts/command/build/index.js:135-145 | only a completed, non-legacy, non-silent pass prints a banner, and it names the target directory unless watching |
| BuildCommand.PassDest | scripts/command/build/index.js:97-112 | with `--dest`, every configuration the bundler gets writes to the target directory |
| BuildCommand.BuildPass | scripts/command/build/index.js:78-155 | one pass, as `PassOf` describes it |
| BuildCommand.RunModern | scripts/command/build/index.js:37-60 | the legacy pass runs, then the modern pass only if the legacy one completed; the flags are cleared only when both completed |
| BuildCommand.RunPasses | scripts/command/build/index.js:36-73 | the target is published for the plugins, one or two passes run, and the target is withdrawn only when every pass completed |
| BuildCommand.RunBuild | scripts/command/build/index.js:28-74 | the command fills in defaults and entry, then runs the passes |
| BuildCommand.ModernBuildPasses | scripts/command/build/index.js:37-57 | in a modern build the first pass is the legacy bundle and the second the modern one; the plugins tell them apart; the second never cleans and the first prints no banner |
| ServeCommand.FirstTruthyIsFirst | scripts/command/serve.js:57-60 | the first truthy candidate wins, and the fallback applies when none is truthy |
| ServeCommand.OrChain | scripts/command/serve.js:57-60 | a chain of `\|\|` is the first truthy value |
| ServeCommand.ProjectDevServerOverrides | scripts/command/serve.js:46 | the project's `devServer` options override the configuration's `devServer`, which counts only when it is an object |
| ServeCommand.Precedence | scripts/command/serve.js:57-60 | https, host and port come from the argument, then the environment (host and port only), then the project option, then the default; host and port are always truthy; the protocol is `https` exactly when https is asked for |
| ServeCommand.LetterRun | scripts/command/serve.js:64 | the letters at the start of a string, up to the first non-letter |
| ServeCommand.HasSchemeMatches | scripts/command/serve.js:64 | the greedy test matches exactly the strings that start with letters followed by `://` |
| ServeCommand.LetterRunOf | scripts/command/serve.js:64 | a run of letters before a non-letter is the whole letter run |
| ServeCommand.PublicUrlHasScheme | scripts/command/serve.js:62-67 | the public URL always has a scheme, and computing it again changes nothing |
| ServeCommand.NetworkUrlSlash | scripts/command/serve.js:146 | a non-empty network URL ends in `/`; the rewrite adds at most that slash and is idempotent |
| ServeCommand.DevClientsList | scripts/command/serve.js:86-96 | the dev-server client with its sockjs query comes first, then the hot client (only-dev-server when `hotOnly`), then the poll client on AppVeyor |
| ServeCommand.DevClientsFirst | scripts/command/serve.js:188-199 | every entry of an object entry starts with the clients followed by what it held; a function entry is called with the clients; a null entry throws |
| ServeCommand.AddDevClientToEntry | scripts/command/serve.js:188-199 | the key-by-key update leaves `WithDevClients` |
| ServeCommand.ServerOptionsLayers | scripts/command/serve.js:105-136 | later layers win: `https`, `proxy` and `before` always hold their values, a project key overrides a default, and a default survives only where neither later layer names its key |
| ServeCommand.Serve | scripts/command/serve.js:22-136 | `serve(args)` up to creating the server sets up what `SetupOf` describes |
| ServeCommand.CliEntryServed | scripts/command/serve.js:49-54 | a command-line entry becomes the single `app` entry; in development the clients come first |
| ServeCommand.AppEntryInjected | scripts/command/serve.js:188-193 | a single `app` entry gets the clients in front of what it held |
| ServeCommand.DevServerSession.constructor | scripts/command/serve.js:139 | the session starts at the first compile, unresolved |
| ServeCommand.DevServerSession.OnDone | scripts/command/serve.js:141-182 | a compile with errors is ignored; the first error-free one resolves with the local URL; later ones signal an update under `CLI_TEST`; every error-free one calls `listen` |
| ServeCommand.ReplayCounts | scripts/command/serve.js:138-183 | after any compiles, `listen` has run once per error-free compile; the promise is resolved, with the local URL, iff one compile was error-free; updates are signalled for every later error-free compile under tests |
| ServeCommand.ResolvesAtFirst | scripts/command/serve.js:154-171 | the compile that resolves the promise is the first error-free one |
| ServeCommand.NoneUntilErrorFree | scripts/command/serve.js:142-171 | the promise stays unresolved exactly while every compile had errors |
| ServeCommand.Watch | scripts/command/serve.js:138-183 | one session fed every compile in turn ends in the state `Replay` describes |

## Left out

- `config/dev.js` is not part of this model. The development configuration plugin is applied but registers nothing here.
- The plugin modules' `require` is not modelled: a plugin is a tag naming which built-in it is.
  - `resolvePkg` and the package file are left out, except the `postcss` field, which is in `Host`.
  - `validate` in `scripts/options` is not part of this model. Its effect is only the ill-typed option cases `Options.WithDefaults` rejects, and the process exits on them.
- A non-object `river.config.js` export is treated as absent, and a throwing one is left out.
- ProjectChain: the project's own `chainWebpack` is a total function of the builder's tree, so it never throws. In the code (scripts/base.js:149) a throw from it propagates out of `resolveChainableWebpackConfig`. `ServiceConfig.ChainFoldFails` and `ServiceConfig.AnyThrows` therefore count only the CSS callback's throw.
- RawFunction: a `configureWebpack` function returns a result and never throws. In the code (scripts/base.js:160-163) a throw from it propagates out of `resolveWebpackConfig`. So `ServiceConfig.ResolvedUnguarded` names only `NotInitialized` and `TypeError` as the errors outside the guard.
- WithDefaults: `devServer` and `css` are filled one level deep, key by key. lodash `defaultsDeep` (scripts/base.js:48) also recurses into nested objects such as `devServer.overlay`, and that deeper filling is not modelled.
- TargetDir: a truthy `--dest` that is not a string (a bare `--dest` flag or a number) is coerced with `String` before it is resolved. `path.resolve` throws a `TypeError` on such an argument, and that throw is not modelled.
- Command lookup through `this.commands[name]` is modelled on a set of names. Prototype keys such as `toString` and a registered command named `help` carrying its own behaviour are left out.
- `run` sets `args._` to `[]` when it is absent. The model always has a positional list.
- The `^.\/` pattern of `resolvePlugins` rewrites only the serve plugin's id among the built-ins. The configuration plugins start with `..` and keep their ids; the model states this as written.
- A build target other than `app` reaches the undefined `buildMode` in the progress message and rejects with a `ReferenceError` (`BuildCommand.PassNonApp`). Library and web-component builds are therefore not modelled beyond that rejection.
- When a pass rejects, the build command leaves `CLI_BUILD_TARGET` and the modern-mode flags set, since the `delete` statements are never reached; the model states this as written.
- The built-in plugins register no `build` command (`ServicePlugins.BuiltInDispatch`). `BuildCommand` models the command's function on its own.
- The done hook calls `server.listen` on every error-free compile, and a listen error after the first compile can no longer reject. Listening itself, the port finder and the URLs from `prepareURLs` are inputs (`ServeCommand.Outside`).
- `url.format` of the inferred sockjs URL is simplified to protocol, host, port and path concatenated in `SockjsQuery`.
- `isAbsoluteUrl` is not part of this model.
- The `before` middleware hook's body and `devServerConfigFns` are left out: `before` is an opaque function value.
- `checkInContainer` is never called and is left out.
- All logging is left out:
  - progress spinners and messages;
  - `formatStats`;
  - the `Build complete.` and `App updated` test signals, which are counted in `updateSignals` for serve only;
  - the first-compile notes.
- `fs.remove` of the target directory is recorded as `removed` in the pass rather than performed.
- `loadEnv` reads no `.env` files here. Only the `NODE_ENV`/`BABEL_ENV` defaults are modelled, and `init` loads them once for the given mode.
- `validateWebpackConfig` is left out.
- The configuration the build command resolves, `resolveConfig`, and the bundler are parameters.
- `JsValues.DeepMerge` stands in for `webpack-merge`: objects merge key by key, lists concatenate, and other right-hand values win. Custom merge strategies are not modelled.
- In-place updates are modelled on values:
  - the edits of `modifyConfig`;
  - `cloneRuleNames`' `defineProperty`;
  - `addDevClientToEntry`'s key-by-key assignment;
  - `Object.assign` onto `webpackConfig.devServer`.

  Aliasing between the merged configuration and the original (after the first merge) is not captured.
- A truthy non-object entry in `cloneRuleNames` is skipped. `defineProperty` on a truthy primitive would throw; that throw is not modelled.
- Writes to properties of a value that is not an object (for example `config.output.path` when `output` is absent) are modelled as a thrown `TypeError` when the target is undefined or null, and as a lost write on other primitives.
- The fallback chunk sort is modelled as the stable rank sort that `Array.prototype.sort` gives with this comparator. An unstable engine sort may order chunks of equal rank differently.
- `hash-sum` and the chunk's module iteration are inputs of `ChunkSort.NamedChunkId`.
- Numbers are integers; `NaN`, `-0` and floating point are not modelled.
- Paths are not normalised: `api.resolve` and `path.resolve` keep an absolute path and otherwise join with `/`, without collapsing `.` or `..` (`Env.Resolve`, `Env.PathResolve`). Windows drive letters are not modelled. `path.posix.join` in the history fallback is `ServeCommand.IndexPath`, which joins with a single `/`.
- `ServeCommand.DevServerSession.OnDone`: the closure variables of the done hook are fields of a session object; the server it closes over is not modelled.

## Behaviour as written

The model keeps these points of the code as they are:

- The modern-build environment flags are deleted only after both passes resolve (scripts/command/build/index.js:59-60). There is no `finally`, so a rejecting pass leaves them set (`BuildCommand.RunModern`, `BuildCommand.RunPasses`).
- The built-in plugins register no `help` command and no `build` command (scripts/base.js:127-135). A missing command name therefore finds nothing to run (`ServicePlugins.BuiltInDispatch`).
- The fallback comparator puts the `app` chunk last, and among the other chunks it puts non-entry chunks before entry chunks (config/app.js:57-63), although its comment speaks of loading the user entry last (`ChunkSort.CompareEntries`).
- The legacy pass receives the incoming `clean` argument, which defaults to true (scripts/command/build/index.js:29-33, 40-47; `BuildCommand.FillDefaults`, `BuildCommand.PassArgs`).
- A target other than `app` reaches the undefined `buildMode` in the pass and rejects (scripts/command/build/index.js:94; `BuildCommand.PassNonApp`).
