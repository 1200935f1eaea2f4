/**
 * Resolving the bundler configuration (`resolveChainableWebpackConfig` and
 * `resolveWebpackConfig` in `scripts/base.js`), as functions of the
 * registered callbacks: the chain callbacks run in order on one builder, the
 * raw hooks then edit or merge into the finalized configuration, the rule
 * annotations a merge loses are restored, and a manually modified public
 * path is refused for library builds.
 */
module ServiceConfig {
  import opened JsValues
  import opened Chain
  import opened Env
  import opened Options
  import opened RuleNames
  import opened ServicePlugins
  import CoreConfig
  import CssConfig
  import ProdConfig
  import AppConfig
  import ChunkSort

  /** Why resolving fails: called before `init`, a chain callback threw, a
      property of a missing value was read, or the public path was modified. */
  datatype ServiceError = NotInitialized | CallbackThrew | TypeError | PublicPathModified

  // ---------------------------------------------------------------------------
  // The chain callbacks

  /** One chain callback on the builder's tree; `None` when it throws (only
      the CSS callback can). */
  function ChainStep(f: ChainFn, t: Tree, env: map<string, string>, h: Host): Option<Tree> {
    match f
    case CoreChain(o) => Some(Run(t, CoreConfig.CoreOps(o, env, h)))
    case CssChain(o) =>
      var ops := CssConfig.CssOps(o, env, h);
      if ops.None? then None else Some(Run(t, ops.value))
    case ProdChain(o) => Some(Run(t, ProdConfig.ProdOps(o, env, h)))
    case AppChain(o) => Some(Run(t, AppConfig.AppOps(o, env, h)))
    case ProjectChain(edit) => Some(edit(t))
  }

  /** The callback throws. */
  predicate Throws(f: ChainFn, env: map<string, string>, h: Host) {
    f.CssChain? && CssConfig.CssOps(f.opts, env, h).None?
  }

  /** The builder's tree after the callbacks, `None` once one has thrown, and
      how many times the chunk sorters were patched on the way. */
  datatype ChainRun = ChainRun(tree: Option<Tree>, patches: nat)

  /** The callbacks called in order on one builder; the first that throws
      ends the walk. */
  function ChainFold(fns: seq<ChainFn>, t: Tree, env: map<string, string>, h: Host): ChainRun
    decreases |fns|
  {
    if fns == [] then ChainRun(Some(t), 0)
    else
      var prev := ChainFold(fns[..|fns| - 1], t, env, h);
      var f := fns[|fns| - 1];
      if prev.tree.None? then prev
      else ChainRun(ChainStep(f, prev.tree.value, env, h), prev.patches + if f.AppChain? then 1 else 0)
  }

  /** One more callback fails the walk when the walk had failed or it throws. */
  lemma ChainFoldLastFails(fns: seq<ChainFn>, t: Tree, env: map<string, string>, h: Host)
    requires fns != []
    ensures ChainFold(fns, t, env, h).tree.None? <==>
      ChainFold(fns[..|fns| - 1], t, env, h).tree.None? || Throws(fns[|fns| - 1], env, h)
  {
  }

  /** Some callback of the list throws. */
  predicate AnyThrows(fns: seq<ChainFn>, env: map<string, string>, h: Host) {
    exists i | 0 <= i < |fns| :: Throws(fns[i], env, h)
  }

  lemma AnyThrowsLast(fns: seq<ChainFn>, env: map<string, string>, h: Host)
    requires fns != []
    ensures AnyThrows(fns, env, h) <==> AnyThrows(fns[..|fns| - 1], env, h) || Throws(fns[|fns| - 1], env, h)
  {
    var init := fns[..|fns| - 1];
    if AnyThrows(init, env, h) {
      var i :| 0 <= i < |init| && Throws(init[i], env, h);
      assert fns[i] == init[i];
    }
    if AnyThrows(fns, env, h) {
      var i :| 0 <= i < |fns| && Throws(fns[i], env, h);
      if i < |init| {
        assert init[i] == fns[i];
      }
    }
  }

  /** The walk fails exactly when one of the callbacks throws. */
  lemma {:induction false} ChainFoldFails(fns: seq<ChainFn>, t: Tree, env: map<string, string>, h: Host)
    ensures ChainFold(fns, t, env, h).tree.None? <==> AnyThrows(fns, env, h)
    decreases |fns|
  {
    if fns != [] {
      ChainFoldFails(fns[..|fns| - 1], t, env, h);
      ChainFoldLastFails(fns, t, env, h);
      AnyThrowsLast(fns, env, h);
    }
  }

  /** Once a prefix of the callbacks has thrown, the later ones change
      nothing. */
  lemma {:induction false} ChainFoldStops(fns: seq<ChainFn>, i: nat, t: Tree, env: map<string, string>, h: Host)
    requires i <= |fns| && ChainFold(fns[..i], t, env, h).tree.None?
    ensures ChainFold(fns, t, env, h) == ChainFold(fns[..i], t, env, h)
    decreases |fns| - i
  {
    if i < |fns| {
      assert fns[..i + 1][..i] == fns[..i];
      ChainFoldStops(fns, i + 1, t, env, h);
    } else {
      assert fns[..i] == fns;
    }
  }

  /** How many application callbacks the list holds. */
  function AppCount(fns: seq<ChainFn>): nat
    decreases |fns|
  {
    if fns == [] then 0 else AppCount(fns[..|fns| - 1]) + if fns[|fns| - 1].AppChain? then 1 else 0
  }

  /** A walk that does not fail patches the sorters once per application
      callback, and never more. */
  lemma {:induction false} ChainFoldPatches(fns: seq<ChainFn>, t: Tree, env: map<string, string>, h: Host)
    ensures ChainFold(fns, t, env, h).patches <= AppCount(fns)
    ensures ChainFold(fns, t, env, h).tree.Some? ==> ChainFold(fns, t, env, h).patches == AppCount(fns)
    decreases |fns|
  {
    if fns != [] {
      ChainFoldPatches(fns[..|fns| - 1], t, env, h);
    }
  }

  /** The sorter after `n` patches of `s`. */
  function PatchTimes(s: ChunkSort.Sorter, n: nat): ChunkSort.Sorter {
    if n == 0 then s else ChunkSort.FallbackPatch(PatchTimes(s, n - 1))
  }

  lemma {:induction false} PatchTimesUnpatched(s: ChunkSort.Sorter, n: nat)
    ensures ChunkSort.Unpatched(PatchTimes(s, n)) == ChunkSort.Unpatched(s)
  {
    if n > 0 {
      PatchTimesUnpatched(s, n - 1);
    }
  }

  /** Resolving the configuration again patches the patched sorter again, but
      any number of patches sorts as one patch of the plugin's own sorter:
      it never throws. */
  lemma PatchTimesCollapse(s: ChunkSort.Sorter, n: nat, original: (string, seq<ChunkSort.Chunk>) -> Option<seq<ChunkSort.Chunk>>,
                           cs: seq<ChunkSort.Chunk>)
    requires n >= 1
    ensures ChunkSort.SortWith(PatchTimes(s, n), original, cs) ==
      ChunkSort.SortWith(ChunkSort.FallbackPatch(ChunkSort.Unpatched(s)), original, cs)
    ensures ChunkSort.SortWith(PatchTimes(s, n), original, cs).Some?
  {
    ChunkSort.PatchesCollapse(PatchTimes(s, n), original, cs);
    PatchTimesUnpatched(s, n);
    ChunkSort.PatchedSort(ChunkSort.Unpatched(s), original, cs);
  }

  /** The configuration plugins' callbacks, as the built-in plugins register
      them. */
  function BuiltInChain(o: ProjectOptions): seq<ChainFn> {
    [CoreChain(o), CssChain(o), ProdChain(o), AppChain(o)]
  }

  /** The CSS callback leaves the output settings alone. */
  lemma CssKeepsOutput(t: Tree, o: ProjectOptions, env: map<string, string>, h: Host, key: string)
    requires CssConfig.CssOps(o, env, h).Some?
    ensures Observe(Run(t, CssConfig.CssOps(o, env, h).value), OutputSlot(key)) == Observe(t, OutputSlot(key))
  {
    var st := CssConfig.Settings(o.css, IsProduction(env));
    var extractOptions := CssConfig.ExtractOptions(CssConfig.CssFilename(o, h), st.extract);
    var plan := CssConfig.PlanOf(o, st, h, CssConfig.CssPublicPath(extractOptions["filename"].s));
    CssConfig.CssKeepsOthers(t, plan,
      CssConfig.LanguageLoaderOptions(st.sourceMap, st.loaderOptions.sass),
      CssConfig.LanguageLoaderOptions(st.sourceMap, st.loaderOptions.less),
      CssConfig.LanguageLoaderOptions(st.sourceMap, CssConfig.StylusOptions(st.loaderOptions.stylus)),
      IsProduction(env), Plain(extractOptions), CssConfig.OptimizeOptions(o, st), OutputSlot(key));
  }

  /** The production callback leaves the public path alone. */
  lemma ProdKeepsPublicPath(t: Tree, o: ProjectOptions, env: map<string, string>, h: Host)
    ensures Observe(Run(t, ProdConfig.ProdOps(o, env, h)), OutputSlot("publicPath")) == Observe(t, OutputSlot("publicPath"))
  {
    UntouchedOf(ProdConfig.ProdOps(o, env, h), OutputSlot("publicPath"));
    RunKeeps(t, ProdConfig.ProdOps(o, env, h), OutputSlot("publicPath"));
  }

  /** The application callback only registers plugins and sets the chunk
      splitting, so it leaves every output setting alone. */
  lemma AppKeepsOutput(t: Tree, o: ProjectOptions, env: map<string, string>, h: Host, key: string)
    ensures Observe(Run(t, AppConfig.AppOps(o, env, h)), OutputSlot(key)) == Observe(t, OutputSlot(key))
  {
    var stmts := AppConfig.AppStatements(o, env, h);
    forall m | 0 <= m < |stmts|
      ensures Untouched(stmts[m], OutputSlot(key))
    {
      UntouchedOf(stmts[m], OutputSlot(key));
    }
    FlattenUntouched(stmts, OutputSlot(key));
    RunKeeps(t, AppConfig.AppOps(o, env, h), OutputSlot(key));
  }

  /** The walk up to callback `k` is the walk up to `k - 1` and one more
      step. */
  lemma ChainFoldPrefix(fns: seq<ChainFn>, k: nat, t: Tree, env: map<string, string>, h: Host)
    requires 0 < k <= |fns|
    ensures ChainFold(fns[..k], t, env, h).tree.Some? ==> ChainFold(fns[..k - 1], t, env, h).tree.Some?
    ensures ChainFold(fns[..k - 1], t, env, h).tree.Some? ==>
      var prev := ChainFold(fns[..k - 1], t, env, h);
      ChainFold(fns[..k], t, env, h) ==
        ChainRun(ChainStep(fns[k - 1], prev.tree.value, env, h), prev.patches + if fns[k - 1].AppChain? then 1 else 0)
  {
    assert fns[..k][..k - 1] == fns[..k - 1];
  }

  /** The callbacks after the core one leave the public path alone. */
  lemma StepKeepsPublicPath(f: ChainFn, t: Tree, env: map<string, string>, h: Host)
    requires f.CssChain? || f.ProdChain? || f.AppChain?
    requires ChainStep(f, t, env, h).Some?
    ensures Observe(ChainStep(f, t, env, h).value, OutputSlot("publicPath")) == Observe(t, OutputSlot("publicPath"))
  {
    match f
    case CssChain(o) => CssKeepsOutput(t, o, env, h, "publicPath");
    case ProdChain(o) => ProdKeepsPublicPath(t, o, env, h);
    case AppChain(o) => AppKeepsOutput(t, o, env, h, "publicPath");
  }

  /** After the built-in callbacks the public path is the `baseUrl` option:
      only the core callback sets it. */
  lemma BuiltInPublicPath(o: ProjectOptions, t: Tree, env: map<string, string>, h: Host)
    requires ChainFold(BuiltInChain(o), t, env, h).tree.Some?
    ensures Observe(ChainFold(BuiltInChain(o), t, env, h).tree.value, OutputSlot("publicPath")) == Val(Str(o.baseUrl))
  {
    var fns := BuiltInChain(o);
    var slot := OutputSlot("publicPath");
    var r1, r2, r3 := ChainFold(fns[..1], t, env, h), ChainFold(fns[..2], t, env, h), ChainFold(fns[..3], t, env, h);
    BuiltInSteps(o, t, env, h);
    assert Observe(r1.tree.value, slot) == Val(Str(o.baseUrl)) by {
      CoreConfig.CorePublicPath(t, o, env, h, CoreConfig.UrlLoaderOptions(o, h, "img"),
        CoreConfig.UrlLoaderOptions(o, h, "media"), CoreConfig.UrlLoaderOptions(o, h, "fonts"));
    }
    assert Observe(r2.tree.value, slot) == Observe(r1.tree.value, slot) by {
      StepKeepsPublicPath(fns[1], r1.tree.value, env, h);
    }
    assert Observe(r3.tree.value, slot) == Observe(r2.tree.value, slot) by {
      StepKeepsPublicPath(fns[2], r2.tree.value, env, h);
    }
    StepKeepsPublicPath(fns[3], r3.tree.value, env, h);
  }

  /** The successful walk over the built-in callbacks, step by step. */
  lemma BuiltInSteps(o: ProjectOptions, t: Tree, env: map<string, string>, h: Host)
    requires ChainFold(BuiltInChain(o), t, env, h).tree.Some?
    ensures var fns := BuiltInChain(o);
      var r1, r2, r3 := ChainFold(fns[..1], t, env, h), ChainFold(fns[..2], t, env, h), ChainFold(fns[..3], t, env, h);
      r1.tree.Some? && r2.tree.Some? && r3.tree.Some?
      && r1.tree == ChainStep(fns[0], t, env, h)
      && r2.tree == ChainStep(fns[1], r1.tree.value, env, h)
      && r3.tree == ChainStep(fns[2], r2.tree.value, env, h)
      && ChainFold(fns, t, env, h).tree == ChainStep(fns[3], r3.tree.value, env, h)
  {
    var fns := BuiltInChain(o);
    assert fns[..4] == fns;
    assert fns[..0] == [];
    ChainFoldPrefix(fns, 4, t, env, h);
    ChainFoldPrefix(fns, 3, t, env, h);
    ChainFoldPrefix(fns, 2, t, env, h);
    ChainFoldPrefix(fns, 1, t, env, h);
  }

  // ---------------------------------------------------------------------------
  // The raw hooks

  /** The walk over the raw hooks: the configuration so far, the object
      `original` refers to, and whether a merge has replaced the
      configuration by a new object (`config !== original`).  Until the first
      merge a function hook's in-place edits are edits of `original` too. */
  datatype RawState = RawState(config: Value, original: Value, merged: bool)

  /** One raw hook: a function edits the configuration in place and may
      return options to merge into it; a truthy literal is merged. */
  function RawStep(hook: RawHook, st: RawState): RawState {
    match hook
    case RawFunction(run) =>
      var res := run(st.config);
      var original := if st.merged then st.original else res.config;
      if Truthy(res.returned) then RawState(DeepMerge(res.config, res.returned), original, true)
      else RawState(res.config, original, st.merged)
    case RawLiteral(literal) =>
      if Truthy(literal) then RawState(DeepMerge(st.config, literal), st.original, true) else st
  }

  function RawFold(hooks: seq<RawHook>, start: Value): RawState
    decreases |hooks|
  {
    if hooks == [] then RawState(start, start, false)
    else RawStep(hooks[|hooks| - 1], RawFold(hooks[..|hooks| - 1], start))
  }

  /** Hook `i` merges when its turn comes. */
  predicate MergesAt(hooks: seq<RawHook>, start: Value, i: nat)
    requires i < |hooks|
  {
    match hooks[i]
    case RawFunction(run) => Truthy(run(RawFold(hooks[..i], start).config).returned)
    case RawLiteral(literal) => Truthy(literal)
  }

  /** The configuration is a new object exactly when some hook merged, and
      until then it is the very object `original` refers to. */
  lemma {:induction false} RawFoldMerged(hooks: seq<RawHook>, start: Value)
    ensures RawFold(hooks, start).merged <==> exists i | 0 <= i < |hooks| :: MergesAt(hooks, start, i)
    ensures !RawFold(hooks, start).merged ==> RawFold(hooks, start).config == RawFold(hooks, start).original
    decreases |hooks|
  {
    if hooks != [] {
      var init := hooks[..|hooks| - 1];
      RawFoldMerged(init, start);
      forall i | 0 <= i < |init|
        ensures MergesAt(hooks, start, i) == MergesAt(init, start, i)
      {
        assert hooks[..i] == init[..i];
      }
      var last := |hooks| - 1;
      assert hooks[..last] == init;
      assert RawFold(hooks, start).merged <==> RawFold(init, start).merged || MergesAt(hooks, start, last);
      if exists i | 0 <= i < |init| :: MergesAt(init, start, i) {
        var i :| 0 <= i < |init| && MergesAt(init, start, i);
        assert MergesAt(hooks, start, i);
      }
      if exists i | 0 <= i < |hooks| :: MergesAt(hooks, start, i) {
        var i :| 0 <= i < |hooks| && MergesAt(hooks, start, i);
        if i < last {
          assert MergesAt(init, start, i);
        }
      }
    }
  }

  /** Literal hooks never edit in place: `original` stays the finalized
      configuration. */
  lemma {:induction false} RawFoldLiterals(hooks: seq<RawHook>, start: Value)
    requires forall i | 0 <= i < |hooks| :: hooks[i].RawLiteral?
    ensures RawFold(hooks, start).original == start
    decreases |hooks|
  {
    if hooks != [] {
      RawFoldLiterals(hooks[..|hooks| - 1], start);
    }
  }

  /** `config.module && config.module.rules`, for what the walk needs: a rule
      list or not. */
  function RulesOf(c: Value): Value {
    Prop(Prop(c, "module"), "rules")
  }

  /** The configuration with `module.rules` replaced, when it has one. */
  function WithRules(c: Value, rules: Value): Value {
    if c.Obj? && "module" in c.fields && c.fields["module"].Obj? && "rules" in c.fields["module"].fields then
      var m := c.fields["module"];
      Obj(c.fields["module" := Obj(m.fields["rules" := rules], m.ruleNames)], c.ruleNames)
    else c
  }

  /** The configuration after the rule annotations are restored from
      `original`, when a merge replaced it. */
  function Repaired(st: RawState): Value {
    if st.merged then WithRules(st.config, CloneRuleNames(RulesOf(st.config), RulesOf(st.original))) else st.config
  }

  /** A merged copy of the finalized rules gets back every annotation the
      merge dropped. */
  lemma RepairRestores(st: RawState)
    requires st.merged && RuleNames.RuleList(RulesOf(st.original)) && RulesOf(st.config) == Strip(RulesOf(st.original))
    ensures RulesOf(Repaired(st)) == RulesOf(st.original)
  {
    CloneRestores(RulesOf(st.original));
  }

  /** The repair changes only annotations: the enumerable content of every
      rule is what the hooks left. */
  lemma RepairKeepsContent(st: RawState)
    ensures Strip(RulesOf(Repaired(st))) == Strip(RulesOf(st.config))
  {
    if st.merged {
      CloneKeepsContent(RulesOf(st.config), RulesOf(st.original));
    }
  }

  /** The public path check applies outside tests to a build target other
      than `app`. */
  predicate GuardApplies(env: map<string, string>) {
    !Flag(env, "CLI_TEST") && Truthy(EnvValue(env, "CLI_BUILD_TARGET")) && EnvValue(env, "CLI_BUILD_TARGET") != Str("app")
  }

  /** `config.output.publicPath !== projectOptions.baseUrl` under the guard;
      reading through a missing `output` or missing project options throws. */
  function CheckPublicPath(config: Value, env: map<string, string>, baseUrl: Option<string>): Result<Value, ServiceError> {
    if !GuardApplies(env) then Ok(config)
    else if Nullish(Prop(config, "output")) || baseUrl.None? then Err(TypeError)
    else if Prop(Prop(config, "output"), "publicPath") != Str(baseUrl.value) then Err(PublicPathModified)
    else Ok(config)
  }

  /** `resolveWebpackConfig(chainableConfig)` on the builder's tree `t`. */
  function ResolvedConfig(initialized: bool, t: Tree, hooks: seq<RawHook>, env: map<string, string>,
                          baseUrl: Option<string>): Result<Value, ServiceError> {
    if !initialized then Err(NotInitialized)
    else
      var st := RawFold(hooks, Finalize(t));
      if st.merged && (Nullish(st.config) || Nullish(st.original)) then Err(TypeError)
      else CheckPublicPath(Repaired(st), env, baseUrl)
  }

  /** For a library or web-component build the resolved configuration's
      public path is always the `baseUrl` option. */
  lemma ResolvedPublicPath(initialized: bool, t: Tree, hooks: seq<RawHook>, env: map<string, string>, baseUrl: Option<string>)
    requires GuardApplies(env) && ResolvedConfig(initialized, t, hooks, env, baseUrl).Ok?
    ensures baseUrl.Some?
    ensures Prop(Prop(ResolvedConfig(initialized, t, hooks, env, baseUrl).value, "output"), "publicPath") == Str(baseUrl.value)
  {
  }

  /** The check never refuses the `app` target, nor anything under tests. */
  lemma ResolvedUnguarded(initialized: bool, t: Tree, hooks: seq<RawHook>, env: map<string, string>, baseUrl: Option<string>)
    requires Flag(env, "CLI_TEST") || EnvValue(env, "CLI_BUILD_TARGET") == Str("app") || !Truthy(EnvValue(env, "CLI_BUILD_TARGET"))
    ensures ResolvedConfig(initialized, t, hooks, env, baseUrl) != Err(PublicPathModified)
    ensures ResolvedConfig(initialized, t, hooks, env, baseUrl).Err? ==>
      ResolvedConfig(initialized, t, hooks, env, baseUrl).error in {NotInitialized, TypeError}
  {
  }

  /** Without raw hooks the finalized configuration is returned as it is,
      and the public path check compares the builder's own setting. */
  lemma ResolvedWithoutHooks(t: Tree, env: map<string, string>, baseUrl: Option<string>)
    requires baseUrl.Some? && Observe(t, OutputSlot("publicPath")) == Val(Str(baseUrl.value))
    ensures ResolvedConfig(true, t, [], env, baseUrl) == Ok(Finalize(t))
  {
  }

  /** The built-in plugins alone never trip the public path check: the
      configuration they build resolves, unchanged, for every target. */
  lemma BuiltInResolves(o: ProjectOptions, env: map<string, string>, h: Host)
    requires ChainFold(BuiltInChain(o), EmptyTree, env, h).tree.Some?
    ensures var t := ChainFold(BuiltInChain(o), EmptyTree, env, h).tree.value;
      ResolvedConfig(true, t, [], env, Some(o.baseUrl)) == Ok(Finalize(t))
  {
    BuiltInPublicPath(o, EmptyTree, env, h);
    ResolvedWithoutHooks(ChainFold(BuiltInChain(o), EmptyTree, env, h).tree.value, env, Some(o.baseUrl));
  }
}
