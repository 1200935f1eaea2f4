/**
 * Stand-in for the chainable configuration builder (`webpack-chain`): an
 * ordered tree whose rules, uses, plugins, minimizers, entries and aliases
 * are addressed by stable keys.  Plugins mutate one shared builder through
 * the methods of `ChainConfig`; `Finalize` turns the tree into the plain
 * configuration object handed to the bundler, defining the `__ruleNames`
 * annotation on every rule it produces.
 */
module Chain {
  import opened JsValues
  import opened Keyed

  /** One loader application inside a rule: `rule.use(key).loader(..).options(..)`. */
  datatype Use = Use(loader: Option<string>, options: Value)

  /** A module rule; `oneOfs` are its nested, keyed alternatives. */
  datatype Rule = Rule(test: Option<string>, includes: seq<string>, uses: KeyedMap<Use>, oneOfs: KeyedMap<Rule>)

  /** A plugin (or minimizer) registration: the plugin's name and its constructor arguments. */
  datatype PluginUse = PluginUse(plugin: string, args: seq<Value>)

  const EmptyRule := Rule(None, [], Empty(), Empty())
  const EmptyUse := Use(None, Undefined)

  /** The whole builder state as one value. */
  datatype Tree = Tree(
    mode: Option<string>,
    context: Option<string>,
    devtool: Value,
    entryPoints: KeyedMap<seq<string>>,
    output: map<string, Value>,
    extensions: seq<string>,
    modules: seq<string>,
    alias: KeyedMap<string>,
    loaderModules: seq<string>,
    rules: KeyedMap<Rule>,
    plugins: KeyedMap<PluginUse>,
    minimize: Option<bool>,
    minimizers: KeyedMap<PluginUse>,
    splitChunks: Value)

  const EmptyTree := Tree(None, None, Undefined, Empty(), map[], [], [], Empty(), [], Empty(), Empty(), None, Empty(), Undefined)

  /** The rule registered under `key`, or a fresh empty rule. */
  function RuleOf(rules: KeyedMap<Rule>, key: string): Rule {
    GetOr(rules, key, EmptyRule)
  }

  /** The uses of the alternative `oneOf` of rule `rule`. */
  function OneOfUses(rules: KeyedMap<Rule>, rule: string, oneOf: string): KeyedMap<Use> {
    GetOr(RuleOf(rules, rule).oneOfs, oneOf, EmptyRule).uses
  }

  /** `rule(rule).test(test)`. */
  function WithTest(rules: KeyedMap<Rule>, rule: string, test: string): KeyedMap<Rule> {
    Put(rules, rule, RuleOf(rules, rule).(test := Some(test)))
  }

  /** `rule(rule).include.add(p)`. */
  function WithInclude(rules: KeyedMap<Rule>, rule: string, p: string): KeyedMap<Rule> {
    Put(rules, rule, RuleOf(rules, rule).(includes := AddOnce(RuleOf(rules, rule).includes, p)))
  }

  /** `use(key).loader(loader)` and, when given, `.options(options)`: an
      existing use keeps its place and, without new options, its options. */
  function WithUse(uses: KeyedMap<Use>, key: string, loader: string, options: Option<Value>): KeyedMap<Use> {
    Put(uses, key, Use(Some(loader), if options.Some? then options.value else GetOr(uses, key, EmptyUse).options))
  }

  /** `rule(rule).use(..)` applied to a keyed rule collection. */
  function WithRuleUse(rules: KeyedMap<Rule>, rule: string, use: string, loader: string, options: Option<Value>): KeyedMap<Rule> {
    Put(rules, rule, RuleOf(rules, rule).(uses := WithUse(RuleOf(rules, rule).uses, use, loader, options)))
  }

  /** `rule(rule).oneOf(oneOf)`: registers the alternative if it is not there yet. */
  function WithOneOf(rules: KeyedMap<Rule>, rule: string, oneOf: string): KeyedMap<Rule> {
    Put(rules, rule, RuleOf(rules, rule).(oneOfs := Put(RuleOf(rules, rule).oneOfs, oneOf, GetOr(RuleOf(rules, rule).oneOfs, oneOf, EmptyRule))))
  }

  /** `rule(rule).oneOf(oneOf).use(..)`. */
  function WithOneOfUse(rules: KeyedMap<Rule>, rule: string, oneOf: string, use: string, loader: string, options: Option<Value>): KeyedMap<Rule> {
    Put(rules, rule, RuleOf(rules, rule).(oneOfs := WithOneOfUseIn(RuleOf(rules, rule).oneOfs, oneOf, use, loader, options)))
  }

  /** `oneOf(oneOf).use(..)` inside one rule's alternatives. */
  function WithOneOfUseIn(oneOfs: KeyedMap<Rule>, oneOf: string, use: string, loader: string, options: Option<Value>): KeyedMap<Rule> {
    Put(oneOfs, oneOf, GetOr(oneOfs, oneOf, EmptyRule).(uses := WithUse(GetOr(oneOfs, oneOf, EmptyRule).uses, use, loader, options)))
  }

  /** One call on the builder, as the configuration plugins make them. */
  datatype Op =
    | SetMode(m: string)                                  // mode(m)
    | SetContext(c: string)                               // context(c)
    | SetDevtool(v: Value)                                // devtool(v)
    | AddEntry(name: string, path: string)                // entry(name).add(path)
    | SetOutput(key: string, v: Value)                    // output.<key>(v)
    | MergeExtensions(xs: seq<string>)                    // resolve.extensions.merge(xs)
    | AddModule(p: string)                                // resolve.modules.add(p)
    | AddLoaderModule(p: string)                          // resolveLoader.modules.add(p)
    | SetAlias(k: string, target: string)                 // resolve.alias.set(k, target)
    | SetRuleTest(rule: string, test: string)             // module.rule(rule).test(test)
    | AddRuleInclude(rule: string, p: string)             // module.rule(rule).include.add(p)
    | AddRuleUse(rule: string, use: string, loader: string, options: Option<Value>)
                                                          // module.rule(rule).use(use).loader(..)[.options(..)]
    | AddOneOf(rule: string, oneOf: string)               // module.rule(rule).oneOf(oneOf)
    | AddOneOfUse(rule: string, oneOf: string, use: string, loader: string, options: Option<Value>)
                                                          // ... .oneOf(oneOf).use(use).loader(..)[.options(..)]
    | AddPlugin(key: string, plugin: string, args: seq<Value>)   // plugin(key).use(plugin, args)
    | SetMinimize(b: bool)                                // optimization.minimize(b)
    | AddMinimizer(key: string, plugin: string, args: seq<Value>) // optimization.minimizer(key).use(..)
    | SetSplitChunks(v: Value)                            // optimization.splitChunks(v)

  /** The tree after one builder call. */
  function Step(t: Tree, op: Op): Tree {
    match op
    case SetMode(m) => t.(mode := Some(m))
    case SetContext(c) => t.(context := Some(c))
    case SetDevtool(v) => t.(devtool := v)
    case AddEntry(name, p) => t.(entryPoints := Put(t.entryPoints, name, AddOnce(GetOr(t.entryPoints, name, []), p)))
    case SetOutput(key, v) => t.(output := t.output[key := v])
    case MergeExtensions(xs) => t.(extensions := AddAll(t.extensions, xs))
    case AddModule(p) => t.(modules := AddOnce(t.modules, p))
    case AddLoaderModule(p) => t.(loaderModules := AddOnce(t.loaderModules, p))
    case SetAlias(k, target) => t.(alias := Put(t.alias, k, target))
    case SetRuleTest(rule, test) => t.(rules := WithTest(t.rules, rule, test))
    case AddRuleInclude(rule, p) => t.(rules := WithInclude(t.rules, rule, p))
    case AddRuleUse(rule, use, loader, options) => t.(rules := WithRuleUse(t.rules, rule, use, loader, options))
    case AddOneOf(rule, oneOf) => t.(rules := WithOneOf(t.rules, rule, oneOf))
    case AddOneOfUse(rule, oneOf, use, loader, options) => t.(rules := WithOneOfUse(t.rules, rule, oneOf, use, loader, options))
    case AddPlugin(key, plugin, args) => t.(plugins := Put(t.plugins, key, PluginUse(plugin, args)))
    case SetMinimize(b) => t.(minimize := Some(b))
    case AddMinimizer(key, plugin, args) => t.(minimizers := Put(t.minimizers, key, PluginUse(plugin, args)))
    case SetSplitChunks(v) => t.(splitChunks := v)
  }

  /** The tree after a sequence of builder calls, made in order. */
  function Run(t: Tree, ops: seq<Op>): Tree
    decreases |ops|
  {
    if ops == [] then t else Run(Step(t, ops[0]), ops[1..])
  }

  /** Making two sequences of calls one after the other is making their
      concatenation. */
  lemma {:induction false} RunAppend(t: Tree, a: seq<Op>, b: seq<Op>)
    ensures Run(t, a + b) == Run(Run(t, a), b)
    decreases |a|
  {
    if a == [] {
      assert a + b == b;
    } else {
      assert (a + b)[1..] == a[1..] + b;
      RunAppend(Step(t, a[0]), a[1..], b);
    }
  }

  // ---------------------------------------------------------------------------
  // Settings: what the last call writing a setting leaves there

  /** A single setting of the tree, which later calls may overwrite. */
  datatype Slot =
    | ModeSlot
    | ContextSlot
    | DevtoolSlot
    | OutputSlot(outputKey: string)
    | AliasSlot(aliasKey: string)
    | TestSlot(rule: string)
    | UseSlot(rule: string, use: string)
    | OneOfUseSlot(rule: string, oneOf: string, use: string)
    | PluginSlot(plugin: string)
    | MinimizeSlot
    | MinimizerSlot(minimizer: string)
    | SplitChunksSlot

  /** What a slot holds, if anything. */
  datatype Setting =
    | Unset
    | Text(text: string)
    | Val(val: Value)
    | Loader(loader: Use)
    | Registration(registration: PluginUse)
    | Toggle(on: bool)

  function TextOf(o: Option<string>): Setting {
    if o.Some? then Text(o.value) else Unset
  }

  function LoaderOf(uses: KeyedMap<Use>, key: string): Setting {
    if Has(uses, key) then Loader(Get(uses, key)) else Unset
  }

  function RegistrationOf(ps: KeyedMap<PluginUse>, key: string): Setting {
    if Has(ps, key) then Registration(Get(ps, key)) else Unset
  }

  function Observe(t: Tree, s: Slot): Setting {
    match s
    case ModeSlot => TextOf(t.mode)
    case ContextSlot => TextOf(t.context)
    case DevtoolSlot => Val(t.devtool)
    case OutputSlot(k) => if k in t.output then Val(t.output[k]) else Unset
    case AliasSlot(k) => if Has(t.alias, k) then Text(Get(t.alias, k)) else Unset
    case TestSlot(r) => TextOf(RuleOf(t.rules, r).test)
    case UseSlot(r, u) => LoaderOf(RuleOf(t.rules, r).uses, u)
    case OneOfUseSlot(r, o, u) => LoaderOf(OneOfUses(t.rules, r, o), u)
    case PluginSlot(k) => RegistrationOf(t.plugins, k)
    case MinimizeSlot => if t.minimize.Some? then Toggle(t.minimize.value) else Unset
    case MinimizerSlot(k) => RegistrationOf(t.minimizers, k)
    case SplitChunksSlot => Val(t.splitChunks)
  }

  /** The one setting a call may change, if any. */
  function Target(op: Op): Option<Slot> {
    match op
    case SetMode(_) => Some(ModeSlot)
    case SetContext(_) => Some(ContextSlot)
    case SetDevtool(_) => Some(DevtoolSlot)
    case SetOutput(k, _) => Some(OutputSlot(k))
    case SetAlias(k, _) => Some(AliasSlot(k))
    case SetRuleTest(r, _) => Some(TestSlot(r))
    case AddRuleUse(r, u, _, _) => Some(UseSlot(r, u))
    case AddOneOfUse(r, o, u, _, _) => Some(OneOfUseSlot(r, o, u))
    case AddPlugin(k, _, _) => Some(PluginSlot(k))
    case SetMinimize(_) => Some(MinimizeSlot)
    case AddMinimizer(k, _, _) => Some(MinimizerSlot(k))
    case SetSplitChunks(_) => Some(SplitChunksSlot)
    case _ => None
  }

  /** What a call leaves in its target whatever was there before, or `None`
      when it changes no setting or only part of one (a use whose options
      are left as they were). */
  function Written(op: Op): (w: Option<Setting>)
    ensures w.Some? ==> Target(op).Some?
  {
    match op
    case SetMode(m) => Some(Text(m))
    case SetContext(c) => Some(Text(c))
    case SetDevtool(v) => Some(Val(v))
    case SetOutput(_, v) => Some(Val(v))
    case SetAlias(_, target) => Some(Text(target))
    case SetRuleTest(_, test) => Some(Text(test))
    case AddRuleUse(_, _, loader, options) =>
      if options.Some? then Some(Loader(Use(Some(loader), options.value))) else None
    case AddOneOfUse(_, _, _, loader, options) =>
      if options.Some? then Some(Loader(Use(Some(loader), options.value))) else None
    case AddPlugin(_, plugin, args) => Some(Registration(PluginUse(plugin, args)))
    case SetMinimize(b) => Some(Toggle(b))
    case AddMinimizer(_, plugin, args) => Some(Registration(PluginUse(plugin, args)))
    case SetSplitChunks(v) => Some(Val(v))
    case _ => None
  }

  /** The call writes all of `s`. */
  predicate Writes(op: Op, s: Slot) {
    Target(op) == Some(s) && Written(op).Some?
  }

  /** The call may change what `s` holds. */
  predicate Touches(op: Op, s: Slot) {
    Target(op) == Some(s)
  }

  /** The settings some call of `ops` may change. */
  function Targets(ops: seq<Op>): set<Slot> {
    set j | 0 <= j < |ops| && Target(ops[j]).Some? :: Target(ops[j]).value
  }

  /** No call of `ops` touches `s`. */
  predicate Untouched(ops: seq<Op>, s: Slot) {
    s !in Targets(ops)
  }

  lemma UntouchedCalls(ops: seq<Op>, s: Slot)
    requires Untouched(ops, s)
    ensures forall j | 0 <= j < |ops| :: !Touches(ops[j], s)
  {
    forall j | 0 <= j < |ops|
      ensures !Touches(ops[j], s)
    {
      assert Target(ops[j]).Some? ==> Target(ops[j]).value in Targets(ops);
    }
  }

  lemma UntouchedOf(ops: seq<Op>, s: Slot)
    requires forall j | 0 <= j < |ops| :: !Touches(ops[j], s)
    ensures Untouched(ops, s)
  {
  }

  /** One call writes its setting and leaves every setting it does not touch. */
  lemma StepObserve(t: Tree, op: Op, s: Slot)
    ensures Writes(op, s) ==> Observe(Step(t, op), s) == Written(op).value
    ensures !Touches(op, s) ==> Observe(Step(t, op), s) == Observe(t, s)
  {
    match s
    case TestSlot(r) => StepObserveTest(t, op, r);
    case UseSlot(r, u) => StepObserveUse(t, op, r, u);
    case OneOfUseSlot(r, o, u) => StepObserveOneOfUse(t, op, r, o, u);
    case OutputSlot(_) => StepObserveKeyed(t, op, s);
    case AliasSlot(_) => StepObserveKeyed(t, op, s);
    case PluginSlot(_) => StepObserveKeyed(t, op, s);
    case MinimizerSlot(_) => StepObserveKeyed(t, op, s);
    case _ => StepObserveScalar(t, op, s);
  }

  lemma StepObserveScalar(t: Tree, op: Op, s: Slot)
    requires s.ModeSlot? || s.ContextSlot? || s.DevtoolSlot? || s.MinimizeSlot? || s.SplitChunksSlot?
    ensures Writes(op, s) ==> Observe(Step(t, op), s) == Written(op).value
    ensures !Touches(op, s) ==> Observe(Step(t, op), s) == Observe(t, s)
  {
  }

  lemma StepObserveKeyed(t: Tree, op: Op, s: Slot)
    requires s.OutputSlot? || s.AliasSlot? || s.PluginSlot? || s.MinimizerSlot?
    ensures Writes(op, s) ==> Observe(Step(t, op), s) == Written(op).value
    ensures !Touches(op, s) ==> Observe(Step(t, op), s) == Observe(t, s)
  {
  }

  lemma StepObserveTest(t: Tree, op: Op, r: string)
    ensures Writes(op, TestSlot(r)) ==> Observe(Step(t, op), TestSlot(r)) == Written(op).value
    ensures !Touches(op, TestSlot(r)) ==> Observe(Step(t, op), TestSlot(r)) == Observe(t, TestSlot(r))
  {
  }

  lemma StepObserveUse(t: Tree, op: Op, r: string, u: string)
    ensures Writes(op, UseSlot(r, u)) ==> Observe(Step(t, op), UseSlot(r, u)) == Written(op).value
    ensures !Touches(op, UseSlot(r, u)) ==> Observe(Step(t, op), UseSlot(r, u)) == Observe(t, UseSlot(r, u))
  {
  }

  lemma StepObserveOneOfUse(t: Tree, op: Op, r: string, o: string, u: string)
    ensures Writes(op, OneOfUseSlot(r, o, u)) ==> Observe(Step(t, op), OneOfUseSlot(r, o, u)) == Written(op).value
    ensures !Touches(op, OneOfUseSlot(r, o, u)) ==>
      Observe(Step(t, op), OneOfUseSlot(r, o, u)) == Observe(t, OneOfUseSlot(r, o, u))
  {
  }

  /** A sequence of calls none of which touches `s` leaves it as it was. */
  lemma {:induction false} RunKeeps(t: Tree, ops: seq<Op>, s: Slot)
    requires Untouched(ops, s)
    ensures Observe(Run(t, ops), s) == Observe(t, s)
    decreases |ops|
  {
    if ops != [] {
      UntouchedCalls(ops, s);
      StepObserve(t, ops[0], s);
      UntouchedOf(ops[1..], s);
      RunKeeps(Step(t, ops[0]), ops[1..], s);
    }
  }

  /** The last call that touches `s` decides it, when it writes it whole. */
  lemma {:induction false} RunLastWrite(t: Tree, ops: seq<Op>, i: nat, s: Slot)
    requires i < |ops| && Writes(ops[i], s)
    requires forall j | i < j < |ops| :: !Touches(ops[j], s)
    ensures Observe(Run(t, ops), s) == Written(ops[i]).value
    decreases |ops|
  {
    StepObserve(t, ops[0], s);
    if i > 0 {
      RunLastWrite(Step(t, ops[0]), ops[1..], i - 1, s);
    } else {
      RunKeeps(Step(t, ops[0]), ops[1..], s);
    }
  }

  // ---------------------------------------------------------------------------
  // Callbacks as statements

  /** The calls of a callback, statement by statement. */
  function Flatten(stmts: seq<seq<Op>>): seq<Op>
    decreases |stmts|
  {
    if stmts == [] then [] else stmts[0] + Flatten(stmts[1..])
  }

  /** Running the calls of several statements is running the first
      statement, then the rest. */
  lemma RunFlatten(t: Tree, stmts: seq<seq<Op>>)
    requires stmts != []
    ensures Run(t, Flatten(stmts)) == Run(Run(t, stmts[0]), Flatten(stmts[1..]))
  {
    RunAppend(t, stmts[0], Flatten(stmts[1..]));
  }

  lemma {:induction false} FlattenUntouched(stmts: seq<seq<Op>>, s: Slot)
    requires forall m | 0 <= m < |stmts| :: Untouched(stmts[m], s)
    ensures Untouched(Flatten(stmts), s)
    decreases |stmts|
  {
    if stmts != [] {
      FlattenUntouched(stmts[1..], s);
      UntouchedAppend(stmts[0], Flatten(stmts[1..]), s);
    }
  }

  lemma UntouchedAppend(a: seq<Op>, b: seq<Op>, s: Slot)
    requires Untouched(a, s) && Untouched(b, s)
    ensures Untouched(a + b, s)
  {
    UntouchedCalls(a, s);
    UntouchedCalls(b, s);
    forall j | 0 <= j < |a + b|
      ensures !Touches((a + b)[j], s)
    {
      if j < |a| {
        assert (a + b)[j] == a[j];
      } else {
        assert (a + b)[j] == b[j - |a|];
      }
    }
    UntouchedOf(a + b, s);
  }

  /** The last statement touching `s` decides it, through its last call
      touching it. */
  lemma {:induction false} RunStatements(t: Tree, stmts: seq<seq<Op>>, k: nat, i: nat, s: Slot)
    requires k < |stmts| && i < |stmts[k]| && Writes(stmts[k][i], s)
    requires forall j | i < j < |stmts[k]| :: !Touches(stmts[k][j], s)
    requires forall m | k < m < |stmts| :: Untouched(stmts[m], s)
    ensures Observe(Run(t, Flatten(stmts)), s) == Written(stmts[k][i]).value
    decreases |stmts|
  {
    RunAppend(t, stmts[0], Flatten(stmts[1..]));
    if k == 0 {
      RunLastWrite(t, stmts[0], i, s);
      FlattenUntouched(stmts[1..], s);
      RunKeeps(Run(t, stmts[0]), Flatten(stmts[1..]), s);
    } else {
      RunStatements(Run(t, stmts[0]), stmts[1..], k - 1, i, s);
    }
  }

  // ---------------------------------------------------------------------------
  // Keyed collections: keys are listed in the order of their first registration

  /** An ordered collection of the tree. */
  datatype Collection =
    | EntryList
    | ExtensionList
    | ModuleList
    | LoaderModuleList
    | AliasList
    | IncludeList(rule: string)
    | RuleList
    | UseList(rule: string)
    | OneOfList(rule: string)
    | OneOfUseList(rule: string, oneOf: string)
    | PluginList
    | MinimizerList

  function KeysOf(t: Tree, c: Collection): seq<string> {
    match c
    case EntryList => Keys(t.entryPoints)
    case ExtensionList => t.extensions
    case ModuleList => t.modules
    case LoaderModuleList => t.loaderModules
    case AliasList => Keys(t.alias)
    case IncludeList(r) => RuleOf(t.rules, r).includes
    case RuleList => Keys(t.rules)
    case UseList(r) => Keys(RuleOf(t.rules, r).uses)
    case OneOfList(r) => Keys(RuleOf(t.rules, r).oneOfs)
    case OneOfUseList(r, o) => Keys(OneOfUses(t.rules, r, o))
    case PluginList => Keys(t.plugins)
    case MinimizerList => Keys(t.minimizers)
  }

  /** The keys a call registers in `c`, in order (already present ones included). */
  function Adds(op: Op, c: Collection): seq<string> {
    match op
    case AddEntry(name, _) => if c.EntryList? then [name] else []
    case MergeExtensions(xs) => if c.ExtensionList? then xs else []
    case AddModule(p) => if c.ModuleList? then [p] else []
    case AddLoaderModule(p) => if c.LoaderModuleList? then [p] else []
    case SetAlias(k, _) => if c.AliasList? then [k] else []
    case SetRuleTest(r, _) => if c.RuleList? then [r] else []
    case AddRuleInclude(r, p) => if c.RuleList? then [r] else if c == IncludeList(r) then [p] else []
    case AddRuleUse(r, u, _, _) => if c.RuleList? then [r] else if c == UseList(r) then [u] else []
    case AddOneOf(r, o) => if c.RuleList? then [r] else if c == OneOfList(r) then [o] else []
    case AddOneOfUse(r, o, u, _, _) =>
      if c.RuleList? then [r] else if c == OneOfList(r) then [o] else if c == OneOfUseList(r, o) then [u] else []
    case AddPlugin(k, _, _) => if c.PluginList? then [k] else []
    case AddMinimizer(k, _, _) => if c.MinimizerList? then [k] else []
    case _ => []
  }

  /** The keys a sequence of calls registers in `c`, in order. */
  function AddedBy(ops: seq<Op>, c: Collection): seq<string>
    decreases |ops|
  {
    if ops == [] then [] else Adds(ops[0], c) + AddedBy(ops[1..], c)
  }

  lemma StepKeys(t: Tree, op: Op, c: Collection)
    ensures KeysOf(Step(t, op), c) == AddAll(KeysOf(t, c), Adds(op, c))
  {
    match c
    case IncludeList(r) => StepIncludes(t, op, r);
    case RuleList => StepRules(t, op);
    case UseList(r) => StepUses(t, op, r);
    case OneOfList(r) => StepOneOfs(t, op, r);
    case OneOfUseList(r, o) => StepOneOfUses(t, op, r, o);
    case _ => StepTopKeys(t, op, c);
  }

  lemma StepTopKeys(t: Tree, op: Op, c: Collection)
    requires c.EntryList? || c.ExtensionList? || c.ModuleList? || c.LoaderModuleList?
          || c.AliasList? || c.PluginList? || c.MinimizerList?
    ensures KeysOf(Step(t, op), c) == AddAll(KeysOf(t, c), Adds(op, c))
  {
  }

  lemma StepIncludes(t: Tree, op: Op, r: string)
    ensures KeysOf(Step(t, op), IncludeList(r)) == AddAll(KeysOf(t, IncludeList(r)), Adds(op, IncludeList(r)))
  {
  }

  lemma StepRules(t: Tree, op: Op)
    ensures KeysOf(Step(t, op), RuleList) == AddAll(KeysOf(t, RuleList), Adds(op, RuleList))
  {
  }

  lemma StepUses(t: Tree, op: Op, r: string)
    ensures KeysOf(Step(t, op), UseList(r)) == AddAll(KeysOf(t, UseList(r)), Adds(op, UseList(r)))
  {
  }

  lemma StepOneOfs(t: Tree, op: Op, r: string)
    ensures KeysOf(Step(t, op), OneOfList(r)) == AddAll(KeysOf(t, OneOfList(r)), Adds(op, OneOfList(r)))
  {
  }

  lemma StepOneOfUses(t: Tree, op: Op, r: string, o: string)
    ensures KeysOf(Step(t, op), OneOfUseList(r, o)) == AddAll(KeysOf(t, OneOfUseList(r, o)), Adds(op, OneOfUseList(r, o)))
  {
  }

  /** After a sequence of calls a collection lists its old keys, then each
      newly registered key once, in the order of registration. */
  lemma {:induction false} RunKeys(t: Tree, ops: seq<Op>, c: Collection)
    ensures KeysOf(Run(t, ops), c) == AddAll(KeysOf(t, c), AddedBy(ops, c))
    decreases |ops|
  {
    if ops != [] {
      StepKeys(t, ops[0], c);
      RunKeys(Step(t, ops[0]), ops[1..], c);
      AddAllAppend(KeysOf(t, c), Adds(ops[0], c), AddedBy(ops[1..], c));
    }
  }

  /** The keys registered by two or three calls. */
  lemma AddedByTwo(x: Op, y: Op, c: Collection)
    ensures AddedBy([x, y], c) == Adds(x, c) + Adds(y, c)
  {
    assert AddedBy([y], c) == Adds(y, c) by {
      assert [y][1..] == [];
    }
    assert [x, y][1..] == [y];
  }

  lemma AddedByThree(x: Op, y: Op, z: Op, c: Collection)
    ensures AddedBy([x, y, z], c) == Adds(x, c) + Adds(y, c) + Adds(z, c)
  {
    assert [x, y, z][1..] == [y, z];
    AddedByTwo(y, z, c);
  }

  /** Calls that each register the same key `k` in `c` register only `k`. */
  lemma {:induction false} AddedByRepeated(ops: seq<Op>, c: Collection, k: string)
    requires forall j | 0 <= j < |ops| :: Adds(ops[j], c) == [k]
    ensures |AddedBy(ops, c)| == |ops|
    ensures forall i | 0 <= i < |AddedBy(ops, c)| :: AddedBy(ops, c)[i] == k
    decreases |ops|
  {
    if ops != [] {
      AddedByRepeated(ops[1..], c, k);
    }
  }

  /** No call of `ops` registers anything in `c`. */
  predicate Silent(ops: seq<Op>, c: Collection) {
    forall j | 0 <= j < |ops| :: Adds(ops[j], c) == []
  }

  lemma {:induction false} AddedByNone(ops: seq<Op>, c: Collection)
    requires Silent(ops, c)
    ensures AddedBy(ops, c) == []
    decreases |ops|
  {
    if ops != [] {
      AddedByNone(ops[1..], c);
    }
  }

  /** Calls only one of which registers anything in `c`. */
  lemma {:induction false} AddedByOnly(ops: seq<Op>, c: Collection, i: nat)
    requires i < |ops|
    requires forall j | 0 <= j < |ops| && j != i :: Adds(ops[j], c) == []
    ensures AddedBy(ops, c) == Adds(ops[i], c)
    decreases |ops|
  {
    if i == 0 {
      AddedByNone(ops[1..], c);
    } else {
      AddedByOnly(ops[1..], c, i - 1);
    }
  }

  lemma {:induction false} AddedByAppend(a: seq<Op>, b: seq<Op>, c: Collection)
    ensures AddedBy(a + b, c) == AddedBy(a, c) + AddedBy(b, c)
    decreases |a|
  {
    if a == [] {
      assert a + b == b;
    } else {
      assert (a + b)[1..] == a[1..] + b;
      AddedByAppend(a[1..], b, c);
    }
  }

  /** When one statement alone registers keys in `c`, the collection gains
      that statement's keys, in order. */
  lemma {:induction false} RunStatementKeys(t: Tree, stmts: seq<seq<Op>>, k: nat, c: Collection)
    requires k < |stmts|
    requires forall m | 0 <= m < |stmts| && m != k :: AddedBy(stmts[m], c) == []
    ensures KeysOf(Run(t, Flatten(stmts)), c) == AddAll(KeysOf(t, c), AddedBy(stmts[k], c))
  {
    RunKeys(t, Flatten(stmts), c);
    FlattenAdded(stmts, k, c);
  }

  /** The keys each statement registers in `c`, statement after statement. */
  function AddedByEach(stmts: seq<seq<Op>>, c: Collection): seq<string>
    decreases |stmts|
  {
    if stmts == [] then [] else AddedBy(stmts[0], c) + AddedByEach(stmts[1..], c)
  }

  lemma AddedByOne(op: Op, c: Collection)
    ensures AddedBy([op], c) == Adds(op, c)
  {
    assert [op][1..] == [];
  }

  /** Seven statements whose first adds nothing register the keys of the six
      others, one after another. */
  lemma AddedByEachSeven(stmts: seq<seq<Op>>, c: Collection, k1: seq<string>, k2: seq<string>, k3: seq<string>,
                         k4: seq<string>, k5: seq<string>, k6: seq<string>)
    requires |stmts| == 7 && AddedBy(stmts[0], c) == []
    requires AddedBy(stmts[1], c) == k1 && AddedBy(stmts[2], c) == k2 && AddedBy(stmts[3], c) == k3
    requires AddedBy(stmts[4], c) == k4 && AddedBy(stmts[5], c) == k5 && AddedBy(stmts[6], c) == k6
    ensures AddedByEach(stmts, c) == k1 + (k2 + (k3 + (k4 + (k5 + k6))))
  {
    assert stmts[1..][0] == stmts[1] && stmts[2..][0] == stmts[2] && stmts[3..][0] == stmts[3];
    assert stmts[4..][0] == stmts[4] && stmts[5..][0] == stmts[5] && stmts[6..][0] == stmts[6];
    assert stmts[1..][1..] == stmts[2..] && stmts[2..][1..] == stmts[3..] && stmts[3..][1..] == stmts[4..];
    assert stmts[4..][1..] == stmts[5..] && stmts[5..][1..] == stmts[6..] && stmts[6..][1..] == [];
    assert AddedByEach(stmts[6..], c) == k6;
    assert AddedByEach(stmts[5..], c) == k5 + k6;
    assert AddedByEach(stmts[4..], c) == k4 + (k5 + k6);
    assert AddedByEach(stmts[3..], c) == k3 + (k4 + (k5 + k6));
    assert AddedByEach(stmts[2..], c) == k2 + (k3 + (k4 + (k5 + k6)));
  }

  /** Statements run one after another register their keys one after another. */
  lemma {:induction false} FlattenAddedEach(stmts: seq<seq<Op>>, c: Collection)
    ensures AddedBy(Flatten(stmts), c) == AddedByEach(stmts, c)
    decreases |stmts|
  {
    if stmts != [] {
      AddedByAppend(stmts[0], Flatten(stmts[1..]), c);
      FlattenAddedEach(stmts[1..], c);
    }
  }

  lemma {:induction false} FlattenAdded(stmts: seq<seq<Op>>, k: nat, c: Collection)
    requires k < |stmts|
    requires forall m | 0 <= m < |stmts| && m != k :: AddedBy(stmts[m], c) == []
    ensures AddedBy(Flatten(stmts), c) == AddedBy(stmts[k], c)
    decreases |stmts|
  {
    AddedByAppend(stmts[0], Flatten(stmts[1..]), c);
    if k == 0 {
      FlattenSilent(stmts[1..], c);
    } else {
      FlattenAdded(stmts[1..], k - 1, c);
    }
  }

  lemma {:induction false} FlattenSilent(stmts: seq<seq<Op>>, c: Collection)
    requires forall m | 0 <= m < |stmts| :: AddedBy(stmts[m], c) == []
    ensures AddedBy(Flatten(stmts), c) == []
    decreases |stmts|
  {
    if stmts != [] {
      FlattenSilent(stmts[1..], c);
      AddedByAppend(stmts[0], Flatten(stmts[1..]), c);
    }
  }

  /** The builder object that every chain callback receives and mutates. */
  class ChainConfig {
    var tree: Tree

    constructor ()
      ensures tree == EmptyTree
    {
      tree := EmptyTree;
    }

    /** Makes the given builder calls, in order. */
    method Perform(ops: seq<Op>)
      modifies this
      ensures tree == Run(old(tree), ops)
    {
      ghost var start := tree;
      var i := 0;
      while i < |ops|
        invariant 0 <= i <= |ops|
        invariant Run(start, ops) == Run(tree, ops[i..])
      {
        assert ops[i..][1..] == ops[i + 1..];
        tree := Step(tree, ops[i]);
        i := i + 1;
      }
    }

    /** A callback that edits the tree as a whole (a project's own
        `chainWebpack`, whose calls are not visible to the model). */
    method Edit(f: Tree -> Tree)
      modifies this
      ensures tree == f(old(tree))
    {
      tree := f(tree);
    }

    /** `toConfig()`. */
    function ToConfig(): Value
      reads this
    {
      Finalize(tree)
    }
  }

  // ---------------------------------------------------------------------------
  // Finalization (`toConfig`)

  function OptStr(o: Option<string>): Value {
    if o.Some? then Str(o.value) else Undefined
  }

  function StrArr(xs: seq<string>): Value {
    Arr(seq(|xs|, i requires 0 <= i < |xs| => Str(xs[i])))
  }

  function UsesToConfig(us: KeyedMap<Use>): (r: seq<Value>)
    ensures |r| == |us.order|
  {
    seq(|us.order|, i requires 0 <= i < |us.order| =>
      var u := GetOr(us, us.order[i], EmptyUse);
      Plain(map["loader" := OptStr(u.loader), "options" := u.options]))
  }

  function PluginsToConfig(ps: KeyedMap<PluginUse>): (r: seq<Value>)
    ensures |r| == |ps.order|
  {
    seq(|ps.order|, i requires 0 <= i < |ps.order| =>
      var p := GetOr(ps, ps.order[i], PluginUse("", []));
      Plain(map["plugin" := Str(p.plugin), "args" := Arr(p.args)]))
  }

  /** The finalized rules under the name path `parent`: one object per rule,
      in key order, each annotated with its name path, nested alternatives
      under `oneOf` (empty parts are left out, as the builder's clean-up does). */
  function RulesToConfig(rs: KeyedMap<Rule>, parent: seq<string>): (r: seq<Value>)
    ensures |r| == |rs.order|
    ensures forall i :: 0 <= i < |rs.order| ==> r[i].Obj? && r[i].ruleNames == Some(parent + [rs.order[i]])
    decreases rs, 1
  {
    RulesIn(rs, rs.order, parent)
  }

  function RulesIn(rs: KeyedMap<Rule>, ks: seq<string>, parent: seq<string>): (r: seq<Value>)
    ensures |r| == |ks|
    ensures forall i :: 0 <= i < |ks| ==> r[i].Obj? && r[i].ruleNames == Some(parent + [ks[i]])
    decreases rs, 0, |ks|
  {
    if ks == [] then []
    else
      var names := parent + [ks[0]];
      var fields :=
        if ks[0] in rs.entries then
          var rule := rs.entries[ks[0]];
          map["use" := Arr(UsesToConfig(rule.uses))]
          + (if rule.test.Some? then map["test" := Str(rule.test.value)] else map[])
          + (if rule.includes != [] then map["include" := StrArr(rule.includes)] else map[])
          + (if rule.oneOfs.order != [] then map["oneOf" := Arr(RulesToConfig(rule.oneOfs, names))] else map[])
        else map["use" := Arr([])];
      [Obj(fields, Some(names))] + RulesIn(rs, ks[1..], parent)
  }

  function EntryConfig(t: Tree): Value {
    Plain(map k | k in t.entryPoints.entries :: StrArr(t.entryPoints.entries[k]))
  }

  function ResolveConfig(t: Tree): Value {
    Plain(map[
      "extensions" := StrArr(t.extensions),
      "modules" := StrArr(t.modules),
      "alias" := Plain(map k | k in t.alias.entries :: Str(t.alias.entries[k]))])
  }

  function OptimizationConfig(t: Tree): Value {
    Plain(map[
      "minimize" := if t.minimize.Some? then Bool(t.minimize.value) else Undefined,
      "minimizer" := Arr(PluginsToConfig(t.minimizers)),
      "splitChunks" := t.splitChunks])
  }

  /** The plain configuration the bundler consumes. */
  function Finalize(t: Tree): (c: Value)
    ensures c.Obj?
    ensures Prop(Prop(c, "output"), "publicPath") == Lookup(t.output, "publicPath")
    ensures Prop(Prop(c, "module"), "rules") == Arr(RulesToConfig(t.rules, []))
    ensures Prop(c, "mode") == OptStr(t.mode)
  {
    var fields := map[
      "mode" := OptStr(t.mode),
      "context" := OptStr(t.context),
      "devtool" := t.devtool,
      "entry" := EntryConfig(t),
      "resolve" := ResolveConfig(t),
      "resolveLoader" := Plain(map["modules" := StrArr(t.loaderModules)]),
      "plugins" := Arr(PluginsToConfig(t.plugins)),
      "optimization" := OptimizationConfig(t)];
    Plain(fields["output" := Plain(t.output)]["module" := Plain(map["rules" := Arr(RulesToConfig(t.rules, []))])])
  }
}
