/**
 * JavaScript values as the build configuration sees them: options objects,
 * finalized bundler configurations, command arguments.  Two external pieces
 * are given a concrete stand-in here because the core relies on their
 * observable behaviour: the deep merge of `webpack-merge`, which copies only
 * enumerable properties (and so loses the `__ruleNames` annotation), and the
 * string coercion that `process.env` assignments and template strings apply.
 */
module JsValues {

  datatype Option<+T> = None | Some(value: T) {
    function GetOr(default: T): T {
      if Some? then value else default
    }
  }

  datatype Result<+T, +E> = Ok(value: T) | Err(error: E)

  /** A JavaScript value.  `Obj` carries, besides its enumerable fields, the
      non-enumerable `__ruleNames` slot that the chain builder defines on every
      finalized rule.  `Func` stands for a function value by name; what calling
      it does is supplied by the caller where the core calls one. */
  datatype Value =
    | Undefined
    | Null
    | Bool(b: bool)
    | Num(n: int)
    | Str(s: string)
    | Arr(items: seq<Value>)
    | Obj(fields: map<string, Value>, ruleNames: Option<seq<string>>)
    | Func(name: string)

  /** JavaScript truthiness (NaN and -0 are not modelled: numbers are integers). */
  predicate Truthy(v: Value) {
    match v
    case Undefined => false
    case Null => false
    case Bool(b) => b
    case Num(n) => n != 0
    case Str(s) => s != ""
    case _ => true
  }

  /** `v == null` with loose equality. */
  predicate Nullish(v: Value) {
    v.Undefined? || v.Null?
  }

  /** JavaScript `a || b`. */
  function Or(a: Value, b: Value): (r: Value)
    ensures Truthy(a) ==> r == a
    ensures !Truthy(a) ==> r == b
  {
    if Truthy(a) then a else b
  }

  /** A plain object literal: enumerable fields only. */
  function Plain(fields: map<string, Value>): Value {
    Obj(fields, None)
  }

  /** Reading property `key` of a value that is not null or undefined:
      a missing key and a primitive both give undefined. */
  function Prop(v: Value, key: string): Value {
    if v.Obj? && key in v.fields then v.fields[key] else Undefined
  }

  /** Reading `m[key]` from a map of properties. */
  function Lookup(m: map<string, Value>, key: string): Value {
    if key in m then m[key] else Undefined
  }

  /** `Object.assign(target, source)` for an object source; a null or
      undefined source (and, in this model, any non-object) adds nothing. */
  function Assign(target: map<string, Value>, source: Value): (r: map<string, Value>)
    ensures source.Obj? ==> r.Keys == target.Keys + source.fields.Keys
    ensures source.Obj? ==> forall k :: k in source.fields ==> r[k] == source.fields[k]
    ensures forall k :: k in target && (!source.Obj? || k !in source.fields) ==> k in r && r[k] == target[k]
    ensures !source.Obj? ==> r == target
  {
    if source.Obj? then target + source.fields else target
  }

  // ---------------------------------------------------------------------------
  // Copies that lose the rule-name annotation

  /** No object anywhere inside `v` carries a rule-name annotation. */
  ghost predicate NoRuleNames(v: Value) {
    match v
    case Arr(xs) => forall i :: 0 <= i < |xs| ==> NoRuleNames(xs[i])
    case Obj(fs, names) => names.None? && forall k :: k in fs ==> NoRuleNames(fs[k])
    case _ => true
  }

  /** The deep copy that a merge makes: every enumerable property is copied,
      the non-enumerable `__ruleNames` is not. */
  function Strip(v: Value): (r: Value)
    ensures NoRuleNames(r)
    ensures v.Obj? <==> r.Obj?
    ensures v.Arr? <==> r.Arr?
    ensures v.Obj? ==> r.fields.Keys == v.fields.Keys
    ensures v.Arr? ==> |r.items| == |v.items|
    ensures !v.Obj? && !v.Arr? ==> r == v
  {
    match v
    case Arr(xs) => Arr(seq(|xs|, i requires 0 <= i < |xs| => Strip(xs[i])))
    case Obj(fs, _) => Obj(map k | k in fs :: Strip(fs[k]), None)
    case _ => v
  }

  /** Copying a value that carries no annotation gives the value back. */
  lemma {:induction false} StripIdentity(v: Value)
    requires NoRuleNames(v)
    ensures Strip(v) == v
  {
    match v
    case Arr(xs) =>
      forall i | 0 <= i < |xs| ensures Strip(xs[i]) == xs[i] {
        StripIdentity(xs[i]);
      }
    case Obj(fs, _) =>
      forall k | k in fs ensures Strip(fs[k]) == fs[k] {
        StripIdentity(fs[k]);
      }
    case _ =>
  }

  /** Copying twice is copying once. */
  lemma StripIdempotent(v: Value)
    ensures Strip(Strip(v)) == Strip(v)
  {
    StripIdentity(Strip(v));
  }

  /** Stand-in for `webpack-merge`'s `merge(a, b)`: a fresh object in which
      plain objects merge key by key, arrays concatenate, an undefined right
      side keeps the left side, and any other right side wins.  Every part of
      the result is a copy, so no rule-name annotation survives. */
  function DeepMerge(a: Value, b: Value): (r: Value)
    ensures NoRuleNames(r)
    ensures a.Obj? && b.Obj? ==> r.Obj? && r.fields.Keys == a.fields.Keys + b.fields.Keys
    ensures a.Arr? && b.Arr? ==> r.Arr? && |r.items| == |a.items| + |b.items|
    ensures b.Undefined? ==> r == Strip(a)
    ensures !b.Obj? && !b.Arr? && !b.Undefined? ==> r == b
  {
    match (a, b)
    case (Obj(fa, _), Obj(fb, _)) =>
      Obj(map k | k in fa.Keys + fb.Keys ::
            if k in fa && k in fb then DeepMerge(fa[k], fb[k])
            else if k in fb then Strip(fb[k])
            else Strip(fa[k]), None)
    case (Arr(xs), Arr(ys)) => Strip(Arr(xs + ys))
    case (_, Undefined) => Strip(a)
    case _ => Strip(b)
  }

  /** A merge keeps every key of the left object and takes the right object's
      scalar values. */
  lemma MergeRightScalarWins(a: Value, b: Value, k: string)
    requires a.Obj? && b.Obj? && k in b.fields
    requires !b.fields[k].Obj? && !b.fields[k].Arr? && !b.fields[k].Undefined?
    ensures Prop(DeepMerge(a, b), k) == b.fields[k]
  {
  }

  // ---------------------------------------------------------------------------
  // String coercion

  function DigitChar(d: nat): char
    requires d < 10
  {
    "0123456789"[d]
  }

  /** The number a string of decimal digits denotes, most significant digit
      first. */
  function DecimalValue(s: string): nat
    requires forall i :: 0 <= i < |s| ==> '0' <= s[i] <= '9'
  {
    if s == [] then 0 else 10 * DecimalValue(s[..|s| - 1]) + (s[|s| - 1] as int - '0' as int)
  }

  /** Decimal notation of a natural number: digits without a leading zero
      that denote `n`. */
  function NatToString(n: nat): (s: string)
    ensures |s| >= 1
    ensures forall i :: 0 <= i < |s| ==> '0' <= s[i] <= '9'
    ensures |s| > 1 ==> s[0] != '0'
    ensures DecimalValue(s) == n
  {
    if n < 10 then [DigitChar(n)]
    else
      var prefix := NatToString(n / 10);
      var s := prefix + [DigitChar(n % 10)];
      assert s[..|s| - 1] == prefix;
      s
  }

  function IntToString(i: int): string {
    if i < 0 then "-" + NatToString(-i) else NatToString(i)
  }

  /** `String(v)`, as a template string or a `process.env` assignment applies
      it; an array joins its elements with commas, null and undefined
      elements giving the empty string. */
  function JsString(v: Value): string {
    match v
    case Undefined => "undefined"
    case Null => "null"
    case Bool(b) => if b then "true" else "false"
    case Num(n) => IntToString(n)
    case Str(s) => s
    case Arr(xs) => JoinElements(xs)
    case Obj(_, _) => "[object Object]"
    case Func(name) => "function " + name
  }

  function JoinElements(xs: seq<Value>): string
    decreases xs
  {
    if xs == [] then ""
    else
      var head := if Nullish(xs[0]) then "" else JsString(xs[0]);
      if |xs| == 1 then head else head + "," + JoinElements(xs[1..])
  }

  predicate IsPrefix(p: string, s: string) {
    |p| <= |s| && s[..|p|] == p
  }
}
