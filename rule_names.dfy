/**
 * Restoring rule-name annotations (`cloneRuleNames` in `scripts/base.js`).
 * The chain builder annotates every finalized rule with its name path; a merge
 * copies only enumerable properties and so loses them.  `cloneRuleNames(to,
 * from)` walks the two rule lists index by index, gives `to[i]` the
 * annotation of `from[i]`, and descends into the nested `oneOf` lists.  The
 * source writes into `to` in place; here the walk returns the updated value.
 */
module RuleNames {
  import opened JsValues

  /** `r.__ruleNames`: the annotation of a rule, absent on anything else. */
  function RuleNamesOf(r: Value): Option<seq<string>> {
    if r.Obj? then r.ruleNames else None
  }

  /** `cloneRuleNames(to, from)`: nothing happens unless both are rule lists. */
  function CloneRuleNames(dest: Value, src: Value): Value
    decreases dest, 1
  {
    if dest.Arr? && src.Arr? then
      Arr(seq(|dest.items|, i requires 0 <= i < |dest.items| => CloneAt(dest.items[i], src.items, i)))
    else dest
  }

  /** One step of the walk: a rule of `dest` with a counterpart in `src` takes
      the counterpart's annotation and its `oneOf` list is walked in turn;
      other entries are left alone. */
  function CloneAt(t: Value, src: seq<Value>, i: nat): Value
    decreases t, 0
  {
    if i < |src| && t.Obj? then
      var fields := if "oneOf" in t.fields
        then t.fields["oneOf" := CloneRuleNames(t.fields["oneOf"], Prop(src[i], "oneOf"))]
        else t.fields;
      Obj(fields, RuleNamesOf(src[i]))
    else t
  }

  // ---------------------------------------------------------------------------
  // What the walk does

  /** Index-aligned: the `i`-th rule takes the `i`-th annotation and its
      `oneOf` list is walked against the counterpart's, while entries past the
      end of `src` (and entries that are not objects) are untouched. */
  lemma CloneAligned(dest: Value, src: Value, i: nat)
    requires dest.Arr? && src.Arr? && i < |dest.items|
    ensures CloneRuleNames(dest, src).Arr? && |CloneRuleNames(dest, src).items| == |dest.items|
    ensures i < |src.items| && dest.items[i].Obj? ==>
      var r := CloneRuleNames(dest, src).items[i];
      r.Obj? && r.ruleNames == RuleNamesOf(src.items[i]) && r.fields.Keys == dest.items[i].fields.Keys
      && Prop(r, "oneOf") == CloneRuleNames(Prop(dest.items[i], "oneOf"), Prop(src.items[i], "oneOf"))
    ensures i >= |src.items| || !dest.items[i].Obj? ==> CloneRuleNames(dest, src).items[i] == dest.items[i]
  {
  }

  /** Without two lists there is nothing to walk. */
  lemma CloneNeedsLists(dest: Value, src: Value)
    requires !dest.Arr? || !src.Arr?
    ensures CloneRuleNames(dest, src) == dest
  {
  }

  /** Only annotations change: the enumerable content is what it was. */
  lemma {:induction false} CloneKeepsContent(dest: Value, src: Value)
    ensures Strip(CloneRuleNames(dest, src)) == Strip(dest)
    decreases dest, 1
  {
    if dest.Arr? && src.Arr? {
      var r := CloneRuleNames(dest, src);
      forall i | 0 <= i < |dest.items|
        ensures Strip(r.items[i]) == Strip(dest.items[i])
      {
        CloneAtKeepsContent(dest.items[i], src.items, i);
      }
      assert Strip(r).items == Strip(dest).items;
    }
  }

  lemma {:induction false} CloneAtKeepsContent(t: Value, src: seq<Value>, i: nat)
    ensures Strip(CloneAt(t, src, i)) == Strip(t)
    decreases t, 0
  {
    if i < |src| && t.Obj? {
      var r := CloneAt(t, src, i);
      assert r.fields.Keys == t.fields.Keys;
      forall k | k in t.fields
        ensures Strip(r.fields[k]) == Strip(t.fields[k])
      {
        if k == "oneOf" {
          CloneKeepsContent(t.fields["oneOf"], Prop(src[i], "oneOf"));
        }
      }
      assert Strip(r).fields == Strip(t).fields;
    }
  }

  // ---------------------------------------------------------------------------
  // Restoring what a merge lost

  /** The shape of finalized rules: a list of objects whose annotations sit
      on the rules themselves and on the rules of their `oneOf` lists only. */
  ghost predicate RuleList(x: Value)
    decreases x, 1
  {
    x.Arr? && forall i :: 0 <= i < |x.items| ==> RuleObject(x.items[i])
  }

  ghost predicate RuleObject(v: Value)
    decreases v, 0
  {
    v.Obj?
    && (forall k :: k in v.fields && k != "oneOf" ==> NoRuleNames(v.fields[k]))
    && ("oneOf" in v.fields ==> RuleList(v.fields["oneOf"]))
  }

  /** Walking the merged copy of a rule list against the list itself puts back
      every annotation the copy lost. */
  lemma {:induction false} CloneRestores(x: Value)
    requires RuleList(x)
    ensures CloneRuleNames(Strip(x), x) == x
    decreases x, 1
  {
    var s := Strip(x);
    var r := CloneRuleNames(s, x);
    forall i | 0 <= i < |x.items|
      ensures r.items[i] == x.items[i]
    {
      assert s.items[i] == Strip(x.items[i]);
      CloneAtRestores(x.items[i], x.items, i);
    }
    assert r.items == x.items;
  }

  lemma {:induction false} CloneAtRestores(v: Value, src: seq<Value>, i: nat)
    requires i < |src| && src[i] == v && RuleObject(v)
    ensures CloneAt(Strip(v), src, i) == v
    decreases v, 0
  {
    var s := Strip(v);
    var r := CloneAt(s, src, i);
    forall k | k in v.fields
      ensures k in r.fields && r.fields[k] == v.fields[k]
    {
      if k == "oneOf" {
        assert Prop(src[i], "oneOf") == v.fields["oneOf"];
        CloneRestores(v.fields["oneOf"]);
      } else {
        StripIdentity(v.fields[k]);
      }
    }
    assert r.fields == v.fields;
  }
}
