/**
 * The ordered, key-addressable collections of the chain builder
 * (`webpack-chain`'s ChainedMap and ChainedSet).  A keyed collection keeps
 * its keys in insertion order next to a map from key to value; setting an
 * existing key replaces the value where it stands, so later plugins can look
 * up and modify what earlier plugins registered instead of only appending.
 */
module Keyed {

  datatype KeyedMap<T> = KeyedMap(order: seq<string>, entries: map<string, T>)

  function Empty<T>(): KeyedMap<T> {
    KeyedMap([], map[])
  }

  /** The keys of a collection, in insertion order. */
  function Keys<T>(m: KeyedMap<T>): seq<string> {
    m.order
  }

  /** No key occurs twice. */
  predicate Unique(ks: seq<string>) {
    forall i, j :: 0 <= i < j < |ks| ==> ks[i] != ks[j]
  }

  /** The order lists each key of the map exactly once. */
  ghost predicate Valid<T>(m: KeyedMap<T>) {
    Unique(m.order) && forall k :: k in m.order <==> k in m.entries
  }

  predicate Has<T>(m: KeyedMap<T>, k: string) {
    k in m.entries
  }

  function Get<T>(m: KeyedMap<T>, k: string): T
    requires Has(m, k)
  {
    m.entries[k]
  }

  /** The value under `k`, or `default` when nothing is registered there. */
  function GetOr<T>(m: KeyedMap<T>, k: string, default: T): (r: T)
    ensures Has(m, k) ==> r == Get(m, k)
    ensures !Has(m, k) ==> r == default
  {
    if k in m.entries then m.entries[k] else default
  }

  /** `set(k, v)`: a present key keeps its place and takes the new value; a
      new key goes last. */
  function Put<T>(m: KeyedMap<T>, k: string, v: T): (r: KeyedMap<T>)
    ensures Keys(r) == AddOnce(Keys(m), k)
    ensures Has(r, k) && Get(r, k) == v
  {
    KeyedMap(AddOnce(m.order, k), m.entries[k := v])
  }

  /** Setting `k` leaves every other key with its value. */
  lemma PutOther<T>(m: KeyedMap<T>, k: string, v: T, k': string)
    requires k' != k
    ensures Has(Put(m, k, v), k') == Has(m, k')
    ensures Has(m, k') ==> Get(Put(m, k, v), k') == Get(m, k')
  {
  }

  /** Setting a key keeps a collection well formed. */
  lemma PutValid<T>(m: KeyedMap<T>, k: string, v: T)
    requires Valid(m)
    ensures Valid(Put(m, k, v))
  {
    AddOnceMembers(m.order, k);
  }

  // ---------------------------------------------------------------------------
  // Ordered sets (ChainedSet)

  /** `add(x)`: appends `x` unless it is already present. */
  function AddOnce(s: seq<string>, x: string): (r: seq<string>)
    ensures x in s ==> r == s
    ensures x !in s ==> r == s + [x]
  {
    if x in s then s else s + [x]
  }

  /** An added element is present, and nothing else is added. */
  lemma AddOnceMembers(s: seq<string>, x: string)
    ensures x in AddOnce(s, x)
    ensures forall y :: y in AddOnce(s, x) <==> y in s || y == x
    ensures Unique(s) ==> Unique(AddOnce(s, x))
  {
  }

  predicate IsPrefixSeq(s: seq<string>, r: seq<string>) {
    |s| <= |r| && r[..|s|] == s
  }

  /** `merge(xs)`: adds each of `xs` in turn. */
  function AddAll(s: seq<string>, xs: seq<string>): (r: seq<string>)
    decreases |xs|
  {
    if xs == [] then s else AddAll(AddOnce(s, xs[0]), xs[1..])
  }

  /** Merging adds exactly the given elements, after the existing ones,
      and never duplicates one. */
  lemma {:induction false} AddAllMembers(s: seq<string>, xs: seq<string>)
    ensures forall y :: y in AddAll(s, xs) <==> y in s || y in xs
    ensures Unique(s) ==> Unique(AddAll(s, xs))
    ensures IsPrefixSeq(s, AddAll(s, xs))
    decreases |xs|
  {
    if xs != [] {
      AddOnceMembers(s, xs[0]);
      AddAllMembers(AddOnce(s, xs[0]), xs[1..]);
      assert forall y :: y in xs <==> y == xs[0] || y in xs[1..] by {
        assert xs == [xs[0]] + xs[1..];
      }
    }
  }

  /** Adding distinct new keys lists them after the existing ones, in order. */
  lemma {:induction false} AddAllFresh(s: seq<string>, xs: seq<string>)
    requires Unique(s + xs)
    ensures AddAll(s, xs) == s + xs
    decreases |xs|
  {
    if xs != [] {
      assert xs[0] !in s by {
        forall i | 0 <= i < |s| ensures s[i] != xs[0] {
          assert (s + xs)[i] == s[i] && (s + xs)[|s|] == xs[0];
        }
      }
      assert s + xs == (s + [xs[0]]) + xs[1..];
      AddAllFresh(s + [xs[0]], xs[1..]);
    }
  }

  /** Joining two key lists without a key in common keeps them duplicate-free. */
  lemma UniqueAppend(xs: seq<string>, ys: seq<string>)
    requires Unique(xs) && Unique(ys)
    requires forall i | 0 <= i < |xs| :: xs[i] !in ys
    ensures Unique(xs + ys)
  {
    forall i, j | 0 <= i < j < |xs + ys|
      ensures (xs + ys)[i] != (xs + ys)[j]
    {
      if j >= |xs| && i < |xs| {
        assert (xs + ys)[j] == ys[j - |xs|];
      }
    }
  }

  /** Merging `xs` then `ys` is merging `xs + ys`. */
  lemma {:induction false} AddAllAppend(s: seq<string>, xs: seq<string>, ys: seq<string>)
    ensures AddAll(s, xs + ys) == AddAll(AddAll(s, xs), ys)
    decreases |xs|
  {
    if xs == [] {
      assert xs + ys == ys;
    } else {
      assert (xs + ys)[1..] == xs[1..] + ys;
      AddAllAppend(AddOnce(s, xs[0]), xs[1..], ys);
    }
  }

  /** Re-adding keys already present changes nothing. */
  lemma {:induction false} AddAllPresent(s: seq<string>, xs: seq<string>)
    requires forall i | 0 <= i < |xs| :: xs[i] in s
    ensures AddAll(s, xs) == s
    decreases |xs|
  {
    if xs != [] {
      AddAllPresent(s, xs[1..]);
    }
  }

  /** Adding one key several times is adding it once. */
  lemma AddAllRepeated(s: seq<string>, k: string, xs: seq<string>)
    requires xs != [] && forall i | 0 <= i < |xs| :: xs[i] == k
    ensures AddAll(s, xs) == AddOnce(s, k)
  {
    AddOnceMembers(s, k);
    AddAllPresent(AddOnce(s, k), xs[1..]);
  }
}
