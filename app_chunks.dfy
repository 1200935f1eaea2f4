/**
 * The chunk ordering and naming the application plugin (`config/app.js`)
 * installs: the patch of the HTML plugin's chunk sorters that falls back to a
 * manual sort when the dependency sort throws, the comparator of that manual
 * sort, and the stable names given to chunks.
 */
module ChunkSort {
  import opened JsValues

  /** What the comparator and the chunk namer read of a chunk: its id,
      whether it is an entry chunk, its name (`""` when it has none) and the
      ids of its modules. */
  datatype Chunk = Chunk(id: string, entry: bool, name: string, moduleIds: seq<string>)

  /** The id of the user's entry chunk. */
  const AppChunk := "app"

  /** The fallback comparator: `app` after everything, and between two other
      chunks whose entry flags differ, the non-entry chunk first. */
  function Compare(a: Chunk, b: Chunk): int {
    if a.id == AppChunk then 1
    else if b.id == AppChunk then -1
    else if a.entry != b.entry then (if b.entry then -1 else 1)
    else 0
  }

  /** The position class the comparator sorts by. */
  function Rank(c: Chunk): nat {
    if c.id == AppChunk then 2 else if c.entry then 1 else 0
  }

  /** Unless both chunks are `app`, the comparator orders by rank. */
  lemma CompareByRank(a: Chunk, b: Chunk)
    requires a.id != AppChunk || b.id != AppChunk
    ensures Compare(a, b) < 0 <==> Rank(a) < Rank(b)
    ensures Compare(a, b) == 0 <==> Rank(a) == Rank(b)
    ensures Compare(a, b) > 0 <==> Rank(a) > Rank(b)
  {
  }

  /** `app` compares greater than any other chunk, from either side. */
  lemma CompareAppLast(a: Chunk, b: Chunk)
    requires a.id == AppChunk && b.id != AppChunk
    ensures Compare(a, b) == 1 && Compare(b, a) == -1
  {
  }

  /** Between two other chunks with different entry flags the non-entry
      chunk comes first; equal flags compare equal. */
  lemma CompareEntries(a: Chunk, b: Chunk)
    requires a.id != AppChunk && b.id != AppChunk
    ensures !a.entry && b.entry ==> Compare(a, b) == -1
    ensures a.entry && !b.entry ==> Compare(a, b) == 1
    ensures a.entry == b.entry ==> Compare(a, b) == 0
  {
  }

  // ---------------------------------------------------------------------------
  // The fallback sort

  /** The chunks of rank `k`, in their original order. */
  function OfRank(cs: seq<Chunk>, k: nat): seq<Chunk>
    decreases |cs|
  {
    if cs == [] then [] else (if Rank(cs[0]) == k then [cs[0]] else []) + OfRank(cs[1..], k)
  }

  /** `chunks.sort(comparator)`: a stable sort by the comparator, which for
      chunks with at most one `app` is the stable sort by rank. */
  function FallbackSort(cs: seq<Chunk>): seq<Chunk> {
    OfRank(cs, 0) + OfRank(cs, 1) + OfRank(cs, 2)
  }

  lemma {:induction false} OfRankRanks(cs: seq<Chunk>, k: nat)
    ensures forall i | 0 <= i < |OfRank(cs, k)| :: Rank(OfRank(cs, k)[i]) == k
    decreases |cs|
  {
    if cs != [] {
      OfRankRanks(cs[1..], k);
    }
  }

  lemma {:induction false} OfRankAppend(a: seq<Chunk>, b: seq<Chunk>, k: nat)
    ensures OfRank(a + b, k) == OfRank(a, k) + OfRank(b, k)
    decreases |a|
  {
    if a == [] {
      assert a + b == b;
    } else {
      assert (a + b)[1..] == a[1..] + b;
      OfRankAppend(a[1..], b, k);
    }
  }

  /** Selecting one rank from chunks all of rank `j` keeps them all or none. */
  lemma {:induction false} OfRankOfRank(cs: seq<Chunk>, j: nat, k: nat)
    ensures OfRank(OfRank(cs, j), k) == if j == k then OfRank(cs, j) else []
    decreases |cs|
  {
    if cs != [] {
      var head := if Rank(cs[0]) == j then [cs[0]] else [];
      OfRankAppend(head, OfRank(cs[1..], j), k);
      OfRankOfRank(cs[1..], j, k);
      if head != [] {
        assert head[1..] == [];
      }
    }
  }

  /** No chunk has rank `k`: none is selected. */
  lemma {:induction false} OfRankNone(cs: seq<Chunk>, k: nat)
    requires forall j | 0 <= j < |cs| :: Rank(cs[j]) != k
    ensures OfRank(cs, k) == []
    decreases |cs|
  {
    if cs != [] {
      OfRankNone(cs[1..], k);
    }
  }

  /** The chunks of rank `k` are those of `cs` with that rank. */
  lemma {:induction false} OfRankMembers(cs: seq<Chunk>, k: nat)
    ensures forall c :: c in OfRank(cs, k) <==> c in cs && Rank(c) == k
    decreases |cs|
  {
    if cs != [] {
      OfRankMembers(cs[1..], k);
      assert forall c :: c in cs <==> c == cs[0] || c in cs[1..] by {
        assert cs == [cs[0]] + cs[1..];
      }
    }
  }

  lemma OfRankStep(cs: seq<Chunk>, k: nat)
    requires cs != []
    ensures multiset(OfRank(cs, k)) ==
      (if Rank(cs[0]) == k then multiset{cs[0]} else multiset{}) + multiset(OfRank(cs[1..], k))
  {
  }

  lemma {:induction false} OfRankMultiset(cs: seq<Chunk>)
    ensures multiset(OfRank(cs, 0)) + multiset(OfRank(cs, 1)) + multiset(OfRank(cs, 2)) == multiset(cs)
    decreases |cs|
  {
    if cs != [] {
      OfRankMultiset(cs[1..]);
      assert multiset(cs) == multiset{cs[0]} + multiset(cs[1..]) by {
        assert cs == [cs[0]] + cs[1..];
      }
      OfRankStep(cs, 0);
      OfRankStep(cs, 1);
      OfRankStep(cs, 2);
      var k0 := Rank(cs[0]);
      if k0 == 0 {
        assert multiset(OfRank(cs, 0)) == multiset{cs[0]} + multiset(OfRank(cs[1..], 0));
      } else if k0 == 1 {
        assert multiset(OfRank(cs, 1)) == multiset{cs[0]} + multiset(OfRank(cs[1..], 1));
      } else {
        assert multiset(OfRank(cs, 2)) == multiset{cs[0]} + multiset(OfRank(cs[1..], 2));
      }
    }
  }

  /** The fallback sort reorders the chunks, adding and losing none. */
  lemma FallbackPermutation(cs: seq<Chunk>)
    ensures multiset(FallbackSort(cs)) == multiset(cs)
  {
    OfRankMultiset(cs);
  }

  /** The fallback sort is stable: the chunks of each rank keep their order. */
  lemma FallbackStable(cs: seq<Chunk>, k: nat)
    ensures OfRank(FallbackSort(cs), k) == OfRank(cs, k)
  {
    OfRankAppend(OfRank(cs, 0) + OfRank(cs, 1), OfRank(cs, 2), k);
    OfRankAppend(OfRank(cs, 0), OfRank(cs, 1), k);
    OfRankOfRank(cs, 0, k);
    OfRankOfRank(cs, 1, k);
    OfRankOfRank(cs, 2, k);
    if k > 2 {
      OfRankNone(cs, k);
    }
  }

  /** The result lists the chunks of rank 0, then of rank 1, then of rank 2. */
  lemma FallbackRankAt(cs: seq<Chunk>, i: nat)
    requires i < |FallbackSort(cs)|
    ensures var n0, n1 := |OfRank(cs, 0)|, |OfRank(cs, 1)|;
      Rank(FallbackSort(cs)[i]) == (if i < n0 then 0 else if i < n0 + n1 then 1 else 2)
  {
    OfRankRanks(cs, 0);
    OfRankRanks(cs, 1);
    OfRankRanks(cs, 2);
  }

  /** Ranks never decrease along the result. */
  lemma FallbackRanksSorted(cs: seq<Chunk>)
    ensures var r := FallbackSort(cs);
      forall i, j | 0 <= i < j < |r| :: Rank(r[i]) <= Rank(r[j])
  {
    var r := FallbackSort(cs);
    forall i, j | 0 <= i < j < |r|
      ensures Rank(r[i]) <= Rank(r[j])
    {
      FallbackRankAt(cs, i);
      FallbackRankAt(cs, j);
    }
  }

  /** At most one chunk of rank 2 when at most one chunk is `app`. */
  lemma {:induction false} OneApp(cs: seq<Chunk>)
    requires forall i, j | 0 <= i < j < |cs| :: cs[i].id != AppChunk || cs[j].id != AppChunk
    ensures |OfRank(cs, 2)| <= 1
    decreases |cs|
  {
    if cs != [] {
      OneApp(cs[1..]);
      if cs[0].id == AppChunk {
        forall j | 0 <= j < |cs[1..]|
          ensures Rank(cs[1..][j]) != 2
        {
          assert cs[1..][j] == cs[j + 1];
        }
        OfRankNone(cs[1..], 2);
      }
    }
  }

  /** With at most one `app` chunk, the result is ordered by the comparator. */
  lemma FallbackOrdered(cs: seq<Chunk>)
    requires forall i, j | 0 <= i < j < |cs| :: cs[i].id != AppChunk || cs[j].id != AppChunk
    ensures var r := FallbackSort(cs);
      forall i, j | 0 <= i < j < |r| :: Compare(r[i], r[j]) <= 0
  {
    var r := FallbackSort(cs);
    OneApp(cs);
    forall i, j | 0 <= i < j < |r|
      ensures Compare(r[i], r[j]) <= 0
    {
      FallbackRankAt(cs, i);
      FallbackRankAt(cs, j);
      CompareByRank(r[i], r[j]);
    }
  }

  /** When there is an `app` chunk, the result ends with it. */
  lemma FallbackAppLast(cs: seq<Chunk>, i: nat)
    requires i < |cs| && cs[i].id == AppChunk
    ensures var r := FallbackSort(cs);
      |r| > 0 && r[|r| - 1].id == AppChunk
  {
    OfRankMembers(cs, 2);
    OfRankRanks(cs, 2);
    assert cs[i] in OfRank(cs, 2);
    var r := FallbackSort(cs);
    assert r[|r| - 1] == OfRank(cs, 2)[|OfRank(cs, 2)| - 1];
  }

  // ---------------------------------------------------------------------------
  // The patched sorters

  /** A chunk sorter: one of the HTML plugin's own, or the patch around the
      sorter that was installed as `dependency` when patching. */
  datatype Sorter = Original(sorterName: string) | FallbackPatch(inner: Sorter)

  /** Sorting with a sorter: `None` when it throws.  The HTML plugin's own
      sorters are given as `original`. */
  function SortWith(s: Sorter, original: (string, seq<Chunk>) -> Option<seq<Chunk>>, cs: seq<Chunk>): Option<seq<Chunk>>
    decreases s
  {
    match s
    case Original(name) => original(name, cs)
    case FallbackPatch(inner) =>
      var r := SortWith(inner, original, cs);
      if r.Some? then r else Some(FallbackSort(cs))
  }

  /** The HTML plugin's own sorter under all the patches. */
  function Unpatched(s: Sorter): Sorter
    decreases s
  {
    if s.FallbackPatch? then Unpatched(s.inner) else s
  }

  /** A patched sorter never throws; it returns what the sorter it wraps
      returns when that does not throw, and the fallback sort otherwise. */
  lemma PatchedSort(s: Sorter, original: (string, seq<Chunk>) -> Option<seq<Chunk>>, cs: seq<Chunk>)
    ensures SortWith(FallbackPatch(s), original, cs).Some?
    ensures SortWith(s, original, cs).Some? ==> SortWith(FallbackPatch(s), original, cs) == SortWith(s, original, cs)
    ensures SortWith(s, original, cs).None? ==> SortWith(FallbackPatch(s), original, cs) == Some(FallbackSort(cs))
  {
  }

  /** Patching again, as each configuration resolution does, behaves as
      patching once. */
  lemma {:induction false} PatchesCollapse(s: Sorter, original: (string, seq<Chunk>) -> Option<seq<Chunk>>, cs: seq<Chunk>)
    requires s.FallbackPatch?
    ensures SortWith(s, original, cs) == SortWith(FallbackPatch(Unpatched(s)), original, cs)
    decreases s
  {
    if s.inner.FallbackPatch? {
      PatchesCollapse(s.inner, original, cs);
      PatchedSort(Unpatched(s.inner), original, cs);
    }
  }

  /** The HTML plugin's chunk sorters, a module-level table that the patch
      overwrites. */
  class ChunkSorters {
    var auto: Sorter
    var dependency: Sorter

    constructor ()
      ensures auto == Original("auto") && dependency == Original("dependency")
    {
      auto := Original("auto");
      dependency := Original("dependency");
    }

    /** `chunkSorters.auto = chunkSorters.dependency = patched`, where the
        patch wraps the current `dependency`. */
    method Patch()
      modifies this
      ensures dependency == FallbackPatch(old(dependency))
      ensures auto == dependency
    {
      var depSort := dependency;
      dependency := FallbackPatch(depSort);
      auto := dependency;
    }
  }

  // ---------------------------------------------------------------------------
  // Stable chunk names

  /** `xs.join(sep)`. */
  function JoinWith(xs: seq<string>, sep: string): string
    decreases |xs|
  {
    if xs == [] then "" else if |xs| == 1 then xs[0] else xs[0] + sep + JoinWith(xs[1..], sep)
  }

  /** The `named-chunks` callback: a chunk's own name, or `chunk-` followed by
      the hash of its module ids joined by `_`; the hash function is given. */
  function NamedChunkId(c: Chunk, hash: string -> string): (r: string)
    ensures c.name != "" ==> r == c.name
    ensures c.name == "" ==> IsPrefix("chunk-", r)
  {
    if c.name != "" then c.name else "chunk-" + hash(JoinWith(c.moduleIds, "_"))
  }

  /** Unnamed chunks with the same modules get the same id, so rebuilding
      keeps the ids of unchanged chunks. */
  lemma NamedChunkIdStable(c: Chunk, d: Chunk, hash: string -> string)
    requires c.name == "" && d.name == "" && c.moduleIds == d.moduleIds
    ensures NamedChunkId(c, hash) == NamedChunkId(d, hash)
  {
  }
}
