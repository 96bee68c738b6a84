/** The memo table of repair projections, keyed by (actual width, expected width, device, dtype). */
module Cache {
  import opened Tensors

  datatype CacheKey = CacheKey(actual: nat, expected: nat, device: Device, dtype: DType)

  type Entries = map<CacheKey, Matrix>

  /** Every stored projection maps its key's actual width to its expected width. */
  ghost predicate WellShaped(entries: Entries)
  {
    forall k :: k in entries ==> IsMatrix(entries[k], k.expected, k.actual)
  }

  predicate NoDuplicates<T(==)>(s: seq<T>)
  {
    forall i, j :: 0 <= i < j < |s| ==> s[i] != s[j]
  }

  function Count<T(==)>(s: seq<T>, x: T): nat
  {
    if s == [] then 0 else (if s[0] == x then 1 else 0) + Count(s[1..], x)
  }

  /** Get-or-build as a value: on a hit the stored projection and the unchanged table; on a miss
      the freshly built `candidate`, now stored under `key`. */
  function Lookup(entries: Entries, key: CacheKey, candidate: Matrix): (r: (Matrix, Entries))
    ensures key in r.1 && r.1[key] == r.0
    ensures key in entries ==> r.0 == entries[key] && r.1 == entries
    ensures key !in entries ==> r.0 == candidate && r.1.Keys == entries.Keys + {key}
    ensures forall k :: k in entries ==> k in r.1 && r.1[k] == entries[k]
  {
    if key in entries then (entries[key], entries) else (candidate, entries[key := candidate])
  }

  /** Once a key is stored, every later lookup of it returns the stored projection and leaves
      the table as it is, whatever would have been built. */
  lemma LookupStable(entries: Entries, key: CacheKey, first: Matrix, later: Matrix)
    ensures var (w, e1) := Lookup(entries, key, first);
      Lookup(e1, key, later) == (w, e1)
  {
  }

  /** A log without duplicates records each key at most once. */
  lemma {:induction false} NoDuplicatesCount<T>(s: seq<T>, x: T)
    requires NoDuplicates(s)
    ensures Count(s, x) <= 1
    ensures Count(s, x) == 1 <==> x in s
  {
    if s != [] {
      assert NoDuplicates(s[1..]);
      NoDuplicatesCount(s[1..], x);
      if s[0] == x {
        assert x !in s[1..] by {
          forall j | 0 <= j < |s[1..]| ensures s[1..][j] != x {
            assert s[0] != s[j + 1];
          }
        }
      }
    }
  }

  /** `projection_cache`: a dict owned by one wrapper instance. The ghost `built` logs every
      construction in order; the invariant says each stored key was built exactly once. */
  class ProjectionCache {
    var entries: Entries
    ghost var built: seq<CacheKey>

    ghost predicate Valid()
      reads this
    {
      NoDuplicates(built) && (forall k :: k in entries <==> k in built) && WellShaped(entries)
    }

    constructor ()
      ensures Valid() && entries == map[] && built == []
    {
      entries := map[];
      built := [];
    }

    /** `projection_cache[key] = projection` for a key not yet present. */
    method Insert(key: CacheKey, w: Matrix)
      requires Valid() && key !in entries
      requires IsMatrix(w, key.expected, key.actual)
      modifies this
      ensures Valid()
      ensures entries == old(entries)[key := w] && built == old(built) + [key]
    {
      entries := entries[key := w];
      built := built + [key];
    }

    /** Under the invariant no key has been constructed twice, and stored keys once. */
    lemma BuiltAtMostOnce(key: CacheKey)
      requires Valid()
      ensures Count(built, key) <= 1
      ensures Count(built, key) == 1 <==> key in entries
    {
      NoDuplicatesCount(built, key);
    }
  }
}
