/**
 The field context of a logger: a map from string keys to arbitrary values
 (`Fields`, a `map[string]interface{}` in the Go package), with the operations
 that copy it, merge new entries into a copy, and flatten it into the
 alternating key/value list the base emitter takes.

 Go's map iteration order is unspecified; every loop below takes its next key
 with `:|`, so the proofs hold for every iteration order.
 */
module Fields {

  /** Keys the base emitter writes itself and that Flatten never re-emits. */
  const Ignore: set<string> := {"@timestamp", "message", "level", "service"}

  /** One cell of the untyped slice Flatten builds: a key, or the value after it. */
  datatype Elem<V> = KeyElem(key: string) | ValueElem(value: V)

  /** Reference meaning of Merge: every key of either map, the new value winning. */
  function Merged<V>(f: map<string, V>, nv: map<string, V>): (r: map<string, V>)
    ensures r.Keys == f.Keys + nv.Keys
    ensures forall k :: k in nv ==> r[k] == nv[k]
    ensures forall k :: k in f && k !in nv ==> r[k] == f[k]
  {
    f + nv
  }

  /** The entries of `f` that Flatten emits: all but the reserved keys. */
  function Kept<V>(f: map<string, V>): (r: map<string, V>)
    ensures r.Keys == f.Keys - Ignore
    ensures forall k :: k in r ==> r[k] == f[k]
  {
    f - Ignore
  }

  /** A map seen as its set of (key, value) pairs. */
  function Entries<V(==)>(m: map<string, V>): (entries: set<(string, V)>)
  {
    set k | k in m :: (k, m[k])
  }

  /** A flattened list: key, value, key, value, ... */
  predicate Alternating<V>(list: seq<Elem<V>>)
    decreases |list|
  {
    list == [] || (|list| >= 2 && list[0].KeyElem? && list[1].ValueElem? && Alternating(list[2..]))
  }

  /** The (key, value) pairs of an alternating list, in list order. */
  function PairsOf<V>(list: seq<Elem<V>>): (pairs: seq<(string, V)>)
    requires Alternating(list)
    decreases |list|
  {
    if list == [] then [] else [(list[0].key, list[1].value)] + PairsOf(list[2..])
  }

  /** Copy (fields.go): a new map holding exactly the entries of `f`. */
  method Copy<V>(f: map<string, V>) returns (r: map<string, V>)
    ensures r.Keys == f.Keys
    ensures forall k :: k in f ==> r[k] == f[k]
  {
    r := map[];
    var rest := f.Keys;
    while rest != {}
      invariant rest <= f.Keys
      invariant r.Keys == f.Keys - rest
      invariant forall k :: k in r ==> r[k] == f[k]
      decreases rest
    {
      var k :| k in rest;
      r := r[k := f[k]];
      rest := rest - {k};
    }
    assert r.Keys == f.Keys;
  }

  /** Merge (fields.go): a copy of `f` with every entry of `nv` written over it. */
  method Merge<V>(f: map<string, V>, nv: map<string, V>) returns (r: map<string, V>)
    ensures r == Merged(f, nv)
  {
    r := Copy(f);
    assert r == f;
    var rest := nv.Keys;
    while rest != {}
      invariant rest <= nv.Keys
      invariant r.Keys == f.Keys + (nv.Keys - rest)
      invariant forall k :: k in r ==> r[k] == if k in nv && k !in rest then nv[k] else f[k]
      decreases rest
    {
      var k :| k in rest;
      r := r[k := nv[k]];
      rest := rest - {k};
    }
  }

  /**
   The buffer pool behind Flatten (`flattenPool`): a free list of buffers.
   A pool that only ever received buffers from PutFlatten holds empty ones.
   */
  class FlattenPool<V> {
    var free: seq<seq<Elem<V>>>

    ghost predicate Valid()
      reads this
    {
      forall i :: 0 <= i < |free| ==> free[i] == []
    }

    constructor ()
      ensures Valid() && free == []
    {
      free := [];
    }

    /** Hands out the most recently returned buffer, or a new empty one. */
    method Get() returns (buf: seq<Elem<V>>)
      modifies this
      ensures old(free) == [] ==> buf == [] && free == []
      ensures old(free) != [] ==> buf == old(free)[|old(free)| - 1] && free == old(free)[..|old(free)| - 1]
      ensures old(Valid()) ==> Valid() && buf == []
    {
      if free == [] {
        buf := [];
      } else {
        buf := free[|free| - 1];
        free := free[..|free| - 1];
      }
    }

    method Put(buf: seq<Elem<V>>)
      modifies this
      ensures free == old(free) + [buf]
    {
      free := free + [buf];
    }
  }

  /** putFlatten (fields.go): gives the buffer back truncated to length 0. */
  method PutFlatten<V>(pool: FlattenPool<V>, flatten: seq<Elem<V>>)
    modifies pool
    ensures pool.free == old(pool.free) + [[]]
    ensures old(pool.Valid()) ==> pool.Valid()
  {
    pool.Put(flatten[..0]);
  }

  /** The pairs Flatten has emitted once it has visited the keys in `seen`. */
  ghost function EmittedFor<V>(f: map<string, V>, seen: set<string>): set<(string, V)>
  {
    set k | k in seen && k in f && k !in Ignore :: (k, f[k])
  }

  /**
   Flatten (fields.go): one key/value pair for every entry of `f` whose key is
   not reserved, in some order, appended to a buffer taken from the pool.
   */
  method Flatten<V(==)>(f: map<string, V>, pool: FlattenPool<V>) returns (list: seq<Elem<V>>)
    requires pool.Valid()
    modifies pool
    ensures pool.Valid()
    ensures pool.free == if old(pool.free) == [] then [] else old(pool.free)[..|old(pool.free)| - 1]
    ensures Alternating(list)
    ensures multiset(PairsOf(list)) == multiset(Entries(Kept(f)))
    ensures |list| == 2 * |f.Keys - Ignore|
  {
    list := pool.Get();
    var rest := f.Keys;
    while rest != {}
      invariant rest <= f.Keys
      invariant FlattenedSoFar(list, f, f.Keys - rest)
      modifies {}
      decreases rest
    {
      var k :| k in rest;
      FlattenStep(list, f, rest, k);
      if k !in Ignore {
        list := list + [KeyElem(k), ValueElem(f[k])];
      }
      rest := rest - {k};
    }
    FlattenedAll(list, f);
  }

  /** Flatten's loop invariant: `list` holds exactly the kept entries among the keys in `seen`. */
  ghost predicate FlattenedSoFar<V>(list: seq<Elem<V>>, f: map<string, V>, seen: set<string>)
  {
    Alternating(list) && multiset(PairsOf(list)) == multiset(EmittedFor(f, seen))
  }

  /** One iteration of Flatten's loop keeps its invariant. */
  lemma FlattenStep<V>(list: seq<Elem<V>>, f: map<string, V>, rest: set<string>, k: string)
    requires rest <= f.Keys && k in rest
    requires FlattenedSoFar(list, f, f.Keys - rest)
    ensures k in Ignore ==> FlattenedSoFar(list, f, f.Keys - (rest - {k}))
    ensures k !in Ignore ==> FlattenedSoFar(list + [KeyElem(k), ValueElem(f[k])], f, f.Keys - (rest - {k}))
  {
    var seen := f.Keys - rest;
    assert f.Keys - (rest - {k}) == seen + {k};
    EmittedGrows(f, seen, k);
    if k !in Ignore {
      AppendPair(list, k, f[k]);
    }
  }

  /** When every key has been visited, the invariant is Flatten's postcondition. */
  lemma FlattenedAll<V>(list: seq<Elem<V>>, f: map<string, V>)
    requires FlattenedSoFar(list, f, f.Keys - {})
    ensures Alternating(list)
    ensures multiset(PairsOf(list)) == multiset(Entries(Kept(f)))
    ensures |list| == 2 * |f.Keys - Ignore|
  {
    assert f.Keys - {} == f.Keys;
    EmittedAll(f);
    FlattenedLength(list, f);
  }

  lemma EmittedAll<V>(f: map<string, V>)
    ensures EmittedFor(f, f.Keys) == Entries(Kept(f))
  {
    forall p | p in EmittedFor(f, f.Keys)
      ensures p in Entries(Kept(f))
    {
      var k :| k in f && k !in Ignore && p == (k, f[k]);
      assert k in Kept(f);
    }
  }

  /** Visiting one more key adds its pair, unless the key is reserved. */
  lemma EmittedGrows<V>(f: map<string, V>, seen: set<string>, k: string)
    requires k in f && k !in seen
    ensures k in Ignore ==> EmittedFor(f, seen + {k}) == EmittedFor(f, seen)
    ensures k !in Ignore ==> (k, f[k]) !in EmittedFor(f, seen)
    ensures k !in Ignore ==> multiset(EmittedFor(f, seen + {k})) == multiset(EmittedFor(f, seen)) + multiset{(k, f[k])}
  {
    if k !in Ignore {
      assert EmittedFor(f, seen + {k}) == EmittedFor(f, seen) + {(k, f[k])};
    }
  }

  /** An alternating list whose pairs are the kept entries of `f` has two cells per kept key. */
  lemma FlattenedLength<V>(list: seq<Elem<V>>, f: map<string, V>)
    requires Alternating(list)
    requires multiset(PairsOf(list)) == multiset(Entries(Kept(f)))
    ensures |list| == 2 * |f.Keys - Ignore|
  {
    PairsCount(list);
    EntriesCount(Kept(f));
    assert |multiset(PairsOf(list))| == |PairsOf(list)|;
    assert |multiset(Entries(Kept(f)))| == |Entries(Kept(f))|;
  }

  lemma {:induction false} PairsCount<V>(list: seq<Elem<V>>)
    requires Alternating(list)
    ensures |list| == 2 * |PairsOf(list)|
    decreases |list|
  {
    if list != [] {
      PairsCount(list[2..]);
    }
  }

  /** A map has as many entries as keys. */
  lemma {:induction false} EntriesCount<V>(m: map<string, V>)
    ensures |Entries(m)| == |m|
    decreases |m|
  {
    if m != map[] {
      var k :| k in m;
      var rest := m - {k};
      EntriesCount(rest);
      forall p | p in Entries(m)
        ensures p in Entries(rest) + {(k, m[k])}
      {
        var j :| j in m && p == (j, m[j]);
        if j != k {
          assert j in rest;
        }
      }
      assert Entries(m) == Entries(rest) + {(k, m[k])};
      assert (k, m[k]) !in Entries(rest);
      assert m.Keys == rest.Keys + {k};
    }
  }

  lemma {:induction false} AppendPair<V>(list: seq<Elem<V>>, k: string, v: V)
    requires Alternating(list)
    ensures Alternating(list + [KeyElem(k), ValueElem(v)])
    ensures PairsOf(list + [KeyElem(k), ValueElem(v)]) == PairsOf(list) + [(k, v)]
    decreases |list|
  {
    var tail := [KeyElem(k), ValueElem(v)];
    if list == [] {
      assert list + tail == tail;
      assert tail[2..] == [];
    } else {
      assert (list + tail)[2..] == list[2..] + tail;
      AppendPair(list[2..], k, v);
    }
  }

  /**
   What Flatten's multiset postcondition means pair by pair: a pair is emitted
   iff it is an entry of `f` with a non-reserved key.
   */
  lemma FlattenedMembers<V>(list: seq<Elem<V>>, f: map<string, V>)
    requires Alternating(list)
    requires multiset(PairsOf(list)) == multiset(Entries(Kept(f)))
    ensures forall i :: 0 <= i < |PairsOf(list)| ==>
      var (k, v) := PairsOf(list)[i]; k in f && k !in Ignore && v == f[k]
    ensures forall k :: k in f && k !in Ignore ==> (k, f[k]) in PairsOf(list)
  {
    var ps := PairsOf(list);
    forall i | 0 <= i < |ps|
      ensures ps[i].0 in f && ps[i].0 !in Ignore && ps[i].1 == f[ps[i].0]
    {
      assert ps[i] in multiset(ps);
      assert ps[i] in Entries(Kept(f));
    }
    forall k | k in f && k !in Ignore
      ensures (k, f[k]) in ps
    {
      assert k in Kept(f);
      assert (k, f[k]) in Entries(Kept(f));
      assert (k, f[k]) in multiset(ps);
    }
  }

  /** Flatten emits no key twice. */
  lemma FlattenedKeysDistinct<V>(list: seq<Elem<V>>, f: map<string, V>)
    requires Alternating(list)
    requires multiset(PairsOf(list)) == multiset(Entries(Kept(f)))
    ensures forall i, j :: 0 <= i < j < |PairsOf(list)| ==> PairsOf(list)[i].0 != PairsOf(list)[j].0
  {
    var ps := PairsOf(list);
    FlattenedMembers(list, f);
    forall i, j | 0 <= i < j < |ps|
      ensures ps[i].0 != ps[j].0
    {
      if ps[i].0 == ps[j].0 {
        assert ps[i] == ps[j];
        TwiceInSeq(ps, i, j);
        assert false;
      }
    }
  }

  lemma TwiceInSeq<T>(s: seq<T>, i: nat, j: nat)
    requires i < j < |s| && s[i] == s[j]
    ensures multiset(s)[s[j]] >= 2
  {
    assert s == s[..j] + [s[j]] + s[j + 1..];
    assert s[i] == s[..j][i];
    assert s[j] in multiset(s[..j]);
  }

  /** Flattening a map that holds only reserved keys yields nothing. */
  lemma FlattenedReservedOnly<V>(list: seq<Elem<V>>, f: map<string, V>)
    requires f.Keys <= Ignore
    requires Alternating(list)
    requires multiset(PairsOf(list)) == multiset(Entries(Kept(f)))
    ensures list == []
  {
    FlattenedLength(list, f);
    assert f.Keys - Ignore == {};
  }

  /** Merging nothing gives back the same map. */
  lemma MergedEmpty<V>(f: map<string, V>)
    ensures Merged(f, map[]) == f
  {
  }

  /** A later merge that covers every key of an earlier one hides it completely. */
  lemma MergedOverride<V>(f: map<string, V>, a: map<string, V>, b: map<string, V>)
    requires a.Keys <= b.Keys
    ensures Merged(Merged(f, a), b) == Merged(f, b)
  {
    var l, r := Merged(Merged(f, a), b), Merged(f, b);
    assert l.Keys == r.Keys;
    forall k | k in l
      ensures l[k] == r[k]
    {
    }
  }

  /** Merging twice is merging once with the merge of the two updates. */
  lemma MergedTwice<V>(f: map<string, V>, a: map<string, V>, b: map<string, V>)
    ensures Merged(Merged(f, a), b) == Merged(f, Merged(a, b))
  {
    var l, r := Merged(Merged(f, a), b), Merged(f, Merged(a, b));
    assert l.Keys == r.Keys;
    forall k | k in l
      ensures l[k] == r[k]
    {
    }
  }

  /** The "ignore fields" case: only "1" and "namespace" survive the reserved-key filter. */
  lemma KeptDropsReserved<V>(one: V, ns: V, x: V)
    ensures Entries(Kept(map["1" := one, "namespace" := ns, "@timestamp" := x,
                             "message" := x, "level" := x, "service" := x]))
         == {("1", one), ("namespace", ns)}
  {
    var f := map["1" := one, "namespace" := ns, "@timestamp" := x, "message" := x, "level" := x, "service" := x];
    assert Kept(f).Keys == {"1", "namespace"};
    assert Kept(f) == map["1" := one, "namespace" := ns];
  }
}
