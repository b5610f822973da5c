/**
 * The `cachedPipes` get-or-add cache of the Beat operator: a static
 * dictionary from a cache key (the C# text of the key-equality and the
 * payload-equality expressions) to the result of code generation. Being a
 * static field of a generic class, there is one such cache per
 * (TKey, TPayload) instantiation; `PipeCache` records that instantiation.
 */
module PipeCaching {
  import opened Types

  /** `CacheKey.Create(keyEqualsText, payloadEqualsText)`. */
  datatype CacheKey = CacheKey(keyEquality: string, payloadEquality: string)

  /** One get-or-add on a cache whose entries are `entries`: what the call
      returns (or throws) and the entries afterwards. `generated` is what the
      generator would return or throw; it is used only when `key` is missing.
      A generator that throws leaves the cache as it was and the exception
      propagates to the caller. */
  function Lookup(entries: map<CacheKey, Specialization>, key: CacheKey, generated: Result<Specialization, Error>)
    : (r: (Result<Specialization, Error>, map<CacheKey, Specialization>))
    ensures r.0.Success? ==> key in r.1 && r.0.value == r.1[key]
    ensures r.0.Failure? <==> key !in entries && generated.Failure?
    ensures r.0.Failure? ==> r.1 == entries
    ensures r.1.Keys == entries.Keys + (if r.0.Success? then {key} else {})
    ensures forall k :: k in entries ==> k in r.1 && r.1[k] == entries[k]
    ensures key !in entries ==> r.0 == generated
  {
    if key in entries then (Success(entries[key]), entries)
    else if generated.Success? then (generated, entries[key := generated.value])
    else (generated, entries)
  }

  /** Once a get-or-add of a key has returned, a second one returns the same
      entry, leaves the cache as it is and ignores its generator: a generation
      that returned a null type is cached like a successful one and never
      retried. */
  lemma LookupIsStable(entries: map<CacheKey, Specialization>, key: CacheKey, g1: Result<Specialization, Error>, g2: Result<Specialization, Error>)
    requires Lookup(entries, key, g1).0.Success?
    ensures var first := Lookup(entries, key, g1);
            Lookup(first.1, key, g2) == first
  {
  }

  /** A get-or-add whose generator threw stores nothing, so the next
      get-or-add of that key runs its own generator as if it were the first. */
  lemma LookupRetriesAfterThrow(entries: map<CacheKey, Specialization>, key: CacheKey, g1: Result<Specialization, Error>, g2: Result<Specialization, Error>)
    requires Lookup(entries, key, g1).0.Failure?
    ensures var first := Lookup(entries, key, g1);
            && Lookup(first.1, key, g2) == Lookup(entries, key, g2)
            && Lookup(first.1, key, g2).0 == g2
  {
  }

  /** The state of a cache after a sequence of get-or-adds. */
  datatype Run = Run(entries: map<CacheKey, Specialization>, results: seq<Result<Specialization, Error>>, synthesized: seq<CacheKey>)

  /** Get-or-add `keys[0]`, `keys[1]`, ... in order; call `i` would generate
      `generated[i]` on a miss. `synthesized` lists the keys whose generated
      entry was stored, in order. */
  function RunLookups(entries: map<CacheKey, Specialization>, keys: seq<CacheKey>, generated: seq<Result<Specialization, Error>>): (r: Run)
    requires |keys| == |generated|
    ensures |r.results| == |keys|
    ensures keys != [] ==> r.results[0] == Lookup(entries, keys[0], generated[0]).0
    decreases |keys|
  {
    if keys == [] then Run(entries, [], [])
    else
      var (e, next) := Lookup(entries, keys[0], generated[0]);
      var rest := RunLookups(next, keys[1..], generated[1..]);
      Run(rest.entries, [e] + rest.results, (if keys[0] !in entries && e.Success? then [keys[0]] else []) + rest.synthesized)
  }

  /** The keys of the calls, among `keys`, that returned rather than threw. */
  function Returned(keys: seq<CacheKey>, results: seq<Result<Specialization, Error>>): set<CacheKey>
    requires |keys| == |results|
    decreases |keys|
  {
    if keys == [] then {}
    else (if results[0].Success? then {keys[0]} else {}) + Returned(keys[1..], results[1..])
  }

  predicate Distinct<T(==)>(s: seq<T>) {
    forall i, j :: 0 <= i < j < |s| ==> s[i] != s[j]
  }

  function Elements<T>(s: seq<T>): set<T> {
    set i | 0 <= i < |s| :: s[i]
  }

  /** Over any sequence of get-or-adds the cache only grows: it ends up
      holding the keys it held plus the keys of the calls that returned, and
      an entry once stored is never removed or replaced. */
  lemma {:induction false} RunOnlyGrows(entries: map<CacheKey, Specialization>, keys: seq<CacheKey>, generated: seq<Result<Specialization, Error>>)
    requires |keys| == |generated|
    ensures var r := RunLookups(entries, keys, generated);
            && r.entries.Keys == entries.Keys + Returned(keys, r.results)
            && (forall k :: k in entries ==> r.entries[k] == entries[k])
    decreases |keys|
  {
    if keys != [] {
      var next := Lookup(entries, keys[0], generated[0]).1;
      RunOnlyGrows(next, keys[1..], generated[1..]);
      var r := RunLookups(entries, keys, generated);
      assert r.results[1..] == RunLookups(next, keys[1..], generated[1..]).results;
    }
  }

  /** Every call that returned observed the one entry finally stored for its
      key, whatever its own generator would have produced; every call that
      threw threw what its own generator threw. */
  lemma {:induction false} RunCallersAgree(entries: map<CacheKey, Specialization>, keys: seq<CacheKey>, generated: seq<Result<Specialization, Error>>)
    requires |keys| == |generated|
    ensures var r := RunLookups(entries, keys, generated);
            forall i :: 0 <= i < |keys| ==>
              && (r.results[i].Success? ==> keys[i] in r.entries && r.results[i].value == r.entries[keys[i]])
              && (r.results[i].Failure? ==> r.results[i] == generated[i])
    decreases |keys|
  {
    if keys != [] {
      var next := Lookup(entries, keys[0], generated[0]).1;
      RunCallersAgree(next, keys[1..], generated[1..]);
      RunOnlyGrows(next, keys[1..], generated[1..]);
      var rest := RunLookups(next, keys[1..], generated[1..]);
      var r := RunLookups(entries, keys, generated);
      forall i | 0 <= i < |keys|
        ensures r.results[i].Success? ==> keys[i] in r.entries && r.results[i].value == r.entries[keys[i]]
        ensures r.results[i].Failure? ==> r.results[i] == generated[i]
      {
        if i > 0 {
          assert r.results[i] == rest.results[i - 1] && keys[i] == keys[1..][i - 1] && generated[i] == generated[1..][i - 1];
        }
      }
    }
  }

  lemma ElementsOfConcat<T>(a: seq<T>, b: seq<T>)
    ensures Elements(a + b) == Elements(a) + Elements(b)
  {
    forall x | x in Elements(a + b) ensures x in Elements(a) + Elements(b) {
      var i :| 0 <= i < |a + b| && (a + b)[i] == x;
      if i >= |a| { assert b[i - |a|] == x; }
    }
    forall x | x in Elements(a) ensures x in Elements(a + b) {
      var i :| 0 <= i < |a| && a[i] == x;
      assert (a + b)[i] == x;
    }
    forall x | x in Elements(b) ensures x in Elements(a + b) {
      var i :| 0 <= i < |b| && b[i] == x;
      assert (a + b)[i + |a|] == x;
    }
  }

  lemma DistinctPrepend<T>(x: T, s: seq<T>)
    requires Distinct(s) && x !in Elements(s)
    ensures Distinct([x] + s)
  {
    forall i, j | 0 <= i < j < |[x] + s|
      ensures ([x] + s)[i] != ([x] + s)[j]
    {
      assert ([x] + s)[j] == s[j - 1];
      if i == 0 { assert s[j - 1] in Elements(s); }
    }
  }

  /** Over any sequence of get-or-adds, a generated entry is stored at most
      once per key, only for keys that were missing, and for every key that
      was added. */
  lemma {:induction false} RunGeneratesOncePerKey(entries: map<CacheKey, Specialization>, keys: seq<CacheKey>, generated: seq<Result<Specialization, Error>>)
    requires |keys| == |generated|
    ensures var r := RunLookups(entries, keys, generated);
            && Distinct(r.synthesized)
            && Elements(r.synthesized) == r.entries.Keys - entries.Keys
    decreases |keys|
  {
    if keys != [] {
      var next := Lookup(entries, keys[0], generated[0]).1;
      RunGeneratesOncePerKey(next, keys[1..], generated[1..]);
      RunOnlyGrows(next, keys[1..], generated[1..]);
      var rest := RunLookups(next, keys[1..], generated[1..]);
      var e := Lookup(entries, keys[0], generated[0]).0;
      var head: seq<CacheKey> := if keys[0] !in entries && e.Success? then [keys[0]] else [];
      ElementsOfConcat(head, rest.synthesized);
      if head != [] {
        DistinctPrepend(keys[0], rest.synthesized);
      } else {
        assert head + rest.synthesized == rest.synthesized;
      }
    }
  }

  /**
   * The static `cachedPipes` dictionary of one `BeatStreamable<TKey, TPayload>`
   * instantiation. `synthesized` records, in order, every key whose
   * generated entry was stored.
   */
  class PipeCache {
    const keyType: ClrType
    const payloadType: ClrType
    var entries: map<CacheKey, Specialization>
    ghost var synthesized: seq<CacheKey>

    /** Each stored key was generated exactly once, and only stored keys were. */
    ghost predicate Valid()
      reads this
    {
      && Distinct(synthesized)
      && (forall i :: 0 <= i < |synthesized| ==> synthesized[i] in entries)
      && (forall k :: k in entries ==> k in synthesized)
    }

    /** The static initializer: an empty dictionary. */
    constructor (keyType: ClrType, payloadType: ClrType)
      ensures Valid()
      ensures this.keyType == keyType && this.payloadType == payloadType
      ensures entries == map[] && synthesized == []
    {
      this.keyType := keyType;
      this.payloadType := payloadType;
      entries := map[];
      synthesized := [];
    }

    /** `GetOrAdd(key, generator)`: the stored entry on a hit; on a miss the
        generator's result, which is stored, or the generator's exception,
        which leaves the cache unchanged. Entries are never removed. */
    method GetOrAdd(key: CacheKey, synthesize: () -> Result<Specialization, Error>) returns (e: Result<Specialization, Error>)
      requires Valid()
      modifies this
      ensures Valid()
      ensures (e, entries) == Lookup(old(entries), key, synthesize())
      ensures synthesized == if key in old(entries) || e.Failure? then old(synthesized) else old(synthesized) + [key]
    {
      if key in entries {
        e := Success(entries[key]);
      } else {
        e := synthesize();
        if e.Success? {
          entries := entries[key := e.value];
          synthesized := synthesized + [key];
        }
      }
    }
  }
}
