/**
 * `BeatStreamable<TKey, TPayload>`: construction-time validation, the
 * choice of pipe in `CreatePipe`, and the two users of the specialization
 * cache, `CanGenerateColumnar` and `GetPipe`. The Beat pipes themselves and
 * the code generator `BeatTemplate.Generate` are not part of this model:
 * pipes are tagged values and the generator is a caller-supplied value that
 * either returns a specialization or throws.
 */
module Beat {
  import opened Types
  import opened PipeCaching

  /** An `IEqualityComparerExpression<T>`: the C# text of its equality
      expression and whether it supports payload equality in columnar mode. */
  datatype EqualityComparer = EqualityComparer(equalsText: string, canUsePayloadEquality: bool)

  /** The parts of `StreamProperties<TKey, TPayload>` this operator reads. */
  datatype StreamProperties = StreamProperties(
    isColumnar: bool,
    keyEqualityComparer: EqualityComparer,
    payloadEqualityComparer: EqualityComparer)

  /** The `BeatPlanNode` a generated pipe reports. */
  datatype PlanNode = BeatPlanNode(
    keyType: ClrType, payloadType: ClrType,
    offset: int, period: int,
    isGenerated: bool, errorMessages: Option<string>)

  /** The pipes `CreatePipe` can build. */
  datatype Pipe =
    | RowBeatPipe(offset: int, period: int)
    | PartitionedBeatPipe(partitionType: ClrType, offset: int, period: int)
    | GeneratedBeatPipe(handle: TypeHandle, plan: PlanNode, offset: int, period: int)

  const ColumnarEqualityMessagePrefix: string := "Type of payload, '"
  const ColumnarEqualityMessageSuffix: string := "', to Beat does not have a valid equality operator for columnar mode."

  /** The check of the three-argument constructor: a columnar stream needs
      a payload comparer usable in columnar mode. `fullName` renders
      `typeof(TPayload).FullName`. */
  function ColumnarComparerCheck(properties: StreamProperties, payloadType: ClrType, fullName: ClrType -> string)
    : (r: Option<Error>)
    ensures r.Some? <==> properties.isColumnar && !properties.payloadEqualityComparer.canUsePayloadEquality
    ensures r.Some? ==> r.value == InvalidOperation(ColumnarEqualityMessagePrefix + fullName(payloadType) + ColumnarEqualityMessageSuffix)
  {
    if properties.isColumnar && !properties.payloadEqualityComparer.canUsePayloadEquality
    then Some(InvalidOperation(ColumnarEqualityMessagePrefix + fullName(payloadType) + ColumnarEqualityMessageSuffix))
    else None
  }

  /** The cache key built by both `CanGenerateColumnar` and `GetPipe`. */
  function LookupKey(properties: StreamProperties): (k: CacheKey)
    ensures k.keyEquality == properties.keyEqualityComparer.equalsText
    ensures k.payloadEquality == properties.payloadEqualityComparer.equalsText
  {
    CacheKey(properties.keyEqualityComparer.equalsText, properties.payloadEqualityComparer.equalsText)
  }

  /** Two operators share a cache entry exactly when the texts of their key
      and payload equality expressions coincide; columnar-ness and
      `canUsePayloadEquality` play no part. */
  lemma LookupKeyIsTextual(p: StreamProperties, q: StreamProperties)
    ensures LookupKey(p) == LookupKey(q) <==>
      (p.keyEqualityComparer.equalsText == q.keyEqualityComparer.equalsText &&
       p.payloadEqualityComparer.equalsText == q.payloadEqualityComparer.equalsText)
  {
  }

  /** `Activator.CreateInstance(generatedPipeType.Item1, ...)` in `GetPipe`:
      the generated pipe with its plan node, or `ArgumentNullException` for
      a null type. */
  function InstantiateGenerated(cached: Specialization, keyType: ClrType, payloadType: ClrType, offset: int, period: int)
    : (r: Result<Pipe, Error>)
    ensures r.Failure? <==> cached.handle.None?
    ensures r.Failure? ==> r.error == ArgumentNull("type")
    ensures r.Success? ==>
      && r.value.GeneratedBeatPipe?
      && r.value.handle == cached.handle.value
      && r.value.offset == offset && r.value.period == period
      && r.value.plan == BeatPlanNode(keyType, payloadType, offset, period, true, cached.diagnostics)
  {
    match cached.handle
    case None => Failure(ArgumentNull("type"))
    case Some(h) => Success(GeneratedBeatPipe(h, BeatPlanNode(keyType, payloadType, offset, period, true, cached.diagnostics), offset, period))
  }

  /** What `GetPipe` returns for the outcome of its cache lookup: the
      generator's exception, or the instantiated cached type. */
  function PipeFromCache(cached: Result<Specialization, Error>, keyType: ClrType, payloadType: ClrType, offset: int, period: int)
    : (r: Result<Pipe, Error>)
    ensures cached.Failure? ==> r == Failure(cached.error)
    ensures r.Success? <==> cached.Success? && cached.value.handle.Some?
    ensures r.Success? ==> r.value.GeneratedBeatPipe? && r.value.handle == cached.value.handle.value && r.value.plan.isGenerated
  {
    match cached
    case Failure(e) => Failure(e)
    case Success(s) => InstantiateGenerated(s, keyType, payloadType, offset, period)
  }

  /** The selection `CreatePipe` makes. `cached` is the outcome of the cache
      lookup in `GetPipe`; it is consulted only for an unpartitioned key over
      a columnar source. */
  function SelectPipe(keyType: ClrType, payloadType: ClrType, sourceIsColumnar: bool, cached: Result<Specialization, Error>, offset: int, period: int)
    : (r: Result<Pipe, Error>)
    ensures keyType.PartitionKey? ==> r == Success(PartitionedBeatPipe(keyType.key, offset, period))
    ensures !keyType.PartitionKey? && !sourceIsColumnar ==> r == Success(RowBeatPipe(offset, period))
    ensures !keyType.PartitionKey? && sourceIsColumnar ==>
      && (cached.Failure? ==> r == Failure(cached.error))
      && (r.Success? <==> cached.Success? && cached.value.handle.Some?)
      && (r.Success? ==> r.value.GeneratedBeatPipe? && r.value.handle == cached.value.handle.value && r.value.plan.isGenerated)
  {
    match PartitionTypeOf(keyType)
    case Some(p) => Success(PartitionedBeatPipe(p, offset, period))
    case None =>
      if sourceIsColumnar then PipeFromCache(cached, keyType, payloadType, offset, period)
      else Success(RowBeatPipe(offset, period))
  }

  /** A partitioned key always gets the partitioned pipe, parameterised by
      the partition type, whether or not the source is columnar and whatever
      the cache holds. */
  lemma PartitionedIgnoresLayoutAndCache(
    keyType: ClrType, payloadType: ClrType, c1: bool, c2: bool,
    s1: Result<Specialization, Error>, s2: Result<Specialization, Error>, offset: int, period: int)
    requires keyType.PartitionKey?
    ensures SelectPipe(keyType, payloadType, c1, s1, offset, period) == SelectPipe(keyType, payloadType, c2, s2, offset, period)
    ensures SelectPipe(keyType, payloadType, c1, s1, offset, period).value.partitionType == PartitionTypeOf(keyType).value
  {
  }

  /** Once `CanGenerateColumnar` has found a generated type for a key, a later
      `GetPipe` through the same cache selects exactly that type, whatever its
      own generator would produce: the second lookup is a hit. */
  lemma CheckThenCreateUsesCachedType(
    entries: map<CacheKey, Specialization>, properties: StreamProperties,
    keyType: ClrType, payloadType: ClrType,
    g1: Result<Specialization, Error>, g2: Result<Specialization, Error>, offset: int, period: int)
    requires !keyType.PartitionKey?
    requires Lookup(entries, LookupKey(properties), g1).0.Success?
    requires Lookup(entries, LookupKey(properties), g1).0.value.handle.Some?
    ensures var (first, after) := Lookup(entries, LookupKey(properties), g1);
            var second := Lookup(after, LookupKey(properties), g2).0;
            && second == first
            && SelectPipe(keyType, payloadType, true, second, offset, period)
               == Success(GeneratedBeatPipe(first.value.handle.value,
                    BeatPlanNode(keyType, payloadType, offset, period, true, first.value.diagnostics), offset, period))
  {
    LookupIsStable(entries, LookupKey(properties), g1, g2);
  }

  class BeatStreamable {
    /** `this.Source.Properties`. */
    const source: StreamProperties
    /** `this.Properties`: the source's, with the operator's payload comparer. */
    const properties: StreamProperties
    const keyType: ClrType
    const payloadType: ClrType
    const offset: int
    const period: int
    /** The static `cachedPipes` of this (TKey, TPayload) instantiation. */
    const cache: PipeCache
    /** The `errorMessages` field inherited from the base streamable. */
    var errorMessages: Option<string>

    ghost predicate Valid()
      reads this, cache
    {
      && period > 0
      && cache.keyType == keyType && cache.payloadType == payloadType
      && cache.Valid()
    }

    /** The four-argument constructor: `period` must be positive; `Offset`
        and `Period` are stored unchanged. */
    constructor WithComparer(
      source: StreamProperties, keyType: ClrType, payloadType: ClrType,
      offset: int, period: int, payloadComparer: EqualityComparer, cache: PipeCache)
      requires period > 0
      requires cache.Valid() && cache.keyType == keyType && cache.payloadType == payloadType
      ensures Valid()
      ensures this.source == source && properties == source.(payloadEqualityComparer := payloadComparer)
      ensures this.keyType == keyType && this.payloadType == payloadType && this.cache == cache
      ensures this.offset == offset && this.period == period
      ensures errorMessages == None
    {
      this.source := source;
      this.properties := source.(payloadEqualityComparer := payloadComparer);
      this.keyType := keyType;
      this.payloadType := payloadType;
      this.offset := offset;
      this.period := period;
      this.cache := cache;
      errorMessages := None;
    }

    /** The three-argument constructor: uses the source's own payload
        comparer and throws `InvalidOperationException` when the stream is
        columnar and that comparer cannot be used in columnar mode. */
    static method Create(
      source: StreamProperties, keyType: ClrType, payloadType: ClrType,
      offset: int, period: int, cache: PipeCache, fullName: ClrType -> string)
      returns (r: Result<BeatStreamable, Error>)
      requires period > 0
      requires cache.Valid() && cache.keyType == keyType && cache.payloadType == payloadType
      ensures r.Failure? <==> ColumnarComparerCheck(source, payloadType, fullName).Some?
      ensures r.Failure? ==> r.error == ColumnarComparerCheck(source, payloadType, fullName).value
      ensures r.Success? ==>
        && fresh(r.value) && r.value.Valid() && r.value.cache == cache
        && r.value.source == source && r.value.properties == source
        && r.value.keyType == keyType && r.value.payloadType == payloadType
        && r.value.offset == offset && r.value.period == period
    {
      var b := new BeatStreamable.WithComparer(source, keyType, payloadType, offset, period, source.payloadEqualityComparer, cache);
      var check := ColumnarComparerCheck(b.properties, payloadType, fullName);
      if check.Some? {
        r := Failure(check.value);
      } else {
        r := Success(b);
      }
    }

    /** Whether a generated columnar pipe is available: never for a
        partitioned key (the cache is not touched then); otherwise the cached
        entry decides, and its diagnostics become `errorMessages`. An
        exception from the generator propagates before `errorMessages` is
        assigned. */
    method CanGenerateColumnar(generate: () -> Result<Specialization, Error>) returns (r: Result<bool, Error>)
      requires Valid()
      modifies this, cache
      ensures Valid()
      ensures keyType.PartitionKey? ==>
        && r == Success(false) && errorMessages == old(errorMessages)
        && cache.entries == old(cache.entries) && cache.synthesized == old(cache.synthesized)
      ensures !keyType.PartitionKey? ==>
        var (e, after) := Lookup(old(cache.entries), LookupKey(properties), generate());
        && cache.entries == after
        && (e.Failure? ==> r == Failure(e.error) && errorMessages == old(errorMessages))
        && (e.Success? ==> r == Success(e.value.handle.Some?) && errorMessages == e.value.diagnostics)
    {
      if PartitionTypeOf(keyType).Some? {
        return Success(false);
      }
      var e := cache.GetOrAdd(LookupKey(properties), generate);
      if e.Failure? {
        return Failure(e.error);
      }
      errorMessages := e.value.diagnostics;
      r := Success(e.value.handle.Some?);
    }

    /** The generated columnar pipe: the cached type, instantiated with a plan
        node reporting `Offset`, `Period`, specialized mode and the cached
        diagnostics; or the generator's exception. */
    method GetPipe(generate: () -> Result<Specialization, Error>) returns (r: Result<Pipe, Error>)
      requires Valid()
      modifies cache
      ensures Valid()
      ensures var (e, after) := Lookup(old(cache.entries), LookupKey(properties), generate());
              && cache.entries == after
              && r == PipeFromCache(e, keyType, payloadType, offset, period)
    {
      var e := cache.GetOrAdd(LookupKey(properties), generate);
      if e.Failure? {
        return Failure(e.error);
      }
      r := InstantiateGenerated(e.value, keyType, payloadType, offset, period);
    }

    /** Builds the pipe for an observer: partitioned, row-based, or the
        generated columnar pipe from the cache. The cache is consulted only
        for an unpartitioned key over a columnar source. */
    method CreatePipe(generate: () -> Result<Specialization, Error>) returns (r: Result<Pipe, Error>)
      requires Valid()
      modifies cache
      ensures Valid()
      ensures var (e, after) := Lookup(old(cache.entries), LookupKey(properties), generate());
              && r == SelectPipe(keyType, payloadType, source.isColumnar, e, offset, period)
              && cache.entries == (if !keyType.PartitionKey? && source.isColumnar then after else old(cache.entries))
    {
      var p := PartitionTypeOf(keyType);
      if p.None? {
        if source.isColumnar {
          r := GetPipe(generate);
        } else {
          r := Success(RowBeatPipe(offset, period));
        }
        return;
      }
      r := Success(PartitionedBeatPipe(p.value, offset, period));
    }
  }
}
