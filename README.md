# Beat operator dispatch and temporal-array egress code generation (Trill)

This project models two parts of the specialization core of the Trill
temporal stream-processing engine and proves properties of the model.

**Beat operator** (`Operators/Beat/BeatStreamable.cs`). A Beat operator
injects heartbeat events at a fixed `Offset`/`Period` cadence. The model
covers:

- construction: a positive period, and for the three-argument constructor,
  a payload comparer usable in columnar mode when the stream is columnar;
- `CreatePipe`, which picks one of three pipes: the partitioned pipe
  (parameterised by the partition type), the row-based `BeatPipe`, or a
  generated columnar pipe;
- `CanGenerateColumnar` and `GetPipe`, which use the static `cachedPipes`
  get-or-add cache.

The cache is keyed by the C# text of the key-equality and payload-equality
expressions. It stores a (generated type or null, diagnostics) pair, so a
generation that returned a null type is cached too. The model assumes that a
generator that throws stores nothing, as `ConcurrentDictionary.GetOrAdd`
behaves: the exception reaches the caller of `CanGenerateColumnar` or
`GetPipe`, and the next lookup of that key runs the generator again
(`SafeConcurrentDictionary` itself is not part of this model). The
cache is a static field of a generic class, so there is one cache per
(TKey, TPayload) instantiation. The model makes it a `PipeCache` object that
every operator of that instantiation shares. A ghost log of stored
generations shows that, within one sequential run of lookups, a generated
entry is stored at most once per key. `RunLookups` and its three lemmas
prove the same over any sequence of lookups.

**Temporal-array egress template**
(`Egress/TemporalArray/TemporalArrayEgressTransformer.cs`). The model covers:

- the template constructor, which names the generated class from a static
  `int` counter that it reads and then increments;
- the derived strings `partitionKeyArgument`, `genericArguments`, `egress`
  and `inputKey`, and the key type of the batch class;
- the shared shape of the six `Generate` overloads: build the template,
  expand it, compile it and look up the generated class. On an exception,
  `Generate` either rethrows as `InvalidOperationException`
  (`DontFallBackToRowBasedExecution`) or returns a null type with the
  compiler's messages.

The counter is a C# `int` incremented with unchecked `++`, so the model (module `Int32Counter`)
wraps it at `int.MaxValue`. Class names are proved pairwise distinct for
fewer than 2^32 constructions. `ClassNameRepeatsAfterWrap` shows that this
bound is tight.

Reflection becomes data. A CLR type is the datatype `ClrType`
(`Empty | PartitionKey(k) | Named(n)`), and `GetPartitionType` is
`PartitionTypeOf`. The foreign collaborators are parameters:

- `BeatTemplate.Generate` is a function value that returns a
  `Specialization` or throws (a `Result`);
- `TypeMapper.CSharpNameFor`, `TransformText` and
  `Transformer.CompileSourceCode` are the fields of a `Backend` value;
- `ExpressionToCSharp` output is a given string in each `EqualityComparer`.

Three behaviours of the code are worth noting:

- `CreatePipe` does not fall back to `BeatPipe` when the cached type is
  null. It calls `GetPipe` whenever `Source.Properties.IsColumnar` holds
  (`BeatStreamable.cs:49`), and `Activator.CreateInstance(null, ...)` then
  throws `ArgumentNullException` (`BeatStreamable.cs:80`). The model returns
  that error (`SelectPipe`, `PipeFromCache`, `InstantiateGenerated`). The
  base class's `Initialize()` presumably keeps `CreatePipe` off this path,
  for example by making the source row-based. It is not part of this model.
- In `Generate`, a compilation that succeeds but does not define the class
  returns a null type with the compiler's messages without throwing, even in
  strict mode. The model keeps this (`GenerateOutcome`, `GenerateFallsBack`).
- A partitioned egress overload whose key type is `Empty` gets a batch class
  keyed by `Empty`, because the constructor tests `tKey == typeof(Empty)`.
  Its `inputKey` and referenced key type are still `PartitionKey<Empty>`.
  `BatchKeyMatchesInputKey` proves that the two agree for every other
  overload, and `PartitionedEmptyKeyMismatch` shows this exception.

## Model

| member | source | states |
|---|---|---|
| Types.PartitionTypeOf | Sources/Core/Microsoft.StreamProcessing/Operators/Beat/BeatStreamable.cs:46 | a key type has a partition type exactly when it is `PartitionKey<p>`, and that type is `p` |
| PipeCaching.Lookup | Sources/Core/Microsoft.StreamProcessing/Operators/Beat/BeatStreamable.cs:67 | get-or-add: a hit returns the stored entry; a miss returns the generator's value and stores it, or rethrows the generator's exception and stores nothing; no other entry changes |
| PipeCaching.LookupIsStable | Sources/Core/Microsoft.StreamProcessing/Operators/Beat/BeatStreamable.cs:75-77 | once a lookup of a key has returned, a repeated lookup returns the same entry and leaves the cache unchanged, whatever its generator; a cached null type is never regenerated |
| PipeCaching.LookupRetriesAfterThrow | Sources/Core/Microsoft.StreamProcessing/Operators/Beat/BeatStreamable.cs:67 | after a lookup whose generator threw, the cache is as before, so the next lookup of that key runs its own generator |
| PipeCaching.RunLookups | Sources/Core/Microsoft.StreamProcessing/Operators/Beat/BeatStreamable.cs:67 | a run of lookups performs them in order and yields one outcome per lookup, the first being that lookup's get-or-add |
| PipeCaching.RunOnlyGrows | Sources/Core/Microsoft.StreamProcessing/Operators/Beat/BeatStreamable.cs:14-15 | over any sequence of lookups the cache ends with its old keys plus the keys of the lookups that returned, and no stored entry is removed or replaced |
| PipeCaching.RunCallersAgree | Sources/Core/Microsoft.StreamProcessing/Operators/Beat/BeatStreamable.cs:67 | over any sequence of lookups, every lookup that returned observes the one entry finally stored for its key, and every lookup that threw threw its own generator's exception |
| PipeCaching.RunGeneratesOncePerKey | Sources/Core/Microsoft.StreamProcessing/Operators/Beat/BeatStreamable.cs:77 | in one sequential run of lookups a generated entry is stored at most once per key, and exactly for the keys that were added |
| PipeCaching.PipeCache.constructor | Sources/Core/Microsoft.StreamProcessing/Operators/Beat/BeatStreamable.cs:14-15 | the static cache of one (TKey, TPayload) instantiation starts empty |
| PipeCaching.PipeCache.GetOrAdd | Sources/Core/Microsoft.StreamProcessing/Operators/Beat/BeatStreamable.cs:67 | returns the stored entry on a hit; on a miss returns the generator's result and stores it, or rethrows its exception and stores nothing; logs a stored generation only then; keeps the once-per-key invariant |
| Beat.ColumnarComparerCheck | Sources/Core/Microsoft.StreamProcessing/Operators/Beat/BeatStreamable.cs:24-27 | construction fails exactly when the stream is columnar and the payload comparer cannot use payload equality, with the source's message naming the payload type |
| Beat.LookupKey | Sources/Core/Microsoft.StreamProcessing/Operators/Beat/BeatStreamable.cs:65 | the cache key is made of the key-equality text and the payload-equality text of the operator's properties |
| Beat.LookupKeyIsTextual | Sources/Core/Microsoft.StreamProcessing/Operators/Beat/BeatStreamable.cs:65 | two operators share a cache key exactly when their key- and payload-equality texts coincide |
| Beat.InstantiateGenerated | Sources/Core/Microsoft.StreamProcessing/Operators/Beat/BeatStreamable.cs:78-81 | a non-null cached type gives the generated pipe whose plan node reports key/payload types, Offset, Period, specialized = true and the cached diagnostics; a null type gives ArgumentNullException |
| Beat.PipeFromCache | Sources/Core/Microsoft.StreamProcessing/Operators/Beat/BeatStreamable.cs:77-81 | GetPipe rethrows the generator's exception, and otherwise yields the generated pipe exactly when the cached type is non-null |
| Beat.SelectPipe | Sources/Core/Microsoft.StreamProcessing/Operators/Beat/BeatStreamable.cs:44-55 | partitioned key gives the partitioned pipe on its partition type; unpartitioned row source gives BeatPipe; unpartitioned columnar source gives the cached generated pipe, rethrows the generator's exception, and fails exactly when no non-null type was obtained |
| Beat.PartitionedIgnoresLayoutAndCache | Sources/Core/Microsoft.StreamProcessing/Operators/Beat/BeatStreamable.cs:53-54 | for a partitioned key the selected pipe depends neither on columnar-ness nor on the cache, and carries the discovered partition type |
| Beat.CheckThenCreateUsesCachedType | Sources/Core/Microsoft.StreamProcessing/Operators/Beat/BeatStreamable.cs:73-80 | after CanGenerateColumnar's lookup found a type, GetPipe's lookup with the same key returns that entry, so the generated pipe is built on that type |
| Beat.BeatStreamable.WithComparer | Sources/Core/Microsoft.StreamProcessing/Operators/Beat/BeatStreamable.cs:31-42 | requires a positive period; stores Offset and Period unchanged and uses the given payload comparer |
| Beat.BeatStreamable.Create | Sources/Core/Microsoft.StreamProcessing/Operators/Beat/BeatStreamable.cs:20-29 | uses the source's payload comparer; throws InvalidOperationException exactly when the columnar check fails, and otherwise yields an operator with the given Offset and Period |
| Beat.BeatStreamable.CanGenerateColumnar | Sources/Core/Microsoft.StreamProcessing/Operators/Beat/BeatStreamable.cs:57-71 | false for a partitioned key, leaving the cache and errorMessages untouched; otherwise rethrows the generator's exception with errorMessages untouched, or sets errorMessages to the cached diagnostics and returns true exactly when the cached type is non-null |
| Beat.BeatStreamable.GetPipe | Sources/Core/Microsoft.StreamProcessing/Operators/Beat/BeatStreamable.cs:73-83 | looks up the cache with the same key as CanGenerateColumnar and returns PipeFromCache of the outcome |
| Beat.BeatStreamable.CreatePipe | Sources/Core/Microsoft.StreamProcessing/Operators/Beat/BeatStreamable.cs:44-55 | returns SelectPipe's choice; the cache changes only for an unpartitioned key over a columnar source |
| Decimal.NatToDecimal | Sources/Core/Microsoft.StreamProcessing/Egress/TemporalArray/TemporalArrayEgressTransformer.cs:44 | the decimal rendering of a natural is a non-empty digit string, one digit exactly for values below ten, ending in the last digit |
| Decimal.IntToDecimal | Sources/Core/Microsoft.StreamProcessing/Egress/TemporalArray/TemporalArrayEgressTransformer.cs:44 | the rendering of an int is non-empty and starts with "-" exactly for negative values |
| Decimal.NatToDecimalInjective | Sources/Core/Microsoft.StreamProcessing/Egress/TemporalArray/TemporalArrayEgressTransformer.cs:44 | different naturals render differently |
| Decimal.IntToDecimalInjective | Sources/Core/Microsoft.StreamProcessing/Egress/TemporalArray/TemporalArrayEgressTransformer.cs:44 | different ints render differently |
| Int32Counter.Counter32 | Sources/Core/Microsoft.StreamProcessing/Egress/TemporalArray/TemporalArrayEgressTransformer.cs:14 | the counter after n unchecked increments from 0 is always an int32 |
| Int32Counter.Wrap32 | Sources/Core/Microsoft.StreamProcessing/Egress/TemporalArray/TemporalArrayEgressTransformer.cs:14 | the counter value in closed form: an int32, equal to n while n fits |
| Int32Counter.Next32OfWrap32 | Sources/Core/Microsoft.StreamProcessing/Egress/TemporalArray/TemporalArrayEgressTransformer.cs:44 | incrementing the closed form for n gives the closed form for n + 1, across the wrap from int.MaxValue to int.MinValue |
| Int32Counter.Counter32IsWrap32 | Sources/Core/Microsoft.StreamProcessing/Egress/TemporalArray/TemporalArrayEgressTransformer.cs:44 | the counter after n increments equals its closed form |
| Int32Counter.Counter32Injective | Sources/Core/Microsoft.StreamProcessing/Egress/TemporalArray/TemporalArrayEgressTransformer.cs:44 | fewer than 2^32 increments never revisit a counter value |
| Int32Counter.Counter32Wraps | Sources/Core/Microsoft.StreamProcessing/Egress/TemporalArray/TemporalArrayEgressTransformer.cs:44 | after 2^32 increments the counter is back at 0 |
| Int32Counter.Next32 | Sources/Core/Microsoft.StreamProcessing/Egress/TemporalArray/TemporalArrayEgressTransformer.cs:44 | unchecked `++` keeps the counter in int32 range |
| TemporalArrayEgress.ClassName | Sources/Core/Microsoft.StreamProcessing/Egress/TemporalArray/TemporalArrayEgressTransformer.cs:44 | a generated class name is "GeneratedTemporalArrayEgress_" followed by a non-empty suffix |
| TemporalArrayEgress.ClassNameInjective | Sources/Core/Microsoft.StreamProcessing/Egress/TemporalArray/TemporalArrayEgressTransformer.cs:44 | different sequence numbers give different class names |
| TemporalArrayEgress.ClassNamesDistinct | Sources/Core/Microsoft.StreamProcessing/Egress/TemporalArray/TemporalArrayEgressTransformer.cs:14 | the i-th and j-th constructions get different class names when i < j < 2^32 |
| TemporalArrayEgress.NextClassNameIsFresh | Sources/Core/Microsoft.StreamProcessing/Egress/TemporalArray/TemporalArrayEgressTransformer.cs:44 | the next class name differs from all earlier ones while fewer than 2^32 were issued |
| TemporalArrayEgress.ClassNameRepeatsAfterWrap | Sources/Core/Microsoft.StreamProcessing/Egress/TemporalArray/TemporalArrayEgressTransformer.cs:14 | the 2^32-th construction reuses the first class name, so the bound above is tight |
| TemporalArrayEgress.PartitionKeyArgument | Sources/Core/Microsoft.StreamProcessing/Egress/TemporalArray/TemporalArrayEgressTransformer.cs:65 | the key argument is "colkey[i].Key, " exactly when the partition string is non-empty, and empty otherwise |
| TemporalArrayEgress.GenericArguments | Sources/Core/Microsoft.StreamProcessing/Egress/TemporalArray/TemporalArrayEgressTransformer.cs:66 | the generic arguments are the payload name without a partition string, and "key, payload" with one |
| TemporalArrayEgress.EgressTypeName | Sources/Core/Microsoft.StreamProcessing/Egress/TemporalArray/TemporalArrayEgressTransformer.cs:67-69 | the egressed type is the result name except for stream-event ingress, where it is StreamEvent<args> or, with "Partitioned", PartitionedStreamEvent<args> |
| TemporalArrayEgress.InputKey | Sources/Core/Microsoft.StreamProcessing/Egress/TemporalArray/TemporalArrayEgressTransformer.cs:70 | the input key is the key name without a partition string, and PartitionKey<key> with one |
| TemporalArrayEgress.BatchKeyType | Sources/Core/Microsoft.StreamProcessing/Egress/TemporalArray/TemporalArrayEgressTransformer.cs:48-51 | the batch key type is Empty for Empty, and otherwise PartitionKey<tKey>, whose partition type is tKey |
| TemporalArrayEgress.MakeTemplate | Sources/Core/Microsoft.StreamProcessing/Egress/TemporalArray/TemporalArrayEgressTransformer.cs:40-72 | the constructor names the class from the sequence number, takes type names from the type mapper, stores partition string, ingress type and columnar flag, and sets no selector |
| TemporalArrayEgress.UseNextNumber | Sources/Core/Microsoft.StreamProcessing/Egress/TemporalArray/TemporalArrayEgressTransformer.cs:44 | the numbers used stay the counter values 0, 1, 2, ... in order, and the next one is new while fewer than 2^32 were used |
| TemporalArrayEgress.UsedClassNamesDistinct | Sources/Core/Microsoft.StreamProcessing/Egress/TemporalArray/TemporalArrayEgressTransformer.cs:44 | among the first 2^32 constructions no two got the same class name |
| TemporalArrayEgress.TemplateSequence.constructor | Sources/Core/Microsoft.StreamProcessing/Egress/TemporalArray/TemporalArrayEgressTransformer.cs:14 | the static counter starts at 0 with no sequence numbers used |
| TemporalArrayEgress.TemplateSequence.NewTemplate | Sources/Core/Microsoft.StreamProcessing/Egress/TemporalArray/TemporalArrayEgressTransformer.cs:44 | a construction uses the current counter value and then increments it with wrap-around; below 2^32 constructions its sequence number was never used before |
| TemporalArrayEgress.RequestTemplate | Sources/Core/Microsoft.StreamProcessing/Egress/TemporalArray/TemporalArrayEgressTransformer.cs:121-128 | the template of an overload is named by the sequence number, and a selector function is set exactly for start-edge and interval observables that carry a constructor expression |
| TemporalArrayEgress.EgressRequest.TemplateKey | Sources/Core/Microsoft.StreamProcessing/Egress/TemporalArray/TemporalArrayEgressTransformer.cs:83 | the template's key type is TKey for the partitioned overloads and Empty for the others |
| TemporalArrayEgress.EgressRequest.TemplateResult | Sources/Core/Microsoft.StreamProcessing/Egress/TemporalArray/TemporalArrayEgressTransformer.cs:83 | the template's result type is TPayload for stream-event egress and TResult for start-edge and interval egress |
| TemporalArrayEgress.EgressRequest.PartitionString | Sources/Core/Microsoft.StreamProcessing/Egress/TemporalArray/TemporalArrayEgressTransformer.cs:212 | the partition string is "Partitioned" exactly for the partitioned overloads, and empty otherwise |
| TemporalArrayEgress.EgressRequest.IngressType | Sources/Core/Microsoft.StreamProcessing/Egress/TemporalArray/TemporalArrayEgressTransformer.cs:121 | the ingress type is "StreamEvent", "StartEdge" or "Interval" exactly for the matching overloads |
| TemporalArrayEgress.EgressRequest.KeyType | Sources/Core/Microsoft.StreamProcessing/Egress/TemporalArray/TemporalArrayEgressTransformer.cs:214 | the referenced key type is PartitionKey<TKey>, whose partition type is TKey, exactly for the partitioned overloads, and Empty otherwise |
| TemporalArrayEgress.EgressRequest.ReferencedTypes | Sources/Core/Microsoft.StreamProcessing/Egress/TemporalArray/TemporalArrayEgressTransformer.cs:87 | the referenced types are exactly the key type and TPayload for stream-event egress, and exactly the key type, TPayload and TResult for start-edge and interval egress |
| TemporalArrayEgress.EgressRequest.SetsSelector | Sources/Core/Microsoft.StreamProcessing/Egress/TemporalArray/TemporalArrayEgressTransformer.cs:122 | the selector function is set exactly for start-edge and interval overloads whose observable has a constructor |
| TemporalArrayEgress.CatchOutcome | Sources/Core/Microsoft.StreamProcessing/Egress/TemporalArray/TemporalArrayEgressTransformer.cs:99-109 | the catch block throws InvalidOperationException exactly in strict mode, and otherwise returns a null type with the messages so far |
| TemporalArrayEgress.GenerateOutcome | Sources/Core/Microsoft.StreamProcessing/Egress/TemporalArray/TemporalArrayEgressTransformer.cs:80-109 | a failed text expansion goes to the catch block with no messages; a compilation that threw goes to the catch block with the compiler's messages; a compilation that returned gives its messages and a type exactly when it defines the template's class; failure only in strict mode, with the fixed message |
| TemporalArrayEgress.Generate | Sources/Core/Microsoft.StreamProcessing/Egress/TemporalArray/TemporalArrayEgressTransformer.cs:74-110 | builds the overload's template from the counter, advancing it and logging a sequence number not used before while fewer than 2^32 were used, and returns GenerateOutcome for it |
| TemporalArrayEgress.GenerateSucceeds | Sources/Core/Microsoft.StreamProcessing/Egress/TemporalArray/TemporalArrayEgressTransformer.cs:91-97 | a compilation that defines the template's class returns that class with the compiler's messages |
| TemporalArrayEgress.GenerateFallsBack | Sources/Core/Microsoft.StreamProcessing/Egress/TemporalArray/TemporalArrayEgressTransformer.cs:91-109 | Generate throws exactly in strict mode after an exception, always with the same message; otherwise an exception gives a null type with the messages so far; a compilation that does not define the class gives a null type with its messages even in strict mode; a non-null type is always the template's class |
| TemporalArrayEgress.StreamEventEgress | Sources/Core/Microsoft.StreamProcessing/Egress/TemporalArray/TemporalArrayEgressTransformer.cs:67-69 | the plain stream-event overload egresses StreamEvent<TPayload> |
| TemporalArrayEgress.PartitionedStreamEventEgress | Sources/Core/Microsoft.StreamProcessing/Egress/TemporalArray/TemporalArrayEgressTransformer.cs:67-69 | the partitioned stream-event overload egresses PartitionedStreamEvent<TKey, TPayload> |
| TemporalArrayEgress.SelectorEgress | Sources/Core/Microsoft.StreamProcessing/Egress/TemporalArray/TemporalArrayEgressTransformer.cs:67-69 | the start-edge and interval overloads egress the selector's result type |
| TemporalArrayEgress.KeyStringsOfOverload | Sources/Core/Microsoft.StreamProcessing/Egress/TemporalArray/TemporalArrayEgressTransformer.cs:65-70 | the generic arguments and the input key mention TKey, and the key argument is passed, exactly for the partitioned overloads |
| TemporalArrayEgress.BatchKeyMatchesInputKey | Sources/Core/Microsoft.StreamProcessing/Egress/TemporalArray/TemporalArrayEgressTransformer.cs:48-51 | except for a partitioned Empty key, the batch key type equals the referenced key type and inputKey is its C# name |
| TemporalArrayEgress.PartitionedEmptyKeyMismatch | Sources/Core/Microsoft.StreamProcessing/Egress/TemporalArray/TemporalArrayEgressTransformer.cs:48-51 | a partitioned overload with key type Empty gets a batch key Empty, but inputKey and the referenced key are PartitionKey<Empty> |

## Left out

- The heartbeat pipes (`BeatPipe`, `PartitionedBeatPipe` and the generated Beat pipe) are not part of this model. The emission and duplicate-suppression algorithm is not modelled; pipes are tags carrying their parameters.
- `BeatTemplate.Generate`, `TransformText` and `Transformer.CompileSourceCode` are foreign. They are parameters of the model that either return or throw, and `TypeMapper.CSharpNameFor` is a parameter that returns.
- `AssemblyReferencesNeededFor` and `GeneratedStreamMessageAssembly` are foreign and assumed not to throw. They appear only as the list of types handed to the compilation parameter; the assemblies themselves are not modelled.
- `Transformer.GetBatchClassName`, `Transformer.StaticCtor` and `TypeMapper.GenericTypeVariables` have no counterpart in the model. Only the key type passed to `GetBatchClassName` is modelled (`BatchKeyType`).
- PipeCaching.Lookup: the throw path follows `ConcurrentDictionary.GetOrAdd` (nothing stored, the next lookup regenerates). `SafeConcurrentDictionary` is not part of this model; if it caches a thrown exception, later lookups of that key would rethrow it instead.
- `ColumnarRepresentation`, the payload field list and `TKeyTPayloadGenericParameters` are foreign and not derived.
- Reflection (`GetPartitionType`, `MakeGenericType`, `Activator.CreateInstance`, `Assembly.GetType`) is modelled on the `ClrType` datatype and a set of defined class names.
- `ExpressionToCSharp` and `ExpressionToCSharpStringWithParameterSubstitution` are foreign. Comparer texts are given strings. The selector function is only a flag on the template. In the partitioned start-edge and interval overloads, the dictionary initialiser adds `Parameters[0]` twice; when `TransformText` runs that lambda, the duplicate key throws. That case falls under "text expansion threw".
- The thread safety of `SafeConcurrentDictionary` and the unsynchronised static counter are out of scope. Both are modelled sequentially.
- The `CODEGEN_TIMING` stopwatch and console output are not modelled.
- The base streamable classes are not part of this model: `Initialize()`, how `UnaryStreamable` builds `Properties`, and `PlanNode` beyond the fields passed at line 78. `this.Properties` is taken to be the source's properties with the operator's payload comparer. In `Create`, the effects of `Initialize()`, which runs before the columnar check, are not modelled.
- The observer passed to `CreatePipe` and `GetPipe` is not modelled.
- `Offset` and `Period` are C# `long`. They are modelled as unbounded integers, because the modelled code only stores them.
- The template constructor's calls to the `TypeMapper` and `ColumnarRepresentation` constructors, `Transformer.GetBatchClassName`, `TypeMapper.GenericTypeVariables` and `Transformer.StaticCtor` are assumed not to throw. So every `Generate` call advances the counter.
- `string.Format` of the counter is assumed to render negative values with "-".
