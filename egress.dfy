/**
 * `TemporalArrayEgressTemplate`: the derivation of the template's names and
 * type strings from the key, payload and result types, the static sequence
 * counter that names each generated class, and the try/catch shape shared
 * by the six `Generate` overloads. Text expansion (`TransformText`), type
 * naming (`TypeMapper.CSharpNameFor`) and compilation are foreign and enter
 * as the fields of a `Backend` value.
 */
module TemporalArrayEgress {
  import opened Types
  import opened Decimal
  import opened Int32Counter

  const ClassNamePrefix: string := "GeneratedTemporalArrayEgress_"
  const PartitionedString: string := "Partitioned"
  const StreamEventIngress: string := "StreamEvent"
  const StartEdgeIngress: string := "StartEdge"
  const IntervalIngress: string := "Interval"
  const PartitionKeyArgumentText: string := "colkey[i].Key, "
  const CodegenFailedMessage: string := "Code Generation failed when it wasn't supposed to!"

  /** `string.Format("GeneratedTemporalArrayEgress_{0}", n)`. */
  function ClassName(sequenceNumber: int): (name: string)
    ensures |name| > |ClassNamePrefix| && name[..|ClassNamePrefix|] == ClassNamePrefix
  {
    ClassNamePrefix + IntToDecimal(sequenceNumber)
  }

  /** Different sequence numbers name different classes. */
  lemma ClassNameInjective(i: int, j: int)
    requires ClassName(i) == ClassName(j)
    ensures i == j
  {
    assert IntToDecimal(i) == ClassName(i)[|ClassNamePrefix|..] == ClassName(j)[|ClassNamePrefix|..] == IntToDecimal(j);
    IntToDecimalInjective(i, j);
  }

  /** The `i`-th and `j`-th templates built since the counter started get
      different class names, as long as fewer than 2^32 were built. */
  lemma ClassNamesDistinct(i: nat, j: nat)
    requires i < j < Two32
    ensures ClassName(Counter32(i)) != ClassName(Counter32(j))
  {
    if ClassName(Counter32(i)) == ClassName(Counter32(j)) {
      ClassNameInjective(Counter32(i), Counter32(j));
      Counter32Injective(i, j);
    }
  }

  /** The next class name differs from every one issued before it, as long
      as fewer than 2^32 were issued. */
  lemma NextClassNameIsFresh(count: nat)
    requires count < Two32
    ensures forall i :: 0 <= i < count ==> ClassName(Counter32(i)) != ClassName(Counter32(count))
  {
    forall i | 0 <= i < count
      ensures ClassName(Counter32(i)) != ClassName(Counter32(count))
    {
      ClassNamesDistinct(i, count);
    }
  }

  /** The bound is tight: the 2^32-th template reuses the first name. */
  lemma ClassNameRepeatsAfterWrap()
    ensures ClassName(Counter32(Two32)) == ClassName(Counter32(0))
  {
    Counter32Wraps();
  }

  /** `partitionKeyArgument`: the key argument passed to the egress
      selector, present only for a partitioned stream. */
  function PartitionKeyArgument(partitionString: string): (r: string)
    ensures r == PartitionKeyArgumentText <==> partitionString != ""
    ensures r == "" <==> partitionString == ""
  {
    if partitionString != "" then PartitionKeyArgumentText else ""
  }

  /** `genericArguments`: the type arguments of the egressed event type. */
  function GenericArguments(partitionString: string, keyName: string, payloadName: string): (r: string)
    ensures partitionString == "" ==> r == payloadName
    ensures partitionString != "" ==> r == keyName + ", " + payloadName
  {
    if partitionString == "" then payloadName else keyName + ", " + payloadName
  }

  /** `egress`: the element type of the output array. */
  function EgressTypeName(ingressType: string, partitionString: string, genericArguments: string, resultName: string): (r: string)
    ensures ingressType != StreamEventIngress ==> r == resultName
    ensures ingressType == StreamEventIngress && partitionString == "" ==> r == "StreamEvent<" + genericArguments + ">"
    ensures ingressType == StreamEventIngress && partitionString == PartitionedString ==>
              r == "PartitionedStreamEvent<" + genericArguments + ">"
  {
    if ingressType != StreamEventIngress then resultName
    else partitionString + "StreamEvent<" + genericArguments + ">"
  }

  /** `inputKey`: the key type of the input batches, as C# text. */
  function InputKey(partitionString: string, keyName: string): (r: string)
    ensures partitionString == "" ==> r == keyName
    ensures partitionString != "" ==> r == "PartitionKey<" + keyName + ">"
  {
    if partitionString == "" then keyName else "PartitionKey<" + keyName + ">"
  }

  /** The key type of `BatchGeneratedFrom_TKey_TPayload`: `tKey` itself when
      it is `Empty`, otherwise `PartitionKey<tKey>`. */
  function BatchKeyType(tKey: ClrType): (r: ClrType)
    ensures tKey == Empty ==> r == Empty
    ensures tKey != Empty ==> r == PartitionKey(tKey) && PartitionTypeOf(r) == Some(tKey)
  {
    if tKey == Empty then tKey else PartitionKey(tKey)
  }

  /** The state of a `TemporalArrayEgressTemplate` after its constructor
      (and, for the start-edge and interval overloads, after the selector
      function was set). */
  datatype EgressTemplate = EgressTemplate(
    className: string,
    keyName: string, payloadName: string, resultName: string,
    batchKeyType: ClrType, batchPayloadType: ClrType,
    partitionString: string, ingressType: string,
    partitionKeyArgument: string, genericArguments: string, egress: string, inputKey: string,
    isColumnar: bool,
    hasSelectorFunction: bool)

  /** What the private constructor computes for sequence number `n`. */
  function MakeTemplate(
    n: int, tKey: ClrType, tPayload: ClrType, tResult: ClrType,
    partitionString: string, ingressType: string, isColumnar: bool, cSharpName: ClrType -> string)
    : (t: EgressTemplate)
    ensures t.className == ClassName(n)
    ensures t.keyName == cSharpName(tKey) && t.payloadName == cSharpName(tPayload) && t.resultName == cSharpName(tResult)
    ensures t.partitionString == partitionString && t.ingressType == ingressType && t.isColumnar == isColumnar
    ensures !t.hasSelectorFunction
  {
    var keyName := cSharpName(tKey);
    var payloadName := cSharpName(tPayload);
    var resultName := cSharpName(tResult);
    var genericArguments := GenericArguments(partitionString, keyName, payloadName);
    EgressTemplate(
      ClassName(n),
      keyName, payloadName, resultName,
      BatchKeyType(tKey), tPayload,
      partitionString, ingressType,
      PartitionKeyArgument(partitionString), genericArguments,
      EgressTypeName(ingressType, partitionString, genericArguments, resultName),
      InputKey(partitionString, keyName),
      isColumnar,
      false)
  }

  /** The sequence numbers used by the first `|used|` constructions. */
  ghost predicate UsedInOrder(used: seq<int>) {
    forall i :: 0 <= i < |used| ==> used[i] == Counter32(i)
  }

  /** Using the next counter value keeps the numbers in order, and that value
      was not used before while fewer than 2^32 were used. */
  lemma UseNextNumber(used: seq<int>)
    requires UsedInOrder(used)
    ensures UsedInOrder(used + [Counter32(|used|)])
    ensures |used| < Two32 ==> Counter32(|used|) !in used
  {
    var next := used + [Counter32(|used|)];
    forall i | 0 <= i < |next|
      ensures next[i] == Counter32(i)
    {
      if i < |used| {
        assert next[i] == used[i];
      }
    }
    if |used| < Two32 && Counter32(|used|) in used {
      var i :| 0 <= i < |used| && used[i] == Counter32(|used|);
      Counter32Injective(i, |used|);
    }
  }

  /** Constructions that used distinct sequence numbers got distinct class
      names; in particular the first 2^32 constructions did. */
  lemma UsedClassNamesDistinct(used: seq<int>)
    requires UsedInOrder(used) && |used| <= Two32
    ensures forall i, j :: 0 <= i < j < |used| ==> ClassName(used[i]) != ClassName(used[j])
  {
    forall i, j | 0 <= i < j < |used|
      ensures ClassName(used[i]) != ClassName(used[j])
    {
      ClassNamesDistinct(i, j);
    }
  }

  /**
   * The static `TemporalArrayEgressSequenceNumber`, a C# `int` that every
   * template construction reads and then increments (unchecked, so it wraps
   * at `int.MaxValue`). `used` lists the sequence numbers handed out so far.
   */
  class TemplateSequence {
    var sequenceNumber: int
    ghost var used: seq<int>

    ghost predicate Valid()
      reads this
    {
      && sequenceNumber == Counter32(|used|)
      && UsedInOrder(used)
    }

    /** The static initializer: the counter starts at 0. */
    constructor ()
      ensures Valid() && sequenceNumber == 0 && used == []
    {
      sequenceNumber := 0;
      used := [];
    }

    /** `new TemporalArrayEgressTemplate(...)`: uses the current sequence
        number, then increments it. Fewer than 2^32 constructions never
        reuse a sequence number, and so never reuse a class name. */
    method NewTemplate(
      tKey: ClrType, tPayload: ClrType, tResult: ClrType,
      partitionString: string, ingressType: string, isColumnar: bool, cSharpName: ClrType -> string)
      returns (t: EgressTemplate)
      requires Valid()
      modifies this
      ensures Valid()
      ensures t == MakeTemplate(old(sequenceNumber), tKey, tPayload, tResult, partitionString, ingressType, isColumnar, cSharpName)
      ensures sequenceNumber == Next32(old(sequenceNumber))
      ensures used == old(used) + [old(sequenceNumber)]
      ensures |old(used)| < Two32 ==> old(sequenceNumber) !in old(used)
    {
      t := MakeTemplate(sequenceNumber, tKey, tPayload, tResult, partitionString, ingressType, isColumnar, cSharpName);
      UseNextNumber(used);
      used := used + [sequenceNumber];
      sequenceNumber := Next32(sequenceNumber);
    }
  }

  /** The source observable of each of the six `Generate` overloads, with
      the facts about it that `Generate` reads. `hasConstructor` says whether
      the observable carries a result selector expression. */
  datatype EgressRequest =
    | StreamEventArray(payload: ClrType, isColumnar: bool)
    | StartEdgeArray(payload: ClrType, result: ClrType, isColumnar: bool, hasConstructor: bool)
    | IntervalArray(payload: ClrType, result: ClrType, isColumnar: bool, hasConstructor: bool)
    | PartitionedStreamEventArray(key: ClrType, payload: ClrType, isColumnar: bool)
    | PartitionedStartEdgeArray(key: ClrType, payload: ClrType, result: ClrType, isColumnar: bool, hasConstructor: bool)
    | PartitionedIntervalArray(key: ClrType, payload: ClrType, result: ClrType, isColumnar: bool, hasConstructor: bool)
  {
    predicate IsPartitioned() {
      PartitionedStreamEventArray? || PartitionedStartEdgeArray? || PartitionedIntervalArray?
    }

    /** The `tKey` argument of the template constructor. */
    function TemplateKey(): (k: ClrType)
      ensures IsPartitioned() ==> k == key
      ensures !IsPartitioned() ==> k == Empty
    {
      if IsPartitioned() then key else Empty
    }

    /** The `tResult` argument: the payload type for stream-event egress. */
    function TemplateResult(): (t: ClrType)
      ensures StreamEventArray? || PartitionedStreamEventArray? ==> t == payload
      ensures !(StreamEventArray? || PartitionedStreamEventArray?) ==> t == result
    {
      if StreamEventArray? || PartitionedStreamEventArray? then payload else result
    }

    /** The `partitionString` argument of the template constructor. */
    function PartitionString(): (s: string)
      ensures s == PartitionedString <==> IsPartitioned()
      ensures s == "" <==> !IsPartitioned()
    {
      if IsPartitioned() then PartitionedString else ""
    }

    /** The `ingressType` argument of the template constructor. */
    function IngressType(): (s: string)
      ensures s == StreamEventIngress <==> StreamEventArray? || PartitionedStreamEventArray?
      ensures s == StartEdgeIngress <==> StartEdgeArray? || PartitionedStartEdgeArray?
      ensures s == IntervalIngress <==> IntervalArray? || PartitionedIntervalArray?
    {
      if StreamEventArray? || PartitionedStreamEventArray? then StreamEventIngress
      else if StartEdgeArray? || PartitionedStartEdgeArray? then StartEdgeIngress
      else IntervalIngress
    }

    /** The local `keyType` whose assemblies the compilation references. */
    function KeyType(): (k: ClrType)
      ensures k.PartitionKey? <==> IsPartitioned()
      ensures IsPartitioned() ==> PartitionTypeOf(k) == Some(key)
      ensures !IsPartitioned() ==> k == Empty
    {
      if IsPartitioned() then PartitionKey(key) else Empty
    }

    /** The types passed to `AssemblyReferencesNeededFor`. */
    function ReferencedTypes(): (ts: seq<ClrType>)
      ensures 2 <= |ts| && ts[0] == KeyType() && ts[1] == payload
      ensures |ts| == 2 <==> StreamEventArray? || PartitionedStreamEventArray?
      ensures |ts| == 3 ==> ts[2] == result
      ensures !(StreamEventArray? || PartitionedStreamEventArray?) ==> ts == [KeyType(), payload, result]
    {
      if StreamEventArray? || PartitionedStreamEventArray? then [KeyType(), payload]
      else [KeyType(), payload, result]
    }

    /** Whether `Generate` sets the template's selector function. */
    function SetsSelector(): (b: bool)
      ensures b <==> (StartEdgeArray? || IntervalArray? || PartitionedStartEdgeArray? || PartitionedIntervalArray?) && hasConstructor
    {
      !(StreamEventArray? || PartitionedStreamEventArray?) && hasConstructor
    }
  }

  /** The template a `Generate` overload builds from sequence number `n`. */
  function RequestTemplate(n: int, req: EgressRequest, cSharpName: ClrType -> string): (t: EgressTemplate)
    ensures t.className == ClassName(n)
    ensures t.hasSelectorFunction == req.SetsSelector()
  {
    MakeTemplate(n, req.TemplateKey(), req.payload, req.TemplateResult(), req.PartitionString(), req.IngressType(), req.isColumnar, cSharpName)
      .(hasSelectorFunction := req.SetsSelector())
  }

  /** What `Transformer.CompileSourceCode` did: returned an assembly defining
      the named types, or threw (a null assembly, which makes the following
      `GetType` throw, counts as throwing). Either way `messages` is what it
      left in its `out` parameter (None for null). */
  datatype CompileOutcome =
    | Compiled(definedTypes: set<string>, messages: Option<string>)
    | CompileThrew(messages: Option<string>)

  /** The foreign collaborators of `Generate`: type naming, text expansion
      (None when `TransformText` throws) and compilation of the expanded
      code against the assemblies of the given types. */
  datatype Backend = Backend(
    cSharpName: ClrType -> string,
    transformText: EgressTemplate -> Option<string>,
    compile: (string, seq<ClrType>) -> CompileOutcome)

  /** The `catch` block: rethrow as `InvalidOperationException` when row-based
      fallback is forbidden, otherwise a null type with the messages so far. */
  function CatchOutcome(dontFallBack: bool, messages: Option<string>): (r: Result<Specialization, Error>)
    ensures dontFallBack <==> r.Failure?
    ensures r.Failure? ==> r.error == InvalidOperation(CodegenFailedMessage)
    ensures r.Success? ==> r.value == Specialization(None, messages)
  {
    if dontFallBack then Failure(InvalidOperation(CodegenFailedMessage)) else Success(Specialization(None, messages))
  }

  /** The outcome of one `Generate` call for the given template. */
  function GenerateOutcome(template: EgressTemplate, referenced: seq<ClrType>, backend: Backend, dontFallBack: bool)
    : (r: Result<Specialization, Error>)
    ensures r.Failure? ==> dontFallBack && r.error == InvalidOperation(CodegenFailedMessage)
    ensures r.Success? && r.value.handle.Some? ==> r.value.handle.value == TypeHandle(template.className)
    ensures backend.transformText(template).None? ==> r == CatchOutcome(dontFallBack, None)
    ensures backend.transformText(template).Some? ==>
              var compiled := backend.compile(backend.transformText(template).value, referenced);
              && (compiled.CompileThrew? ==> r == CatchOutcome(dontFallBack, compiled.messages))
              && (compiled.Compiled? ==> r.Success? && r.value.diagnostics == compiled.messages
                                         && (r.value.handle.Some? <==> template.className in compiled.definedTypes))
  {
    match backend.transformText(template)
    case None => CatchOutcome(dontFallBack, None)
    case Some(code) =>
      match backend.compile(code, referenced)
      case CompileThrew(messages) => CatchOutcome(dontFallBack, messages)
      case Compiled(types, messages) =>
        Success(Specialization(if template.className in types then Some(TypeHandle(template.className)) else None, messages))
  }

  /** Any of the six `Generate` overloads: build the template, expand and
      compile it, look the generated class up; on an exception either
      rethrow (strict) or return a null type with the messages. */
  method Generate(counter: TemplateSequence, req: EgressRequest, backend: Backend, dontFallBack: bool)
    returns (r: Result<Specialization, Error>)
    requires counter.Valid()
    modifies counter
    ensures counter.Valid()
    ensures counter.sequenceNumber == Next32(old(counter.sequenceNumber))
    ensures counter.used == old(counter.used) + [old(counter.sequenceNumber)]
    ensures |old(counter.used)| < Two32 ==> old(counter.sequenceNumber) !in old(counter.used)
    ensures r == GenerateOutcome(RequestTemplate(old(counter.sequenceNumber), req, backend.cSharpName), req.ReferencedTypes(), backend, dontFallBack)
  {
    var template := counter.NewTemplate(
      req.TemplateKey(), req.payload, req.TemplateResult(), req.PartitionString(), req.IngressType(), req.isColumnar, backend.cSharpName);
    if req.SetsSelector() {
      template := template.(hasSelectorFunction := true);
    }
    r := GenerateOutcome(template, req.ReferencedTypes(), backend, dontFallBack);
  }

  /** A successful compilation that defines the template's class yields that
      class and the compiler's messages, in strict mode or not. */
  lemma GenerateSucceeds(template: EgressTemplate, referenced: seq<ClrType>, backend: Backend, dontFallBack: bool)
    requires backend.transformText(template).Some?
    requires backend.compile(backend.transformText(template).value, referenced).Compiled?
    requires template.className in backend.compile(backend.transformText(template).value, referenced).definedTypes
    ensures GenerateOutcome(template, referenced, backend, dontFallBack)
         == Success(Specialization(Some(TypeHandle(template.className)),
                                   backend.compile(backend.transformText(template).value, referenced).messages))
  {
  }

  /** `Generate` throws only in strict mode, and then exactly when text
      expansion or compilation threw; without strict mode an exception yields
      a null type with the messages the compiler left (none when expansion
      threw). A compilation that does not define the class yields a null type
      with its messages without throwing, in strict mode or not. A non-null
      type is always the template's generated class. */
  lemma GenerateFallsBack(template: EgressTemplate, referenced: seq<ClrType>, backend: Backend, dontFallBack: bool)
    ensures var r := GenerateOutcome(template, referenced, backend, dontFallBack);
            var expanded := backend.transformText(template);
            var threw := expanded.None? || backend.compile(expanded.value, referenced).CompileThrew?;
            && (r.Failure? <==> dontFallBack && threw)
            && (r.Failure? ==> r.error == InvalidOperation(CodegenFailedMessage))
            && (r.Success? && threw ==>
                  r.value == Specialization(None, if expanded.None? then None else backend.compile(expanded.value, referenced).messages))
            && (!threw && template.className !in backend.compile(expanded.value, referenced).definedTypes ==>
                  r == Success(Specialization(None, backend.compile(expanded.value, referenced).messages)))
            && (r.Success? && r.value.handle.Some? ==> r.value.handle.value == TypeHandle(template.className))
  {
  }

  lemma PartitionedStreamEventText(k: string, p: string)
    ensures PartitionedString + "StreamEvent<" + (k + ", " + p) + ">" == "PartitionedStreamEvent<" + k + ", " + p + ">"
  {
    assert PartitionedString + "StreamEvent<" == "PartitionedStreamEvent<";
  }

  /** The plain overload egresses `StreamEvent<TPayload>`. */
  lemma StreamEventEgress(n: int, payload: ClrType, isColumnar: bool, cSharpName: ClrType -> string)
    ensures RequestTemplate(n, StreamEventArray(payload, isColumnar), cSharpName).egress
            == "StreamEvent<" + cSharpName(payload) + ">"
  {
    assert "" + "StreamEvent<" == "StreamEvent<";
  }

  /** The partitioned overload egresses `PartitionedStreamEvent<TKey, TPayload>`. */
  lemma PartitionedStreamEventEgress(n: int, key: ClrType, payload: ClrType, isColumnar: bool, cSharpName: ClrType -> string)
    ensures RequestTemplate(n, PartitionedStreamEventArray(key, payload, isColumnar), cSharpName).egress
            == "PartitionedStreamEvent<" + cSharpName(key) + ", " + cSharpName(payload) + ">"
  {
    PartitionedStreamEventText(cSharpName(key), cSharpName(payload));
  }

  /** The start-edge and interval overloads egress the selector's result type. */
  lemma SelectorEgress(n: int, req: EgressRequest, cSharpName: ClrType -> string)
    requires !(req.StreamEventArray? || req.PartitionedStreamEventArray?)
    ensures RequestTemplate(n, req, cSharpName).egress == cSharpName(req.result)
  {
  }

  /** The generic arguments and the input key mention the key type, and the
      key argument is passed, exactly for the partitioned overloads. */
  lemma KeyStringsOfOverload(n: int, req: EgressRequest, cSharpName: ClrType -> string)
    ensures var t := RequestTemplate(n, req, cSharpName);
      && (!req.IsPartitioned() ==>
            t.genericArguments == cSharpName(req.payload) && t.inputKey == cSharpName(Empty) && t.partitionKeyArgument == "")
      && (req.IsPartitioned() ==>
            && t.genericArguments == cSharpName(req.key) + ", " + cSharpName(req.payload)
            && t.inputKey == "PartitionKey<" + cSharpName(req.key) + ">"
            && t.partitionKeyArgument == PartitionKeyArgumentText)
  {
  }

  /** The key type the template's batch class is built for agrees with the
      key type whose assemblies are referenced, and `inputKey` is its C# name
      (for a type mapper that writes `PartitionKey<K>` in the usual way) -
      for every overload except a partitioned one whose key type is `Empty`. */
  lemma BatchKeyMatchesInputKey(n: int, req: EgressRequest, cSharpName: ClrType -> string)
    requires !(req.IsPartitioned() && req.key == Empty)
    requires forall k :: cSharpName(PartitionKey(k)) == "PartitionKey<" + cSharpName(k) + ">"
    ensures var t := RequestTemplate(n, req, cSharpName);
            && t.batchKeyType == req.KeyType()
            && t.inputKey == cSharpName(t.batchKeyType)
  {
  }

  /** The exception: partitioning by `Empty` gives a batch class keyed by
      `Empty` while `inputKey` and the referenced key are `PartitionKey<Empty>`. */
  lemma PartitionedEmptyKeyMismatch(n: int, payload: ClrType, isColumnar: bool, cSharpName: ClrType -> string)
    ensures var req := PartitionedStreamEventArray(Empty, payload, isColumnar);
            var t := RequestTemplate(n, req, cSharpName);
            && t.batchKeyType == Empty
            && req.KeyType() == PartitionKey(Empty)
            && t.inputKey == "PartitionKey<" + cSharpName(Empty) + ">"
  {
  }
}
