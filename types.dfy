/**
 * Values shared by the Beat operator and the temporal-array egress code
 * generator: CLR types as a tagged datatype instead of reflection, handles
 * to generated types, and the (type-or-null, diagnostics) pair that every
 * code generator returns.
 */
module Types {

  datatype Option<+T> = None | Some(value: T)

  datatype Result<+T, +E> = Success(value: T) | Failure(error: E)

  /** The CLR types the core inspects. `PartitionKey(k)` is the generic
      `PartitionKey<k>`; every other type is known only by its name. */
  datatype ClrType = Empty | PartitionKey(key: ClrType) | Named(name: string)

  /** `Type.GetPartitionType()`: the type argument of a `PartitionKey<>`
      key type, or null (None) for an unpartitioned key type. */
  function PartitionTypeOf(t: ClrType): (p: Option<ClrType>)
    ensures p.Some? <==> t.PartitionKey?
    ensures p.Some? ==> t == PartitionKey(p.value)
  {
    match t
    case PartitionKey(k) => Some(k)
    case _ => None
  }

  /** A loaded, generated type, identified by its class name. */
  datatype TypeHandle = TypeHandle(className: string)

  /** `Tuple<Type, string>`: the generated type (None for a null Type) and
      the compiler's error messages (None for a null string). */
  datatype Specialization = Specialization(handle: Option<TypeHandle>, diagnostics: Option<string>)

  /** The exceptions the core raises. */
  datatype Error =
    | InvalidOperation(message: string)
    | ArgumentNull(paramName: string)
}
