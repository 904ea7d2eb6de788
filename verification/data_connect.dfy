/**
 The pieces of the generated data-connector bindings that every
 mutation's variables builder shares: the three-state optional
 variable, the JVM value types the variables carry, the exception a
 builder throws, and the reference a mutation hands to the backend.
 */
module DataConnect {
  import opened Wrappers

  /** `OptionalVariable<T?>`: either omitted from the request
      (`Undefined`) or given explicitly (`Value`), where the explicit
      value may itself be null (`Value(None)`). */
  datatype OptionalVariable<T> = Undefined | Value(value: Option<T>)

  /** The builder setter of an optional field: whatever is assigned,
      null included, becomes an explicit value. */
  function Provide<T>(x: Option<T>): (v: OptionalVariable<T>)
    ensures v != Undefined
    ensures v.value == x
  {
    Value(x)
  }

  /** `java.util.UUID`: two 64-bit halves. */
  datatype Uuid = Uuid(mostSigBits: bv64, leastSigBits: bv64)

  /** Kotlin `Int`. */
  newtype Int32 = x: int | -0x8000_0000 <= x < 0x8000_0000

  /** The exception a builder's property getter throws. */
  datatype BuildError = UnsupportedOperation(message: string)

  const GetterUnsupported := "getting builder values is not supported"

  /** What `ref(...)` returns: the operation, named, with its variables. */
  datatype MutationRef<V> = MutationRef(operationName: string, variables: V)
}
