/** The runtime API that generated DTOs implement (`Dto`, `DefaultValue`). */
module Api {
  import opened Wrappers

  /** Prefix of the message raised for a missing required property. */
  const ERR_NULL: string := "Required property is null: "

  /** Qualified name of the `Dto` interface every generated DTO implements by default. */
  const DTO_INTERFACE: string := "com.github.manosbatsis.kotlin.utils.api.Dto"

  /**
   * `Dto.errNull`: never returns normally; it raises an
   * IllegalArgumentException whose message is ERR_NULL followed by the field name.
   */
  function ErrNull(fieldName: string): (r: Result<()>)
    ensures r.Err? && r.error.IllegalArgument?
    ensures |r.error.message| == |ERR_NULL| + |fieldName|
    ensures r.error.message[..|ERR_NULL|] == ERR_NULL
    ensures r.error.message[|ERR_NULL|..] == fieldName
  {
    Err(IllegalArgument(ERR_NULL + fieldName))
  }

  /** The instance `errNull` of a DTO fails exactly as the companion one does. */
  function InstanceErrNull(fieldName: string): (r: Result<()>)
    ensures r == ErrNull(fieldName)
    ensures r.Err?
  {
    ErrNull(fieldName)
  }

  /** Two field names give the same errNull message only when they are equal. */
  lemma ErrNullNamesField(a: string, b: string)
    requires ErrNull(a) == ErrNull(b)
    ensures a == b
  {
    assert ErrNull(a).error.message[|ERR_NULL|..] == a;
  }

  /** The `@DefaultValue` annotation: the default expression and whether it is nullable. */
  datatype DefaultValue = DefaultValue(value: string, nullable: bool)

  /** `@DefaultValue(value)` with the annotation's default `nullable = false`. */
  function DefaultValueOf(value: string): (r: DefaultValue)
    ensures r.value == value && !r.nullable
  {
    DefaultValue(value, false)
  }
}
