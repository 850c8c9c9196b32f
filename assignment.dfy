/**
 * The context of one assignment in generated code: which side is read, which
 * side is written, and the fallback appended when the value may be null.
 */
module Assignment {

  /** The three places a value can live in. */
  datatype FieldContext = GENERATED_TYPE | TARGET_TYPE | MIXIN_TYPE

  /**
   * `AssignmentContext`. `Empty` is the distinguished `EMPTY` context of the
   * strategy utilities: no fallback at all.
   */
  datatype AssignmentContext =
    | Context(source: FieldContext, target: FieldContext, fallbackValue: string, fallbackArgs: seq<string>)
    | Empty
  {
    /** The fallback text an assignment in this context ends with. */
    function FallbackValue(): (r: string)
      ensures Empty? ==> r == ""
      ensures Context? ==> r == fallbackValue
    {
      match this
      case Empty => ""
      case Context(_, _, v, _) => v
    }

    /** The format arguments of the fallback text. */
    function FallbackArgs(): (r: seq<string>)
      ensures Empty? ==> r == []
      ensures Context? ==> r == fallbackArgs
    {
      match this
      case Empty => []
      case Context(_, _, _, a) => a
    }

    /** `withFallbackValue`: the same context with another fallback text. */
    function WithFallbackValue(value: string): (r: AssignmentContext)
      requires Context?
      ensures r.Context? && r.source == source && r.target == target
      ensures r.fallbackValue == value && r.fallbackArgs == fallbackArgs
    {
      this.(fallbackValue := value)
    }

    /** `withFallbackArg`: the same context whose only fallback argument is `arg`. */
    function WithFallbackArg(arg: string): (r: AssignmentContext)
      requires Context?
      ensures r.Context? && r.source == source && r.target == target
      ensures r.fallbackValue == fallbackValue && r.fallbackArgs == [arg]
    {
      this.(fallbackArgs := [arg])
    }

    /** `withFallbackArgs`: the same context with the given fallback arguments. */
    function WithFallbackArgs(args: seq<string>): (r: AssignmentContext)
      requires Context?
      ensures r.Context? && r.source == source && r.target == target
      ensures r.fallbackValue == fallbackValue && r.fallbackArgs == args
    {
      this.(fallbackArgs := args)
    }
  }

  /** The constructor's default fallback. */
  const DEFAULT_FALLBACK: string := "?: error(\"Assignment failed\")"

  /** Reading the target type to fill the generated DTO. */
  const IN: AssignmentContext := Context(TARGET_TYPE, GENERATED_TYPE, DEFAULT_FALLBACK, [])

  /** Reading the generated DTO to fill the target type. */
  const OUT: AssignmentContext := Context(GENERATED_TYPE, TARGET_TYPE, DEFAULT_FALLBACK, [])

  /** IN and OUT are each other's mirror image. */
  lemma InOutMirror()
    ensures IN.source == OUT.target && IN.target == OUT.source && IN != OUT
    ensures IN.fallbackValue == OUT.fallbackValue == DEFAULT_FALLBACK
  {
  }

  /** Setting the fallback text and then the argument, in either order, gives the same context. */
  lemma WithersCommute(c: AssignmentContext, value: string, arg: string)
    requires c.Context?
    ensures c.WithFallbackValue(value).WithFallbackArg(arg) == c.WithFallbackArg(arg).WithFallbackValue(value)
    ensures c.WithFallbackArg(arg) == c.WithFallbackArgs([arg])
  {
  }
}
