/**
 * The KotlinPoet values the generator builds, reduced to what the
 * generator decides: names, nullability, defaults and the lines of code.
 */
module CodeSpec {
  import opened Wrappers
  import opened Model

  /** A type name: its rendering and whether it is nullable. */
  datatype TypeName = TypeName(name: string, nullable: bool)

  datatype ClassName = ClassName(packageName: string, simpleName: string)

  /** One line of generated code: a KotlinPoet format string and its arguments. */
  datatype Statement = Statement(format: string, args: seq<string>)

  /** A line without format arguments. */
  function Line(format: string): (r: Statement)
    ensures r.format == format && r.args == []
  {
    Statement(format, [])
  }

  type CodeBlock = seq<Statement>

  /** `CodeBlock.Builder.addStatement(Statement?)`: a missing statement adds nothing. */
  function AddStatement(block: CodeBlock, s: Option<Statement>): (r: CodeBlock)
    ensures s.None? ==> r == block
    ensures s.Some? ==> |r| == |block| + 1 && r[..|block|] == block && r[|block|] == s.value
  {
    block + ToSeq(s)
  }

  datatype ParameterSpec = ParameterSpec(name: string, typ: TypeName, defaultValue: Option<string>)

  datatype AnnotationSpec = AnnotationSpec(annotationType: AnnotationType)

  datatype PropertySpec = PropertySpec(
    name: string,
    typ: TypeName,
    mutable: bool,
    modifiers: seq<string>,
    initializer: string,
    annotations: seq<AnnotationSpec>)

  /** A function: its name, parameters, return type and body. */
  datatype FunSpec = FunSpec(name: string, parameters: seq<ParameterSpec>, returnType: string, body: CodeBlock)

  /** What is added to a type under construction, in the order it is added. */
  datatype TypeItem =
    | SuperInterface(iface: string, typeArgument: string)
    | DataModifier
    | Kdoc(format: string, args: seq<string>)
    | Annotation(spec: AnnotationSpec)
    | Property(property: PropertySpec)
    | AltConstructor(thisCall: CodeBlock)
    | PrimaryConstructor(parameters: seq<ParameterSpec>)
    | Companion(functions: seq<FunSpec>)
    | Function(fun: FunSpec)
    | TypeVariable(parameter: TypeParameter)

  /** `TypeSpec.Builder` for a class: its name and the items added to it. */
  class TypeSpecBuilder {
    const className: ClassName
    var items: seq<TypeItem>

    constructor (className: ClassName)
      ensures this.className == className && items == []
    {
      this.className := className;
      items := [];
    }

    method Add(extra: seq<TypeItem>)
      modifies this
      ensures items == old(items) + extra
    {
      items := items + extra;
    }
  }
}
