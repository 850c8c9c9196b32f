/**
 * The compiler's view of the annotated program, as the generator sees it
 * through `javax.lang.model`. The answers to the compiler queries the
 * generator asks about an element (is it static, nullable, iterable, what
 * default value annotation it carries) are recorded as fields.
 */
module Model {
  import opened Wrappers
  import Api

  datatype ElementKind = CLASS | INTERFACE | ENUM | CONSTRUCTOR | METHOD | FIELD | PARAMETER | OTHER_KIND

  /** Kind of a method's return type, as far as the getter and setter rules look at it. */
  datatype TypeKind = BOOLEAN | VOID | DECLARED | OTHER_TYPE

  datatype Modifier = PUBLIC | PROTECTED | PRIVATE | STATIC | OTHER_MODIFIER

  /** The type of an annotation mirror. */
  datatype AnnotationType = AnnotationType(qualifiedName: string, simpleName: string, packageName: string)

  /**
   * A member element: field, method, constructor or parameter.
   * - `typeName`, `typeElementName`, `typeSimpleName`: the element's type, its
   *   type element's qualified name and simple name;
   * - `isStatic`: the static-or-singleton heuristic;
   * - `isPrimitive`, `isIterable`: whether its type is primitive or assignable to `Iterable`;
   * - `returnKind`, `returnTypeName`: for a method, its return type;
   * - `constructorParameterAnnotations`: the annotations of the first
   *   constructor parameter of the enclosing type that has the same name;
   * - `defaultValue`: the `value` and `nullable` members of its `@DefaultValue` annotation.
   */
  datatype Element = Element(
    kind: ElementKind,
    name: string,
    modifiers: set<Modifier>,
    isStatic: bool,
    typeName: string,
    typeElementName: string,
    typeSimpleName: string,
    isPrimitive: bool,
    isIterable: bool,
    parameters: seq<Element>,
    returnKind: TypeKind,
    returnTypeName: string,
    annotations: seq<AnnotationType>,
    constructorParameterAnnotations: seq<AnnotationType>,
    defaultValue: Option<Api.DefaultValue>)

  datatype TypeParameter = TypeParameter(name: string, bounds: seq<string>)

  /**
   * A class or interface. `allMembers` is what `Elements.getAllMembers`
   * reports for it; `superclass` is None where the compiler reports the
   * NONE type (interfaces and `java.lang.Object`); `isKotlin` says whether it
   * carries `kotlin.Metadata`.
   */
  datatype TypeElement = TypeElement(
    qualifiedName: string,
    simpleName: string,
    packageName: string,
    kotlinTypeName: string,
    kind: ElementKind,
    isKotlin: bool,
    allMembers: seq<Element>,
    superclass: Option<TypeElement>,
    annotations: seq<AnnotationType>,
    typeParameters: seq<TypeParameter>)

  /**
   * An annotation instance: its type, its class-valued members and its
   * string-list members, with the annotation's defaults applied, and its
   * boolean members when they are set.
   */
  datatype AnnotationMirror = AnnotationMirror(
    annotationType: AnnotationType,
    typeValues: map<string, TypeElement>,
    stringListValues: map<string, seq<string>>,
    booleanValues: map<string, bool>)
}
