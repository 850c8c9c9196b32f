/**
 * `DefaultDtoTypeSpecBuilderStrategy` of the older `dto` package: the whole
 * DTO type built by one strategy whose `addMembers` gathers the fields'
 * lines in builders of its own.
 */
module LegacyTypeSpecBuilder {
  import opened Wrappers
  import opened Model
  import opened CodeSpec
  import Api
  import Text
  import Strategies
  import Composition
  import LegacyMembers
  import LegacyUtils

  const GENERATED_SUFFIX: string := ".generated"
  const DTO_SUFFIX: string := "Dto"
  const KDOC_FORMAT: string := "A [%T]-specific [%T] implementation"
  const INSUFFICIENT_MAPPING: string := "com.github.manosbatsis.kotlin.utils.api.DtoInsufficientMappingException"

  /** What the strategy is built with: the type, the fields to copy, the target package and the annotation packages. */
  datatype DtoTypeSpecBuilderContext = DtoTypeSpecBuilderContext(
    originalTypeElement: TypeElement,
    fields: seq<Element>,
    targetPackage: string,
    copyAnnotationPackages: seq<string>)

  /** A context with the declared defaults: no fields, the type's own package, no annotation packages. */
  function DefaultContext(t: TypeElement): (r: DtoTypeSpecBuilderContext)
    ensures r.originalTypeElement == t && r.fields == [] && r.targetPackage == t.packageName && r.copyAnnotationPackages == []
  {
    DtoTypeSpecBuilderContext(t, [], t.packageName, [])
  }

  datatype DefaultDtoTypeSpecBuilderStrategy = DefaultDtoTypeSpecBuilderStrategy(ctx: DtoTypeSpecBuilderContext) {

    /** `originalTypeName`: the type's name as `asTypeName` renders it. */
    function OriginalTypeName(): string {
      ctx.originalTypeElement.qualifiedName
    }

    /** `mapPackageName`: the package with ".generated" appended. */
    function MapPackageName(original: string): (r: string)
      ensures Text.StartsWith(r, original) && |r| == |original| + |GENERATED_SUFFIX|
    {
      original + GENERATED_SUFFIX
    }

    /** `getClassName`: the target package, unmapped, and the type's simple name plus "Dto". */
    function GetClassName(): (r: ClassName)
      ensures r.packageName == ctx.targetPackage
      ensures r.simpleName == ctx.originalTypeElement.simpleName + DTO_SUFFIX
    {
      ClassName(ctx.targetPackage, ctx.originalTypeElement.simpleName + DTO_SUFFIX)
    }

    /** `getFieldsToProcess`: the context's fields, or when there are none the constructor-parameter fields. */
    function GetFieldsToProcess(): (r: seq<Element>)
      ensures ctx.fields != [] ==> r == ctx.fields
      ensures ctx.fields == [] ==> r == LegacyUtils.AccessibleConstructorParameterFields(ctx.originalTypeElement)
    {
      if ctx.fields != [] then ctx.fields else LegacyUtils.AccessibleConstructorParameterFields(ctx.originalTypeElement)
    }

    /**
     * The supertype, the data modifier, the KDoc and the annotations of the
     * type from the copied packages, in the order `dtoTypeSpecBuilder` adds
     * them.
     */
    function Header(): seq<TypeItem> {
      [SuperInterface(Api.DTO_INTERFACE, OriginalTypeName()),
       DataModifier,
       Kdoc(KDOC_FORMAT, [OriginalTypeName(), Api.DTO_INTERFACE])]
        + Strategies.AnnotationItemsOf(ctx.originalTypeElement, ctx.copyAnnotationPackages)
    }

    /** The fields to process, with the `DefaultValue` default and their annotations of a copied package. */
    function PassOf(): LegacyMembers.Pass {
      LegacyMembers.Pass(GetFieldsToProcess(), OwnDefault, Some(ctx.copyAnnotationPackages))
    }

    /** The local builders `addMembers` starts from, beside the type's `items`. */
    function Opening(items: seq<TypeItem>): LegacyMembers.Builders {
      LegacyMembers.Builders(
        items, [],
        [Statement("val patched = %T(", [OriginalTypeName()])],
        [Line("try {"), Statement("   val originalTypeInstance = %T(", [OriginalTypeName()])],
        [Line("")],
        [])
    }

    /** The builders once every field to process is added and the bodies are closed. */
    function MembersAdded(items: seq<TypeItem>): LegacyMembers.Builders {
      var p := PassOf();
      LegacyMembers.Closed(LegacyMembers.AddAll(Opening(items), LegacyMembers.Lines(p, |p.fields|), LegacyMembers.AllLines),
                           OriginalTypeName(), INSUFFICIENT_MAPPING)
    }

    /** `addMembers`: each field to process, then the members that close the pass. */
    method AddMembers(b: TypeSpecBuilder)
      modifies b
      ensures b.items == MembersAdded(old(b.items)).items
    {
      var opening := Opening(b.items);
      var acc := new LegacyMembers.MemberBuilders(opening.patch, opening.mapping, opening.alt, opening.creator);
      assert acc.Snapshot(b) == opening;
      acc.AddFields(b, PassOf(), LegacyMembers.AllLines);
      b.Add(LegacyMembers.ClosingItems(acc.Snapshot(b), OriginalTypeName(), INSUFFICIENT_MAPPING));
    }

    /**
     * `dtoTypeSpecBuilder`: a class with `getClassName`, to which the header,
     * the members and one type variable per type parameter are added in
     * that order.
     */
    method DtoTypeSpecBuilder() returns (b: TypeSpecBuilder)
      ensures fresh(b) && b.className == GetClassName()
      ensures b.items == MembersAdded(Header()).items + Composition.TypeVariableItems(ctx.originalTypeElement.typeParameters)
    {
      b := new TypeSpecBuilder(GetClassName());
      b.Add(Header());
      assert b.items == Header();
      AddMembers(b);
      Composition.AddTypeVariables(b, ctx.originalTypeElement.typeParameters);
    }
  }

  /** `findAnnotationValue(DefaultValue, "value")`, else "null". */
  function OwnDefault(e: Element): (r: string)
    ensures e.defaultValue.Some? ==> r == e.defaultValue.value.value
    ensures e.defaultValue.None? ==> r == "null"
  {
    match e.defaultValue
    case Some(d) => d.value
    case None => "null"
  }

  /**
   * `mapPackageName` never gives back its input, yet `getClassName` does
   * not use it: the DTO lands in the target package itself, which by
   * default is the original type's own package.
   */
  lemma ClassNameIgnoresMappedPackage(s: DefaultDtoTypeSpecBuilderStrategy)
    ensures s.GetClassName().packageName != s.MapPackageName(s.ctx.targetPackage)
    ensures s.ctx == DefaultContext(s.ctx.originalTypeElement) ==>
              s.GetClassName().packageName == s.ctx.originalTypeElement.packageName
  {
    assert |s.MapPackageName(s.ctx.targetPackage)| > |s.ctx.targetPackage|;
  }

  /**
   * The members come after the header, and after them the type keeps the
   * header it had: `addMembers` only appends.
   */
  lemma MembersAddedKeepsItems(s: DefaultDtoTypeSpecBuilderStrategy, items: seq<TypeItem>)
    ensures var r, n := s.MembersAdded(items), |s.GetFieldsToProcess()|;
            |r.items| == |items| + n + 4 && r.items[..|items|] == items &&
            forall k :: 0 <= k < n ==>
              r.items[|items| + k] == Property(LegacyMembers.LinesAt(s.PassOf(), k).property)
  {
    var p := s.PassOf();
    LegacyMembers.ClosedPassItems(s.Opening(items), p, s.OriginalTypeName(), INSUFFICIENT_MAPPING);
    assert |p.fields| == |s.GetFieldsToProcess()|;
  }

  /**
   * Each constructor parameter is named after its field, nullable, and
   * defaults to the field's `DefaultValue` or else "null".
   */
  lemma MembersAddedParameters(s: DefaultDtoTypeSpecBuilderStrategy, items: seq<TypeItem>, k: nat)
    requires k < |s.GetFieldsToProcess()|
    ensures var r, e := s.MembersAdded(items), s.GetFieldsToProcess()[k];
            |r.params| == |s.GetFieldsToProcess()| &&
            r.params[k] == ParameterSpec(e.name, TypeName(e.typeName, true), Some(OwnDefault(e)))
  {
    var p := s.PassOf();
    LegacyMembers.AddAllItems(s.Opening(items), LegacyMembers.Lines(p, |p.fields|), LegacyMembers.AllLines);
  }
}
