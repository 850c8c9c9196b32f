/**
 * The older `kapt` DTO strategy: a composite of a name strategy that puts
 * the DTO in a ".generated" sub-package, a type strategy for the header,
 * and a members strategy that copies every field to process in one pass.
 */
module LegacyDtoStrategy {
  import opened Wrappers
  import opened Model
  import opened CodeSpec
  import Text
  import Strategies
  import Composition
  import LegacyMembers
  import LegacyEnvAware

  const GENERATED_SUFFIX: string := ".generated"
  const DTO_SUFFIX: string := "Dto"
  const DTO_INTERFACE: string := "com.github.manotbatsis.kotlin.utils.api.Dto"
  const KDOC_FORMAT: string := "A [%T]-specific [%T] implementation"
  const INSUFFICIENT_MAPPING: string := "com.github.manotbatsis.kotlin.utils.api.DtoInsufficientMappingException"

  /** The input of one DTO: the type, the fields to copy (none means all) and the annotation packages to copy. */
  datatype DtoInputContext = DtoInputContext(originalTypeElement: TypeElement, fields: seq<Element>, copyAnnotationPackages: seq<string>)
  {
    /** `originalTypeName`: the type's name as `asTypeName` renders it. */
    function OriginalTypeName(): string {
      originalTypeElement.qualifiedName
    }
  }

  /** A context with the declared defaults: no fields and no annotation packages. */
  function DefaultContext(t: TypeElement): (r: DtoInputContext)
    ensures r.originalTypeElement == t && r.fields == [] && r.copyAnnotationPackages == []
  {
    DtoInputContext(t, [], [])
  }

  // ---------------------------------------------------------------------------
  // Name strategy
  // ---------------------------------------------------------------------------

  /** `mapPackageName`: the package with ".generated" appended. */
  function MapPackageName(original: string): (r: string)
    ensures Text.StartsWith(r, original) && Text.EndsWith(r, GENERATED_SUFFIX)
    ensures |r| == |original| + |GENERATED_SUFFIX|
  {
    original + GENERATED_SUFFIX
  }

  /** The package a mapped package was mapped from, if it is a mapped package at all. */
  function UnmapPackageName(mapped: string): (r: Option<string>)
    ensures r.Some? <==> Text.EndsWith(mapped, GENERATED_SUFFIX)
  {
    if Text.EndsWith(mapped, GENERATED_SUFFIX) then Some(mapped[..|mapped| - |GENERATED_SUFFIX|]) else None
  }

  /** Unmapping undoes mapping. */
  lemma UnmapAfterMap(original: string)
    ensures UnmapPackageName(MapPackageName(original)) == Some(original)
  {
    assert MapPackageName(original)[..|original|] == original;
  }

  /** Mapping undoes unmapping: every package ending in ".generated" is the mapping of exactly one package. */
  lemma MapAfterUnmap(mapped: string)
    requires UnmapPackageName(mapped).Some?
    ensures MapPackageName(UnmapPackageName(mapped).value) == mapped
  {
    var n := |mapped| - |GENERATED_SUFFIX|;
    assert mapped[n..] == GENERATED_SUFFIX;
    assert mapped[..n] + mapped[n..] == mapped;
  }

  datatype SimpleDtoNameStrategy = SimpleDtoNameStrategy(ctx: DtoInputContext) {
    /** `getClassName`: the mapped package of the type and its simple name plus "Dto". */
    function GetClassName(): (r: ClassName)
      ensures r.packageName == MapPackageName(ctx.originalTypeElement.packageName)
      ensures r.simpleName == ctx.originalTypeElement.simpleName + DTO_SUFFIX
    {
      ClassName(MapPackageName(ctx.originalTypeElement.packageName), ctx.originalTypeElement.simpleName + DTO_SUFFIX)
    }
  }

  /**
   * The DTO never lands in the original type's package, and two types of
   * different packages never get DTOs in the same package.
   */
  lemma GeneratedPackageIsNeverOriginal(s: SimpleDtoNameStrategy, other: SimpleDtoNameStrategy)
    ensures s.GetClassName().packageName != s.ctx.originalTypeElement.packageName
    ensures s.GetClassName().packageName == other.GetClassName().packageName ==>
              s.ctx.originalTypeElement.packageName == other.ctx.originalTypeElement.packageName
  {
    UnmapAfterMap(s.ctx.originalTypeElement.packageName);
    UnmapAfterMap(other.ctx.originalTypeElement.packageName);
  }

  // ---------------------------------------------------------------------------
  // Type strategy
  // ---------------------------------------------------------------------------

  datatype SimpleDtoTypeStrategy = SimpleDtoTypeStrategy(ctx: DtoInputContext) {
    /** The `Dto` supertype parameterised by the original type. */
    function SuperTypeItem(): TypeItem {
      SuperInterface(DTO_INTERFACE, ctx.OriginalTypeName())
    }

    function KdocItem(): TypeItem {
      Kdoc(KDOC_FORMAT, [ctx.OriginalTypeName(), DTO_INTERFACE])
    }

    /** The type's annotations whose package is under one of the packages to copy. */
    function AnnotationItems(): seq<TypeItem> {
      Strategies.AnnotationItemsOf(ctx.originalTypeElement, ctx.copyAnnotationPackages)
    }

    method AddAnnotations(b: TypeSpecBuilder)
      modifies b
      ensures b.items == old(b.items) + AnnotationItems()
    {
      b.Add(AnnotationItems());
    }

    method AddKdoc(b: TypeSpecBuilder)
      modifies b
      ensures b.items == old(b.items) + [KdocItem()]
    {
      b.Add([KdocItem()]);
    }

    method AddModifiers(b: TypeSpecBuilder)
      modifies b
      ensures b.items == old(b.items) + [DataModifier]
    {
      b.Add([DataModifier]);
    }

    method AddSuperTypes(b: TypeSpecBuilder)
      modifies b
      ensures b.items == old(b.items) + [SuperTypeItem()]
    {
      b.Add([SuperTypeItem()]);
    }
  }

  // ---------------------------------------------------------------------------
  // Members strategy
  // ---------------------------------------------------------------------------

  /** `toDefaultValueExpression`: the field's `DefaultValue`, else "null". */
  function DefaultValueExpression(e: Element): (r: string)
    ensures e.defaultValue.Some? ==> r == e.defaultValue.value.value
    ensures e.defaultValue.None? ==> r == "null"
  {
    match e.defaultValue
    case Some(d) => d.value
    case None => "null"
  }

  /** The members strategy of one context, with its builders for the constructors and the two functions. */
  class SimpleDtoMembersStrategy {
    const ctx: DtoInputContext
    const builders: LegacyMembers.MemberBuilders

    /** The primary type as a Kotlin type: the `original` parameter's type and the functions' return type. */
    function KotlinTypeName(): string {
      ctx.originalTypeElement.kotlinTypeName
    }

    /** The builders as the strategy is created, beside the type's `items`. */
    function Opening(items: seq<TypeItem>): LegacyMembers.Builders {
      LegacyMembers.Builders(
        items, [],
        [Statement("val patched = %T(", [KotlinTypeName()])],
        [Line("try {"), Statement("   val originalTypeInstance = %T(", [KotlinTypeName()])],
        [Line("")],
        [])
    }

    constructor (ctx: DtoInputContext)
      ensures this.ctx == ctx && fresh(builders) && builders.State([]) == Opening([])
    {
      this.ctx := ctx;
      var o := LegacyMembers.Builders([], [], [Statement("val patched = %T(", [ctx.originalTypeElement.kotlinTypeName])],
        [Line("try {"), Statement("   val originalTypeInstance = %T(", [ctx.originalTypeElement.kotlinTypeName])],
        [Line("")], []);
      builders := new LegacyMembers.MemberBuilders(o.patch, o.mapping, o.alt, o.creator);
    }

    /** The given fields, with the `DefaultValue` default and their annotations of a copied package. */
    function PassOf(fields: seq<Element>): (r: LegacyMembers.Pass)
      ensures r.fields == fields
    {
      LegacyMembers.Pass(fields, DefaultValueExpression, Some(ctx.copyAnnotationPackages))
    }

    /** What `processFields` makes of the builders `g`: every field's lines, then `finalize`. */
    function Processed(g: LegacyMembers.Builders, fields: seq<Element>): LegacyMembers.Builders {
      LegacyMembers.Closed(LegacyMembers.AddAll(g, LegacyMembers.Lines(PassOf(fields), |fields|), LegacyMembers.AllLines),
                           KotlinTypeName(), INSUFFICIENT_MAPPING)
    }

    /** `processFields`: each field in turn, then exactly one `finalize`. */
    method ProcessFields(b: TypeSpecBuilder, fields: seq<Element>)
      modifies builders, b
      ensures builders.Snapshot(b) == Processed(old(builders.Snapshot(b)), fields)
    {
      builders.AddFields(b, PassOf(fields), LegacyMembers.AllLines);
      Finalize(b);
    }

    /**
     * `finalize`: closes the patch and the mapping bodies, then adds the
     * primary constructor, the alternative constructor and the two functions.
     */
    method Finalize(b: TypeSpecBuilder)
      modifies builders, b
      ensures builders.Snapshot(b) == LegacyMembers.Closed(old(builders.Snapshot(b)), KotlinTypeName(), INSUFFICIENT_MAPPING)
    {
      b.Add(LegacyMembers.ClosingItems(builders.Snapshot(b), KotlinTypeName(), INSUFFICIENT_MAPPING));
      builders.patch := builders.patch + LegacyMembers.PATCH_CLOSING;
      builders.mapping := builders.mapping + LegacyMembers.MapClosing(true, INSUFFICIENT_MAPPING);
    }
  }

  /**
   * The constructor parameters are those of the fields, each nullable with
   * its `DefaultValue` or "null", and the mapping body ends with the
   * `try`/`catch` that rethrows the insufficient-mapping exception.
   */
  lemma ProcessedParametersAndMapping(s: SimpleDtoMembersStrategy, g: LegacyMembers.Builders, fields: seq<Element>, k: nat)
    requires k < |fields|
    ensures var r, e, n := s.Processed(g, fields), fields[k], |g.mapping| + |fields|;
            |r.params| == |g.params| + |fields| &&
            r.params[|g.params| + k] == ParameterSpec(e.name, TypeName(e.typeName, true), Some(DefaultValueExpression(e))) &&
            |r.mapping| == n + 6 && r.mapping[n + 1] == Line("   return originalTypeInstance") &&
            r.mapping[n + 3] == Line("catch(e: Exception) {") &&
            r.mapping[n + 4] == Statement("   throw %T(exception = e)", [INSUFFICIENT_MAPPING])
  {
    var p := s.PassOf(fields);
    var ls := LegacyMembers.Lines(p, |fields|);
    LegacyMembers.AddAllItems(g, ls, LegacyMembers.AllLines);
    LegacyMembers.AddAllBodies(g, ls, LegacyMembers.AllLines);
  }

  // ---------------------------------------------------------------------------
  // The composition and the composite strategy
  // ---------------------------------------------------------------------------

  /** `SimpleDtoStrategyComposition`: the factory of the three simple strategies. */
  datatype DtoStrategyComposition = SimpleDtoStrategyComposition {
    function DtoNameStrategy(ctx: DtoInputContext): (r: SimpleDtoNameStrategy)
      ensures r.ctx == ctx
    {
      SimpleDtoNameStrategy(ctx)
    }

    function DtoTypeStrategy(ctx: DtoInputContext): (r: SimpleDtoTypeStrategy)
      ensures r.ctx == ctx
    {
      SimpleDtoTypeStrategy(ctx)
    }

    method DtoMembersStrategy(ctx: DtoInputContext) returns (r: SimpleDtoMembersStrategy)
      ensures fresh(r) && fresh(r.builders) && r.ctx == ctx && r.builders.State([]) == r.Opening([])
    {
      r := new SimpleDtoMembersStrategy(ctx);
    }
  }

  /** `CompositeDtoStrategy`: a strategy delegating to a name, a members and a type strategy. */
  class CompositeDtoStrategy {
    const ctx: DtoInputContext
    const nameStrategy: SimpleDtoNameStrategy
    const membersStrategy: SimpleDtoMembersStrategy
    const typeStrategy: SimpleDtoTypeStrategy

    /** The primary constructor: each strategy not given is the simple one over the same context. */
    constructor (ctx: DtoInputContext, nameStrategy: Option<SimpleDtoNameStrategy>,
                 membersStrategy: Option<SimpleDtoMembersStrategy>, typeStrategy: Option<SimpleDtoTypeStrategy>)
      ensures this.ctx == ctx
      ensures this.nameStrategy == nameStrategy.GetOr(SimpleDtoNameStrategy(ctx))
      ensures this.typeStrategy == typeStrategy.GetOr(SimpleDtoTypeStrategy(ctx))
      ensures membersStrategy.Some? ==> this.membersStrategy == membersStrategy.value
      ensures membersStrategy.None? ==>
                fresh(this.membersStrategy) && fresh(this.membersStrategy.builders) &&
                this.membersStrategy.ctx == ctx &&
                this.membersStrategy.builders.State([]) == this.membersStrategy.Opening([])
    {
      var m;
      if membersStrategy.Some? {
        m := membersStrategy.value;
      } else {
        m := new SimpleDtoMembersStrategy(ctx);
      }
      this.ctx := ctx;
      this.nameStrategy := nameStrategy.GetOr(SimpleDtoNameStrategy(ctx));
      this.membersStrategy := m;
      this.typeStrategy := typeStrategy.GetOr(SimpleDtoTypeStrategy(ctx));
    }

    /** The secondary constructor: all three strategies from the composition's factories, over `ctx`. */
    constructor FromComposition(ctx: DtoInputContext, composition: DtoStrategyComposition)
      ensures this.ctx == ctx
      ensures nameStrategy == composition.DtoNameStrategy(ctx) && typeStrategy == composition.DtoTypeStrategy(ctx)
      ensures fresh(membersStrategy) && fresh(membersStrategy.builders) && membersStrategy.ctx == ctx
      ensures membersStrategy.builders.State([]) == membersStrategy.Opening([])
    {
      var m := composition.DtoMembersStrategy(ctx);
      this.ctx := ctx;
      nameStrategy := composition.DtoNameStrategy(ctx);
      membersStrategy := m;
      typeStrategy := composition.DtoTypeStrategy(ctx);
    }

    /** `getFieldsToProcess`: the context's fields, or when there are none the constructor-parameter fields. */
    function GetFieldsToProcess(): (r: seq<Element>)
      ensures ctx.fields != [] ==> r == ctx.fields
      ensures ctx.fields == [] ==> r == LegacyEnvAware.AccessibleConstructorParameterFields(ctx.originalTypeElement)
    {
      if ctx.fields != [] then ctx.fields else LegacyEnvAware.AccessibleConstructorParameterFields(ctx.originalTypeElement)
    }

    /** `addMembers`: exactly `processFields` over the fields to process. */
    method AddMembers(b: TypeSpecBuilder)
      modifies membersStrategy.builders, b
      ensures membersStrategy.builders.Snapshot(b) ==
              membersStrategy.Processed(old(membersStrategy.builders.Snapshot(b)), GetFieldsToProcess())
    {
      membersStrategy.ProcessFields(b, GetFieldsToProcess());
    }

    /** The supertype, the data modifier, the KDoc, then the annotations. */
    function Header(): seq<TypeItem> {
      [typeStrategy.SuperTypeItem(), DataModifier, typeStrategy.KdocItem()] + typeStrategy.AnnotationItems()
    }

    /**
     * `dtoTypeSpecBuilder`: a class named by the name strategy, to which the
     * supertype, the modifiers, the KDoc, the annotations and the members are
     * added in that order, then one type variable per type parameter.
     */
    method DtoTypeSpecBuilder() returns (b: TypeSpecBuilder)
      modifies membersStrategy.builders
      ensures fresh(b) && b.className == nameStrategy.GetClassName()
      ensures var g := membersStrategy.Processed(old(membersStrategy.builders.State(Header())), GetFieldsToProcess());
              b.items == g.items + Composition.TypeVariableItems(ctx.originalTypeElement.typeParameters) &&
              membersStrategy.builders.State(g.items) == g
    {
      b := new TypeSpecBuilder(nameStrategy.GetClassName());
      typeStrategy.AddSuperTypes(b);
      typeStrategy.AddModifiers(b);
      typeStrategy.AddKdoc(b);
      typeStrategy.AddAnnotations(b);
      assert b.items == Header();
      AddMembers(b);
      ghost var g := membersStrategy.builders.Snapshot(b);
      Composition.AddTypeVariables(b, ctx.originalTypeElement.typeParameters);
      assert membersStrategy.builders.State(g.items) == g;
    }
  }

  /**
   * `processFields` keeps the items already there and puts one nullable,
   * mutable, public property per field right after them, followed by the
   * four members of `finalize`.
   */
  lemma ProcessedProperties(s: SimpleDtoMembersStrategy, g: LegacyMembers.Builders, fields: seq<Element>, k: nat)
    requires k < |fields|
    ensures var r, e := s.Processed(g, fields), fields[k];
            |r.items| == |g.items| + |fields| + 4 && r.items[..|g.items|] == g.items &&
            r.items[|g.items| + k] == Property(LegacyMembers.LinesAt(s.PassOf(fields), k).property) &&
            LegacyMembers.LinesAt(s.PassOf(fields), k).property.typ == TypeName(e.typeName, true) &&
            LegacyMembers.LinesAt(s.PassOf(fields), k).property.mutable
  {
    var p := s.PassOf(fields);
    LegacyMembers.ClosedPassItems(g, p, s.KotlinTypeName(), INSUFFICIENT_MAPPING);
    LegacyMembers.FieldContribution(p, k);
  }
}
