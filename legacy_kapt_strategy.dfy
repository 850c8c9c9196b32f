/**
 * The first `kapt` DTO strategies of the current packages, before the
 * composition: a name strategy that keeps the generated package, and a
 * members strategy that copies every field it is given, with a companion
 * `mapToDto` creator and a mixin's default values taking precedence.
 */
module LegacyKaptStrategy {
  import opened Wrappers
  import opened Model
  import opened CodeSpec
  import opened ElementInfo
  import Text
  import Strategies
  import MemberStatements
  import LegacyMembers

  const DTO_SUFFIX: string := "Dto"
  const NULL_DEFAULT: string := "null"
  const INSUFFICIENT_MAPPING: string := "com.github.manosbatsis.kotlin.utils.api.DtoInsufficientMappingException"

  // ---------------------------------------------------------------------------
  // Name strategy
  // ---------------------------------------------------------------------------

  datatype SimpleDtoNameStrategy = SimpleDtoNameStrategy(info: AnnotatedElementInfo) {
    /** `mapPackageName`: package names are kept as they are. */
    function MapPackageName(original: string): (r: string)
      ensures r == original
    {
      original
    }

    /** `getClassNameSuffix`: always "Dto", whatever the annotation overrides. */
    function GetClassNameSuffix(): (r: string)
      ensures r == DTO_SUFFIX
    {
      DTO_SUFFIX
    }

    /** `getClassName`: the generated package and the primary type's simple name plus the suffix. */
    function GetClassName(): (r: ClassName)
      ensures r.packageName == info.generatedPackageName
      ensures r.simpleName == info.primary.simpleName + DTO_SUFFIX
    {
      ClassName(MapPackageName(info.generatedPackageName), info.primary.simpleName + GetClassNameSuffix())
    }
  }

  /**
   * The first name strategy names every DTO as the composition's name
   * strategy does, except that it ignores an overriding suffix: the packages
   * always agree, and the names agree exactly when there is no override (or
   * the override is "Dto").
   */
  lemma NameAgreesWithComposition(info: AnnotatedElementInfo)
    ensures SimpleDtoNameStrategy(info).GetClassName().packageName ==
            Strategies.SimpleDtoNameStrategy(info, None).GetClassName().packageName
    ensures SimpleDtoNameStrategy(info).GetClassName() == Strategies.SimpleDtoNameStrategy(info, None).GetClassName() <==>
            info.overrideClassNameSuffix.None? || info.overrideClassNameSuffix.value == DTO_SUFFIX
  {
    var legacy := SimpleDtoNameStrategy(info).GetClassName();
    var current := Strategies.SimpleDtoNameStrategy(info, None).GetClassName();
    var p := info.primary.simpleName;
    if legacy == current {
      assert |legacy.simpleName| == |current.simpleName|;
      assert legacy.simpleName[|p|..] == DTO_SUFFIX;
      assert current.simpleName[|p|..] == Strategies.SimpleDtoNameStrategy(info, None).GetClassNameSuffix();
    }
  }

  // ---------------------------------------------------------------------------
  // Default values
  // ---------------------------------------------------------------------------

  /**
   * `listOfNotNull(mixinVariableElement, variableElement)`: the same-named
   * field of the mixin when there is one, then the field itself.
   */
  function DefaultCandidates(info: AnnotatedElementInfo, e: Element): (r: seq<Element>)
    ensures |r| >= 1 && r[|r| - 1] == e
  {
    match MemberStatements.FieldNamed(info.mixinFields, e.name)
    case Some(f) => [f.variableElement, e]
    case None => [e]
  }

  /** `mapNotNull { findDefaultValueAnnotationValue(it) }.firstOrNull()`. */
  function FirstDefault(es: seq<Element>): (r: Option<string>)
    ensures r.None? <==> forall i :: 0 <= i < |es| ==> es[i].defaultValue.None?
    ensures r.Some? ==> exists i :: 0 <= i < |es| && es[i].defaultValue.Some? && r.value == es[i].defaultValue.value.value &&
                                    forall j :: 0 <= j < i ==> es[j].defaultValue.None?
  {
    if es == [] then None
    else match es[0].defaultValue
         case Some(d) => Some(d.value)
         case None => FirstDefault(es[1..])
  }

  /**
   * `toDefaultValueExpression`: the `DefaultValue` of the first mixin field
   * of the same name when it has one; otherwise the field's own; otherwise
   * "null". The mixin fields are field descriptors, matched by name and read
   * through their variable element.
   */
  function DefaultValueExpression(info: AnnotatedElementInfo, e: Element): (r: string)
    ensures var mixin := MemberStatements.FieldNamed(info.mixinFields, e.name);
            if mixin.Some? && mixin.value.variableElement.defaultValue.Some? then
              r == mixin.value.variableElement.defaultValue.value.value
            else if e.defaultValue.Some? then r == e.defaultValue.value.value
            else r == NULL_DEFAULT
  {
    FirstDefault(DefaultCandidates(info, e)).GetOr(NULL_DEFAULT)
  }

  /** The default of every field of `info`'s passes. */
  function DefaultOf(info: AnnotatedElementInfo): Element -> string {
    (e: Element) => DefaultValueExpression(info, e)
  }

  /** Without a same-named mixin field, the field's own default decides. */
  lemma OwnDefaultWithoutMixin(info: AnnotatedElementInfo, e: Element)
    requires forall i :: 0 <= i < |info.mixinFields| ==> info.mixinFields[i].SimpleName() != e.name
    ensures DefaultValueExpression(info, e) == if e.defaultValue.Some? then e.defaultValue.value.value else NULL_DEFAULT
  {
    MemberStatements.FieldNamedFindsFirst(info.mixinFields, e.name);
  }

  // ---------------------------------------------------------------------------
  // Members strategy
  // ---------------------------------------------------------------------------

  /** The members strategy of one element, with its builders for the constructors and the three functions. */
  class SimpleDtoMembersStrategy {
    const info: AnnotatedElementInfo
    const nameStrategy: SimpleDtoNameStrategy
    const builders: LegacyMembers.MemberBuilders

    /** The primary type as a Kotlin type: the `original` parameter's type and the functions' return type. */
    function KotlinTypeName(): string {
      info.primary.kotlinTypeName
    }

    /** `getDtoTarget().asType().asTypeName()`: the primary type's name. */
    function DtoTarget(): string {
      info.primary.qualifiedName
    }

    /** The DTO's name as a `%T` argument. */
    function DtoClassName(): string {
      var c := nameStrategy.GetClassName();
      c.packageName + "." + c.simpleName
    }

    /** The builders as the strategy is created, beside the type's `items`. */
    function Opening(items: seq<TypeItem>): LegacyMembers.Builders {
      LegacyMembers.Builders(
        items, [],
        [Statement("val patched = %T(", [KotlinTypeName()])],
        [Line("try {"), Statement("   return %T(", [DtoTarget()])],
        [Line("")],
        [Statement("return %T(", [DtoClassName()])])
    }

    constructor (info: AnnotatedElementInfo, nameStrategy: SimpleDtoNameStrategy)
      ensures this.info == info && this.nameStrategy == nameStrategy
      ensures fresh(builders) && builders.State([]) == Opening([])
    {
      this.info := info;
      this.nameStrategy := nameStrategy;
      var c := nameStrategy.GetClassName();
      builders := new LegacyMembers.MemberBuilders(
        [Statement("val patched = %T(", [info.primary.kotlinTypeName])],
        [Line("try {"), Statement("   return %T(", [info.primary.qualifiedName])],
        [Line("")],
        [Statement("return %T(", [c.packageName + "." + c.simpleName])]);
    }

    /** The given fields, with the mixin-first default and their annotations of a copied package. */
    function PassOf(fields: seq<Element>): (r: LegacyMembers.Pass)
      ensures r.fields == fields
    {
      LegacyMembers.Pass(fields, DefaultOf(info), Some(info.copyAnnotationPackages))
    }

    /**
     * `processFields`: for each field a property, a constructor parameter,
     * and one line each in the patch, mapping, alternative-constructor and
     * creator bodies, the creator's line being the alternative constructor's.
     */
    method ProcessFields(b: TypeSpecBuilder, fields: seq<Element>)
      modifies builders, b
      ensures builders.Snapshot(b) ==
              LegacyMembers.AddAll(old(builders.Snapshot(b)), LegacyMembers.Lines(PassOf(fields), |fields|), LegacyMembers.WithCreator)
    {
      builders.AddFields(b, PassOf(fields), LegacyMembers.WithCreator);
    }

    /** `processDtoOnlyFields`: for each field a property and a constructor parameter only. */
    method ProcessDtoOnlyFields(b: TypeSpecBuilder, fields: seq<Element>)
      modifies builders, b
      ensures builders.Snapshot(b) ==
              LegacyMembers.AddAll(old(builders.Snapshot(b)), LegacyMembers.Lines(PassOf(fields), |fields|), LegacyMembers.PropertyOnly)
    {
      builders.AddFields(b, PassOf(fields), LegacyMembers.PropertyOnly);
    }

    /**
     * The members `finalize` adds to what was gathered `g`, in order: the
     * alternative constructor, the primary constructor, the companion with
     * `mapToDto`, `toPatched` and `toTargetType`.
     */
    function FinalItems(g: LegacyMembers.Builders): seq<TypeItem> {
      var original := LegacyMembers.OriginalParameter(KotlinTypeName());
      [AltConstructor(g.alt),
       PrimaryConstructor(g.params),
       Companion([FunSpec("mapToDto", [original], DtoClassName(), g.creator + [Line(")")])]),
       Function(FunSpec("toPatched", [original], KotlinTypeName(), g.patch + LegacyMembers.PATCH_CLOSING)),
       Function(FunSpec("toTargetType", [], KotlinTypeName(), g.mapping + LegacyMembers.MapClosing(false, INSUFFICIENT_MAPPING)))]
    }

    /**
     * What `finalize` makes of `g`: the creator, patch and mapping bodies
     * closed, the mapping's without returning the instance, which its
     * opening already returns, and the final members added.
     */
    function Finished(g: LegacyMembers.Builders): (r: LegacyMembers.Builders)
      ensures r.creator == g.creator + [Line(")")] && r.patch == g.patch + LegacyMembers.PATCH_CLOSING
      ensures r.mapping == g.mapping + LegacyMembers.MapClosing(false, INSUFFICIENT_MAPPING)
      ensures r.items == g.items + FinalItems(g) && r.params == g.params && r.alt == g.alt
    {
      g.(items := g.items + FinalItems(g),
         creator := g.creator + [Line(")")],
         patch := g.patch + LegacyMembers.PATCH_CLOSING,
         mapping := g.mapping + LegacyMembers.MapClosing(false, INSUFFICIENT_MAPPING))
    }

    /** `finalize`. */
    method Finalize(b: TypeSpecBuilder)
      modifies builders, b
      ensures builders.Snapshot(b) == Finished(old(builders.Snapshot(b)))
    {
      var g := builders.Snapshot(b);
      b.Add([AltConstructor(g.alt)]);
      builders.creator := builders.creator + [Line(")")];
      builders.patch := builders.patch + LegacyMembers.PATCH_CLOSING;
      builders.mapping := builders.mapping + LegacyMembers.MapClosing(false, INSUFFICIENT_MAPPING);
      b.Add(FinalItems(g)[1..]);
      assert [AltConstructor(g.alt)] + FinalItems(g)[1..] == FinalItems(g);
    }
  }

  /**
   * `processFields` gives each field a line in every body, and the creator
   * gets exactly the alternative constructor's lines; `processDtoOnlyFields`
   * leaves every body as it was. Both add the same properties and
   * parameters.
   */
  lemma PassesRouteLines(s: SimpleDtoMembersStrategy, g: LegacyMembers.Builders, fields: seq<Element>)
    ensures var ls := LegacyMembers.Lines(s.PassOf(fields), |fields|);
            var all := LegacyMembers.AddAll(g, ls, LegacyMembers.WithCreator);
            all.patch == g.patch + LegacyMembers.Patches(ls) && all.mapping == g.mapping + LegacyMembers.Mappings(ls) &&
            all.alt == g.alt + LegacyMembers.Alts(ls) && all.creator == g.creator + LegacyMembers.Alts(ls)
    ensures var ls := LegacyMembers.Lines(s.PassOf(fields), |fields|);
            var only := LegacyMembers.AddAll(g, ls, LegacyMembers.PropertyOnly);
            only.patch == g.patch && only.mapping == g.mapping && only.alt == g.alt && only.creator == g.creator
    ensures var ls := LegacyMembers.Lines(s.PassOf(fields), |fields|);
            var all, only := LegacyMembers.AddAll(g, ls, LegacyMembers.WithCreator), LegacyMembers.AddAll(g, ls, LegacyMembers.PropertyOnly);
            all.items == only.items && all.params == only.params
  {
    var ls := LegacyMembers.Lines(s.PassOf(fields), |fields|);
    LegacyMembers.AddAllBodies(g, ls, LegacyMembers.WithCreator);
    LegacyMembers.AddAllBodies(g, ls, LegacyMembers.PropertyOnly);
    LegacyMembers.AddAllItems(g, ls, LegacyMembers.WithCreator);
    LegacyMembers.AddAllItems(g, ls, LegacyMembers.PropertyOnly);
  }

  /**
   * Every constructor parameter defaults to the mixin-first default of its
   * field, and the mapping body rethrows any failure as the
   * insufficient-mapping exception once finalized.
   */
  lemma FinishedParametersAndMapping(s: SimpleDtoMembersStrategy, g: LegacyMembers.Builders, fields: seq<Element>, k: nat)
    requires k < |fields|
    ensures var r := s.Finished(LegacyMembers.AddAll(g, LegacyMembers.Lines(s.PassOf(fields), |fields|), LegacyMembers.WithCreator));
            var e, n := fields[k], |g.mapping| + |fields|;
            |r.params| == |g.params| + |fields| &&
            r.params[|g.params| + k] == ParameterSpec(e.name, TypeName(e.typeName, true), Some(DefaultValueExpression(s.info, e))) &&
            |r.mapping| == n + 5 && r.mapping[n] == Line("   )") &&
            r.mapping[n + 2] == Line("catch(e: Exception) {") &&
            r.mapping[n + 3] == Statement("   throw %T(exception = e)", [INSUFFICIENT_MAPPING])
  {
    var p := s.PassOf(fields);
    var ls := LegacyMembers.Lines(p, |fields|);
    LegacyMembers.AddAllItems(g, ls, LegacyMembers.WithCreator);
    LegacyMembers.AddAllBodies(g, ls, LegacyMembers.WithCreator);
  }
}
