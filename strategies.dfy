/**
 * The name and type strategies of a DTO and the "lesser composition" that
 * forwards name and type questions to them.
 */
module Strategies {
  import opened Wrappers
  import opened Model
  import opened CodeSpec
  import opened ElementInfo
  import opened Seqs
  import Api
  import Text
  import EnvAware

  /**
   * `SimpleDtoNameStrategy`. `root` is the composition the strategy was
   * created from, when it was created from one; it is kept and never consulted.
   */
  datatype SimpleDtoNameStrategy = SimpleDtoNameStrategy(info: AnnotatedElementInfo, root: Option<LesserComposition>)
  {
    /** Package names are kept as they are. */
    function MapPackageName(original: string): (r: string)
      ensures r == original
    {
      original
    }

    /** The suffix of the DTO's simple name: the annotation's override or "Dto". */
    function GetClassNameSuffix(): (r: string)
      ensures info.overrideClassNameSuffix.Some? ==> r == info.overrideClassNameSuffix.value
      ensures info.overrideClassNameSuffix.None? ==> r == "Dto"
    {
      info.overrideClassNameSuffix.GetOr("Dto")
    }

    /** The DTO lives in the generated package and is named after the primary type plus the suffix. */
    function GetClassName(): (r: ClassName)
      ensures r.packageName == info.generatedPackageName
      ensures r.simpleName == info.primary.simpleName + GetClassNameSuffix()
      ensures Text.StartsWith(r.simpleName, info.primary.simpleName)
    {
      ClassName(MapPackageName(info.generatedPackageName), info.primary.simpleName + GetClassNameSuffix())
    }
  }

  /** The secondary constructor: the information is the root's and the root is kept. */
  function NameStrategyFromRoot(root: LesserComposition): (r: SimpleDtoNameStrategy)
    ensures r.info == root.info && r.root == Some(root)
  {
    SimpleDtoNameStrategy(root.info, Some(root))
  }

  /** Without an override, the DTO of type `T` is named `TDto`. */
  lemma DefaultClassName(s: SimpleDtoNameStrategy)
    requires s.info.overrideClassNameSuffix.None?
    ensures s.GetClassName().simpleName == s.info.primary.simpleName + "Dto"
  {
  }

  /** The KDoc format of a DTO type. */
  const KDOC_FORMAT: string := "A [%T]-specific [%T] implementation"

  /** `SimpleDtoTypeStrategy`. */
  datatype SimpleDtoTypeStrategy = SimpleDtoTypeStrategy(info: AnnotatedElementInfo)
  {
    /** The root DTO interface is always the runtime `Dto` interface. */
    function GetRootDtoType(): (r: string)
      ensures r == Api.DTO_INTERFACE
    {
      Api.DTO_INTERFACE
    }

    /** The interface the DTO implements: the annotation's override, else `Dto`. */
    function GetDtoInterface(): (r: string)
      ensures info.overrideDtoInterface.Some? ==> r == info.overrideDtoInterface.value
      ensures info.overrideDtoInterface.None? ==> r == Api.DTO_INTERFACE
    {
      info.overrideDtoInterface.GetOr(Api.DTO_INTERFACE)
    }

    /** The DTO's target is the primary type's Kotlin name. */
    function GetDtoTarget(): (r: string)
      ensures r == info.primary.kotlinTypeName
    {
      info.primary.kotlinTypeName
    }

    /**
     * The type-level annotations copied onto the DTO: those of the primary type
     * whose package has one of the copy bases, then those of the mixin type.
     */
    function AnnotationItems(): (r: seq<TypeItem>)
      ensures var fromPrimary := EnvAware.AnnotationsWithBasePackage(info.primary.annotations, info.copyAnnotationPackages);
              |r| >= |fromPrimary| &&
              (forall i :: 0 <= i < |fromPrimary| ==> r[i] == Annotation(AnnotationSpec(fromPrimary[i])))
      ensures info.mixin.None? ==>
                |r| == |EnvAware.AnnotationsWithBasePackage(info.primary.annotations, info.copyAnnotationPackages)|
      ensures info.mixin.Some? ==>
                var fromPrimary := EnvAware.AnnotationsWithBasePackage(info.primary.annotations, info.copyAnnotationPackages);
                var fromMixin := EnvAware.AnnotationsWithBasePackage(info.mixin.value.annotations, info.copyAnnotationPackages);
                |r| == |fromPrimary| + |fromMixin| &&
                forall i :: 0 <= i < |fromMixin| ==> r[|fromPrimary| + i] == Annotation(AnnotationSpec(fromMixin[i]))
      ensures forall i :: 0 <= i < |r| ==> (r[i].Annotation? &&
                EnvAware.HasBasePackage(info.copyAnnotationPackages, r[i].spec.annotationType.packageName))
    {
      var types := [info.primary] + ToSeq(info.mixin);
      PrimaryThenMixin(info.primary, info.mixin, info.copyAnnotationPackages);
      TypeAnnotationItems(types, info.copyAnnotationPackages)
    }

    /** The KDoc names the primary type and the DTO interface. */
    function KdocItem(): (r: TypeItem)
      ensures r == Kdoc(KDOC_FORMAT, [info.primary.qualifiedName, GetDtoInterface()])
    {
      Kdoc(KDOC_FORMAT, [info.primary.qualifiedName, GetDtoInterface()])
    }

    /** The DTO implements the DTO interface parameterised by its target. */
    function SuperTypeItem(): (r: TypeItem)
      ensures r.SuperInterface? && r.iface == GetDtoInterface() && r.typeArgument == GetDtoTarget()
    {
      SuperInterface(GetDtoInterface(), GetDtoTarget())
    }

    /** `addAnnotations`: one pass per annotated type, primary first, then the mixin. */
    method AddAnnotations(b: TypeSpecBuilder)
      modifies b
      ensures b.items == old(b.items) + AnnotationItems()
    {
      var types := [info.primary] + ToSeq(info.mixin);
      AddTypesAnnotations(b, types, info.copyAnnotationPackages);
    }

    /** `addKdoc`. */
    method AddKdoc(b: TypeSpecBuilder)
      modifies b
      ensures b.items == old(b.items) + [KdocItem()]
    {
      b.Add([KdocItem()]);
    }

    /** `addModifiers`: a DTO is a data class. */
    method AddModifiers(b: TypeSpecBuilder)
      modifies b
      ensures b.items == old(b.items) + [DataModifier]
    {
      b.Add([DataModifier]);
    }

    /** `addSuperTypes`. */
    method AddSuperTypes(b: TypeSpecBuilder)
      modifies b
      ensures b.items == old(b.items) + [SuperTypeItem()]
    {
      b.Add([SuperTypeItem()]);
    }
  }

  /** `copyAnnotationsByBasePackage` for one type element. */
  function AnnotationItemsOf(t: TypeElement, bases: seq<string>): (r: seq<TypeItem>)
    ensures var kept := EnvAware.AnnotationsWithBasePackage(t.annotations, bases);
            |r| == |kept| && forall i :: 0 <= i < |r| ==> r[i] == Annotation(AnnotationSpec(kept[i]))
  {
    AnnotationSpecItems(EnvAware.AnnotationsWithBasePackage(t.annotations, bases))
  }

  /** Each annotation as a type-level annotation item. */
  function AnnotationSpecItems(annotations: seq<AnnotationType>): (r: seq<TypeItem>)
    ensures |r| == |annotations| && forall i :: 0 <= i < |r| ==> r[i] == Annotation(AnnotationSpec(annotations[i]))
  {
    if annotations == [] then [] else [Annotation(AnnotationSpec(annotations[0]))] + AnnotationSpecItems(annotations[1..])
  }

  /** Copies the annotations of each type in turn. */
  method AddTypesAnnotations(b: TypeSpecBuilder, types: seq<TypeElement>, bases: seq<string>)
    modifies b
    ensures b.items == old(b.items) + TypeAnnotationItems(types, bases)
  {
    var i := 0;
    ghost var start := b.items;
    ghost var added: seq<TypeItem> := [];
    while i < |types|
      invariant 0 <= i <= |types|
      invariant added == TypeAnnotationItems(types[..i], bases)
      invariant b.items == start + added
    {
      var chunk := AnnotationItemsOf(types[i], bases);
      assert types[..i + 1][..i] == types[..i];
      b.Add(chunk);
      added := added + chunk;
      i := i + 1;
    }
    assert types[..i] == types;
  }

  /** The annotation items of several types, type by type. */
  function TypeAnnotationItems(types: seq<TypeElement>, bases: seq<string>): seq<TypeItem> {
    if types == [] then []
    else TypeAnnotationItems(types[..|types| - 1], bases) + AnnotationItemsOf(types[|types| - 1], bases)
  }

  /**
   * The items of the primary type and the optional mixin are kept annotations:
   * exactly the primary's, followed by exactly the mixin's when there is one.
   */
  lemma PrimaryThenMixin(primary: TypeElement, mixin: Option<TypeElement>, bases: seq<string>)
    ensures var r := TypeAnnotationItems([primary] + ToSeq(mixin), bases);
            var head := AnnotationItemsOf(primary, bases);
            |r| >= |head| && r[..|head|] == head &&
            (mixin.None? ==> r == head) &&
            (mixin.Some? ==> r == head + AnnotationItemsOf(mixin.value, bases)) &&
            (forall i :: 0 <= i < |r| ==> (r[i].Annotation? &&
              EnvAware.HasBasePackage(bases, r[i].spec.annotationType.packageName)))
  {
    var types := [primary] + ToSeq(mixin);
    assert [primary][..0] == [];
    assert TypeAnnotationItems([primary], bases) == AnnotationItemsOf(primary, bases);
    var r := TypeAnnotationItems(types, bases);
    var head := AnnotationItemsOf(primary, bases);
    if mixin.Some? {
      assert types[..1] == [primary];
      assert r == head + AnnotationItemsOf(mixin.value, bases);
    }
    AllKept(primary, bases);
    if mixin.Some? {
      AllKept(mixin.value, bases);
    }
  }

  lemma AllKept(t: TypeElement, bases: seq<string>)
    ensures var r := AnnotationItemsOf(t, bases);
            forall i :: 0 <= i < |r| ==> (r[i].Annotation? &&
              EnvAware.HasBasePackage(bases, r[i].spec.annotationType.packageName))
  {
    var kept := EnvAware.AnnotationsWithBasePackage(t.annotations, bases);
    EnvAware.AnnotationsWithBasePackageKeeps(t.annotations, bases);
    var r := AnnotationItemsOf(t, bases);
    forall i | 0 <= i < |r|
      ensures r[i].Annotation? && EnvAware.HasBasePackage(bases, r[i].spec.annotationType.packageName)
    {
      assert r[i] == Annotation(AnnotationSpec(kept[i]));
    }
  }

  /**
   * `DtoStrategyLesserComposition`: the name and type strategies of one DTO,
   * to which every name and type question is forwarded.
   */
  datatype LesserComposition = LesserComposition(
    info: AnnotatedElementInfo,
    nameStrategy: SimpleDtoNameStrategy,
    typeStrategy: SimpleDtoTypeStrategy)
  {
    function MapPackageName(original: string): string { nameStrategy.MapPackageName(original) }
    function GetClassName(): ClassName { nameStrategy.GetClassName() }
    function GetClassNameSuffix(): string { nameStrategy.GetClassNameSuffix() }
    function GetDtoInterface(): string { typeStrategy.GetDtoInterface() }
    function GetDtoTarget(): string { typeStrategy.GetDtoTarget() }
    function GetRootDtoType(): string { typeStrategy.GetRootDtoType() }

    method AddAnnotations(b: TypeSpecBuilder)
      modifies b
      ensures b.items == old(b.items) + typeStrategy.AnnotationItems()
    {
      typeStrategy.AddAnnotations(b);
    }

    method AddKdoc(b: TypeSpecBuilder)
      modifies b
      ensures b.items == old(b.items) + [typeStrategy.KdocItem()]
    {
      typeStrategy.AddKdoc(b);
    }

    method AddModifiers(b: TypeSpecBuilder)
      modifies b
      ensures b.items == old(b.items) + [DataModifier]
    {
      typeStrategy.AddModifiers(b);
    }

    method AddSuperTypes(b: TypeSpecBuilder)
      modifies b
      ensures b.items == old(b.items) + [typeStrategy.SuperTypeItem()]
    {
      typeStrategy.AddSuperTypes(b);
    }
  }

  /** The default composition of one element: simple name and type strategies over its information. */
  function DefaultLesserComposition(info: AnnotatedElementInfo): (r: LesserComposition)
    ensures r.nameStrategy.info == info && r.typeStrategy.info == info && r.info == info
  {
    LesserComposition(info, SimpleDtoNameStrategy(info, None), SimpleDtoTypeStrategy(info))
  }

  /**
   * Forwarding: a composition's naming depends on its name strategy only and its
   * typing on its type strategy only; with the default strategies the DTO of
   * the primary type `T` is `TDto` (or the suffix override) implementing the
   * DTO interface of `T`.
   */
  lemma {:induction false} ForwardingIsByDelegate(c: LesserComposition, n: SimpleDtoNameStrategy, t: SimpleDtoTypeStrategy)
    ensures c.(typeStrategy := t).GetClassName() == c.GetClassName()
    ensures c.(nameStrategy := n).GetDtoInterface() == c.GetDtoInterface()
    ensures c.(nameStrategy := n).GetDtoTarget() == c.GetDtoTarget()
    ensures c.(typeStrategy := t).GetClassNameSuffix() == c.GetClassNameSuffix()
  {
  }

  lemma DefaultCompositionNames(info: AnnotatedElementInfo)
    ensures var c := DefaultLesserComposition(info);
            c.GetClassName() == ClassName(info.generatedPackageName, info.primary.simpleName + info.overrideClassNameSuffix.GetOr("Dto")) &&
            c.GetDtoTarget() == info.primary.kotlinTypeName &&
            c.typeStrategy.SuperTypeItem() == SuperInterface(info.overrideDtoInterface.GetOr(Api.DTO_INTERFACE), info.primary.kotlinTypeName)
  {
  }
}
