/**
 * `DtoStrategyComposition` and its two implementations: a DTO strategy made
 * of a name, a type and a members strategy. The composition names and types
 * the DTO through the first two, selects the fields, and has the members
 * strategy turn them into the DTO's members.
 */
module Composition {
  import opened Wrappers
  import opened Model
  import opened CodeSpec
  import opened ElementInfo
  import opened MemberStatements
  import opened Strategies
  import opened Members
  import opened DtoStrategy
  import Seqs
  import Assignment
  import Api

  // ---------------------------------------------------------------------------
  // Field selection
  // ---------------------------------------------------------------------------

  /** `getFieldIncludes`: a composition includes every field. */
  function FieldIncludes(info: AnnotatedElementInfo): seq<string> {
    []
  }

  /** `getFieldExcludes`: the annotation's ignored properties. */
  function FieldExcludes(info: AnnotatedElementInfo): seq<string> {
    info.ignoreProperties
  }

  /** `getFieldsToProcess`: the primary type's fields, filtered. */
  function FieldsToProcess(info: AnnotatedElementInfo): seq<FieldInfo> {
    Filtered(info.primaryFields, FieldIncludes(info), FieldExcludes(info))
  }

  /** `getExtraFieldsFromMixin`: the mixin's fields minus the primary type's names and the ignored names. */
  function ExtraFieldsFromMixin(info: AnnotatedElementInfo): seq<FieldInfo> {
    ExcludeNames(info.mixinFields, ToSimpleNames(info.primaryFields) + FieldExcludes(info))
  }

  /** The fields to process are the primary type's fields that are not ignored, in their order. */
  lemma FieldsToProcessKeeps(info: AnnotatedElementInfo)
    ensures forall f :: f in FieldsToProcess(info) <==>
              f in info.primaryFields && f.SimpleName() !in info.ignoreProperties
    ensures Seqs.IsSubsequence(FieldsToProcess(info), info.primaryFields)
    ensures info.ignoreProperties == [] ==> FieldsToProcess(info) == info.primaryFields
  {
    FilteredKeeps(info.primaryFields, [], info.ignoreProperties);
  }

  /**
   * The mixin's extra fields are its fields whose name is neither ignored nor
   * the name of a primary field, in mixin order.
   */
  lemma ExtraFieldsFromMixinKeeps(info: AnnotatedElementInfo)
    ensures forall f :: f in ExtraFieldsFromMixin(info) <==>
              f in info.mixinFields && f.SimpleName() !in info.ignoreProperties &&
              !(exists g :: g in info.primaryFields && g.SimpleName() == f.SimpleName())
    ensures Seqs.IsSubsequence(ExtraFieldsFromMixin(info), info.mixinFields)
  {
    var excludes := ToSimpleNames(info.primaryFields) + info.ignoreProperties;
    ExcludeNamesKeeps(info.mixinFields, excludes);
    forall f | f in info.mixinFields
      ensures f.SimpleName() in excludes <==>
                f.SimpleName() in info.ignoreProperties ||
                exists g :: g in info.primaryFields && g.SimpleName() == f.SimpleName()
    {
      ToSimpleNamesHas(info.primaryFields, f.SimpleName());
    }
  }

  // ---------------------------------------------------------------------------
  // `addMembers` and `dtoTypeSpecBuilder`
  // ---------------------------------------------------------------------------

  /** The pass `addMembers` asks the members strategy `ms` to make over the fields to process. */
  function MembersPass(info: AnnotatedElementInfo, ms: SimpleDtoMembersStrategy): Pass {
    Pass(ms.config, ms.info, info, InScope(FieldsToProcess(info)))
  }

  /**
   * What `addMembers` makes of what `ms` has gathered: the pass over the
   * fields to process, then the mixin's extra fields, then `finalize`.
   */
  function MembersAdded(info: AnnotatedElementInfo, ms: SimpleDtoMembersStrategy, g: Gathered): Gathered {
    ms.Finished(WithDtoOnly(ms.config, ms.info, Run(g, MembersPass(info, ms)), ExtraFieldsFromMixin(info)))
  }

  /** `addMembers`: `processFields`, `processDtoOnlyFields` and `finalize`, once each and in that order. */
  method AddMembers(info: AnnotatedElementInfo, ms: SimpleDtoMembersStrategy, b: TypeSpecBuilder)
    modifies ms, b
    ensures ms.Snapshot(b) == MembersAdded(info, ms, old(ms.Snapshot(b)))
  {
    ms.ProcessFields(b, info, FieldsToProcess(info));
    ms.ProcessDtoOnlyFields(b, ExtraFieldsFromMixin(info));
    ms.Finalize(b);
  }

  /**
   * Every part `addMembers` produces is what was there, then the pass's lines
   * field by field, then (for the properties and constructor parameters only)
   * the mixin's extra fields, then what `finalize` adds.
   */
  lemma MembersAddedParts(info: AnnotatedElementInfo, ms: SimpleDtoMembersStrategy, g: Gathered)
    ensures var ls := Lines(MembersPass(info, ms), |MembersPass(info, ms).scope|);
            var extras := ExtraFieldsFromMixin(info);
            var r := MembersAdded(info, ms, g);
            var properties := PropertyItemsUpTo(ms.config, ms.info, extras, |extras|);
            r.params == g.params + ParamsOf(ls) + ParamsUpTo(ms.config, ms.info, extras, |extras|) &&
            r.alt == g.alt + AltsOf(ls) &&
            r.patch.args == g.patch.args + PatchArgsOf(ls) &&
            r.patch.mutations == g.patch.mutations + PatchMutationsOf(ls) &&
            r.target.args == g.target.args + TargetArgsOf(ls) &&
            r.target.mutations == g.target.mutations + TargetMutationsOf(ls) &&
            r.creator == g.creator + CreatorsOf(ls) + [Line(")")] &&
            r.items == g.items + ItemsOf(ls) + properties + ms.FinalItems(r.(items := []))
  {
    var p := MembersPass(info, ms);
    var ls := Lines(p, |p.scope|);
    AddAllAppends(g, ls);
  }

  /** The header of a DTO type: its supertype, the data modifier, its KDoc, then its annotations. */
  function Header(c: LesserComposition): seq<TypeItem> {
    [c.typeStrategy.SuperTypeItem(), DataModifier, c.typeStrategy.KdocItem()] + c.typeStrategy.AnnotationItems()
  }

  /** One type variable per type parameter, in order. */
  function TypeVariableItems(ps: seq<TypeParameter>): (r: seq<TypeItem>)
    ensures |r| == |ps| && forall i :: 0 <= i < |ps| ==> r[i] == TypeVariable(ps[i])
  {
    if ps == [] then [] else TypeVariableItems(ps[..|ps| - 1]) + [TypeVariable(ps[|ps| - 1])]
  }

  lemma TypeVariableItemsSnoc(ps: seq<TypeParameter>, i: nat)
    requires i < |ps|
    ensures TypeVariableItems(ps[..i + 1]) == TypeVariableItems(ps[..i]) + [TypeVariable(ps[i])]
  {
    assert ps[..i + 1][..i] == ps[..i];
  }

  /**
   * `dtoTypeSpecBuilder` for the composition `c` of the element `info` with
   * the members strategy `ms`: a class named by the name strategy, to which
   * the supertype, the modifiers, the KDoc, the annotations and the members
   * are added in that order, then one type variable per type parameter of
   * the primary type.
   */
  method BuildDtoType(c: LesserComposition, info: AnnotatedElementInfo, ms: SimpleDtoMembersStrategy)
    returns (b: TypeSpecBuilder)
    modifies ms
    ensures fresh(b) && b.className == c.GetClassName()
    ensures var g := MembersAdded(info, ms, old(ms.State(Header(c))));
            b.items == g.items + TypeVariableItems(info.primary.typeParameters) && ms.State(g.items) == g
  {
    b := new TypeSpecBuilder(c.GetClassName());
    AddHeader(c, b);
    assert ms.Snapshot(b) == old(ms.State(Header(c)));
    AddMembers(info, ms, b);
    ghost var g := ms.Snapshot(b);
    AddTypeVariables(b, info.primary.typeParameters);
    assert ms.State(g.items) == g;
  }

  /** The supertype, the modifiers, the KDoc and the annotations, in that order. */
  method AddHeader(c: LesserComposition, b: TypeSpecBuilder)
    modifies b
    ensures b.items == old(b.items) + Header(c)
  {
    c.AddSuperTypes(b);
    c.AddModifiers(b);
    c.AddKdoc(b);
    c.AddAnnotations(b);
  }

  /** One type variable per type parameter, in order. */
  method AddTypeVariables(b: TypeSpecBuilder, ps: seq<TypeParameter>)
    modifies b
    ensures b.items == old(b.items) + TypeVariableItems(ps)
  {
    var i := 0;
    while i < |ps|
      invariant 0 <= i <= |ps|
      invariant b.items == old(b.items) + TypeVariableItems(ps[..i])
    {
      TypeVariableItemsSnoc(ps, i);
      b.Add([TypeVariable(ps[i])]);
      i := i + 1;
    }
    assert ps[..i] == ps;
  }

  /**
   * The items `addMembers` adds come after those already there: a type built
   * by `BuildDtoType` starts with its header (supertype, data modifier, KDoc,
   * annotations) and ends with its type variables.
   */
  lemma MembersAddedKeepsHeader(info: AnnotatedElementInfo, ms: SimpleDtoMembersStrategy, g: Gathered)
    ensures |MembersAdded(info, ms, g).items| >= |g.items|
    ensures MembersAdded(info, ms, g).items[..|g.items|] == g.items
  {
    var p := MembersPass(info, ms);
    var run := Run(g, p);
    RunItems(g, p);
    var extras := ExtraFieldsFromMixin(info);
    var dtoOnly := WithDtoOnly(ms.config, ms.info, run, extras);
    var r := MembersAdded(info, ms, g);
    assert r.items == dtoOnly.items + ms.FinalItems(r.(items := []));
    Seqs.PrefixOfAppend(g.items, ItemsOf(Lines(p, |p.scope|)));
    Seqs.PrefixOfAppend(run.items, PropertyItemsUpTo(ms.config, ms.info, extras, |extras|));
    Seqs.PrefixOfAppend(dtoOnly.items, ms.FinalItems(r.(items := [])));
  }

  /** The items a pass adds follow the items already gathered. */
  lemma RunItems(g: Gathered, p: Pass)
    ensures Run(g, p).items == g.items + ItemsOf(Lines(p, |p.scope|))
  {
    AddAllAppends(g, Lines(p, |p.scope|));
  }

  /** A built DTO type starts with the header of its composition. */
  lemma BuiltTypeStartsWithHeader(c: LesserComposition, info: AnnotatedElementInfo, ms: SimpleDtoMembersStrategy, g: Gathered)
    requires g.items == Header(c)
    ensures var items := MembersAdded(info, ms, g).items + TypeVariableItems(info.primary.typeParameters);
            |items| >= |Header(c)| + |info.primary.typeParameters| &&
            items[..|Header(c)|] == Header(c) &&
            items[|items| - |info.primary.typeParameters|..] == TypeVariableItems(info.primary.typeParameters)
  {
    MembersAddedKeepsHeader(info, ms, g);
    var m := MembersAdded(info, ms, g).items;
    Seqs.PrefixAndSuffix(m, TypeVariableItems(info.primary.typeParameters), Header(c));
  }

  // ---------------------------------------------------------------------------
  // `CompositeDtoStrategy`
  // ---------------------------------------------------------------------------

  /** A composition over given strategies, each defaulted when missing. */
  class CompositeDtoStrategy {
    const info: AnnotatedElementInfo
    const nameStrategy: SimpleDtoNameStrategy
    const typeStrategy: SimpleDtoTypeStrategy
    const membersStrategy: SimpleDtoMembersStrategy

    /**
     * The primary constructor with its default arguments: the simple name and
     * type strategies over `info`, and a simple members strategy over `info`
     * and the name and type strategies just chosen.
     */
    constructor (info: AnnotatedElementInfo, nameStrategy: Option<SimpleDtoNameStrategy>,
                 typeStrategy: Option<SimpleDtoTypeStrategy>, membersStrategy: Option<SimpleDtoMembersStrategy>)
      ensures this.info == info
      ensures this.nameStrategy == nameStrategy.GetOr(SimpleDtoNameStrategy(info, None))
      ensures this.typeStrategy == typeStrategy.GetOr(SimpleDtoTypeStrategy(info))
      ensures membersStrategy.Some? ==> this.membersStrategy == membersStrategy.value
      ensures membersStrategy.None? ==>
                fresh(this.membersStrategy) && this.membersStrategy.info == info &&
                this.membersStrategy.nameStrategy == this.nameStrategy &&
                this.membersStrategy.typeStrategy == this.typeStrategy &&
                this.membersStrategy.root.None? &&
                this.membersStrategy.State([]) == this.membersStrategy.Initial([])
    {
      var n := nameStrategy.GetOr(SimpleDtoNameStrategy(info, None));
      var t := typeStrategy.GetOr(SimpleDtoTypeStrategy(info));
      var m;
      if membersStrategy.Some? {
        m := membersStrategy.value;
      } else {
        m := new SimpleDtoMembersStrategy(info, n, t);
      }
      this.info := info;
      this.nameStrategy := n;
      this.typeStrategy := t;
      this.membersStrategy := m;
    }

    /** The secondary constructor: the three strategies of `composition`, with `info` as the information. */
    constructor FromComposition(info: AnnotatedElementInfo, composition: CompositeDtoStrategy)
      ensures this.info == info && nameStrategy == composition.nameStrategy
      ensures typeStrategy == composition.typeStrategy && membersStrategy == composition.membersStrategy
    {
      this.info := info;
      nameStrategy := composition.nameStrategy;
      typeStrategy := composition.typeStrategy;
      membersStrategy := composition.membersStrategy;
    }

    /** The composition's name and type part. */
    function Lesser(): LesserComposition {
      LesserComposition(info, nameStrategy, typeStrategy)
    }

    /** `dtoTypeSpecBuilder`. */
    method DtoTypeSpecBuilder() returns (b: TypeSpecBuilder)
      modifies membersStrategy
      ensures fresh(b) && b.className == nameStrategy.GetClassName()
      ensures var g := MembersAdded(info, membersStrategy, old(membersStrategy.State(Header(Lesser()))));
              b.items == g.items + TypeVariableItems(info.primary.typeParameters) && membersStrategy.State(g.items) == g
    {
      b := BuildDtoType(Lesser(), info, membersStrategy);
    }

    // Forwarding of the members operations to the members strategy.

    function MaybeCheckForNull(f: FieldInfo, ctx: Assignment.AssignmentContext): Assignment.AssignmentContext
      requires ctx.Context?
    {
      MemberStatements.MaybeCheckForNull(membersStrategy.config, f, ctx)
    }

    predicate IsNullable(f: FieldInfo, place: Assignment.FieldContext) {
      IsNullableIn(membersStrategy.config, f, place)
    }

    function ToDefaultValueExpression(f: FieldInfo): Option<Api.DefaultValue> {
      MemberStatements.ToDefaultValueExpression(membersStrategy.config, membersStrategy.info, f)
    }

    function ToPatchStatement(f: FieldInfo, comma: string): Statement {
      PatchStatement(membersStrategy.info, f, comma)
    }

    function ToTargetTypeStatement(f: FieldInfo, comma: string): Statement {
      TargetTypeStatement(membersStrategy.config, membersStrategy.info, f, comma)
    }

    function ToAltConstructorStatement(f: FieldInfo, propertyName: string, comma: string): Statement {
      AltConstructorStatement(membersStrategy.config, membersStrategy.info, f, propertyName, comma)
    }

    function ToCreatorStatement(f: FieldInfo, propertyName: string, comma: string): Statement {
      CreatorStatement(membersStrategy.config, membersStrategy.info, f, propertyName, comma)
    }
  }

  /**
   * A composition copied for another element keeps the members strategy's
   * answers: every forwarded operation gives what it gives on the original,
   * whatever the new information.
   */
  lemma CopyForwardsToSameMembers(a: CompositeDtoStrategy, b: CompositeDtoStrategy, f: FieldInfo,
                                  ctx: Assignment.AssignmentContext, place: Assignment.FieldContext,
                                  propertyName: string, comma: string)
    requires b.membersStrategy == a.membersStrategy && ctx.Context?
    ensures b.MaybeCheckForNull(f, ctx) == a.MaybeCheckForNull(f, ctx)
    ensures b.IsNullable(f, place) == a.IsNullable(f, place)
    ensures b.ToDefaultValueExpression(f) == a.ToDefaultValueExpression(f)
    ensures b.ToPatchStatement(f, comma) == a.ToPatchStatement(f, comma)
    ensures b.ToTargetTypeStatement(f, comma) == a.ToTargetTypeStatement(f, comma)
    ensures b.ToAltConstructorStatement(f, propertyName, comma) == a.ToAltConstructorStatement(f, propertyName, comma)
    ensures b.ToCreatorStatement(f, propertyName, comma) == a.ToCreatorStatement(f, propertyName, comma)
  {
  }

  // ---------------------------------------------------------------------------
  // `ConstructorRefsCompositeDtoStrategy`
  // ---------------------------------------------------------------------------

  /**
   * A composition whose name and type strategies come from constructor
   * references applied to its information, and whose members strategy is
   * created from the composition itself, as root, on first use.
   */
  class ConstructorRefsCompositeDtoStrategy {
    const info: AnnotatedElementInfo
    const nameStrategyConstructor: AnnotatedElementInfo -> SimpleDtoNameStrategy
    const typeStrategyConstructor: AnnotatedElementInfo -> SimpleDtoTypeStrategy
    const nameStrategy: SimpleDtoNameStrategy
    const typeStrategy: SimpleDtoTypeStrategy
    /** The lazily created members strategy: none until it is first asked for. */
    var membersStrategy: Option<SimpleDtoMembersStrategy>

    constructor (info: AnnotatedElementInfo,
                 nameStrategyConstructor: AnnotatedElementInfo -> SimpleDtoNameStrategy,
                 typeStrategyConstructor: AnnotatedElementInfo -> SimpleDtoTypeStrategy)
      ensures this.info == info
      ensures this.nameStrategyConstructor == nameStrategyConstructor
      ensures this.typeStrategyConstructor == typeStrategyConstructor
      ensures nameStrategy == nameStrategyConstructor(info) && typeStrategy == typeStrategyConstructor(info)
      ensures membersStrategy.None?
    {
      this.info := info;
      this.nameStrategyConstructor := nameStrategyConstructor;
      this.typeStrategyConstructor := typeStrategyConstructor;
      nameStrategy := nameStrategyConstructor(info);
      typeStrategy := typeStrategyConstructor(info);
      membersStrategy := None;
    }

    /** The composition's name and type part, the root its members strategy is built from. */
    function Lesser(): LesserComposition {
      LesserComposition(info, nameStrategy, typeStrategy)
    }

    /**
     * `dtoMembersStrategy`: created from this composition on first access,
     * the same instance on every later access.
     */
    method DtoMembersStrategy() returns (m: SimpleDtoMembersStrategy)
      modifies this
      ensures membersStrategy == Some(m)
      ensures old(membersStrategy).Some? ==> m == old(membersStrategy).value
      ensures old(membersStrategy).None? ==>
                fresh(m) && m.root == Some(Lesser()) && m.info == info &&
                m.nameStrategy == nameStrategy && m.typeStrategy == typeStrategy &&
                m.State([]) == m.Initial([])
    {
      if membersStrategy.Some? {
        m := membersStrategy.value;
      } else {
        m := new SimpleDtoMembersStrategy.FromRoot(Lesser());
        membersStrategy := Some(m);
      }
    }

    /** `with`: a new composition over `other` with the same constructor references. */
    method With(other: AnnotatedElementInfo) returns (r: ConstructorRefsCompositeDtoStrategy)
      ensures fresh(r) && r.info == other
      ensures r.nameStrategyConstructor == nameStrategyConstructor
      ensures r.typeStrategyConstructor == typeStrategyConstructor
      ensures r.nameStrategy == nameStrategyConstructor(other) && r.typeStrategy == typeStrategyConstructor(other)
      ensures r.membersStrategy.None?
    {
      r := new ConstructorRefsCompositeDtoStrategy(other, nameStrategyConstructor, typeStrategyConstructor);
    }

    /** `dtoTypeSpecBuilder`, with the members strategy created first if it does not exist yet. */
    method DtoTypeSpecBuilder() returns (b: TypeSpecBuilder)
      modifies this, (if membersStrategy.Some? then {membersStrategy.value} else {})
      ensures membersStrategy.Some? && fresh(b) && b.className == nameStrategy.GetClassName()
      ensures old(membersStrategy).Some? ==> membersStrategy == old(membersStrategy)
      ensures var m := membersStrategy.value;
              var g := MembersAdded(info, m, if old(membersStrategy).Some? then old(m.State(Header(Lesser())))
                                             else m.Initial(Header(Lesser())));
              b.items == g.items + TypeVariableItems(info.primary.typeParameters) && m.State(g.items) == g
      ensures old(membersStrategy).None? ==> fresh(membersStrategy.value) && membersStrategy.value.root == Some(Lesser())
    {
      var m := DtoMembersStrategy();
      b := BuildDtoType(Lesser(), info, m);
    }
  }
}
