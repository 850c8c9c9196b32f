/**
 * `SimpleDtoMembersStrategy`: the object that walks the fields of an
 * annotated type and accumulates, field by field, the DTO's constructor
 * parameters and properties and the bodies of its alternative constructor,
 * patch, target-type and creator functions, then adds them to the DTO type.
 */
module Members {
  import opened Wrappers
  import opened Model
  import opened CodeSpec
  import opened ElementInfo
  import opened MemberStatements
  import opened Strategies
  import Seqs

  // ---------------------------------------------------------------------------
  // What one pass over the fields produces
  // ---------------------------------------------------------------------------

  /**
   * One call of `processFields`: the strategy's toggles and own information,
   * the information passed in, and the fields in annotation scope.
   */
  datatype Pass = Pass(cfg: MembersConfig, own: AnnotatedElementInfo, info: AnnotatedElementInfo, scope: seq<FieldInfo>)

  /** The fields in annotation scope, in order. */
  function InScope(fields: seq<FieldInfo>): seq<FieldInfo> {
    if fields == [] then []
    else (if fields[0].isInAnnotationScope then [fields[0]] else []) + InScope(fields[1..])
  }

  /** The fields in scope are exactly the fields marked so, kept in their order. */
  lemma {:induction false} InScopeKeeps(fields: seq<FieldInfo>)
    ensures Seqs.IsSubsequence(InScope(fields), fields)
    ensures forall i :: 0 <= i < |InScope(fields)| ==> InScope(fields)[i].isInAnnotationScope
    ensures forall i :: 0 <= i < |fields| && fields[i].isInAnnotationScope ==> fields[i] in InScope(fields)
  {
    if fields != [] {
      InScopeKeeps(fields[1..]);
      var r := InScope(fields);
      var rest := InScope(fields[1..]);
      if fields[0].isInAnnotationScope {
        assert r == [fields[0]] + rest;
        assert r[1..] == rest;
      } else {
        assert r == rest;
      }
      forall i | 0 <= i < |fields| && fields[i].isInAnnotationScope
        ensures fields[i] in r
      {
        if i > 0 {
          assert fields[i] == fields[1..][i - 1];
        }
      }
    }
  }

  /** The number of constructor parameters among the first `n` fields. */
  function CtorCount(fields: seq<FieldInfo>, n: nat): nat
    requires n <= |fields|
  {
    if n == 0 then 0 else CtorCount(fields, n - 1) + (if fields[n - 1].isConstructorParam then 1 else 0)
  }

  lemma CtorCountNext(fields: seq<FieldInfo>, i: nat)
    requires i < |fields|
    ensures CtorCount(fields, i + 1) == CtorCount(fields, i) + (if fields[i].isConstructorParam then 1 else 0)
  {
  }

  /** The constructor parameters among the first `n` fields, in order. */
  function CtorFields(fields: seq<FieldInfo>, n: nat): seq<FieldInfo>
    requires n <= |fields|
  {
    if n == 0 then [] else CtorFields(fields, n - 1) + (if fields[n - 1].isConstructorParam then [fields[n - 1]] else [])
  }

  /** The argument separator of field `i`: a comma after every constructor parameter but the last. */
  function ArgComma(p: Pass, i: nat): string
    requires i < |p.scope|
  {
    if p.scope[i].isConstructorParam && CtorCount(p.scope, i + 1) < CtorCount(p.scope, |p.scope|) then "," else ""
  }

  /** The separator of the alternative constructor and creator lines: a comma after every field but the last. */
  function AltComma(p: Pass, i: nat): string
    requires i < |p.scope|
  {
    if i + 1 < |p.scope| then "," else ""
  }

  /** Constructor parameters only accumulate. */
  lemma {:induction false} CtorCountMonotone(fields: seq<FieldInfo>, i: nat, j: nat)
    requires i <= j <= |fields|
    ensures CtorCount(fields, i) <= CtorCount(fields, j)
  {
    if i < j {
      CtorCountMonotone(fields, i, j - 1);
    }
  }

  /** The count grows between `i` and `n` exactly when a constructor parameter lies in between. */
  lemma {:induction false} CtorCountGrows(fields: seq<FieldInfo>, i: nat, n: nat)
    requires i <= n <= |fields|
    ensures CtorCount(fields, i) < CtorCount(fields, n) <==> exists j :: i <= j < n && fields[j].isConstructorParam
  {
    if i < n {
      CtorCountGrows(fields, i, n - 1);
      CtorCountMonotone(fields, i, n - 1);
      if fields[n - 1].isConstructorParam {
        assert i <= n - 1 < n;
      } else {
        assert forall j :: i <= j < n && fields[j].isConstructorParam ==> j < n - 1;
      }
    }
  }

  /**
   * A patch or target-type argument is followed by a comma exactly when it is
   * a constructor parameter and a later field in scope is one too.
   */
  lemma ArgCommaPlacement(p: Pass, i: nat)
    requires i < |p.scope|
    ensures ArgComma(p, i) == "," || ArgComma(p, i) == ""
    ensures ArgComma(p, i) == "," <==>
              p.scope[i].isConstructorParam && exists j :: i < j < |p.scope| && p.scope[j].isConstructorParam
  {
    CtorCountGrows(p.scope, i + 1, |p.scope|);
  }

  /** The number of fields among the first `n` whose argument is followed by a comma. */
  function ArgCommas(p: Pass, n: nat): nat
    requires n <= |p.scope|
  {
    if n == 0 then 0 else ArgCommas(p, n - 1) + (if ArgComma(p, n - 1) == "," then 1 else 0)
  }

  /** Up to field `n`, every constructor parameter gets a comma except the very last one of the pass. */
  lemma {:induction false} ArgCommasUpTo(p: Pass, n: nat)
    requires n <= |p.scope|
    ensures var k := CtorCount(p.scope, |p.scope|);
            ArgCommas(p, n) == if k > 0 && CtorCount(p.scope, n) == k then k - 1 else CtorCount(p.scope, n)
  {
    if n > 0 {
      ArgCommasUpTo(p, n - 1);
      CtorCountMonotone(p.scope, n - 1, |p.scope|);
      CtorCountMonotone(p.scope, n, |p.scope|);
    }
  }

  /** With `k` constructor parameters in scope, exactly `k - 1` arguments are followed by a comma (none when `k` is 0). */
  lemma SeparatorCount(p: Pass)
    ensures var k := CtorCount(p.scope, |p.scope|);
            ArgCommas(p, |p.scope|) == if k == 0 then 0 else k - 1
  {
    ArgCommasUpTo(p, |p.scope|);
  }

  /** The number of fields among the first `n` whose alternative constructor and creator lines end with a comma. */
  function AltCommas(p: Pass, n: nat): nat
    requires n <= |p.scope|
  {
    if n == 0 then 0 else AltCommas(p, n - 1) + (if AltComma(p, n - 1) == "," then 1 else 0)
  }

  /** Every field but the last one of the pass gets a comma on its alternative constructor and creator lines. */
  lemma {:induction false} AltCommasUpTo(p: Pass, n: nat)
    requires n <= |p.scope|
    ensures AltCommas(p, n) == if n == |p.scope| && n > 0 then n - 1 else n
  {
    if n > 0 {
      AltCommasUpTo(p, n - 1);
    }
  }

  /** Field `i`'s patch line when it goes among the arguments. */
  function PatchArgLine(p: Pass, i: nat): CodeBlock
    requires i < |p.scope|
  {
    if PatchRouteOf(p.info, p.scope[i]) == InitArgs then [PatchStatement(p.info, p.scope[i], ArgComma(p, i))] else []
  }

  /** Field `i`'s patch line when it goes among the mutations. */
  function PatchMutationLine(p: Pass, i: nat): CodeBlock
    requires i < |p.scope|
  {
    if PatchRouteOf(p.info, p.scope[i]) == Mutations then [PatchStatement(p.info, p.scope[i], ArgComma(p, i))] else []
  }

  /** Field `i`'s target-type line when it is a constructor argument. */
  function TargetArgLine(p: Pass, i: nat): CodeBlock
    requires i < |p.scope|
  {
    if TargetRouteOf(p.scope[i]) == InitArgs then [TargetTypeStatement(p.cfg, p.info, p.scope[i], ArgComma(p, i))] else []
  }

  /**
   * Field `i`'s target-type line when it is a mutation: the same
   * `toTargetTypeStatement` line, as written (see `TargetMutationAssignsDtoItself`).
   */
  function TargetMutationLine(p: Pass, i: nat): CodeBlock
    requires i < |p.scope|
  {
    if TargetRouteOf(p.scope[i]) == Mutations then [TargetTypeStatement(p.cfg, p.info, p.scope[i], ArgComma(p, i))] else []
  }

  function AltLine(p: Pass, i: nat): Statement
    requires i < |p.scope|
  {
    AltConstructorStatement(p.cfg, p.info, p.scope[i], PropertyName(p.scope[i]), AltComma(p, i))
  }

  function CreatorLine(p: Pass, i: nat): Statement
    requires i < |p.scope|
  {
    CreatorStatement(p.cfg, p.info, p.scope[i], PropertyName(p.scope[i]), AltComma(p, i))
  }

  /**
   * Routing of one field's lines: exactly one patch line, among the arguments
   * exactly for a constructor parameter of a target that needs a new
   * instance; a target-type argument exactly for a constructor parameter, a
   * mutation exactly for another mutable field, and no line otherwise. The
   * argument lines carry the field's argument separator.
   */
  lemma FieldRouting(p: Pass, i: nat)
    requires i < |p.scope|
    ensures var f := p.scope[i];
            var needsNew := f.isConstructorParam && p.info.UpdateRequiresNewInstance();
            var line := PatchStatement(p.info, f, ArgComma(p, i));
            (needsNew ==> PatchArgLine(p, i) == [line] && PatchMutationLine(p, i) == []) &&
            (!needsNew ==> PatchArgLine(p, i) == [] && PatchMutationLine(p, i) == [line])
    ensures var f := p.scope[i];
            (f.isConstructorParam ==>
               TargetArgLine(p, i) == [TargetTypeStatement(p.cfg, p.info, f, ArgComma(p, i))] && TargetMutationLine(p, i) == []) &&
            (!f.isConstructorParam && f.isMutableVariable ==>
               TargetArgLine(p, i) == [] && TargetMutationLine(p, i) == [TargetTypeStatement(p.cfg, p.info, f, ArgComma(p, i))]) &&
            (!f.isConstructorParam && !f.isMutableVariable ==> TargetArgLine(p, i) == [] && TargetMutationLine(p, i) == [])
  {
    PatchRouteMatchesForm(p.info, p.scope[i]);
    TargetRouteChoice(p.scope[i]);
  }

  /** The constructor parameters `addProperty` registers for the first `n` fields. */
  function ParamsUpTo(cfg: MembersConfig, own: AnnotatedElementInfo, fields: seq<FieldInfo>, n: nat): seq<ParameterSpec>
    requires n <= |fields|
  {
    if n == 0 then [] else ParamsUpTo(cfg, own, fields, n - 1) + [PropertyPartsOf(cfg, own, fields[n - 1]).parameter]
  }

  /** The properties `addProperty` adds to the type for the first `n` fields. */
  function PropertyItemsUpTo(cfg: MembersConfig, own: AnnotatedElementInfo, fields: seq<FieldInfo>, n: nat): seq<TypeItem>
    requires n <= |fields|
  {
    if n == 0 then [] else PropertyItemsUpTo(cfg, own, fields, n - 1) + [Property(PropertyPartsOf(cfg, own, fields[n - 1]).property)]
  }

  /** What `processDtoOnlyFields` makes of what was gathered: properties and constructor parameters only. */
  function WithDtoOnly(cfg: MembersConfig, own: AnnotatedElementInfo, g: Gathered, fields: seq<FieldInfo>): Gathered {
    g.(items := g.items + PropertyItemsUpTo(cfg, own, fields, |fields|),
       params := g.params + ParamsUpTo(cfg, own, fields, |fields|))
  }

  /**
   * What a pass has produced so far: the items added to the DTO type, and the
   * strategy's constructor parameters and four function bodies.
   */
  datatype Gathered = Gathered(
    items: seq<TypeItem>,
    params: seq<ParameterSpec>,
    alt: CodeBlock,
    patch: InstanceFunctionBuilder,
    target: InstanceFunctionBuilder,
    creator: CodeBlock)

  /** What one field contributes to each part a pass gathers. */
  datatype FieldLines = FieldLines(
    item: TypeItem,
    parameter: ParameterSpec,
    alt: Statement,
    patchArgs: CodeBlock,
    patchMutations: CodeBlock,
    targetArgs: CodeBlock,
    targetMutations: CodeBlock,
    creator: Statement)

  /** The contribution of field `i` of a pass. */
  function LinesAt(p: Pass, i: nat): FieldLines
    requires i < |p.scope|
  {
    var parts := PropertyPartsOf(p.cfg, p.own, p.scope[i]);
    FieldLines(Property(parts.property), parts.parameter, AltLine(p, i),
               PatchArgLine(p, i), PatchMutationLine(p, i), TargetArgLine(p, i), TargetMutationLine(p, i),
               CreatorLine(p, i))
  }

  /** The contributions of the first `n` fields of a pass, in order. */
  function Lines(p: Pass, n: nat): seq<FieldLines>
    requires n <= |p.scope|
  {
    if n == 0 then [] else Lines(p, n - 1) + [LinesAt(p, n - 1)]
  }

  /** One field's contribution added to what was gathered. */
  function Add(g: Gathered, l: FieldLines): Gathered {
    Gathered(
      g.items + [l.item],
      g.params + [l.parameter],
      g.alt + [l.alt],
      g.patch.(args := g.patch.args + l.patchArgs, mutations := g.patch.mutations + l.patchMutations),
      g.target.(args := g.target.args + l.targetArgs, mutations := g.target.mutations + l.targetMutations),
      g.creator + [l.creator])
  }

  /** Contributions added one after the other. */
  function AddAll(g: Gathered, ls: seq<FieldLines>): Gathered
    decreases |ls|
  {
    if ls == [] then g else Add(AddAll(g, ls[..|ls| - 1]), ls[|ls| - 1])
  }

  lemma AddAllSnoc(g: Gathered, ls: seq<FieldLines>, l: FieldLines)
    ensures AddAll(g, ls + [l]) == Add(AddAll(g, ls), l)
  {
    assert (ls + [l])[..|ls|] == ls;
  }

  /** A whole pass over the fields in scope. */
  function Run(g: Gathered, p: Pass): Gathered {
    AddAll(g, Lines(p, |p.scope|))
  }

  // The parts of a sequence of contributions, each in order.

  function ItemsOf(ls: seq<FieldLines>): seq<TypeItem> {
    if ls == [] then [] else ItemsOf(ls[..|ls| - 1]) + [ls[|ls| - 1].item]
  }

  function ParamsOf(ls: seq<FieldLines>): seq<ParameterSpec> {
    if ls == [] then [] else ParamsOf(ls[..|ls| - 1]) + [ls[|ls| - 1].parameter]
  }

  function AltsOf(ls: seq<FieldLines>): CodeBlock {
    if ls == [] then [] else AltsOf(ls[..|ls| - 1]) + [ls[|ls| - 1].alt]
  }

  function PatchArgsOf(ls: seq<FieldLines>): CodeBlock {
    if ls == [] then [] else PatchArgsOf(ls[..|ls| - 1]) + ls[|ls| - 1].patchArgs
  }

  function PatchMutationsOf(ls: seq<FieldLines>): CodeBlock {
    if ls == [] then [] else PatchMutationsOf(ls[..|ls| - 1]) + ls[|ls| - 1].patchMutations
  }

  function TargetArgsOf(ls: seq<FieldLines>): CodeBlock {
    if ls == [] then [] else TargetArgsOf(ls[..|ls| - 1]) + ls[|ls| - 1].targetArgs
  }

  function TargetMutationsOf(ls: seq<FieldLines>): CodeBlock {
    if ls == [] then [] else TargetMutationsOf(ls[..|ls| - 1]) + ls[|ls| - 1].targetMutations
  }

  function CreatorsOf(ls: seq<FieldLines>): CodeBlock {
    if ls == [] then [] else CreatorsOf(ls[..|ls| - 1]) + [ls[|ls| - 1].creator]
  }

  /**
   * Adding contributions appends each part to the matching part of what was
   * gathered, in order, and changes nothing else of the two function builders.
   */
  lemma {:induction false} AddAllAppends(g: Gathered, ls: seq<FieldLines>)
    ensures AddAll(g, ls) == Gathered(
      g.items + ItemsOf(ls),
      g.params + ParamsOf(ls),
      g.alt + AltsOf(ls),
      g.patch.(args := g.patch.args + PatchArgsOf(ls), mutations := g.patch.mutations + PatchMutationsOf(ls)),
      g.target.(args := g.target.args + TargetArgsOf(ls), mutations := g.target.mutations + TargetMutationsOf(ls)),
      g.creator + CreatorsOf(ls))
    decreases |ls|
  {
    if ls != [] {
      var front, l := ls[..|ls| - 1], ls[|ls| - 1];
      AddAllAppends(g, front);
      Seqs.AppendAssoc(g.items, ItemsOf(front), [l.item]);
      Seqs.AppendAssoc(g.params, ParamsOf(front), [l.parameter]);
      Seqs.AppendAssoc(g.alt, AltsOf(front), [l.alt]);
      Seqs.AppendAssoc(g.patch.args, PatchArgsOf(front), l.patchArgs);
      Seqs.AppendAssoc(g.patch.mutations, PatchMutationsOf(front), l.patchMutations);
      Seqs.AppendAssoc(g.target.args, TargetArgsOf(front), l.targetArgs);
      Seqs.AppendAssoc(g.target.mutations, TargetMutationsOf(front), l.targetMutations);
      Seqs.AppendAssoc(g.creator, CreatorsOf(front), [l.creator]);
    }
  }

  // ---------------------------------------------------------------------------
  // The strategy object
  // ---------------------------------------------------------------------------

  class SimpleDtoMembersStrategy {
    const info: AnnotatedElementInfo
    const nameStrategy: SimpleDtoNameStrategy
    const typeStrategy: SimpleDtoTypeStrategy
    const root: Option<LesserComposition>
    const config: MembersConfig

    /** The DTO's primary constructor parameters. */
    var constructorParameters: seq<ParameterSpec>
    /** The arguments the alternative constructor passes to the primary one. */
    var altConstructorCode: CodeBlock
    var patchCode: InstanceFunctionBuilder
    var targetTypeCode: InstanceFunctionBuilder
    var creatorCode: CodeBlock

    /** The items of the type being built, and the parameters and bodies gathered so far. */
    function Snapshot(b: TypeSpecBuilder): Gathered
      reads this, b
    {
      Gathered(b.items, constructorParameters, altConstructorCode, patchCode, targetTypeCode, creatorCode)
    }

    /** The parameters and bodies gathered so far, with `items` as the type's items. */
    function State(items: seq<TypeItem>): Gathered
      reads this
    {
      Gathered(items, constructorParameters, altConstructorCode, patchCode, targetTypeCode, creatorCode)
    }

    /**
     * What a newly built strategy has gathered: no parameter, an empty first
     * line for the alternative constructor, the two function builders over
     * the DTO target, and the opening of the creator's constructor call.
     */
    function Initial(items: seq<TypeItem>): Gathered {
      Gathered(items, [], [Line("")], PatchBuilder(info, typeStrategy.GetDtoTarget()),
               TargetBuilder(info, typeStrategy.GetDtoTarget()),
               [Line("return " + nameStrategy.GetClassName().simpleName + "(")])
    }

    /** The strategy over the element's information and its name and type strategies. */
    constructor (info: AnnotatedElementInfo, nameStrategy: SimpleDtoNameStrategy, typeStrategy: SimpleDtoTypeStrategy)
      ensures this.info == info && this.nameStrategy == nameStrategy && this.typeStrategy == typeStrategy
      ensures root.None? && config == DEFAULT_CONFIG
      ensures constructorParameters == [] && altConstructorCode == [Line("")]
      ensures patchCode == PatchBuilder(info, typeStrategy.GetDtoTarget())
      ensures targetTypeCode == TargetBuilder(info, typeStrategy.GetDtoTarget())
      ensures creatorCode == [Line("return " + nameStrategy.GetClassName().simpleName + "(")]
      ensures State([]) == Initial([])
    {
      this.info := info;
      this.nameStrategy := nameStrategy;
      this.typeStrategy := typeStrategy;
      root := None;
      config := DEFAULT_CONFIG;
      constructorParameters := [];
      altConstructorCode := [Line("")];
      patchCode := PatchBuilder(info, typeStrategy.GetDtoTarget());
      targetTypeCode := TargetBuilder(info, typeStrategy.GetDtoTarget());
      creatorCode := [Line("return " + nameStrategy.GetClassName().simpleName + "(")];
    }

    /** The strategy created from a root composition: the root's information and name and type strategies. */
    constructor FromRoot(root: LesserComposition)
      ensures info == root.info && nameStrategy == root.nameStrategy && typeStrategy == root.typeStrategy
      ensures this.root == Some(root) && config == DEFAULT_CONFIG
      ensures constructorParameters == [] && altConstructorCode == [Line("")]
      ensures patchCode == PatchBuilder(root.info, root.typeStrategy.GetDtoTarget())
      ensures targetTypeCode == TargetBuilder(root.info, root.typeStrategy.GetDtoTarget())
      ensures creatorCode == [Line("return " + root.nameStrategy.GetClassName().simpleName + "(")]
      ensures State([]) == Initial([])
    {
      info := root.info;
      nameStrategy := root.nameStrategy;
      typeStrategy := root.typeStrategy;
      this.root := Some(root);
      config := DEFAULT_CONFIG;
      constructorParameters := [];
      altConstructorCode := [Line("")];
      patchCode := PatchBuilder(root.info, root.typeStrategy.GetDtoTarget());
      targetTypeCode := TargetBuilder(root.info, root.typeStrategy.GetDtoTarget());
      creatorCode := [Line("return " + root.nameStrategy.GetClassName().simpleName + "(")];
    }

    /** `addProperty`: registers the field's constructor parameter and adds its property to the type. */
    method AddProperty(b: TypeSpecBuilder, f: FieldInfo) returns (name: string, typ: TypeName)
      modifies this, b
      ensures var parts := PropertyPartsOf(config, info, f);
              name == parts.name && typ == parts.typ &&
              constructorParameters == old(constructorParameters) + [parts.parameter] &&
              b.items == old(b.items) + [Property(parts.property)]
      ensures altConstructorCode == old(altConstructorCode) && patchCode == old(patchCode)
      ensures targetTypeCode == old(targetTypeCode) && creatorCode == old(creatorCode)
    {
      var parts := PropertyPartsOf(config, info, f);
      constructorParameters := constructorParameters + [parts.parameter];
      b.Add([Property(parts.property)]);
      name, typ := parts.name, parts.typ;
    }

    /** The lines of field `i` of a pass, each added where it belongs. */
    method ProcessField(b: TypeSpecBuilder, p: Pass, i: nat, comma: string)
      requires p.cfg == config && p.own == info && i < |p.scope| && comma == ArgComma(p, i)
      modifies this, b
      ensures Snapshot(b) == Add(old(Snapshot(b)), LinesAt(p, i))
    {
      var f := p.scope[i];
      var propertyName, propertyType := AddProperty(b, f);
      AddPatchLine(p, i, comma);
      AddTargetTypeLine(p, i, comma);
      var altComma := if i + 1 < |p.scope| then "," else "";
      altConstructorCode := AddStatement(altConstructorCode, Some(AltConstructorStatement(config, p.info, f, propertyName, altComma)));
      creatorCode := AddStatement(creatorCode, Some(CreatorStatement(config, p.info, f, propertyName, altComma)));
    }

    /** Field `i` of a pass extends what the first `i` fields gathered by its own contribution. */
    method ProcessNextField(b: TypeSpecBuilder, p: Pass, i: nat, comma: string, ghost start: Gathered)
      requires p.cfg == config && p.own == info && i < |p.scope| && comma == ArgComma(p, i)
      requires Snapshot(b) == AddAll(start, Lines(p, i))
      modifies this, b
      ensures Snapshot(b) == AddAll(start, Lines(p, i + 1))
    {
      ProcessField(b, p, i, comma);
      AddAllSnoc(start, Lines(p, i), LinesAt(p, i));
    }

    /** The patch line of field `i`: among the arguments when a new instance is needed for it, else among the mutations. */
    method AddPatchLine(p: Pass, i: nat, comma: string)
      requires i < |p.scope| && comma == ArgComma(p, i)
      modifies this
      ensures patchCode == old(patchCode).(args := old(patchCode).args + PatchArgLine(p, i),
                                           mutations := old(patchCode).mutations + PatchMutationLine(p, i))
      ensures constructorParameters == old(constructorParameters) && targetTypeCode == old(targetTypeCode)
      ensures altConstructorCode == old(altConstructorCode) && creatorCode == old(creatorCode)
    {
      var f := p.scope[i];
      var line := PatchStatement(p.info, f, comma);
      if f.isConstructorParam && p.info.UpdateRequiresNewInstance() {
        assert PatchArgLine(p, i) == [line] && PatchMutationLine(p, i) == [];
        patchCode := patchCode.(args := AddStatement(patchCode.args, Some(line)));
      } else {
        assert PatchArgLine(p, i) == [] && PatchMutationLine(p, i) == [line];
        patchCode := patchCode.(mutations := AddStatement(patchCode.mutations, Some(line)));
      }
    }

    /** The target-type line of field `i`: an argument for a constructor parameter, a mutation for a mutable field, else none. */
    method AddTargetTypeLine(p: Pass, i: nat, comma: string)
      requires p.cfg == config && i < |p.scope| && comma == ArgComma(p, i)
      modifies this
      ensures targetTypeCode == old(targetTypeCode).(args := old(targetTypeCode).args + TargetArgLine(p, i),
                                                     mutations := old(targetTypeCode).mutations + TargetMutationLine(p, i))
      ensures constructorParameters == old(constructorParameters) && patchCode == old(patchCode)
      ensures altConstructorCode == old(altConstructorCode) && creatorCode == old(creatorCode)
    {
      var f := p.scope[i];
      if f.isConstructorParam {
        targetTypeCode := targetTypeCode.(args := AddStatement(targetTypeCode.args, Some(TargetTypeStatement(config, p.info, f, comma))));
      } else if f.isMutableVariable {
        targetTypeCode := targetTypeCode.(mutations := AddStatement(targetTypeCode.mutations, Some(TargetTypeStatement(config, p.info, f, comma))));
      }
    }

    /**
     * `processFields`: walks the fields in annotation scope in order, counting
     * the constructor parameters seen so that every one but the last is
     * followed by a comma, and adds each field's property and lines.
     */
    method ProcessFields(b: TypeSpecBuilder, passInfo: AnnotatedElementInfo, fields: seq<FieldInfo>)
      modifies this, b
      ensures Snapshot(b) == Run(old(Snapshot(b)), Pass(config, info, passInfo, InScope(fields)))
    {
      ghost var start := Snapshot(b);
      var scope := InScope(fields);
      var p := Pass(config, info, passInfo, scope);

      var constructorParamsInScope := CtorCount(scope, |scope|);
      var constructorParamsAdded := 0;
      var i := 0;
      while i < |scope|
        invariant 0 <= i <= |scope|
        invariant constructorParamsAdded == CtorCount(scope, i)
        invariant Snapshot(b) == AddAll(start, Lines(p, i))
      {
        CtorCountNext(scope, i);
        if scope[i].isConstructorParam {
          constructorParamsAdded := constructorParamsAdded + 1;
        }
        var comma := if constructorParamsAdded < constructorParamsInScope && scope[i].isConstructorParam then "," else "";
        ProcessNextField(b, p, i, comma, start);
        assert Snapshot(b) == AddAll(start, Lines(p, i + 1));
        i := i + 1;
      }
    }

    /** `processDtoOnlyFields`: a property and a constructor parameter per field, and no other line. */
    method ProcessDtoOnlyFields(b: TypeSpecBuilder, fields: seq<FieldInfo>)
      modifies this, b
      ensures constructorParameters == old(constructorParameters) + ParamsUpTo(config, info, fields, |fields|)
      ensures b.items == old(b.items) + PropertyItemsUpTo(config, info, fields, |fields|)
      ensures altConstructorCode == old(altConstructorCode) && patchCode == old(patchCode)
      ensures targetTypeCode == old(targetTypeCode) && creatorCode == old(creatorCode)
      ensures Snapshot(b) == WithDtoOnly(config, info, old(Snapshot(b)), fields)
    {
      var i := 0;
      while i < |fields|
        invariant 0 <= i <= |fields|
        invariant constructorParameters == old(constructorParameters) + ParamsUpTo(config, info, fields, i)
        invariant b.items == old(b.items) + PropertyItemsUpTo(config, info, fields, i)
        invariant altConstructorCode == old(altConstructorCode) && patchCode == old(patchCode)
        invariant targetTypeCode == old(targetTypeCode) && creatorCode == old(creatorCode)
      {
        var propertyName, propertyType := AddProperty(b, fields[i]);
        var parts := PropertyPartsOf(config, info, fields[i]);
        Seqs.AppendAssoc(old(constructorParameters), ParamsUpTo(config, info, fields, i), [parts.parameter]);
        Seqs.AppendAssoc(old(b.items), PropertyItemsUpTo(config, info, fields, i), [Property(parts.property)]);
        i := i + 1;
      }
    }

    /** The `original` parameter of the alternative constructor, the patch and the creator. */
    function OriginalTypeParameter(): ParameterSpec {
      OriginalParameter(typeStrategy.GetDtoTarget())
    }

    /** The DTO's class name as the creator's return type. */
    function DtoClassName(): string {
      var c := nameStrategy.GetClassName();
      c.packageName + "." + c.simpleName
    }

    /**
     * The members `finalize` adds to what was gathered `g`: the alternative
     * constructor, the primary constructor, the companion with the creator
     * `from`, `toPatched` and `toTargetType`.
     */
    function FinalItems(g: Gathered): seq<TypeItem> {
      [AltConstructor(g.alt),
       PrimaryConstructor(g.params),
       Companion([FunSpec("from", [OriginalTypeParameter()], DtoClassName(), g.creator)]),
       Function(FunSpec("toPatched", [OriginalTypeParameter()], typeStrategy.GetDtoTarget(), g.patch.ToCodeBlock())),
       Function(FunSpec("toTargetType", info.toTargetTypeFunctionConfig.params,
                        TargetTypeName(info, typeStrategy.GetDtoTarget()), g.target.ToCodeBlock()))]
    }

    /** What `finalize` makes of what was gathered: the creator call closed, then the final members added. */
    function Finished(g: Gathered): (r: Gathered)
      ensures r.creator == g.creator + [Line(")")]
      ensures r.items == g.items + FinalItems(g.(creator := r.creator))
      ensures r.params == g.params && r.alt == g.alt && r.patch == g.patch && r.target == g.target
    {
      var closed := g.(creator := g.creator + [Line(")")]);
      closed.(items := g.items + FinalItems(closed))
    }

    /** `finalize`: closes the creator call and adds the members to the type. */
    method Finalize(b: TypeSpecBuilder)
      modifies this, b
      ensures Snapshot(b) == Finished(old(Snapshot(b)))
    {
      creatorCode := AddStatement(creatorCode, Some(Line(")")));
      b.Add(FinalItems(Snapshot(b)));
    }
  }
}
