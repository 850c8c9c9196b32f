/**
 * What the older generators share: one field at a time they add a property
 * and a constructor parameter to the DTO and one line each to the patch
 * function, the mapping function and the alternative constructor (and, in
 * one of them, the creator), then close those bodies. The lines are plain
 * strings built from the field's simple name.
 */
module LegacyMembers {
  import opened Wrappers
  import opened Model
  import opened CodeSpec
  import opened Text
  import EnvAware
  import MemberStatements

  const INDENT: string := "      "
  const THIS_ACCESS: string := " = this."
  const ELVIS_ORIGINAL: string := " ?: original."
  const ORIGINAL_ACCESS: string := " = original."
  const NON_NULL_ASSERTION: string := "!!"
  const COMMA: string := ","

  /** The name of the parameter the alternative constructor, the patch and the creator take. */
  const ORIGINAL: string := "original"

  // ---------------------------------------------------------------------------
  // One field's lines
  // ---------------------------------------------------------------------------

  /** `commaOrEmpty`: a comma after every field but the last. */
  function Comma(index: nat, size: nat): (r: string)
    ensures r == COMMA <==> index + 1 < size
    ensures r == "" <==> size <= index + 1
  {
    if index + 1 < size then COMMA else ""
  }

  /** The patch line: keep the DTO's value, or fall back to the original's. */
  function PatchLine(name: string, comma: string): string {
    INDENT + name + THIS_ACCESS + name + ELVIS_ORIGINAL + name + comma
  }

  /** The mapping line: the DTO's value, asserted non-null when the field is not nullable. */
  function MapLine(name: string, nullable: bool, comma: string): string {
    INDENT + name + THIS_ACCESS + name + (if nullable then "" else NON_NULL_ASSERTION) + comma
  }

  /** The alternative-constructor (and creator) line: the original's value. */
  function AltLine(name: string, comma: string): string {
    INDENT + name + ORIGINAL_ACCESS + name + comma
  }

  /** A separator as `commaOrEmpty` produces it. */
  predicate IsSeparator(comma: string) {
    comma == "" || comma == COMMA
  }

  /** Different fields never share a patch line, nor the last line a middle one. */
  lemma PatchLineDeterminesField(a: string, ca: string, b: string, cb: string)
    requires IsSeparator(ca) && IsSeparator(cb)
    ensures PatchLine(a, ca) == PatchLine(b, cb) <==> a == b && ca == cb
  {
    if PatchLine(a, ca) == PatchLine(b, cb) {
      var line := PatchLine(a, ca);
      assert |line| == 27 + 3 * |a| + |ca|;
      assert |PatchLine(b, cb)| == 27 + 3 * |b| + |cb|;
      assert |a| == |b|;
      assert line[6..6 + |a|] == a;
      assert PatchLine(b, cb)[6..6 + |b|] == b;
    }
  }

  /** Different fields never share an alternative-constructor line. */
  lemma AltLineDeterminesField(a: string, ca: string, b: string, cb: string)
    requires IsSeparator(ca) && IsSeparator(cb)
    ensures AltLine(a, ca) == AltLine(b, cb) <==> a == b && ca == cb
  {
    if AltLine(a, ca) == AltLine(b, cb) {
      var line := AltLine(a, ca);
      assert |line| == 18 + 2 * |a| + |ca|;
      assert |AltLine(b, cb)| == 18 + 2 * |b| + |cb|;
      assert |a| == |b|;
      assert line[6..6 + |a|] == a;
      assert AltLine(b, cb)[6..6 + |b|] == b;
    }
  }

  /**
   * The mapping line ends with `!!` and its separator exactly when the field
   * is not nullable (a name never holds `!`).
   */
  lemma MapLineAssertsNonNull(name: string, nullable: bool, comma: string)
    requires '!' !in name
    ensures EndsWith(MapLine(name, nullable, comma), NON_NULL_ASSERTION + comma) <==> !nullable
  {
    var line := MapLine(name, nullable, comma);
    var front := INDENT + name + THIS_ACCESS + name;
    if nullable {
      assert line == front + comma;
      var i := |front| - 1;
      assert line[i] == front[i];
      assert front[i] != '!' by {
        if |name| > 0 {
          assert front[i] == name[|name| - 1];
        } else {
          assert front[i] == '.';
        }
      }
      assert (NON_NULL_ASSERTION + comma)[1] == '!';
      assert |line| - |NON_NULL_ASSERTION + comma| + 1 == i;
    } else {
      assert line == front + NON_NULL_ASSERTION + comma;
      assert line[|line| - |NON_NULL_ASSERTION + comma|..] == NON_NULL_ASSERTION + comma;
    }
  }

  /** A line ends with its own characters before the separator, then the separator. */
  lemma EndsWithCommaIffSeparator(front: string, comma: string)
    requires IsSeparator(comma) && front != [] && front[|front| - 1] != ','
    ensures EndsWith(front + comma, COMMA) <==> comma == COMMA
  {
    if comma == "" {
      assert (front + comma)[|front + comma| - 1..] == [front[|front| - 1]];
    }
  }

  /**
   * Every generated line of a field but the last ends with a comma, and the
   * last field's lines do not (a name never holds `,`).
   */
  lemma OnlyTheLastFieldHasNoComma(name: string, nullable: bool, index: nat, size: nat)
    requires ',' !in name
    ensures EndsWith(PatchLine(name, Comma(index, size)), COMMA) <==> index + 1 < size
    ensures EndsWith(MapLine(name, nullable, Comma(index, size)), COMMA) <==> index + 1 < size
    ensures EndsWith(AltLine(name, Comma(index, size)), COMMA) <==> index + 1 < size
  {
    var comma := Comma(index, size);
    var patch := INDENT + name + THIS_ACCESS + name + ELVIS_ORIGINAL + name;
    var mapping := INDENT + name + THIS_ACCESS + name + (if nullable then "" else NON_NULL_ASSERTION);
    var alt := INDENT + name + ORIGINAL_ACCESS + name;
    LastCharOfNamed(INDENT + name + THIS_ACCESS + name + ELVIS_ORIGINAL, name);
    LastCharOfNamed(INDENT + name + ORIGINAL_ACCESS, name);
    if nullable {
      LastCharOfNamed(INDENT + name + THIS_ACCESS, name);
      assert mapping == INDENT + name + THIS_ACCESS + name;
    } else {
      assert mapping[|mapping| - 1] == '!';
    }
    assert PatchLine(name, comma) == patch + comma;
    assert MapLine(name, nullable, comma) == mapping + comma;
    assert AltLine(name, comma) == alt + comma;
    EndsWithCommaIffSeparator(patch, comma);
    EndsWithCommaIffSeparator(mapping, comma);
    EndsWithCommaIffSeparator(alt, comma);
  }

  /** The last character of a fixed text ending in `.` followed by a name without commas. */
  lemma LastCharOfNamed(front: string, name: string)
    requires front != [] && front[|front| - 1] == '.' && ',' !in name
    ensures (front + name)[|front + name| - 1] != ','
  {
    if name != [] {
      assert (front + name)[|front + name| - 1] == name[|name| - 1];
    }
  }

  // ---------------------------------------------------------------------------
  // A pass over the fields
  // ---------------------------------------------------------------------------

  /**
   * A pass over `fields`: how each field's constructor default is chosen and
   * the base packages of the annotations copied to its property (none for
   * the generator that copies no annotations).
   */
  datatype Pass = Pass(fields: seq<Element>, defaultOf: Element -> string, copyAnnotationPackages: Option<seq<string>>)

  /** What one field contributes: a property, a parameter and three lines. */
  datatype FieldLines = FieldLines(property: PropertySpec, parameter: ParameterSpec, patch: Statement, mapping: Statement, alt: Statement)

  /** `asKotlinTypeName().copy(nullable = true)`: the property type is always nullable. */
  function PropertyType(e: Element): (r: TypeName)
    ensures r.nullable && r.name == e.typeName
  {
    TypeName(e.typeName, true)
  }

  /** `copyAnnotationsByBasePackage(field, packages, FIELD)`, when the generator copies any. */
  function PropertyAnnotations(p: Pass, e: Element): seq<AnnotationSpec> {
    match p.copyAnnotationPackages
    case None => []
    case Some(packages) => MemberStatements.AnnotationSpecs(EnvAware.FilterAnnotationsByBasePackage(e, packages))
  }

  /** The contribution of the field at `index`. */
  function LinesAt(p: Pass, index: nat): FieldLines
    requires index < |p.fields|
  {
    var e := p.fields[index];
    var comma := Comma(index, |p.fields|);
    FieldLines(
      PropertySpec(e.name, PropertyType(e), true, ["PUBLIC"], e.name, PropertyAnnotations(p, e)),
      ParameterSpec(e.name, PropertyType(e), Some(p.defaultOf(e))),
      Line(PatchLine(e.name, comma)),
      Line(MapLine(e.name, EnvAware.IsNullable(e), comma)),
      Line(AltLine(e.name, comma)))
  }

  /** The contributions of the first `n` fields, in order. */
  function Lines(p: Pass, n: nat): (r: seq<FieldLines>)
    requires n <= |p.fields|
    ensures |r| == n && forall k :: 0 <= k < n ==> r[k] == LinesAt(p, k)
  {
    if n == 0 then [] else Lines(p, n - 1) + [LinesAt(p, n - 1)]
  }

  /**
   * Every field's property is public, mutable, nullable and initialised from
   * its constructor parameter, which has the field's default; the property
   * carries exactly the field's annotations of a copied base package.
   */
  lemma FieldContribution(p: Pass, index: nat)
    requires index < |p.fields|
    ensures var fl, e := LinesAt(p, index), p.fields[index];
            fl.property.name == e.name && fl.property.initializer == fl.parameter.name == e.name &&
            fl.property.mutable && fl.property.modifiers == ["PUBLIC"] &&
            fl.property.typ.nullable && fl.parameter.typ == fl.property.typ &&
            fl.parameter.defaultValue == Some(p.defaultOf(e)) &&
            (p.copyAnnotationPackages.None? ==> fl.property.annotations == []) &&
            (p.copyAnnotationPackages.Some? ==>
               var kept := EnvAware.AnnotationsWithBasePackage(e.annotations, p.copyAnnotationPackages.value);
               |fl.property.annotations| == |kept| &&
               forall i :: 0 <= i < |kept| ==> fl.property.annotations[i] == AnnotationSpec(kept[i]))
  {
    if p.copyAnnotationPackages.Some? {
      MemberStatements.AnnotationSpecsOf(EnvAware.FilterAnnotationsByBasePackage(p.fields[index], p.copyAnnotationPackages.value));
    }
  }

  // ---------------------------------------------------------------------------
  // The builders
  // ---------------------------------------------------------------------------

  /** Which builders a field adds to. */
  datatype Mode =
    | AllLines      // patch, mapping and alternative constructor
    | WithCreator   // those and the creator
    | PropertyOnly  // only the property and the parameter: DTO-only fields

  /**
   * What the builders hold: the type's items, the primary constructor's
   * parameters and the bodies of the patch, mapping, alternative-constructor
   * and creator code.
   */
  datatype Builders = Builders(
    items: seq<TypeItem>,
    params: seq<ParameterSpec>,
    patch: CodeBlock,
    mapping: CodeBlock,
    alt: CodeBlock,
    creator: CodeBlock)

  /** The builders after one field's contribution. */
  function AddLines(g: Builders, fl: FieldLines, mode: Mode): Builders {
    var g' := g.(items := g.items + [Property(fl.property)], params := g.params + [fl.parameter]);
    match mode
    case PropertyOnly => g'
    case AllLines => g'.(patch := g.patch + [fl.patch], mapping := g.mapping + [fl.mapping], alt := g.alt + [fl.alt])
    case WithCreator =>
      g'.(patch := g.patch + [fl.patch], mapping := g.mapping + [fl.mapping], alt := g.alt + [fl.alt], creator := g.creator + [fl.alt])
  }

  /** The builders after the contributions `ls`, in order. */
  function AddAll(g: Builders, ls: seq<FieldLines>, mode: Mode): Builders {
    if ls == [] then g else AddLines(AddAll(g, ls[..|ls| - 1], mode), ls[|ls| - 1], mode)
  }

  /** One more contribution is one more step. */
  lemma AddAllSnoc(g: Builders, ls: seq<FieldLines>, fl: FieldLines, mode: Mode)
    ensures AddAll(g, ls + [fl], mode) == AddLines(AddAll(g, ls, mode), fl, mode)
  {
    assert (ls + [fl])[..|ls|] == ls;
  }

  /** The property of each contribution, as a type item. */
  function PropertyItems(ls: seq<FieldLines>): (r: seq<TypeItem>)
    ensures |r| == |ls| && forall k :: 0 <= k < |ls| ==> r[k] == Property(ls[k].property)
  {
    if ls == [] then [] else PropertyItems(ls[..|ls| - 1]) + [Property(ls[|ls| - 1].property)]
  }

  /** The constructor parameter of each contribution. */
  function Parameters(ls: seq<FieldLines>): (r: seq<ParameterSpec>)
    ensures |r| == |ls| && forall k :: 0 <= k < |ls| ==> r[k] == ls[k].parameter
  {
    if ls == [] then [] else Parameters(ls[..|ls| - 1]) + [ls[|ls| - 1].parameter]
  }

  /** The patch line of each contribution. */
  function Patches(ls: seq<FieldLines>): (r: CodeBlock)
    ensures |r| == |ls| && forall k :: 0 <= k < |ls| ==> r[k] == ls[k].patch
  {
    if ls == [] then [] else Patches(ls[..|ls| - 1]) + [ls[|ls| - 1].patch]
  }

  /** The mapping line of each contribution. */
  function Mappings(ls: seq<FieldLines>): (r: CodeBlock)
    ensures |r| == |ls| && forall k :: 0 <= k < |ls| ==> r[k] == ls[k].mapping
  {
    if ls == [] then [] else Mappings(ls[..|ls| - 1]) + [ls[|ls| - 1].mapping]
  }

  /** The alternative-constructor line of each contribution. */
  function Alts(ls: seq<FieldLines>): (r: CodeBlock)
    ensures |r| == |ls| && forall k :: 0 <= k < |ls| ==> r[k] == ls[k].alt
  {
    if ls == [] then [] else Alts(ls[..|ls| - 1]) + [ls[|ls| - 1].alt]
  }

  /** The type's items and the parameters gain, in order, one entry per contribution. */
  lemma {:induction false} AddAllItems(g: Builders, ls: seq<FieldLines>, mode: Mode)
    ensures var r := AddAll(g, ls, mode);
            r.items == g.items + PropertyItems(ls) && r.params == g.params + Parameters(ls)
  {
    if ls != [] {
      var front, last := ls[..|ls| - 1], ls[|ls| - 1];
      AddAllItems(g, front, mode);
      assert g.items + PropertyItems(ls) == (g.items + PropertyItems(front)) + [Property(last.property)];
      assert g.params + Parameters(ls) == (g.params + Parameters(front)) + [last.parameter];
    }
  }

  /**
   * The bodies gain, in order, their line of every contribution, the
   * creator's only with the creator; the bodies a mode does not name are
   * unchanged.
   */
  lemma {:induction false} AddAllBodies(g: Builders, ls: seq<FieldLines>, mode: Mode)
    ensures var r := AddAll(g, ls, mode);
            if mode == PropertyOnly then r.patch == g.patch && r.mapping == g.mapping && r.alt == g.alt
            else r.patch == g.patch + Patches(ls) && r.mapping == g.mapping + Mappings(ls) && r.alt == g.alt + Alts(ls)
    ensures var r := AddAll(g, ls, mode);
            if mode == WithCreator then r.creator == g.creator + Alts(ls) else r.creator == g.creator
  {
    if ls != [] {
      var front, last := ls[..|ls| - 1], ls[|ls| - 1];
      AddAllBodies(g, front, mode);
      assert g.patch + Patches(ls) == (g.patch + Patches(front)) + [last.patch];
      assert g.mapping + Mappings(ls) == (g.mapping + Mappings(front)) + [last.mapping];
      assert g.alt + Alts(ls) == (g.alt + Alts(front)) + [last.alt];
      assert g.creator + Alts(ls) == (g.creator + Alts(front)) + [last.alt];
    }
  }

  /**
   * A whole pass yields the patch line of each field in order, with a comma
   * after all but the last; and likewise the mapping and
   * alternative-constructor lines.
   */
  lemma PassLines(p: Pass)
    ensures var ls, n := Lines(p, |p.fields|), |p.fields|;
            |Patches(ls)| == n && |Mappings(ls)| == n && |Alts(ls)| == n &&
            (forall k :: 0 <= k < n ==> Patches(ls)[k] == Line(PatchLine(p.fields[k].name, Comma(k, n)))) &&
            (forall k :: 0 <= k < n ==>
               Mappings(ls)[k] == Line(MapLine(p.fields[k].name, EnvAware.IsNullable(p.fields[k]), Comma(k, n)))) &&
            (forall k :: 0 <= k < n ==> Alts(ls)[k] == Line(AltLine(p.fields[k].name, Comma(k, n))))
  {
  }

  /** The builders of one generator instance, beside the type builder they feed. */
  class MemberBuilders {
    var params: seq<ParameterSpec>
    var patch: CodeBlock
    var mapping: CodeBlock
    var alt: CodeBlock
    var creator: CodeBlock

    /** The state of all builders, with `items` for the type's. */
    function State(items: seq<TypeItem>): Builders
      reads this
    {
      Builders(items, params, patch, mapping, alt, creator)
    }

    /** The state of all builders, the type's included. */
    function Snapshot(b: TypeSpecBuilder): (r: Builders)
      reads this, b
      ensures r == State(b.items)
    {
      Builders(b.items, params, patch, mapping, alt, creator)
    }

    /** Empty constructor parameters and the given openings of the bodies. */
    constructor (patch: CodeBlock, mapping: CodeBlock, alt: CodeBlock, creator: CodeBlock)
      ensures params == [] && this.patch == patch && this.mapping == mapping && this.alt == alt && this.creator == creator
    {
      params := [];
      this.patch := patch;
      this.mapping := mapping;
      this.alt := alt;
      this.creator := creator;
    }

    /** Adds one field's contribution to the builders `mode` names. */
    method AddField(b: TypeSpecBuilder, fl: FieldLines, mode: Mode)
      modifies this, b
      ensures Snapshot(b) == AddLines(old(Snapshot(b)), fl, mode)
    {
      params := params + [fl.parameter];
      b.Add([Property(fl.property)]);
      if mode != PropertyOnly {
        patch := AddStatement(patch, Some(fl.patch));
        mapping := AddStatement(mapping, Some(fl.mapping));
        alt := AddStatement(alt, Some(fl.alt));
      }
      if mode == WithCreator {
        creator := AddStatement(creator, Some(fl.alt));
      }
    }

    /** `forEachIndexed` over the pass's fields. */
    method AddFields(b: TypeSpecBuilder, p: Pass, mode: Mode)
      modifies this, b
      ensures Snapshot(b) == AddAll(old(Snapshot(b)), Lines(p, |p.fields|), mode)
    {
      var i := 0;
      while i < |p.fields|
        invariant 0 <= i <= |p.fields|
        invariant Snapshot(b) == AddAll(old(Snapshot(b)), Lines(p, i), mode)
      {
        AddField(b, LinesAt(p, i), mode);
        AddAllSnoc(old(Snapshot(b)), Lines(p, i), LinesAt(p, i), mode);
        i := i + 1;
      }
    }
  }

  // ---------------------------------------------------------------------------
  // Closing the bodies
  // ---------------------------------------------------------------------------

  /** The `original` parameter of the given type. */
  function OriginalParameter(typeName: string): (r: ParameterSpec)
    ensures r.name == ORIGINAL && r.typ == TypeName(typeName, false) && r.defaultValue.None?
  {
    ParameterSpec(ORIGINAL, TypeName(typeName, false), None)
  }

  /** The lines that end the patch function: the call closed, then the patched copy returned. */
  const PATCH_CLOSING: CodeBlock := [Line(")"), Line("return patched")]

  /**
   * The lines that end the mapping function: the call closed, optionally
   * the built instance returned, and a catch that rethrows any exception as
   * the given insufficient-mapping exception.
   */
  function MapClosing(returnInstance: bool, exception: string): (r: CodeBlock)
    ensures |r| == (if returnInstance then 6 else 5)
    ensures r[0] == Line("   )") && r[|r| - 4] == Line("}") && r[|r| - 3] == Line("catch(e: Exception) {")
    ensures r[|r| - 2] == Statement("   throw %T(exception = e)", [exception]) && r[|r| - 1] == Line("}")
    ensures returnInstance ==> r[1] == Line("   return originalTypeInstance")
  {
    [Line("   )")] + (if returnInstance then [Line("   return originalTypeInstance")] else [])
      + [Line("}"), Line("catch(e: Exception) {"), Statement("   throw %T(exception = e)", [exception]), Line("}")]
  }

  /**
   * The members the `manotbatsis` generators add once the fields are done:
   * the primary constructor, the alternative constructor, `toPatched` and
   * `toTargetType`, the last two with their bodies closed.
   */
  function ClosingItems(g: Builders, originalTypeName: string, exception: string): seq<TypeItem> {
    [PrimaryConstructor(g.params),
     AltConstructor(g.alt),
     Function(FunSpec("toPatched", [OriginalParameter(originalTypeName)], originalTypeName, g.patch + PATCH_CLOSING)),
     Function(FunSpec("toTargetType", [], originalTypeName, g.mapping + MapClosing(true, exception)))]
  }

  /** The builders once closed in the `manotbatsis` way. */
  function Closed(g: Builders, originalTypeName: string, exception: string): (r: Builders)
    ensures r.patch == g.patch + PATCH_CLOSING && r.mapping == g.mapping + MapClosing(true, exception)
    ensures r.items == g.items + ClosingItems(g, originalTypeName, exception)
    ensures r.params == g.params && r.alt == g.alt && r.creator == g.creator
  {
    g.(items := g.items + ClosingItems(g, originalTypeName, exception),
       patch := g.patch + PATCH_CLOSING,
       mapping := g.mapping + MapClosing(true, exception))
  }

  /**
   * The type after a whole closed pass: its items so far, one property per
   * field, then the primary constructor with one parameter per field, the
   * alternative constructor, and the two functions whose bodies are the
   * opened body, one line per field and the closing lines.
   */
  lemma ClosedPassItems(g: Builders, p: Pass, originalTypeName: string, exception: string)
    ensures var a := AddAll(g, Lines(p, |p.fields|), AllLines);
            var r := Closed(a, originalTypeName, exception);
            var n := |p.fields|;
            |r.items| == |g.items| + n + 4 && r.items[..|g.items|] == g.items &&
            (forall k :: 0 <= k < n ==> r.items[|g.items| + k] == Property(LinesAt(p, k).property)) &&
            r.items[|g.items| + n..] == ClosingItems(a, originalTypeName, exception) &&
            |a.params| == |g.params| + n && |a.alt| == |g.alt| + n &&
            |r.patch| == |g.patch| + n + 2 && |r.mapping| == |g.mapping| + n + 6
  {
    var ls := Lines(p, |p.fields|);
    var a := AddAll(g, ls, AllLines);
    AddAllItems(g, ls, AllLines);
    AddAllBodies(g, ls, AllLines);
    var r := Closed(a, originalTypeName, exception);
    assert r.items == a.items + ClosingItems(a, originalTypeName, exception);
    assert r.items[..|a.items|] == a.items;
    assert r.items[..|g.items|] == a.items[..|g.items|];
  }
}
