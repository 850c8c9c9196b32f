/**
 * The first DTO generator, part of the older utilities'
 * `ProcessingEnvironmentAware`: the fields of a type that one of its
 * constructors takes, and the DTO type built in one pass from a `DtoInfo`.
 */
module LegacyUtils {
  import opened Wrappers
  import opened Model
  import opened CodeSpec
  import Api
  import Seqs
  import EnvAware
  import LegacyMembers

  const DTO_SUFFIX: string := "Dto"
  const KDOC_FORMAT: string := "A [%T]-specific [%T] implementation"
  const INSUFFICIENT_MAPPING: string := "com.github.manosbatsis.kotlin.utils.api.DtoInsufficientMappingException"

  /** What the generator is given: the type, the fields to copy, the target package and an optional KDoc. */
  datatype DtoInfo = DtoInfo(originalTypeElement: TypeElement, fields: seq<Element>, targetPackage: string, kdoc: Option<string>)

  /** `originalTypeName`: the type's name as `asTypeName` renders it. */
  function OriginalTypeName(info: DtoInfo): string {
    info.originalTypeElement.qualifiedName
  }

  // ---------------------------------------------------------------------------
  // The fields a constructor takes
  // ---------------------------------------------------------------------------

  predicate IsField(e: Element) {
    e.kind == FIELD
  }

  /** `ElementFilter.fieldsIn`: the fields among the members, static or not, in order. */
  function FieldsIn(es: seq<Element>): seq<Element> {
    Seqs.Filter(es, IsField)
  }

  /** The test that an element's name is among `names`. */
  function NamedIn(names: set<string>): Element -> bool {
    (e: Element) => e.name in names
  }

  /**
   * `accessibleConstructorParameterFields`: the fields among all members
   * named like a parameter, neither private nor protected, of a constructor.
   */
  function AccessibleConstructorParameterFields(t: TypeElement): seq<Element> {
    Seqs.Filter(FieldsIn(t.allMembers), NamedIn(EnvAware.ConstructorParamNames(t.allMembers)))
  }

  /**
   * The result is the members with some dropped, in order, and keeps
   * exactly the fields named like an accessible constructor parameter. Names
   * that look compiler-generated get no special treatment: without named
   * parameters no field is kept.
   */
  lemma AccessibleConstructorParameterFieldsKeeps(t: TypeElement)
    ensures var r, names := AccessibleConstructorParameterFields(t), EnvAware.ConstructorParamNames(t.allMembers);
            Seqs.IsSubsequence(r, t.allMembers) &&
            (forall e :: e in r <==> e in t.allMembers && e.kind == FIELD && e.name in names) &&
            (names == {} ==> r == [])
  {
    var names := EnvAware.ConstructorParamNames(t.allMembers);
    var fields := FieldsIn(t.allMembers);
    var r := AccessibleConstructorParameterFields(t);
    Seqs.FilterIsSubsequence(t.allMembers, IsField);
    Seqs.FilterIsSubsequence(fields, NamedIn(names));
    Seqs.SubsequenceTrans(r, fields, t.allMembers);
    Seqs.FilterMembership(t.allMembers, IsField);
    Seqs.FilterMembership(fields, NamedIn(names));
  }

  // ---------------------------------------------------------------------------
  // `dtoSpecBuilder`
  // ---------------------------------------------------------------------------

  /** The DTO's name: the target package, unmapped, and the type's simple name plus "Dto". */
  function DtoClassName(info: DtoInfo): (r: ClassName)
    ensures r.packageName == info.targetPackage
    ensures r.simpleName == info.originalTypeElement.simpleName + DTO_SUFFIX
  {
    ClassName(info.targetPackage, info.originalTypeElement.simpleName + DTO_SUFFIX)
  }

  /** The `Dto` supertype of the original type, the data modifier and the KDoc; no annotations are copied. */
  function Header(info: DtoInfo): seq<TypeItem> {
    [SuperInterface(Api.DTO_INTERFACE, OriginalTypeName(info)),
     DataModifier,
     Kdoc(KDOC_FORMAT, [OriginalTypeName(info), Api.DTO_INTERFACE])]
  }

  /** The builders before the first field: the header and the opened bodies. */
  function Opening(info: DtoInfo): LegacyMembers.Builders {
    LegacyMembers.Builders(
      Header(info), [],
      [Statement("val patched = %T(", [OriginalTypeName(info)])],
      [Line("try {"), Statement("   val originalTypeInstance = %T(", [OriginalTypeName(info)])],
      [Line("")],
      [])
  }

  /** Every field of the info, with the default "null" and no annotations copied. */
  function PassOf(info: DtoInfo): LegacyMembers.Pass {
    LegacyMembers.Pass(info.fields, (e: Element) => "null", None)
  }

  /** The builders once every field is added and the bodies are closed. */
  function Generated(info: DtoInfo): LegacyMembers.Builders {
    var p := PassOf(info);
    LegacyMembers.Closed(LegacyMembers.AddAll(Opening(info), LegacyMembers.Lines(p, |p.fields|), LegacyMembers.AllLines),
                         OriginalTypeName(info), INSUFFICIENT_MAPPING)
  }

  /**
   * `dtoSpecBuilder`: a class named after the type in the target package,
   * holding the header, one property per field and the members that close
   * the pass.
   */
  method DtoSpecBuilder(info: DtoInfo) returns (b: TypeSpecBuilder)
    ensures fresh(b) && b.className == DtoClassName(info)
    ensures b.items == Generated(info).items
  {
    b := new TypeSpecBuilder(DtoClassName(info));
    b.Add(Header(info));
    var opening := Opening(info);
    var acc := new LegacyMembers.MemberBuilders(opening.patch, opening.mapping, opening.alt, opening.creator);
    assert acc.Snapshot(b) == opening;
    acc.AddFields(b, PassOf(info), LegacyMembers.AllLines);
    b.Add(LegacyMembers.ClosingItems(acc.Snapshot(b), OriginalTypeName(info), INSUFFICIENT_MAPPING));
  }

  /**
   * The type starts with its header, then holds for each field a public,
   * mutable, nullable property of the field's name with no annotations.
   */
  lemma GeneratedProperties(info: DtoInfo, k: nat)
    requires k < |info.fields|
    ensures var r, e := Generated(info), info.fields[k];
            |r.items| == 3 + |info.fields| + 4 && r.items[..3] == Header(info) &&
            r.items[3 + k] == Property(PropertySpec(e.name, TypeName(e.typeName, true), true, ["PUBLIC"], e.name, []))
  {
    var p := PassOf(info);
    var ls := LegacyMembers.Lines(p, |p.fields|);
    var a := LegacyMembers.AddAll(Opening(info), ls, LegacyMembers.AllLines);
    LegacyMembers.AddAllItems(Opening(info), ls, LegacyMembers.AllLines);
    LegacyMembers.FieldContribution(p, k);
    assert Generated(info).items == a.items + LegacyMembers.ClosingItems(a, OriginalTypeName(info), INSUFFICIENT_MAPPING);
    assert a.items[3 + k] == Property(ls[k].property);
  }

  /** Each constructor parameter is named after its field, nullable, and defaults to "null". */
  lemma GeneratedParameters(info: DtoInfo, k: nat)
    requires k < |info.fields|
    ensures var r, e := Generated(info), info.fields[k];
            |r.params| == |info.fields| &&
            r.params[k] == ParameterSpec(e.name, TypeName(e.typeName, true), Some("null"))
  {
    var p := PassOf(info);
    var ls := LegacyMembers.Lines(p, |p.fields|);
    LegacyMembers.AddAllItems(Opening(info), ls, LegacyMembers.AllLines);
  }

  /**
   * The mapping body opens a `try`, builds the instance, returns it, and
   * catches any exception to rethrow it as the insufficient-mapping
   * exception.
   */
  lemma MappingIsWrapped(info: DtoInfo)
    ensures var m, n := Generated(info).mapping, |info.fields|;
            |m| == 2 + n + 6 && m[0] == Line("try {") &&
            m[n + 3] == Line("   return originalTypeInstance") &&
            m[n + 5] == Line("catch(e: Exception) {") &&
            m[n + 6] == Statement("   throw %T(exception = e)", [INSUFFICIENT_MAPPING])
  {
    var p := PassOf(info);
    LegacyMembers.AddAllBodies(Opening(info), LegacyMembers.Lines(p, |p.fields|), LegacyMembers.AllLines);
  }
}
