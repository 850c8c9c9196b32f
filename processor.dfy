/**
 * `AnnotationProcessorBase` and `AbstractAnnotatedModelInfoProcessor`: how
 * the processor turns the elements of a round into element infos, which
 * package a DTO goes to, which annotations are mixin annotations and where
 * generated sources are written.
 */
module Processor {
  import opened Wrappers
  import opened Model
  import opened ElementInfo
  import opened Text
  import Seqs
  import EnvAware

  const ANN_ATTR_CIGNORE_PROPS: string := "ignoreProperties"
  const ANN_ATTR_COPY_ANNOTATION_PACKAGES: string := "copyAnnotationPackages"
  const ANN_ATTR_NON_DATA_CLASS: string := "nonDataClass"
  const KAPT_OPTION_NAME_KAPT_KOTLIN_GENERATED: string := "kapt.kotlin.generated"
  const KAPT_OPTION_OVERRIDE_NAME_KAPT_KOTLIN_GENERATED: string := "override.kapt.kotlin.vaultaire.generated"
  const MIXIN_SUFFIX: string := "Mixin"
  const FOR_DEPENDENCY_SUFFIX: string := "ForDependency"
  const NOT_A_MIXIN_MESSAGE: string := "Not a mixin"
  const INVALID_ELEMENT_MESSAGE: string := "Invalid element type, expected a class or constructor"
  const NO_TARGET_DIRECTORY_MESSAGE: string := "Can't find the target directory for generated Kotlin files."
  /** The start of the message of `getValueAsTypeElement` when the annotation lacks the member. */
  const NO_VALID_VALUE_MESSAGE: string := "Could not find a valid value for "

  /**
   * The processor's settings: the names of the annotation members that
   * reference the primary and secondary target types, the field names a
   * subclass excludes (`getFieldNameExclusions`, empty by default) and the
   * options the compiler passed.
   */
  datatype Settings = Settings(
    primaryTargetRefAnnotationName: Option<string>,
    secondaryTargetRefAnnotationName: Option<string>,
    fieldNameExclusions: seq<string>,
    options: map<string, string>)

  /**
   * An element of the round carrying one of the supported annotations: its
   * kind, the type it stands for (the element itself for a class or an
   * interface, the enclosing type for a constructor), its parameters when
   * it is a constructor, and the annotation's mirror on it.
   */
  datatype AnnotatedElement = AnnotatedElement(
    kind: ElementKind,
    typeElement: TypeElement,
    parameters: seq<Element>,
    annotation: AnnotationMirror)

  /** The elements a supported annotation type (by canonical name) annotates in the round. */
  datatype AnnotationGroup = AnnotationGroup(canonicalName: string, elements: seq<AnnotatedElement>)

  /** One element to process, with the canonical name of the annotation it was found by. */
  datatype Pending = Pending(canonicalName: string, element: AnnotatedElement)

  /**
   * The arguments of the twelve-parameter `annotatedElementInfo`, the last
   * step before the element info itself is built: the types with their
   * variable elements and the options read from the annotation.
   */
  datatype ElementInfoArgs = ElementInfoArgs(
    annotation: AnnotationMirror,
    primary: TypeElement,
    primaryFields: seq<Element>,
    secondary: Option<TypeElement>,
    secondaryFields: seq<Element>,
    mixin: Option<TypeElement>,
    mixinFields: seq<Element>,
    copyAnnotationPackages: seq<string>,
    ignoreProperties: seq<string>,
    nonUpdatableProperties: seq<string>,
    generatedPackageName: string,
    isNonDataClass: bool)

  // ---------------------------------------------------------------------------
  // Package names
  // ---------------------------------------------------------------------------

  /** `mapPackageName(String)`: the identity mapping. */
  function MapPackageNameOfString(sourcePackageName: string): (r: string)
    ensures r == sourcePackageName
  {
    sourcePackageName
  }

  /**
   * `mapPackageName(primary, secondary, mixin)`: the package of the mixin if
   * there is one, else that of the primary type; the secondary type never
   * matters.
   */
  function MapPackageName(primary: TypeElement, secondary: Option<TypeElement>, mixin: Option<TypeElement>): (r: string)
    ensures mixin.Some? ==> r == mixin.value.packageName
    ensures mixin.None? ==> r == primary.packageName
  {
    MapPackageNameOfString(mixin.GetOr(primary).packageName)
  }

  // ---------------------------------------------------------------------------
  // Mixin annotations
  // ---------------------------------------------------------------------------

  /**
   * `isMixinAnnotation(name)`: the processor knows a primary target member
   * and the name ends with "Mixin" or "ForDependency".
   */
  predicate IsMixinAnnotation(s: Settings, name: string) {
    s.primaryTargetRefAnnotationName.Some? &&
    (EndsWith(name, MIXIN_SUFFIX) || EndsWith(name, FOR_DEPENDENCY_SUFFIX))
  }

  /**
   * A suffix without a dot ends a qualified name exactly when it ends the
   * part after the last dot.
   */
  lemma EndsWithPastDot(qualifier: string, simple: string, suffix: string)
    requires '.' !in suffix
    ensures EndsWith(qualifier + "." + simple, suffix) <==> EndsWith(simple, suffix)
  {
    var name := qualifier + "." + simple;
    if |suffix| <= |simple| {
      assert name[|name| - |suffix|..] == simple[|simple| - |suffix|..];
    } else if |suffix| <= |name| {
      DotInTail(name, |qualifier|, |name| - |suffix|);
    }
  }

  /** A tail of `name` that starts at or before a dot of it holds that dot. */
  lemma DotInTail(name: string, dot: nat, from: nat)
    requires dot < |name| && name[dot] == '.' && from <= dot
    ensures '.' in name[from..]
  {
    assert name[from..][dot - from] == '.';
  }

  /**
   * The test on the annotation class (by simple name) and the test on its
   * canonical name, which `toAnnotatedElementInfos` uses, always agree.
   */
  lemma CanonicalNameAgreesWithSimpleName(s: Settings, packageName: string, simpleName: string)
    ensures IsMixinAnnotation(s, packageName + "." + simpleName) <==> IsMixinAnnotation(s, simpleName)
  {
    assert MIXIN_SUFFIX == ['M', 'i', 'x', 'i', 'n'];
    assert '.' !in MIXIN_SUFFIX;
    EndsWithPastDot(packageName, simpleName, MIXIN_SUFFIX);
    assert forall i :: 0 <= i < |FOR_DEPENDENCY_SUFFIX| ==> FOR_DEPENDENCY_SUFFIX[i] != '.';
    EndsWithPastDot(packageName, simpleName, FOR_DEPENDENCY_SUFFIX);
  }

  // ---------------------------------------------------------------------------
  // Options read from the compiler and the annotation
  // ---------------------------------------------------------------------------

  /**
   * `generatedSourcesRoot`: the override option if set, else the kapt
   * option, else an `IllegalStateException`.
   */
  function GeneratedSourcesRoot(options: map<string, string>): (r: Result<string>)
    ensures r.Err? <==> KAPT_OPTION_OVERRIDE_NAME_KAPT_KOTLIN_GENERATED !in options
                        && KAPT_OPTION_NAME_KAPT_KOTLIN_GENERATED !in options
    ensures r.Err? ==> r.error == IllegalState(NO_TARGET_DIRECTORY_MESSAGE)
    ensures KAPT_OPTION_OVERRIDE_NAME_KAPT_KOTLIN_GENERATED in options ==>
              r == Ok(options[KAPT_OPTION_OVERRIDE_NAME_KAPT_KOTLIN_GENERATED])
    ensures KAPT_OPTION_OVERRIDE_NAME_KAPT_KOTLIN_GENERATED !in options &&
            KAPT_OPTION_NAME_KAPT_KOTLIN_GENERATED in options ==>
              r == Ok(options[KAPT_OPTION_NAME_KAPT_KOTLIN_GENERATED])
    ensures r.Ok? ==> r.value in options.Values
  {
    if KAPT_OPTION_OVERRIDE_NAME_KAPT_KOTLIN_GENERATED in options
    then Ok(options[KAPT_OPTION_OVERRIDE_NAME_KAPT_KOTLIN_GENERATED])
    else if KAPT_OPTION_NAME_KAPT_KOTLIN_GENERATED in options
    then Ok(options[KAPT_OPTION_NAME_KAPT_KOTLIN_GENERATED])
    else Err(IllegalState(NO_TARGET_DIRECTORY_MESSAGE))
  }

  /** `isNonDataClass`: the annotation's `nonDataClass` member, false when it has none. */
  function IsNonDataClass(annotation: AnnotationMirror): (r: bool)
    ensures ANN_ATTR_NON_DATA_CLASS !in annotation.booleanValues ==> !r
    ensures ANN_ATTR_NON_DATA_CLASS in annotation.booleanValues ==>
              r == annotation.booleanValues[ANN_ATTR_NON_DATA_CLASS]
  {
    if ANN_ATTR_NON_DATA_CLASS in annotation.booleanValues
    then annotation.booleanValues[ANN_ATTR_NON_DATA_CLASS] else false
  }

  // ---------------------------------------------------------------------------
  // Fields of the types
  // ---------------------------------------------------------------------------

  /** `filterNot { fieldNameExclusions.contains(simpleName) }`. */
  function WithoutExcluded(es: seq<Element>, exclusions: seq<string>): seq<Element> {
    Seqs.Filter(es, (e: Element) => e.name !in exclusions)
  }

  /** The exclusions drop exactly the elements they name and keep the others in order. */
  lemma WithoutExcludedKeeps(es: seq<Element>, exclusions: seq<string>)
    ensures forall e :: e in WithoutExcluded(es, exclusions) <==> e in es && e.name !in exclusions
    ensures Seqs.IsSubsequence(WithoutExcluded(es, exclusions), es)
    ensures exclusions == [] ==> WithoutExcluded(es, exclusions) == es
  {
    var keep := (e: Element) => e.name !in exclusions;
    Seqs.FilterIsSubsequence(es, keep);
    var r := WithoutExcluded(es, exclusions);
    forall e | e in r
      ensures e in es && e.name !in exclusions
    {
      var i :| 0 <= i < |r| && r[i] == e;
    }
    forall e | e in es && e.name !in exclusions
      ensures e in r
    {
      var i :| 0 <= i < |es| && es[i] == e;
    }
    if exclusions == [] {
      Seqs.FilterKeepsAll(es, keep);
    }
  }

  /**
   * The fields of a referenced type: its instance fields among all its
   * members, without the excluded names.
   */
  function ReferencedFields(s: Settings, t: TypeElement): seq<Element> {
    WithoutExcluded(EnvAware.FieldsOnly(t.allMembers), s.fieldNameExclusions)
  }

  /**
   * The fields an annotated element brings: for a class or an interface its
   * accessible constructor parameter fields (interface getters adapted),
   * for a constructor its parameters; the excluded names dropped either way.
   */
  function SourceFields(s: Settings, e: AnnotatedElement): (r: Result<seq<Element>>)
    requires e.kind == CLASS || e.kind == INTERFACE || e.kind == CONSTRUCTOR
    ensures e.kind == CONSTRUCTOR ==> r == Ok(WithoutExcluded(e.parameters, s.fieldNameExclusions))
    ensures e.kind != CONSTRUCTOR ==>
              (r.Err? <==> EnvAware.AccessibleConstructorParameterFields(e.typeElement, true).Err?)
  {
    if e.kind == CONSTRUCTOR then Ok(WithoutExcluded(e.parameters, s.fieldNameExclusions))
    else
      match EnvAware.AccessibleConstructorParameterFields(e.typeElement, true)
      case Err(x) => Err(x)
      case Ok(fields) => Ok(WithoutExcluded(fields, s.fieldNameExclusions))
  }

  // ---------------------------------------------------------------------------
  // Element info arguments
  // ---------------------------------------------------------------------------

  /**
   * The twelve-parameter `annotatedElementInfo` with its defaults: the
   * copied packages and ignored properties read from the annotation, no
   * non-updatable properties, the mapped package, and `isNonDataClass`.
   */
  function DefaultedArgs(
    annotation: AnnotationMirror,
    primary: TypeElement, primaryFields: seq<Element>,
    secondary: Option<TypeElement>, secondaryFields: seq<Element>,
    mixin: Option<TypeElement>, mixinFields: seq<Element>): (r: ElementInfoArgs)
    ensures r.annotation == annotation && r.primary == primary && r.primaryFields == primaryFields
    ensures r.secondary == secondary && r.secondaryFields == secondaryFields
    ensures r.mixin == mixin && r.mixinFields == mixinFields
    ensures r.copyAnnotationPackages == EnvAware.GetStringValuesList(Some(annotation), ANN_ATTR_COPY_ANNOTATION_PACKAGES)
    ensures r.ignoreProperties == EnvAware.GetStringValuesList(Some(annotation), ANN_ATTR_CIGNORE_PROPS)
    ensures r.nonUpdatableProperties == []
    ensures r.generatedPackageName == MapPackageName(primary, secondary, mixin)
    ensures r.isNonDataClass == IsNonDataClass(annotation)
  {
    ElementInfoArgs(annotation, primary, primaryFields, secondary, secondaryFields, mixin, mixinFields,
      EnvAware.GetStringValuesList(Some(annotation), ANN_ATTR_COPY_ANNOTATION_PACKAGES),
      EnvAware.GetStringValuesList(Some(annotation), ANN_ATTR_CIGNORE_PROPS),
      [], MapPackageName(primary, secondary, mixin), IsNonDataClass(annotation))
  }

  /** The secondary type the annotation references, when the processor knows the member naming it. */
  function SecondaryTarget(s: Settings, annotation: AnnotationMirror): (r: Option<TypeElement>)
    ensures r.Some? <==> s.secondaryTargetRefAnnotationName.Some?
                         && s.secondaryTargetRefAnnotationName.value in annotation.typeValues
    ensures r.Some? ==> r.value == annotation.typeValues[s.secondaryTargetRefAnnotationName.value]
  {
    if s.secondaryTargetRefAnnotationName.Some? && s.secondaryTargetRefAnnotationName.value in annotation.typeValues
    then Some(annotation.typeValues[s.secondaryTargetRefAnnotationName.value])
    else None
  }

  /**
   * The five-parameter `annotatedElementInfo`: the given primary type and
   * fields and the optional mixin, with the secondary type the annotation
   * references and its fields (none without a secondary type).
   */
  function PrimaryArgs(s: Settings, primary: TypeElement, primaryFields: seq<Element>,
                       mixin: Option<TypeElement>, mixinFields: seq<Element>,
                       annotation: AnnotationMirror): (r: ElementInfoArgs)
    ensures r.primary == primary && r.primaryFields == primaryFields
    ensures r.mixin == mixin && r.mixinFields == mixinFields
    ensures r.secondary == SecondaryTarget(s, annotation)
    ensures r.secondary.None? ==> r.secondaryFields == []
    ensures r.secondary.Some? ==> r.secondaryFields == ReferencedFields(s, r.secondary.value)
    ensures r.generatedPackageName == MapPackageName(primary, r.secondary, mixin)
  {
    var secondary := SecondaryTarget(s, annotation);
    var secondaryFields := if secondary.Some? then ReferencedFields(s, secondary.value) else [];
    DefaultedArgs(annotation, primary, primaryFields, secondary, secondaryFields, mixin, mixinFields)
  }

  /**
   * `annotatedElementInfoForMixin`: "Not a mixin" without a primary target
   * member, and `getValueAsTypeElement`'s exception naming the member when
   * the annotation does not reference a type through it; otherwise the
   * annotated type is the mixin and the type the annotation references is the
   * primary target, with its fields.
   */
  function MixinArgs(s: Settings, mixin: TypeElement, mixinFields: seq<Element>,
                     annotation: AnnotationMirror): (r: Result<ElementInfoArgs>)
    ensures s.primaryTargetRefAnnotationName.None? ==> r == Err(IllegalState(NOT_A_MIXIN_MESSAGE))
    ensures s.primaryTargetRefAnnotationName.Some? && s.primaryTargetRefAnnotationName.value !in annotation.typeValues ==>
              r == Err(IllegalState(NO_VALID_VALUE_MESSAGE + s.primaryTargetRefAnnotationName.value))
    ensures r.Err? <==> s.primaryTargetRefAnnotationName.None?
                        || s.primaryTargetRefAnnotationName.value !in annotation.typeValues
    ensures r.Ok? ==> r.value.primary == annotation.typeValues[s.primaryTargetRefAnnotationName.value]
                      && r.value.primaryFields == ReferencedFields(s, r.value.primary)
                      && r.value.mixin == Some(mixin) && r.value.mixinFields == mixinFields
                      && r.value.generatedPackageName == mixin.packageName
  {
    match s.primaryTargetRefAnnotationName
    case None => Err(IllegalState(NOT_A_MIXIN_MESSAGE))
    case Some(attr) =>
      if attr !in annotation.typeValues then Err(IllegalState(NO_VALID_VALUE_MESSAGE + attr))
      else
        var primary := annotation.typeValues[attr];
        Ok(PrimaryArgs(s, primary, ReferencedFields(s, primary), Some(mixin), mixinFields, annotation))
  }

  /**
   * The dispatch of `toAnnotatedElementInfos` on one element: only classes,
   * interfaces and constructors are accepted; a mixin annotation makes the
   * element's type the mixin, any other annotation makes it the primary
   * target.
   */
  function ArgsFor(s: Settings, p: Pending): (r: Result<ElementInfoArgs>)
    ensures p.element.kind !in {CLASS, INTERFACE, CONSTRUCTOR} ==>
              r == Err(IllegalArgument(INVALID_ELEMENT_MESSAGE))
    ensures r.Ok? ==> p.element.kind in {CLASS, INTERFACE, CONSTRUCTOR} && SourceFields(s, p.element).Ok?
    ensures r.Ok? && IsMixinAnnotation(s, p.canonicalName) ==>
              r.value.mixin == Some(p.element.typeElement)
              && r.value.mixinFields == SourceFields(s, p.element).value
    ensures r.Ok? && !IsMixinAnnotation(s, p.canonicalName) ==>
              r.value.primary == p.element.typeElement && r.value.mixin.None? && r.value.mixinFields == []
              && r.value.primaryFields == SourceFields(s, p.element).value
  {
    var e := p.element;
    if e.kind == CLASS || e.kind == INTERFACE || e.kind == CONSTRUCTOR then
      match SourceFields(s, e)
      case Err(x) => Err(x)
      case Ok(fields) =>
        if IsMixinAnnotation(s, p.canonicalName) then MixinArgs(s, e.typeElement, fields, e.annotation)
        else Ok(PrimaryArgs(s, e.typeElement, fields, None, [], e.annotation))
    else Err(IllegalArgument(INVALID_ELEMENT_MESSAGE))
  }

  /** No excluded field name reaches an element info, whichever type the field comes from. */
  lemma ExclusionsNeverReachInfo(s: Settings, p: Pending)
    requires ArgsFor(s, p).Ok?
    ensures var a := ArgsFor(s, p).value;
            forall f :: f in a.primaryFields + a.secondaryFields + a.mixinFields ==>
              f.name !in s.fieldNameExclusions
  {
    var a := ArgsFor(s, p).value;
    var e := p.element;
    var excl := s.fieldNameExclusions;
    if e.kind == CONSTRUCTOR {
      WithoutExcludedKeeps(e.parameters, excl);
    } else {
      WithoutExcludedKeeps(EnvAware.AccessibleConstructorParameterFields(e.typeElement, true).value, excl);
    }
    if a.secondary.Some? {
      WithoutExcludedKeeps(EnvAware.FieldsOnly(a.secondary.value.allMembers), excl);
    }
    if IsMixinAnnotation(s, p.canonicalName) {
      WithoutExcludedKeeps(EnvAware.FieldsOnly(a.primary.allMembers), excl);
    }
  }

  // ---------------------------------------------------------------------------
  // Element infos of a round
  // ---------------------------------------------------------------------------

  /**
   * The element info the arguments describe. Passing `sourceRootFile` first
   * resolves the generated sources root, which throws when neither option
   * names it; then the info's own construction may fail. The conversion of a
   * variable element into a field info is a parameter: the source hands
   * variable elements where the info expects field infos.
   */
  function Build(options: map<string, string>, a: ElementInfoArgs, fieldInfoOf: Element -> FieldInfo)
    : (r: Result<AnnotatedElementInfo>)
    ensures GeneratedSourcesRoot(options).Err? ==> r == Err(IllegalState(NO_TARGET_DIRECTORY_MESSAGE))
    ensures r.Err? <==> GeneratedSourcesRoot(options).Err? || a.primary.simpleName == SimpleNameOrNullString(a.secondary)
    ensures r.Ok? ==> r.value.primary == a.primary && r.value.secondary == a.secondary
                      && r.value.mixin == a.mixin && r.value.generatedPackageName == a.generatedPackageName
                      && |r.value.primaryFields| == |a.primaryFields|
                      && |r.value.mixinFields| == |a.mixinFields|
  {
    match GeneratedSourcesRoot(options)
    case Err(x) => Err(x)
    case Ok(_) =>
      NewAnnotatedElementInfo(a.annotation,
        a.primary, Seqs.Map(a.primaryFields, fieldInfoOf),
        a.secondary, Seqs.Map(a.secondaryFields, fieldInfoOf),
        a.mixin, Seqs.Map(a.mixinFields, fieldInfoOf),
        a.copyAnnotationPackages, a.ignoreProperties, a.nonUpdatableProperties,
        a.generatedPackageName, a.isNonDataClass)
  }

  /** The element info of one element, or the exception its processing throws. */
  function ElementInfoFor(s: Settings, p: Pending, fieldInfoOf: Element -> FieldInfo): Result<AnnotatedElementInfo> {
    match ArgsFor(s, p)
    case Err(x) => Err(x)
    case Ok(a) => Build(s.options, a, fieldInfoOf)
  }

  /** The elements of one group, each with the group's annotation name. */
  function Tagged(g: AnnotationGroup): (r: seq<Pending>)
    ensures |r| == |g.elements|
    ensures forall i :: 0 <= i < |r| ==> r[i] == Pending(g.canonicalName, g.elements[i])
  {
    Seqs.Map(g.elements, (e: AnnotatedElement) => Pending(g.canonicalName, e))
  }

  /** The number of annotated elements over all groups. */
  function ElementCount(groups: seq<AnnotationGroup>): nat {
    if groups == [] then 0 else |groups[0].elements| + ElementCount(groups[1..])
  }

  /** `flatMap` over the groups: every element of every group, group by group. */
  function Flatten(groups: seq<AnnotationGroup>): (r: seq<Pending>)
    ensures |r| == ElementCount(groups)
  {
    if groups == [] then [] else Tagged(groups[0]) + Flatten(groups[1..])
  }

  /** Each element of each group is pending once, with its own group's annotation name. */
  lemma {:induction false} FlattenHasEveryElement(groups: seq<AnnotationGroup>, k: nat, j: nat)
    requires k < |groups| && j < |groups[k].elements|
    ensures Pending(groups[k].canonicalName, groups[k].elements[j]) in Flatten(groups)
  {
    if k == 0 {
      assert Tagged(groups[0])[j] == Pending(groups[0].canonicalName, groups[0].elements[j]);
      assert Flatten(groups)[j] == Tagged(groups[0])[j];
    } else {
      FlattenHasEveryElement(groups[1..], k - 1, j);
      assert groups[1..][k - 1] == groups[k];
    }
  }

  /** `map` with exceptions: every result in order, or the first exception thrown. */
  function MapOrThrow<T, U>(ps: seq<T>, f: T -> Result<U>): Result<seq<U>> {
    if ps == [] then Ok([])
    else
      match f(ps[0])
      case Err(x) => Err(x)
      case Ok(u) =>
        match MapOrThrow(ps[1..], f)
        case Err(x) => Err(x)
        case Ok(us) => Ok([u] + us)
  }

  /**
   * Exactly one result per element, in order, when no element fails;
   * otherwise the exception of the first element that fails.
   */
  lemma {:induction false} MapOrThrowOnePerElement<T, U>(ps: seq<T>, f: T -> Result<U>)
    ensures MapOrThrow(ps, f).Ok? <==> forall i :: 0 <= i < |ps| ==> f(ps[i]).Ok?
    ensures var r := MapOrThrow(ps, f);
            r.Ok? ==> |r.value| == |ps| && forall i :: 0 <= i < |ps| ==> r.value[i] == f(ps[i]).value
    ensures var r := MapOrThrow(ps, f);
            r.Err? ==> exists i :: 0 <= i < |ps| && f(ps[i]) == Err(r.error) &&
                                   forall j :: 0 <= j < i ==> f(ps[j]).Ok?
  {
    if ps != [] {
      var rest := ps[1..];
      MapOrThrowOnePerElement(rest, f);
      assert forall i :: 1 <= i < |ps| ==> ps[i] == rest[i - 1];
      var r := MapOrThrow(ps, f);
      if f(ps[0]).Ok? && MapOrThrow(rest, f).Err? {
        var i :| 0 <= i < |rest| && f(rest[i]) == Err(r.error) && forall j :: 0 <= j < i ==> f(rest[j]).Ok?;
        assert f(ps[i + 1]) == Err(r.error);
        forall j | 0 <= j < i + 1
          ensures f(ps[j]).Ok?
        {
          if j > 0 {
            assert ps[j] == rest[j - 1];
          }
        }
      }
    }
  }

  /** The infos of the pending elements in order, or the first exception thrown. */
  function InfosOf(s: Settings, ps: seq<Pending>, fieldInfoOf: Element -> FieldInfo): Result<seq<AnnotatedElementInfo>> {
    MapOrThrow(ps, (p: Pending) => ElementInfoFor(s, p, fieldInfoOf))
  }

  /**
   * Exactly one info per element, in order, when no element fails;
   * otherwise the exception of the first element that fails.
   */
  lemma InfosOfOnePerElement(s: Settings, ps: seq<Pending>, fieldInfoOf: Element -> FieldInfo)
    ensures InfosOf(s, ps, fieldInfoOf).Ok? <==>
            forall i :: 0 <= i < |ps| ==> ElementInfoFor(s, ps[i], fieldInfoOf).Ok?
    ensures var r := InfosOf(s, ps, fieldInfoOf);
            r.Ok? ==> |r.value| == |ps| &&
                      forall i :: 0 <= i < |ps| ==> r.value[i] == ElementInfoFor(s, ps[i], fieldInfoOf).value
    ensures var r := InfosOf(s, ps, fieldInfoOf);
            r.Err? ==> exists i :: 0 <= i < |ps| && ElementInfoFor(s, ps[i], fieldInfoOf) == Err(r.error) &&
                                   forall j :: 0 <= j < i ==> ElementInfoFor(s, ps[j], fieldInfoOf).Ok?
    ensures GeneratedSourcesRoot(s.options).Err? && |ps| > 0 ==>
              InfosOf(s, ps, fieldInfoOf) ==
                Err(if ArgsFor(s, ps[0]).Err? then ArgsFor(s, ps[0]).error else IllegalState(NO_TARGET_DIRECTORY_MESSAGE))
  {
    MapOrThrowOnePerElement(ps, (p: Pending) => ElementInfoFor(s, p, fieldInfoOf));
    if GeneratedSourcesRoot(s.options).Err? && |ps| > 0 {
      assert ElementInfoFor(s, ps[0], fieldInfoOf).Err?;
    }
  }

  /** `toAnnotatedElementInfos`. */
  function ToAnnotatedElementInfos(s: Settings, groups: seq<AnnotationGroup>,
                                   fieldInfoOf: Element -> FieldInfo): Result<seq<AnnotatedElementInfo>> {
    InfosOf(s, Flatten(groups), fieldInfoOf)
  }

  /** A round with no failing element gives as many infos as there are annotated elements. */
  lemma OneInfoPerAnnotatedElement(s: Settings, groups: seq<AnnotationGroup>, fieldInfoOf: Element -> FieldInfo)
    ensures var r := ToAnnotatedElementInfos(s, groups, fieldInfoOf);
            r.Ok? ==> |r.value| == ElementCount(groups)
  {
    InfosOfOnePerElement(s, Flatten(groups), fieldInfoOf);
  }

  /**
   * An element of a kind other than class, interface or constructor makes
   * the whole round fail, with the exception of the first failing element.
   */
  lemma InvalidKindFailsRound(s: Settings, groups: seq<AnnotationGroup>, fieldInfoOf: Element -> FieldInfo,
                              k: nat, j: nat)
    requires k < |groups| && j < |groups[k].elements|
    requires groups[k].elements[j].kind !in {CLASS, INTERFACE, CONSTRUCTOR}
    ensures ToAnnotatedElementInfos(s, groups, fieldInfoOf).Err?
  {
    var ps := Flatten(groups);
    FlattenHasEveryElement(groups, k, j);
    var i :| 0 <= i < |ps| && ps[i] == Pending(groups[k].canonicalName, groups[k].elements[j]);
    assert ElementInfoFor(s, ps[i], fieldInfoOf).Err?;
    InfosOfOnePerElement(s, ps, fieldInfoOf);
  }

  // ---------------------------------------------------------------------------
  // The round
  // ---------------------------------------------------------------------------

  /**
   * What a round does: whether it claims the annotations, and the infos it
   * hands to `processElementInfos`, if it calls it at all.
   */
  datatype Round = Round(claimed: bool, delivered: Option<seq<AnnotatedElementInfo>>)

  /**
   * `process`: without supported annotation types there is nothing to do;
   * otherwise the infos of every annotated element are handed on (an empty
   * list when the types annotate nothing). The annotations are never
   * claimed; an exception while building the infos ends the round.
   */
  function Process(s: Settings, groups: seq<AnnotationGroup>, fieldInfoOf: Element -> FieldInfo): (r: Result<Round>)
    ensures r.Ok? ==> !r.value.claimed
    ensures groups == [] ==> r == Ok(Round(false, None))
    ensures groups != [] ==> (r.Err? <==> ToAnnotatedElementInfos(s, groups, fieldInfoOf).Err?)
    ensures groups != [] && r.Ok? ==> r.value.delivered == Some(ToAnnotatedElementInfos(s, groups, fieldInfoOf).value)
    ensures ElementCount(groups) > 0 && GeneratedSourcesRoot(s.options).Err? ==> r.Err?
    ensures ElementCount(groups) == 0 && groups != [] ==> r == Ok(Round(false, Some([])))
  {
    InfosOfOnePerElement(s, Flatten(groups), fieldInfoOf);
    if groups == [] then Ok(Round(false, None))
    else
      match ToAnnotatedElementInfos(s, groups, fieldInfoOf)
      case Err(x) => Err(x)
      case Ok(infos) => Ok(Round(false, Some(infos)))
  }
}
