/** What the processor knows about one annotated element and its fields. */
module ElementInfo {
  import opened Wrappers
  import opened Model
  import opened CodeSpec

  /**
   * A field of the annotated type as the generator sees it: the wrapped
   * variable element and the flags the processor computed for it.
   */
  datatype FieldInfo = FieldInfo(
    variableElement: Element,
    isInAnnotationScope: bool,
    isUpdatable: bool,
    isMutableVariable: bool,
    isConstructorParam: bool,
    isConstructorSource: bool)
  {
    /** The field's name is its variable element's simple name. */
    function SimpleName(): string { variableElement.name }
  }

  /** Settings of the generated `toTargetType` function. */
  datatype ToTargetTypeFunctionConfig = ToTargetTypeFunctionConfig(
    skip: bool,
    patchStatements: bool,
    name: string,
    params: seq<ParameterSpec>,
    targetTypeNameOverride: Option<TypeName>)

  /** The configuration's defaults: generate the function, named "toTargetType", without parameters. */
  const DefaultToTargetTypeFunctionConfig: ToTargetTypeFunctionConfig :=
    ToTargetTypeFunctionConfig(false, false, "toTargetType", [], None)

  /**
   * `SimpleAnnotatedElementInfo`: the annotation, the primary (target) type,
   * the optional secondary and mixin types with their fields, and the options
   * read from the annotation.
   */
  datatype AnnotatedElementInfo = AnnotatedElementInfo(
    annotation: AnnotationMirror,
    primary: TypeElement,
    primaryFields: seq<FieldInfo>,
    secondary: Option<TypeElement>,
    secondaryFields: seq<FieldInfo>,
    mixin: Option<TypeElement>,
    mixinFields: seq<FieldInfo>,
    copyAnnotationPackages: seq<string>,
    ignoreProperties: seq<string>,
    nonUpdatableProperties: seq<string>,
    generatedPackageName: string,
    primarySimpleName: string,
    secondarySimpleName: Option<string>,
    mixinSimpleName: Option<string>,
    overrideClassNameSuffix: Option<string>,
    overrideClassName: Option<string>,
    overrideDtoInterface: Option<string>,
    toTargetTypeFunctionConfig: ToTargetTypeFunctionConfig,
    isNonDataClass: bool)
  {
    /**
     * A field is updatable when its own flag says so and its name is not
     * listed among the non-updatable properties.
     */
    predicate IsUpdatable(f: FieldInfo) {
      f.isUpdatable && f.SimpleName() !in nonUpdatableProperties
    }

    /** Patching needs a new instance when some in-scope primary field is immutable. */
    predicate UpdateRequiresNewInstance() {
      HasInScopeImmutable(primaryFields)
    }
  }

  /**
   * The non-updatable list can only take updatability away: a field is
   * updatable only if its own flag says so, listing more names never makes
   * a field updatable, and with an empty list the field's flag decides.
   */
  lemma NonUpdatableOnlyNarrows(info: AnnotatedElementInfo, f: FieldInfo, more: seq<string>)
    ensures info.IsUpdatable(f) ==> f.isUpdatable
    ensures info.(nonUpdatableProperties := info.nonUpdatableProperties + more).IsUpdatable(f) ==> info.IsUpdatable(f)
    ensures info.nonUpdatableProperties == [] ==> (info.IsUpdatable(f) <==> f.isUpdatable)
    ensures f.SimpleName() in info.nonUpdatableProperties ==> !info.IsUpdatable(f)
  {
    var wider := info.(nonUpdatableProperties := info.nonUpdatableProperties + more);
    if f.SimpleName() in info.nonUpdatableProperties {
      assert f.SimpleName() in wider.nonUpdatableProperties;
    }
  }

  /** `find { inScope && !mutable } != null`. */
  predicate HasInScopeImmutable(fields: seq<FieldInfo>) {
    if fields == [] then false
    else if fields[0].isInAnnotationScope && !fields[0].isMutableVariable then true
    else HasInScopeImmutable(fields[1..])
  }

  /** The search answers yes exactly when some field is in scope and immutable. */
  lemma {:induction false} HasInScopeImmutableFinds(fields: seq<FieldInfo>)
    ensures HasInScopeImmutable(fields) <==>
            exists i :: 0 <= i < |fields| && fields[i].isInAnnotationScope && !fields[i].isMutableVariable
  {
    if fields != [] {
      HasInScopeImmutableFinds(fields[1..]);
      assert forall i :: 1 <= i < |fields| ==> fields[i] == fields[1..][i - 1];
    }
  }

  /** Patching needs a new instance exactly when some in-scope primary field is immutable. */
  lemma UpdateRequiresNewInstanceFinds(info: AnnotatedElementInfo)
    ensures info.UpdateRequiresNewInstance() <==>
            exists i :: 0 <= i < |info.primaryFields| && info.primaryFields[i].isInAnnotationScope
                        && !info.primaryFields[i].isMutableVariable
  {
    HasInScopeImmutableFinds(info.primaryFields);
  }

  /**
   * Kotlin's `x?.simpleName.toString()`: the simple name of a present type,
   * and the four-letter string "null" for a missing one.
   */
  function SimpleNameOrNullString(t: Option<TypeElement>): (r: string)
    ensures t.Some? ==> r == t.value.simpleName
    ensures t.None? ==> r == "null"
  {
    match t
    case None => "null"
    case Some(te) => te.simpleName
  }

  const SAME_TYPES_MESSAGE: string := "Primary and secondary target types cannot be the same"

  /**
   * The data class constructor with its defaults: the three simple names
   * taken from the types, no overrides and the default target-type function
   * configuration; its `init` check rejects equal primary and secondary
   * simple names.
   */
  function NewAnnotatedElementInfo(
    annotation: AnnotationMirror,
    primary: TypeElement, primaryFields: seq<FieldInfo>,
    secondary: Option<TypeElement>, secondaryFields: seq<FieldInfo>,
    mixin: Option<TypeElement>, mixinFields: seq<FieldInfo>,
    copyAnnotationPackages: seq<string>, ignoreProperties: seq<string>,
    nonUpdatableProperties: seq<string>, generatedPackageName: string,
    isNonDataClass: bool): (r: Result<AnnotatedElementInfo>)
    ensures r.Err? <==> primary.simpleName == SimpleNameOrNullString(secondary)
    ensures r.Err? ==> r.error == IllegalArgument(SAME_TYPES_MESSAGE)
    ensures r.Ok? ==> (r.value.primary == primary && r.value.primaryFields == primaryFields
      && r.value.secondary == secondary && r.value.mixin == mixin
      && r.value.mixinFields == mixinFields && r.value.secondaryFields == secondaryFields
      && r.value.copyAnnotationPackages == copyAnnotationPackages
      && r.value.ignoreProperties == ignoreProperties
      && r.value.nonUpdatableProperties == nonUpdatableProperties
      && r.value.generatedPackageName == generatedPackageName
      && r.value.primarySimpleName == primary.simpleName
      && r.value.secondarySimpleName == Some(SimpleNameOrNullString(secondary))
      && r.value.mixinSimpleName == Some(SimpleNameOrNullString(mixin))
      && r.value.overrideClassNameSuffix.None? && r.value.overrideClassName.None?
      && r.value.overrideDtoInterface.None?
      && r.value.toTargetTypeFunctionConfig == DefaultToTargetTypeFunctionConfig
      && r.value.isNonDataClass == isNonDataClass)
  {
    Checked(AnnotatedElementInfo(annotation, primary, primaryFields, secondary, secondaryFields,
      mixin, mixinFields, copyAnnotationPackages, ignoreProperties, nonUpdatableProperties,
      generatedPackageName, primary.simpleName, Some(SimpleNameOrNullString(secondary)),
      Some(SimpleNameOrNullString(mixin)), None, None, None, DefaultToTargetTypeFunctionConfig,
      isNonDataClass))
  }

  /** The `init` block: an info is built unless its primary and secondary simple names are equal. */
  function Checked(info: AnnotatedElementInfo): (r: Result<AnnotatedElementInfo>)
    ensures r.Err? <==> info.secondarySimpleName == Some(info.primarySimpleName)
    ensures r.Err? ==> r.error == IllegalArgument(SAME_TYPES_MESSAGE)
    ensures r.Ok? ==> r.value == info
  {
    if Some(info.primarySimpleName) == info.secondarySimpleName
    then Err(IllegalArgument(SAME_TYPES_MESSAGE))
    else Ok(info)
  }

  /**
   * Without a secondary type the defaulted secondary simple name is "null",
   * so a primary type whose simple name is "null" is rejected.
   */
  lemma NullNamedPrimaryRejected(
    annotation: AnnotationMirror, primary: TypeElement, primaryFields: seq<FieldInfo>,
    mixin: Option<TypeElement>, mixinFields: seq<FieldInfo>,
    copyAnnotationPackages: seq<string>, ignoreProperties: seq<string>,
    nonUpdatableProperties: seq<string>, generatedPackageName: string, isNonDataClass: bool)
    requires primary.simpleName == "null"
    ensures NewAnnotatedElementInfo(annotation, primary, primaryFields, None, [], mixin, mixinFields,
      copyAnnotationPackages, ignoreProperties, nonUpdatableProperties, generatedPackageName,
      isNonDataClass).Err?
  {
  }

  /**
   * Only in-scope fields decide whether patching needs a new instance:
   * adding out-of-scope fields or mutable fields never changes the answer.
   */
  lemma {:induction false} NewInstanceIgnoresOutOfScopeAndMutable(fields: seq<FieldInfo>, extra: seq<FieldInfo>)
    requires forall j :: 0 <= j < |extra| ==> !extra[j].isInAnnotationScope || extra[j].isMutableVariable
    ensures HasInScopeImmutable(fields + extra) == HasInScopeImmutable(fields)
  {
    var all := fields + extra;
    HasInScopeImmutableFinds(all);
    HasInScopeImmutableFinds(fields);
    if HasInScopeImmutable(all) {
      var i :| 0 <= i < |all| && all[i].isInAnnotationScope && !all[i].isMutableVariable;
      if i < |fields| {
        assert all[i] == fields[i];
      }
    }
    if HasInScopeImmutable(fields) {
      var i :| 0 <= i < |fields| && fields[i].isInAnnotationScope && !fields[i].isMutableVariable;
      assert all[i] == fields[i];
    }
  }
}
