/**
 * The element queries of `ProcessingEnvironmentAware` that decide which
 * fields a DTO gets: the getter and setter rules, the superclass hierarchy,
 * the hierarchy member fold, constructor-parameter fields, field
 * descriptors, the base-package filter for copied annotations and the
 * camel-case to snake-case conversion.
 */
module EnvAware {
  import opened Wrappers
  import opened Model
  import opened Text
  import opened Seqs
  import opened LinkedMaps
  import opened ElementInfo
  import GetterAdapter

  /** The types at which the hierarchy walk stops: `Object` and `Any`. */
  const TOP_LEVEL_TYPES: seq<string> := ["java.lang.Object", "kotlin.Any"]
  const NOT_NULL := "org.jetbrains.annotations.NotNull"
  const NO_UPDATE := "com.github.manosbatsis.kotlin.utils.api.NoUpdate"

  // ---------------------------------------------------------------- element rules

  predicate IsInstanceField(e: Element) {
    e.kind == FIELD && !e.isStatic
  }

  /** `fieldsOnly` (after `ElementFilter.fieldsIn`): the non-static fields, in order. */
  function FieldsOnly(es: seq<Element>): (r: seq<Element>)
    ensures IsSubsequence(r, es)
    ensures forall i :: 0 <= i < |r| ==> r[i].kind == FIELD && !r[i].isStatic
    ensures forall i :: 0 <= i < |es| && es[i].kind == FIELD && !es[i].isStatic ==> es[i] in r
  {
    FilterIsSubsequence(es, IsInstanceField);
    Filter(es, IsInstanceField)
  }

  /** A method without parameters named get… (but not `getClass`), or is… returning a boolean. */
  predicate IsGetter(e: Element) {
    e.kind == METHOD && |e.parameters| == 0
    && ((StartsWith(e.name, "get") && e.name != "getClass")
        || (StartsWith(e.name, "is") && e.returnKind == BOOLEAN))
  }

  /** A method with exactly one parameter, returning void, named set…. */
  predicate IsSetter(e: Element) {
    e.kind == METHOD && |e.parameters| == 1 && e.returnKind == VOID && StartsWith(e.name, "set")
  }

  /** A setter whose parameter has the field's type and whose name minus `set`, decapitalised, is the field's name. */
  predicate IsCompatibleSetterFor(setter: Element, field: Element) {
    IsSetter(setter)
    && setter.parameters[0].typeElementName == field.typeElementName
    && field.name == Decapitalize(RemovePrefix(setter.name, "set"))
  }

  /** Every getter by this rule is one by the adapter's own rule, so it has a field name. */
  lemma GetterIsAdapterGetter(e: Element)
    requires IsGetter(e)
    ensures GetterAdapter.IsGetter(e)
    ensures GetterAdapter.GetterToFieldName(e.name).Ok?
  {
    if StartsWith(e.name, "is") {
      assert e.name[0] == 'i' && "getClass"[0] == 'g';
    }
    GetterAdapter.GetterHasFieldName(e);
  }

  /** The adapter's rule is wider: an `is…` method need not return a boolean for it. */
  lemma NonBooleanIsMethodOnlyAdapterGetter(e: Element)
    requires e.kind == METHOD && e.parameters == [] && e.name == "isOpen" && e.returnKind == DECLARED
    ensures GetterAdapter.IsGetter(e) && !IsGetter(e)
  {
    assert e.name[..2] == "is";
    assert e.name[..3] != "get" by { assert e.name[0] != "get"[0]; }
  }

  /** The setter named after a field (`set` plus the capitalised name) is compatible with it. */
  lemma SetterNamedAfterField(setter: Element, field: Element)
    requires setter.kind == METHOD && |setter.parameters| == 1 && setter.returnKind == VOID
    requires setter.name == "set" + Capitalize(field.name)
    requires |field.name| == 0 || !IsUpper(field.name[0])
    requires setter.parameters[0].typeElementName == field.typeElementName
    ensures IsCompatibleSetterFor(setter, field)
  {
    assert StartsWith(setter.name, "set");
    assert RemovePrefix(setter.name, "set") == Capitalize(field.name);
    DecapitalizeCapitalize(field.name);
  }

  /** `hasAnnotation`: the element, or the constructor parameter of its name, carries the annotation. */
  predicate HasAnnotation(e: Element, qualifiedName: string) {
    AnyNamed(e.annotations, qualifiedName) || AnyNamed(e.constructorParameterAnnotations, qualifiedName)
  }

  /** Some annotation in the list has the qualified name. */
  predicate AnyNamed(annotations: seq<AnnotationType>, qualifiedName: string) {
    annotations != [] && (annotations[0].qualifiedName == qualifiedName || AnyNamed(annotations[1..], qualifiedName))
  }

  lemma {:induction false} AnyNamedFinds(annotations: seq<AnnotationType>, qualifiedName: string)
    ensures AnyNamed(annotations, qualifiedName) <==> exists a :: a in annotations && a.qualifiedName == qualifiedName
  {
    if annotations != [] {
      AnyNamedFinds(annotations[1..], qualifiedName);
      assert annotations == [annotations[0]] + annotations[1..];
    }
  }

  /** The field or its constructor parameter carries an annotation of that name. */
  lemma HasAnnotationFinds(e: Element, qualifiedName: string)
    ensures HasAnnotation(e, qualifiedName) <==>
            (exists a :: a in e.annotations && a.qualifiedName == qualifiedName)
            || (exists a :: a in e.constructorParameterAnnotations && a.qualifiedName == qualifiedName)
  {
    AnyNamedFinds(e.annotations, qualifiedName);
    AnyNamedFinds(e.constructorParameterAnnotations, qualifiedName);
  }

  /** `isNullable`: the element's type is not primitive and `@NotNull` is on neither it nor its constructor parameter. */
  predicate IsNullable(e: Element) {
    !e.isPrimitive && !HasAnnotation(e, NOT_NULL)
  }

  /**
   * A primitive is never nullable; any other element is nullable exactly
   * when no `@NotNull` is found on it or on its constructor parameter.
   */
  lemma NullableUnlessPrimitiveOrNotNull(e: Element)
    ensures e.isPrimitive ==> !IsNullable(e)
    ensures !e.isPrimitive ==>
              (IsNullable(e) <==>
                 (forall a :: a in e.annotations ==> a.qualifiedName != NOT_NULL) &&
                 (forall a :: a in e.constructorParameterAnnotations ==> a.qualifiedName != NOT_NULL))
  {
    HasAnnotationFinds(e, NOT_NULL);
  }

  /** `isUpdatable`: the field is not annotated `@NoUpdate`. */
  predicate IsUpdatableElement(e: Element) {
    !HasAnnotation(e, NO_UPDATE)
  }

  // ---------------------------------------------------------------- hierarchy

  /** `Hierarchy(t)` prefixed with `p`, errors passed through. */
  function Prefixed(p: seq<TypeElement>, r: Result<seq<TypeElement>>): Result<seq<TypeElement>> {
    if r.Ok? then Ok(p + r.value) else r
  }

  /**
   * The type and its superclasses, most derived first, up to but excluding
   * `Object` or `Any`. A type without a superclass before that (an
   * interface) makes the cast of the NONE type fail.
   */
  function Hierarchy(t: TypeElement): (r: Result<seq<TypeElement>>)
    ensures t.qualifiedName in TOP_LEVEL_TYPES ==> r == Ok([])
    ensures t.qualifiedName !in TOP_LEVEL_TYPES && t.superclass.None? ==> r == Err(NullCast)
    ensures r.Err? ==> r == Err(NullCast)
    decreases t
  {
    if t.qualifiedName in TOP_LEVEL_TYPES then Ok([])
    else match t.superclass
      case None => Err(NullCast)
      case Some(s) => Prefixed([t], Hierarchy(s))
  }

  /**
   * The hierarchy starts with the type itself, each entry's superclass is
   * the next one, none is `Object` or `Any`, and the last one's superclass
   * is.
   */
  lemma {:induction false} HierarchyChain(t: TypeElement)
    requires Hierarchy(t).Ok?
    ensures var h := Hierarchy(t).value;
            (t.qualifiedName !in TOP_LEVEL_TYPES ==> |h| > 0 && h[0] == t)
            && (forall i :: 0 <= i < |h| ==> h[i].qualifiedName !in TOP_LEVEL_TYPES)
            && (forall i :: 0 <= i < |h| - 1 ==> h[i].superclass == Some(h[i + 1]))
            && (|h| > 0 ==> h[|h| - 1].superclass.Some?
                            && h[|h| - 1].superclass.value.qualifiedName in TOP_LEVEL_TYPES)
    decreases t
  {
    if t.qualifiedName !in TOP_LEVEL_TYPES {
      var s := t.superclass.value;
      HierarchyChain(s);
      var rest := Hierarchy(s).value;
      var h := Hierarchy(t).value;
      assert h == [t] + rest;
      assert forall i :: 1 <= i < |h| ==> h[i] == rest[i - 1];
    }
  }

  lemma PrefixedTwice(a: seq<TypeElement>, b: seq<TypeElement>, r: Result<seq<TypeElement>>)
    ensures Prefixed(a, Prefixed(b, r)) == Prefixed(a + b, r)
  {
    if r.Ok? {
      assert a + (b + r.value) == (a + b) + r.value;
    }
  }

  /** `getTypeElementHierarchy`: the walk up the superclass chain. */
  method GetTypeElementHierarchy(t: TypeElement) returns (r: Result<seq<TypeElement>>)
    ensures r == Hierarchy(t)
  {
    var elements: seq<TypeElement> := [];
    var current := t;
    assert Prefixed([], Hierarchy(t)) == Hierarchy(t) by {
      if Hierarchy(t).Ok? {
        assert [] + Hierarchy(t).value == Hierarchy(t).value;
      }
    }
    while current.qualifiedName !in TOP_LEVEL_TYPES
      invariant Hierarchy(t) == Prefixed(elements, Hierarchy(current))
      decreases current
    {
      ghost var before := elements;
      elements := elements + [current];
      if current.superclass.None? {
        return Err(NullCast);
      }
      PrefixedTwice(before, [current], Hierarchy(current.superclass.value));
      current := current.superclass.value;
    }
    r := Ok(elements);
    assert elements + [] == elements;
  }

  // ---------------------------------------------------------------- member fold

  function ElementName(e: Element): string { e.name }

  /** The members one type contributes: all of them, or its instance fields. */
  function SelectMembers(t: TypeElement, fieldsOnly: bool): seq<Element> {
    if fieldsOnly then FieldsOnly(t.allMembers) else t.allMembers
  }

  function Levels(types: seq<TypeElement>, fieldsOnly: bool): (r: seq<seq<Element>>)
    ensures |r| == |types|
    ensures forall i :: 0 <= i < |types| ==> r[i] == SelectMembers(types[i], fieldsOnly)
  {
    seq(|types|, i requires 0 <= i < |types| => SelectMembers(types[i], fieldsOnly))
  }

  /** Each level's members put in turn into one name-keyed map: later levels overwrite. */
  function Merge(levels: seq<seq<Element>>): (r: LinkedMap<Element>)
    ensures r.Valid()
    decreases |levels|
  {
    if levels == [] then EmptyMap()
    else PutAll(Merge(levels[..|levels| - 1]), levels[|levels| - 1], ElementName)
  }

  /** The last element named `n` in the last level that has one. */
  function LastInLevels(levels: seq<seq<Element>>, n: string): (r: Option<Element>)
    ensures r.Some? ==> r.value.name == n && exists l :: 0 <= l < |levels| && r.value in levels[l]
    ensures r.None? ==> forall l, k :: 0 <= l < |levels| && 0 <= k < |levels[l]| ==> levels[l][k].name != n
    decreases |levels|
  {
    if levels == [] then None
    else
      var last := |levels| - 1;
      match LastWithKey(levels[last], ElementName, n)
      case Some(e) => Some(e)
      case None =>
        var r := LastInLevels(levels[..last], n);
        assert forall l :: 0 <= l < last ==> levels[..last][l] == levels[l];
        r
  }

  /** The fold keeps a name exactly when some level has it, with the member `LastInLevels` picks. */
  lemma {:induction false} MergeValue(levels: seq<seq<Element>>, n: string)
    ensures n in Merge(levels).values <==> LastInLevels(levels, n).Some?
    ensures n in Merge(levels).values ==> Merge(levels).values[n] == LastInLevels(levels, n).value
    decreases |levels|
  {
    if levels != [] {
      var last := |levels| - 1;
      MergeValue(levels[..last], n);
      PutAllValue(Merge(levels[..last]), levels[last], ElementName, n);
    }
  }

  lemma {:induction false} MergeKeyed(levels: seq<seq<Element>>)
    ensures Keyed(Merge(levels), ElementName)
    decreases |levels|
  {
    if levels != [] {
      MergeKeyed(levels[..|levels| - 1]);
      PutAllKeyed(Merge(levels[..|levels| - 1]), levels[|levels| - 1], ElementName);
    }
  }

  /** `getAllMembersForHierarchy` on its result: the merged members from the top superclass down to the type. */
  function AllMembersForHierarchy(t: TypeElement, fieldsOnly: bool): (r: Result<seq<Element>>)
    ensures r.Err? <==> Hierarchy(t).Err?
    ensures r.Err? ==> r.error == NullCast
  {
    match Hierarchy(t)
    case Err(e) => Err(e)
    case Ok(h) => Ok(Values(Merge(Levels(Reverse(h), fieldsOnly))))
  }

  /** No two members of the result share a name. */
  lemma MembersHaveDistinctNames(levels: seq<seq<Element>>)
    ensures var vs := Values(Merge(levels));
            forall i, j :: 0 <= i < j < |vs| ==> vs[i].name != vs[j].name
  {
    MergeKeyed(levels);
  }

  /**
   * A member of the result is, for its name, the last member of that name
   * in the most derived type that has one; and every name of every level
   * appears.
   */
  lemma MostDerivedMemberWins(levels: seq<seq<Element>>, n: string)
    ensures var vs := Values(Merge(levels));
            (exists i :: 0 <= i < |vs| && vs[i].name == n) <==> LastInLevels(levels, n).Some?
    ensures var vs := Values(Merge(levels));
            forall i :: 0 <= i < |vs| && vs[i].name == n ==> vs[i] == LastInLevels(levels, n).value
  {
    var m := Merge(levels);
    MergeValue(levels, n);
    MergeKeyed(levels);
    var vs := Values(m);
    if n in m.values {
      var i :| 0 <= i < |m.keys| && m.keys[i] == n;
      assert vs[i].name == n;
    }
  }

  /**
   * Members are keyed by simple name and every constructor is named
   * `<init>`, so at most one constructor survives the fold.
   */
  lemma AtMostOneConstructor(levels: seq<seq<Element>>)
    requires forall l, k :: 0 <= l < |levels| && 0 <= k < |levels[l]| && levels[l][k].kind == CONSTRUCTOR
               ==> levels[l][k].name == "<init>"
    ensures var vs := Values(Merge(levels));
            forall i, j :: 0 <= i < j < |vs| ==> !(vs[i].kind == CONSTRUCTOR && vs[j].kind == CONSTRUCTOR)
  {
    var m := Merge(levels);
    var vs := Values(m);
    forall i, j | 0 <= i < j < |vs|
      ensures !(vs[i].kind == CONSTRUCTOR && vs[j].kind == CONSTRUCTOR)
    {
      if vs[i].kind == CONSTRUCTOR && vs[j].kind == CONSTRUCTOR {
        ConstructorKey(levels, i);
        ConstructorKey(levels, j);
      }
    }
  }

  /** A constructor in the fold sits under the key `<init>`. */
  lemma ConstructorKey(levels: seq<seq<Element>>, i: nat)
    requires forall l, k :: 0 <= l < |levels| && 0 <= k < |levels[l]| && levels[l][k].kind == CONSTRUCTOR
               ==> levels[l][k].name == "<init>"
    requires i < |Merge(levels).keys|
    requires Values(Merge(levels))[i].kind == CONSTRUCTOR
    ensures Merge(levels).keys[i] == "<init>"
  {
    var m := Merge(levels);
    MergeKeyed(levels);
    MergeValue(levels, m.keys[i]);
    var e := LastInLevels(levels, m.keys[i]).value;
    var l :| 0 <= l < |levels| && e in levels[l];
    var k :| 0 <= k < |levels[l]| && levels[l][k] == e;
  }

  /** One step of the fold over levels: the next type's members put into the map. */
  lemma MergeStep(types: seq<TypeElement>, i: nat, fieldsOnly: bool)
    requires i < |types|
    ensures Merge(Levels(types[..i + 1], fieldsOnly))
            == PutAll(Merge(Levels(types[..i], fieldsOnly)), SelectMembers(types[i], fieldsOnly), ElementName)
  {
    var ls := Levels(types[..i + 1], fieldsOnly);
    assert ls[..i] == Levels(types[..i], fieldsOnly);
  }

  /** One type's members put into the map in order: `v.forEach { (key, value) -> acc[key] = value }`. */
  method PutMembers(acc: LinkedMap<Element>, members: seq<Element>) returns (r: LinkedMap<Element>)
    requires acc.Valid()
    ensures r == PutAll(acc, members, ElementName)
  {
    r := acc;
    var j := 0;
    while j < |members|
      invariant 0 <= j <= |members|
      invariant r == PutAll(acc, members[..j], ElementName)
    {
      assert members[..j + 1][..j] == members[..j];
      r := Put(r, members[j].name, members[j]);
      j := j + 1;
    }
    assert members[..j] == members;
  }

  /** `getAllMembersForHierarchy`: the hierarchy reversed, each type's members put into one linked map. */
  method GetAllMembersForHierarchy(t: TypeElement, fieldsOnly: bool) returns (r: Result<seq<Element>>)
    ensures r == AllMembersForHierarchy(t, fieldsOnly)
  {
    var h := GetTypeElementHierarchy(t);
    if h.Err? {
      return Err(h.error);
    }
    var types := Reverse(h.value);
    var acc: LinkedMap<Element> := EmptyMap();
    var i := 0;
    while i < |types|
      invariant 0 <= i <= |types|
      invariant acc == Merge(Levels(types[..i], fieldsOnly))
    {
      MergeStep(types, i, fieldsOnly);
      acc := PutMembers(acc, SelectMembers(types[i], fieldsOnly));
      i := i + 1;
    }
    assert types[..i] == types;
    r := Ok(Values(acc));
  }

  // ---------------------------------------------------------------- fields

  /** The getters among `es` as fields, each adapter seeing `all` as its fellow members. */
  function AdaptGetters(es: seq<Element>, all: seq<Element>): (r: seq<Element>)
    ensures |r| <= |es|
    ensures forall i :: 0 <= i < |r| ==> r[i].kind == FIELD && r[i].parameters == []
    ensures forall j :: 0 <= j < |es| && IsGetter(es[j]) ==>
              Ok(AdaptedGetter(es[j], all).fieldName) == GetterAdapter.GetterToFieldName(es[j].name)
              && AdaptedGetter(es[j], all).AsElement() in r
    ensures (forall j :: 0 <= j < |es| ==> !IsGetter(es[j])) <==> r == []
    decreases |es|
  {
    if es == [] then []
    else
      var rest := AdaptGetters(es[1..], all);
      assert forall j :: 1 <= j < |es| ==> es[j] == es[1..][j - 1];
      if IsGetter(es[0]) then
        GetterIsAdapterGetter(es[0]);
        [AdaptedGetter(es[0], all).AsElement()] + rest
      else rest
  }

  /** The adapter `GetterAsFieldAdapter(getter, false, all)`. */
  function AdaptedGetter(getter: Element, all: seq<Element>): (r: GetterAdapter.GetterAsFieldAdapter)
    requires IsGetter(getter)
    ensures r.actual == getter && !r.reportOriginalKind && r.allElements == all
    ensures Ok(r.fieldName) == GetterAdapter.GetterToFieldName(getter.name)
  {
    GetterIsAdapterGetter(getter);
    GetterAdapter.GetterAsFieldAdapter(getter, false, all, GetterAdapter.GetterToFieldName(getter.name).value)
  }

  /**
   * `getFieldsOnlyForHierarchy`: for an interface, when asked, its getters
   * adapted as fields; otherwise the instance fields of the hierarchy.
   */
  function FieldsOnlyForHierarchy(t: TypeElement, adaptInterfaceGetters: bool): (r: Result<seq<Element>>)
    ensures r.Err? <==> Hierarchy(t).Err?
    ensures r.Ok? && !(adaptInterfaceGetters && t.kind == INTERFACE) ==>
              r == AllMembersForHierarchy(t, true)
    ensures r.Ok? && adaptInterfaceGetters && t.kind == INTERFACE ==>
              r.value == AdaptGetters(AllMembersForHierarchy(t, false).value, AllMembersForHierarchy(t, false).value)
  {
    if adaptInterfaceGetters && t.kind == INTERFACE then
      match AllMembersForHierarchy(t, false)
      case Err(e) => Err(e)
      case Ok(all) => Ok(AdaptGetters(all, all))
    else AllMembersForHierarchy(t, true)
  }

  /** `getSettersForHierarchy`: the setters among the hierarchy's members. */
  function SettersForHierarchy(t: TypeElement): (r: Result<seq<Element>>)
    ensures r.Err? <==> Hierarchy(t).Err?
    ensures r.Ok? ==> IsSubsequence(r.value, AllMembersForHierarchy(t, false).value)
    ensures r.Ok? ==> forall i :: 0 <= i < |r.value| ==> IsSetter(r.value[i])
  {
    match AllMembersForHierarchy(t, false)
    case Err(e) => Err(e)
    case Ok(all) =>
      FilterIsSubsequence(all, IsSetter);
      Ok(Filter(all, IsSetter))
  }

  predicate IsAccessibleParameter(p: Element) {
    PRIVATE !in p.modifiers && PROTECTED !in p.modifiers
  }

  /** Names of the parameters, neither private nor protected, of the constructors among `all`. */
  function ConstructorParamNames(all: seq<Element>): set<string> {
    set i, j | 0 <= i < |all| && all[i].kind == CONSTRUCTOR && 0 <= j < |all[i].parameters|
                 && IsAccessibleParameter(all[i].parameters[j]) :: all[i].parameters[j].name
  }

  /** Some constructor parameter name does not look compiler-generated (`arg0`, `arg1`, …). */
  predicate HasRealParamNames(names: set<string>) {
    exists n :: n in names && !StartsWith(n, "arg")
  }

  /**
   * `accessibleConstructorParameterFields`: for a field-less interface,
   * when asked, its getters adapted as fields; otherwise the hierarchy's
   * fields named like an accessible constructor parameter, or all of them
   * when those names look compiler-generated.
   */
  function AccessibleConstructorParameterFields(t: TypeElement, adaptInterfaceGetters: bool): (r: Result<seq<Element>>)
    ensures r.Err? <==> Hierarchy(t).Err?
  {
    match AllMembersForHierarchy(t, false)
    case Err(e) => Err(e)
    case Ok(all) =>
      var fields := AllMembersForHierarchy(t, true).value;
      if |fields| == 0 && adaptInterfaceGetters && t.kind == INTERFACE then Ok(AdaptGetters(all, all))
      else
        var names := ConstructorParamNames(all);
        if HasRealParamNames(names) then Ok(Filter(fields, (f: Element) => f.name in names))
        else Ok(fields)
  }

  /**
   * Outside the interface case, the constructor fields are the hierarchy's
   * fields named like a constructor parameter, kept in order, unless no
   * parameter name is real, in which case no field is dropped.
   */
  lemma ConstructorFieldsRule(t: TypeElement, adaptInterfaceGetters: bool)
    requires Hierarchy(t).Ok?
    ensures var all := AllMembersForHierarchy(t, false).value;
            var fields := AllMembersForHierarchy(t, true).value;
            var names := ConstructorParamNames(all);
            var r := AccessibleConstructorParameterFields(t, adaptInterfaceGetters).value;
            !(|fields| == 0 && adaptInterfaceGetters && t.kind == INTERFACE) ==>
              (HasRealParamNames(names) ==>
                 IsSubsequence(r, fields)
                 && (forall i :: 0 <= i < |r| ==> r[i].name in names)
                 && (forall i :: 0 <= i < |fields| && fields[i].name in names ==> fields[i] in r))
              && (!HasRealParamNames(names) ==> r == fields)
  {
    var all := AllMembersForHierarchy(t, false).value;
    var fields := AllMembersForHierarchy(t, true).value;
    var names := ConstructorParamNames(all);
    FilterIsSubsequence(fields, (f: Element) => f.name in names);
  }

  /** The descriptor `getFieldInfos` builds for one field. */
  function FieldInfoFor(t: TypeElement, outOfAnnotationScope: bool, constructorFields: seq<Element>,
                        setters: seq<Element>, f: Element): FieldInfo
  {
    FieldInfo(
      variableElement := f,
      isInAnnotationScope := !outOfAnnotationScope,
      isUpdatable := IsUpdatableElement(f),
      isMutableVariable := (!t.isKotlin && PUBLIC in f.modifiers)
                           || (exists s :: s in setters && IsCompatibleSetterFor(s, f)),
      // Interface fields are adapters created afresh on each call, which
      // compare by identity: they are never found among the constructor fields.
      isConstructorParam := t.kind != INTERFACE && f in constructorFields,
      isConstructorSource := false)
  }

  /** `getFieldInfos(typeElement, outOfAnnotationScope)`. */
  function GetFieldInfos(t: TypeElement, outOfAnnotationScope: bool): (r: Result<seq<FieldInfo>>)
    ensures r.Err? <==> Hierarchy(t).Err?
    ensures r.Ok? ==>
              var fields := FieldsOnlyForHierarchy(t, true).value;
              |r.value| == |fields|
              && forall i :: 0 <= i < |fields| ==>
                   var fi := r.value[i];
                   fi.variableElement == fields[i]
                   && fi.isInAnnotationScope == !outOfAnnotationScope
                   && (fi.isUpdatable <==> !HasAnnotation(fields[i], NO_UPDATE))
                   && (fi.isMutableVariable <==>
                         (!t.isKotlin && PUBLIC in fields[i].modifiers)
                         || exists s :: s in SettersForHierarchy(t).value && IsCompatibleSetterFor(s, fields[i]))
                   && (fi.isConstructorParam <==>
                         t.kind != INTERFACE && fields[i] in AccessibleConstructorParameterFields(t, true).value)
                   && !fi.isConstructorSource
  {
    match FieldsOnlyForHierarchy(t, true)
    case Err(e) => Err(e)
    case Ok(allFields) =>
      var constructorFields := AccessibleConstructorParameterFields(t, true).value;
      var setters := SettersForHierarchy(t).value;
      Ok(Map(allFields, f => FieldInfoFor(t, outOfAnnotationScope, constructorFields, setters, f)))
  }

  /**
   * `getFieldInfos(executableElement)`: the container's fields, out of
   * scope, except those named like a parameter of the ctor, which
   * are in scope and marked as constructor sources.
   */
  function GetFieldInfosForConstructor(ctor: Element, container: TypeElement): (r: Result<seq<FieldInfo>>)
    ensures r.Err? <==> Hierarchy(container).Err?
    ensures r.Ok? ==>
              var base := GetFieldInfos(container, true).value;
              |r.value| == |base|
              && forall i :: 0 <= i < |base| ==>
                   var named := exists p :: p in ctor.parameters && p.name == base[i].SimpleName();
                   (named ==> r.value[i] == base[i].(isInAnnotationScope := true, isConstructorSource := true))
                   && (!named ==> r.value[i] == base[i])
  {
    match GetFieldInfos(container, true)
    case Err(e) => Err(e)
    case Ok(elementFields) =>
      var names := set p | p in ctor.parameters :: p.name;
      Ok(Map(elementFields, (field: FieldInfo) =>
        if field.SimpleName() in names then field.(isInAnnotationScope := true, isConstructorSource := true)
        else field))
  }

  /** Through a ctor, a field is in scope exactly when a parameter has its name, and then it is a constructor source. */
  lemma ConstructorScope(ctor: Element, container: TypeElement, i: nat)
    requires GetFieldInfosForConstructor(ctor, container).Ok?
    requires i < |GetFieldInfosForConstructor(ctor, container).value|
    ensures var fi := GetFieldInfosForConstructor(ctor, container).value[i];
            (fi.isInAnnotationScope <==> exists p :: p in ctor.parameters && p.name == fi.SimpleName())
            && (fi.isConstructorSource <==> fi.isInAnnotationScope)
  {
    var base := GetFieldInfos(container, true).value;
    assert !base[i].isInAnnotationScope && !base[i].isConstructorSource;
  }

  // ---------------------------------------------------------------- annotations

  /** Some base package is a string prefix of the package name. */
  predicate HasBasePackage(basePackages: seq<string>, packageName: string) {
    exists i :: 0 <= i < |basePackages| && StartsWith(packageName, basePackages[i])
  }

  /** `hasBasePackageOf`: the first base package that prefixes the name returns true. */
  method HasBasePackageOf(basePackages: seq<string>, packageName: string) returns (r: bool)
    ensures r <==> HasBasePackage(basePackages, packageName)
  {
    for i := 0 to |basePackages|
      invariant forall k :: 0 <= k < i ==> !StartsWith(packageName, basePackages[k])
    {
      if StartsWith(packageName, basePackages[i]) {
        return true;
      }
    }
    return false;
  }

  /**
   * The match is on characters, not package segments: a listed base is a base
   * of every name that continues it (`com.foo` of `com.foobar` as well as of
   * `com.foo.api`); no list of bases matches nothing, and more bases only
   * widen the match.
   */
  lemma BasePackageIsStringPrefix(basePackages: seq<string>, base: string, rest: string, more: seq<string>)
    requires base in basePackages
    ensures HasBasePackage(basePackages, base + rest)
    ensures !HasBasePackage([], base + rest)
    ensures forall p :: HasBasePackage(basePackages, p) ==> HasBasePackage(basePackages + more, p)
  {
    var i :| 0 <= i < |basePackages| && basePackages[i] == base;
    assert (base + rest)[..|base|] == base;
    assert StartsWith(base + rest, basePackages[i]);
    forall p | HasBasePackage(basePackages, p)
      ensures HasBasePackage(basePackages + more, p)
    {
      var k :| 0 <= k < |basePackages| && StartsWith(p, basePackages[k]);
      assert (basePackages + more)[k] == basePackages[k];
    }
  }

  /** An empty base package matches every package. */
  lemma EmptyBasePackageMatchesAll(basePackages: seq<string>, packageName: string)
    requires "" in basePackages
    ensures HasBasePackage(basePackages, packageName)
  {
    var i :| 0 <= i < |basePackages| && basePackages[i] == "";
    assert StartsWith(packageName, basePackages[i]);
  }

  /** The base packages tried in order, as `any { … }` does. */
  predicate PrefixedByAny(basePackages: seq<string>, packageName: string) {
    basePackages != [] && (StartsWith(packageName, basePackages[0]) || PrefixedByAny(basePackages[1..], packageName))
  }

  lemma {:induction false} PrefixedByAnyHasBase(basePackages: seq<string>, packageName: string)
    ensures PrefixedByAny(basePackages, packageName) <==> HasBasePackage(basePackages, packageName)
  {
    if basePackages != [] {
      PrefixedByAnyHasBase(basePackages[1..], packageName);
      if HasBasePackage(basePackages, packageName) && !StartsWith(packageName, basePackages[0]) {
        var i :| 0 <= i < |basePackages| && StartsWith(packageName, basePackages[i]);
        assert basePackages[i] == basePackages[1..][i - 1];
      }
      if HasBasePackage(basePackages[1..], packageName) {
        var i :| 0 <= i < |basePackages[1..]| && StartsWith(packageName, basePackages[1..][i]);
        assert basePackages[1..][i] == basePackages[i + 1];
      }
    }
  }

  /** The annotations whose package has one of the bases, in order. */
  function AnnotationsWithBasePackage(annotations: seq<AnnotationType>, basePackages: seq<string>): seq<AnnotationType> {
    if annotations == [] then []
    else
      var rest := AnnotationsWithBasePackage(annotations[1..], basePackages);
      if PrefixedByAny(basePackages, annotations[0].packageName) then [annotations[0]] + rest else rest
  }

  /** The kept annotations are, in order, exactly those with a base package. */
  lemma {:induction false} AnnotationsWithBasePackageKeeps(annotations: seq<AnnotationType>, basePackages: seq<string>)
    ensures var r := AnnotationsWithBasePackage(annotations, basePackages);
            IsSubsequence(r, annotations) &&
            (forall i :: 0 <= i < |r| ==> HasBasePackage(basePackages, r[i].packageName)) &&
            (forall i :: 0 <= i < |annotations| && HasBasePackage(basePackages, annotations[i].packageName)
               ==> annotations[i] in r)
  {
    forall pkg: string
      ensures PrefixedByAny(basePackages, pkg) <==> HasBasePackage(basePackages, pkg)
    {
      PrefixedByAnyHasBase(basePackages, pkg);
    }
    if annotations != [] {
      AnnotationsWithBasePackageKeeps(annotations[1..], basePackages);
      var rest := AnnotationsWithBasePackage(annotations[1..], basePackages);
      var r := AnnotationsWithBasePackage(annotations, basePackages);
      if HasBasePackage(basePackages, annotations[0].packageName) {
        assert r[1..] == rest;
        forall i | 0 <= i < |r|
          ensures HasBasePackage(basePackages, r[i].packageName)
        {
          if i > 0 {
            assert r[i] == rest[i - 1];
          }
        }
      }
      forall i | 0 <= i < |annotations| && HasBasePackage(basePackages, annotations[i].packageName)
        ensures annotations[i] in r
      {
        if i > 0 {
          assert annotations[i] == annotations[1..][i - 1];
        }
      }
    }
  }

  /** `filterAnnotationsByBasePackage` on a member element. */
  function FilterAnnotationsByBasePackage(source: Element, basePackages: seq<string>): seq<AnnotationType> {
    AnnotationsWithBasePackage(source.annotations, basePackages)
  }

  /** `getStringValuesList`: the string list member of the annotation, or an empty list. */
  function GetStringValuesList(annotation: Option<AnnotationMirror>, memberName: string): (r: seq<string>)
    ensures annotation.None? ==> r == []
    ensures annotation.Some? && memberName in annotation.value.stringListValues ==>
              r == annotation.value.stringListValues[memberName]
    ensures annotation.Some? && memberName !in annotation.value.stringListValues ==> r == []
  {
    if annotation.Some? && memberName in annotation.value.stringListValues
    then annotation.value.stringListValues[memberName] else []
  }

  // ---------------------------------------------------------------- camel case

  /** The pattern `(?<=[a-z])[A-Z]` matches at `i`: an upper-case letter after a lower-case one. */
  predicate CamelBoundary(d: string, i: int) {
    0 < i < |d| && IsUpper(d[i]) && IsLower(d[i - 1])
  }

  /** `Matcher.find` from `from`: the first match at or after it. */
  function NextBoundary(d: string, from: nat): (r: Option<nat>)
    requires from <= |d|
    ensures r.Some? ==> from <= r.value < |d| && CamelBoundary(d, r.value)
                        && forall k :: from <= k < r.value ==> !CamelBoundary(d, k)
    ensures r.None? ==> forall k :: from <= k < |d| ==> !CamelBoundary(d, k)
    decreases |d| - from
  {
    if from == |d| then None
    else if CamelBoundary(d, from) then Some(from)
    else NextBoundary(d, from + 1)
  }

  /** What character `i` becomes: `_` and its lower case at a match, itself elsewhere. */
  function Piece(d: string, i: nat): string
    requires i < |d|
  {
    if CamelBoundary(d, i) then "_" + [ToLower(d[i])] else [d[i]]
  }

  /** The first `n` characters of `d`, converted. */
  function Underscored(d: string, n: nat): string
    requires n <= |d|
  {
    if n == 0 then "" else Underscored(d, n - 1) + Piece(d, n - 1)
  }

  /** The converted string: the decapitalised input with an underscore before each lower-to-upper step. */
  function CamelToUnderscored(s: string): string {
    Underscored(Decapitalize(s), |s|)
  }

  /** Where nothing matches, the characters are copied unchanged. */
  lemma {:induction false} UnderscoredPlain(d: string, a: nat, b: nat)
    requires a <= b <= |d|
    requires forall k :: a <= k < b ==> !CamelBoundary(d, k)
    ensures Underscored(d, b) == Underscored(d, a) + d[a..b]
    decreases b - a
  {
    if a < b {
      UnderscoredPlain(d, a, b - 1);
      assert d[a..b] == d[a..b - 1] + [d[b - 1]];
    }
  }

  /** `camelToUnderscores`: find each match, append the text before it and its replacement, then the tail. */
  method CamelToUnderscores(s: string) returns (r: string)
    ensures r == CamelToUnderscored(s)
  {
    var d := Decapitalize(s);
    var sb := "";
    var last := 0;
    var m := NextBoundary(d, 0);
    while m.Some?
      invariant last <= |d|
      invariant m == NextBoundary(d, last)
      invariant sb == Underscored(d, last)
      decreases |d| - last
    {
      var i := m.value;
      UnderscoredPlain(d, last, i);
      assert Underscored(d, i + 1) == Underscored(d, i) + ("_" + [ToLower(d[i])]);
      sb := sb + d[last..i] + ("_" + [ToLower(d[i])]);
      last := i + 1;
      m := NextBoundary(d, last);
    }
    UnderscoredPlain(d, last, |d|);
    r := sb + d[last..];
  }

  /** Without a lower-to-upper step the conversion only decapitalises. */
  lemma NoBoundaryOnlyDecapitalizes(s: string)
    requires forall k :: 0 <= k < |s| ==> !CamelBoundary(Decapitalize(s), k)
    ensures CamelToUnderscored(s) == Decapitalize(s)
  {
    UnderscoredPlain(Decapitalize(s), 0, |s|);
  }

  /** The look-behind reads the input, so of two capitals in a row only the first gets an underscore. */
  lemma CamelExamples()
    ensures CamelToUnderscored("fooBar") == "foo_bar"
    ensures CamelToUnderscored("aBC") == "a_bC"
  {
    var d := "fooBar";
    assert Decapitalize(d) == d;
    UnderscoredPlain(d, 0, 3);
    assert CamelBoundary(d, 3) && ToLower('B') == 'b';
    UnderscoredPlain(d, 4, 6);
    var e := "aBC";
    assert Decapitalize(e) == e;
    assert CamelBoundary(e, 1) && ToLower('B') == 'b' && !CamelBoundary(e, 2);
  }
}
