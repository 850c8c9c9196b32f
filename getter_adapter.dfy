/** A getter method seen as a field: `GetterAsFieldAdapter`. */
module GetterAdapter {
  import opened Wrappers
  import opened Model
  import opened Text

  /** The adapter's own getter rule: no parameters, named get… or is…, and not `getClass`. */
  predicate IsGetter(e: Element) {
    e.kind == METHOD && |e.parameters| == 0
    && (StartsWith(e.name, "get") || StartsWith(e.name, "is"))
    && e.name != "getClass"
  }

  /**
   * The field name of a getter: the method name without its `is` (two
   * characters) or, for any other name, its first three characters,
   * decapitalised as JavaBeans does. A name shorter than three characters
   * that does not start with `is` makes the substring fail.
   */
  function GetterToFieldName(methodName: string): (r: Result<string>)
    ensures StartsWith(methodName, "is") ==> r == Ok(IntrospectorDecapitalize(methodName[2..]))
    ensures !StartsWith(methodName, "is") && |methodName| >= 3 ==> r == Ok(IntrospectorDecapitalize(methodName[3..]))
    ensures r.Err? <==> !StartsWith(methodName, "is") && |methodName| < 3
  {
    if StartsWith(methodName, "is") then Ok(IntrospectorDecapitalize(methodName[2..]))
    else if |methodName| < 3 then Err(IndexOutOfBounds)
    else Ok(IntrospectorDecapitalize(methodName[3..]))
  }

  /** JavaBeans naming: `getName` is the field `name`, `getURL` the field `URL`, `isActive` the field `active`. */
  lemma GetterNameExamples()
    ensures GetterToFieldName("getName") == Ok("name")
    ensures GetterToFieldName("getURL") == Ok("URL")
    ensures GetterToFieldName("isActive") == Ok("active")
    ensures GetterToFieldName("get") == Ok("")
    ensures GetterToFieldName("go").Err?
  {
    assert "getName"[0] != "is"[0] && "getName"[3..] == "Name";
    assert ToLower('N') == 'n' && IntrospectorDecapitalize("Name") == [ToLower('N')] + "ame";
    assert ['n'] + "ame" == "name";
    assert "getURL"[0] != "is"[0] && "getURL"[3..] == "URL";
    assert "isActive"[..2] == "is" && "isActive"[2..] == "Active";
    assert ToLower('A') == 'a' && IntrospectorDecapitalize("Active") == [ToLower('A')] + "ctive";
    assert ['a'] + "ctive" == "active";
    assert "get"[0] != "is"[0] && "get"[3..] == "";
    assert "go"[1] != "is"[1];
  }

  /** The field name of a getter (either rule) is always defined. */
  lemma GetterHasFieldName(e: Element)
    requires IsGetter(e)
    ensures GetterToFieldName(e.name).Ok?
  {
  }

  datatype GetterAsFieldAdapter = GetterAsFieldAdapter(
    actual: Element,
    reportOriginalKind: bool,
    allElements: seq<Element>,
    fieldName: string)
  {
    /** The adapter reports the getter's return type as its type. */
    function AsType(): string { actual.returnTypeName }

    /** A field, unless asked to report the method's own kind. */
    function Kind(): (r: ElementKind)
      ensures !reportOriginalKind ==> r == FIELD
      ensures reportOriginalKind ==> r == actual.kind
    {
      if reportOriginalKind then actual.kind else FIELD
    }

    /** The adapter has no enclosed elements and no constant value. */
    function EnclosedElements(): (r: seq<Element>)
      ensures r == []
    {
      []
    }

    function ConstantValue(): (r: Option<string>)
      ensures r.None?
    {
      None
    }

    /**
     * The `mutable` flag as written: whether some element is named like the
     * setter — but the name compared is the adapter's own simple name,
     * which is the field name, not the element's.
     */
    predicate MutableAsWritten() {
      exists el :: el in allElements && fieldName == "set" + Capitalize(fieldName)
    }

    /** The evidently intended flag: some element is the field's setter by name. */
    predicate MutableIntended() {
      exists el :: el in allElements && el.name == "set" + Capitalize(fieldName)
    }

    /**
     * The adapter as a variable element: named after the field, typed by the
     * getter's return type; every other property, `isPrimitive` and
     * `isIterable` included, is the getter's as recorded.
     */
    function AsElement(): (r: Element)
      ensures r.name == fieldName && r.kind == Kind() && r.typeName == actual.returnTypeName
      ensures r.typeElementName == actual.returnTypeName
      ensures r.modifiers == actual.modifiers && r.annotations == actual.annotations
      ensures r.parameters == []
    {
      actual.(kind := Kind(), name := fieldName, typeName := actual.returnTypeName,
              typeElementName := actual.returnTypeName, parameters := [])
    }
  }

  /** The adapter's constructor: it derives the field name from the getter's name. */
  function NewAdapter(actual: Element, reportOriginalKind: bool, allElements: seq<Element>): (r: Result<GetterAsFieldAdapter>)
    ensures GetterToFieldName(actual.name).Err? <==> r.Err?
    ensures r.Ok? ==> r.value.actual == actual && r.value.fieldName == GetterToFieldName(actual.name).value
                      && r.value.reportOriginalKind == reportOriginalKind && r.value.allElements == allElements
  {
    match GetterToFieldName(actual.name)
    case Err(e) => Err(e)
    case Ok(n) => Ok(GetterAsFieldAdapter(actual, reportOriginalKind, allElements, n))
  }

  /** `fromGetterOrNull`: an adapter, with no other elements, for a getter; nothing otherwise. */
  function FromGetterOrNull(e: Element): (r: Option<GetterAsFieldAdapter>)
    ensures r.Some? <==> IsGetter(e)
    ensures r.Some? ==> r.value.actual == e && !r.value.reportOriginalKind && r.value.allElements == []
                        && Ok(r.value.fieldName) == GetterToFieldName(e.name)
  {
    if IsGetter(e) then
      GetterHasFieldName(e);
      Some(GetterAsFieldAdapter(e, false, [], GetterToFieldName(e.name).value))
    else None
  }

  /** A name is never equal to itself with `set` and a capital in front: the written flag is never set. */
  lemma MutableAsWrittenNeverHolds(a: GetterAsFieldAdapter)
    ensures !a.MutableAsWritten()
  {
  }

  /** A getter with a matching setter beside it is mutable under the intended rule, yet not as written. */
  lemma MutableDiscrepancy(getter: Element, setter: Element, fieldName: string)
    requires setter.name == "set" + Capitalize(fieldName)
    ensures var a := GetterAsFieldAdapter(getter, false, [getter, setter], fieldName);
            a.MutableIntended() && !a.MutableAsWritten()
  {
    var a := GetterAsFieldAdapter(getter, false, [getter, setter], fieldName);
    assert setter in a.allElements;
    MutableAsWrittenNeverHolds(a);
  }
}
