/**
 * The per-field decisions of the simple DTO members strategy: property names,
 * types and defaults, the null-check algebra of assignment contexts, and the
 * lines each field contributes to the alternative constructor, the patch
 * function, the target-type function and the creator function.
 */
module MemberStatements {
  import opened Wrappers
  import opened Model
  import opened CodeSpec
  import opened ElementInfo
  import opened Assignment
  import Api
  import EnvAware
  import Seqs

  /** The strategy's three toggles: mutable iterables, nullable properties, mutable properties. */
  datatype MembersConfig = MembersConfig(useMutableIterables: bool, defaultNullable: bool, defaultMutable: bool)

  /** The toggles of the members strategy as shipped. */
  const DEFAULT_CONFIG: MembersConfig := MembersConfig(false, true, true)

  // Fragments of the generated Kotlin that the statements below are built from.
  const ALT_INDENT: string := "      "
  const ORIGINAL: string := "original."
  const INSTANCE: string := "instance."
  const ASSIGN_THIS: string := " = this."
  const TO_MUTABLE: string := "toMutable"
  const ERR_NULL_OPEN: string := " ?: errNull(\""
  const ALT_ERR_NULL_OPEN: string := " ?: %T.errNull(\""
  const CREATOR_ERR_NULL_OPEN: string := "?: %T.errNull(\""
  const IF_THIS: string := "if(this."
  const NOT_NULL_TEST: string := " != null"
  const AND_THIS: string := " && this."
  const NOT_EMPTY: string := "!!.isNotEmpty()"
  const ELSE_ORIGINAL: string := "!! else original."
  const PATCHED: string := ") patched."
  const GUARD_OPEN: string := "errNonUpdatableOrOriginalValue(\""
  const GUARD_THIS: string := "\", this."
  const GUARD_ORIGINAL: string := ", original."
  const IGNORED_COMMENT: string := "// Ignored since immutable and not part of constructor: "

  /** `toPropertyName`: the field's own name. */
  function PropertyName(f: FieldInfo): string {
    f.variableElement.name
  }

  /** `toPropertyTypeName`: the field's Kotlin type with the configured nullability. */
  function PropertyTypeName(cfg: MembersConfig, f: FieldInfo): TypeName {
    TypeName(f.variableElement.typeName, cfg.defaultNullable)
  }

  // ---------------------------------------------------------------------------
  // Nullability of the three places a value lives in
  // ---------------------------------------------------------------------------

  /** `isNullable`: the DTO's property follows the configuration, the target's field its declaration; mixins are nullable. */
  predicate IsNullableIn(cfg: MembersConfig, f: FieldInfo, place: FieldContext) {
    match place
    case GENERATED_TYPE => PropertyTypeName(cfg, f).nullable
    case TARGET_TYPE => EnvAware.IsNullable(f.variableElement)
    case MIXIN_TYPE => true
  }

  /** `isNonNull` is the negation of `isNullable`. */
  predicate IsNonNullIn(cfg: MembersConfig, f: FieldInfo, place: FieldContext) {
    !IsNullableIn(cfg, f, place)
  }

  /**
   * `maybeCheckForNull`: a context keeps its fallback exactly when a value that
   * may be null is read into a place that may not hold null; otherwise the
   * fallback is dropped.
   */
  function MaybeCheckForNull(cfg: MembersConfig, f: FieldInfo, ctx: AssignmentContext): AssignmentContext
    requires ctx.Context?
  {
    if IsNonNullIn(cfg, f, ctx.source) || IsNullableIn(cfg, f, ctx.target) then Empty else ctx
  }

  /** The context is kept unchanged or dropped, and kept exactly when null may flow into a non-null place. */
  lemma MaybeCheckForNullKeeps(cfg: MembersConfig, f: FieldInfo, ctx: AssignmentContext)
    requires ctx.Context?
    ensures var r := MaybeCheckForNull(cfg, f, ctx);
            (r == ctx || r == Empty) &&
            (r == ctx <==> IsNullableIn(cfg, f, ctx.source) && !IsNullableIn(cfg, f, ctx.target))
  {
  }

  // ---------------------------------------------------------------------------
  // Assignment contexts
  // ---------------------------------------------------------------------------

  /** The fallback of a DTO to target assignment: fail naming the property. */
  function ErrNullFallback(name: string): string {
    ERR_NULL_OPEN + name + "\")"
  }

  /**
   * `assignmentCtxForToTargetType`: writing the target reads the DTO; the
   * fallback fails naming the field exactly when the DTO value may be null and
   * the target field may not.
   */
  function AssignmentCtxForToTargetType(fromType: TypeName, f: FieldInfo): AssignmentContext {
    if fromType.nullable && !EnvAware.IsNullable(f.variableElement) then
      OUT.WithFallbackValue(ErrNullFallback(f.variableElement.name))
    else
      OUT.WithFallbackValue("")
  }

  /**
   * The inline test of `assignmentCtxForToTargetType` agrees with
   * `maybeCheckForNull`: for the DTO's property type the context is the
   * outbound one, and it has a fallback exactly when the null check keeps the
   * outbound context; that fallback names the field.
   */
  lemma TargetContextAgreesWithNullCheck(cfg: MembersConfig, f: FieldInfo)
    ensures var r := AssignmentCtxForToTargetType(PropertyTypeName(cfg, f), f);
            r.Context? && r.source == OUT.source && r.target == OUT.target && r.fallbackArgs == [] &&
            (r.fallbackValue != "" <==> MaybeCheckForNull(cfg, f, OUT) == OUT) &&
            (r.fallbackValue != "" ==> r.fallbackValue == ErrNullFallback(f.variableElement.name))
  {
  }

  /** `assignmentCtxForToAltConstructor`: reading the original, failing through the root DTO type. */
  function AssignmentCtxForToAltConstructor(propertyName: string): AssignmentContext {
    IN.WithFallbackValue(ALT_ERR_NULL_OPEN + propertyName + "\")").WithFallbackArg(Api.DTO_INTERFACE)
  }

  /** `assignmentCtxForOwnCreator`: as the alternative constructor's, without the leading space. */
  function AssignmentCtxForOwnCreator(propertyName: string): AssignmentContext {
    IN.WithFallbackValue(CREATOR_ERR_NULL_OPEN + propertyName + "\")").WithFallbackArg(Api.DTO_INTERFACE)
  }

  /**
   * Both contexts read the original into the DTO, as `IN` does, and fail
   * through the root DTO type with a message that ends in the property's name;
   * the alternative constructor's fallback is the creator's after one space.
   */
  lemma OriginalReadContexts(propertyName: string)
    ensures var alt := AssignmentCtxForToAltConstructor(propertyName);
            var own := AssignmentCtxForOwnCreator(propertyName);
            alt.Context? && own.Context? &&
            alt.source == own.source == IN.source && alt.target == own.target == IN.target &&
            alt.fallbackArgs == own.fallbackArgs == [Api.DTO_INTERFACE] &&
            alt.fallbackValue == " " + own.fallbackValue
    ensures var own := AssignmentCtxForOwnCreator(propertyName).fallbackValue;
            var tail := propertyName + "\")";
            |tail| <= |own| && own[|own| - |tail|..] == tail
  {
    var own := AssignmentCtxForOwnCreator(propertyName).fallbackValue;
    assert own == CREATOR_ERR_NULL_OPEN + (propertyName + "\")");
    assert " " + own == ALT_ERR_NULL_OPEN + propertyName + "\")";
  }

  /** `maybeToMutableCollectionSuffix`: converts iterables to their mutable variant when configured. */
  function MutableSuffix(cfg: MembersConfig, f: FieldInfo): string {
    if cfg.useMutableIterables && f.variableElement.isIterable then
      (if PropertyTypeName(cfg, f).nullable then "?." else ".") + TO_MUTABLE + f.variableElement.typeSimpleName + "()"
    else ""
  }

  /**
   * Only configured iterables are converted; the conversion is a call, and it
   * is null-safe exactly when the DTO's property may be null.
   */
  lemma MutableSuffixConverts(cfg: MembersConfig, f: FieldInfo)
    ensures var s := MutableSuffix(cfg, f);
            (s != "" <==> cfg.useMutableIterables && f.variableElement.isIterable) &&
            (s != "" ==> |s| >= 4 && s[|s| - 2..] == "()" &&
                         (s[..2] == "?." <==> IsNullableIn(cfg, f, GENERATED_TYPE)))
  {
    var s := MutableSuffix(cfg, f);
    if s != "" {
      var dot := if PropertyTypeName(cfg, f).nullable then "?." else ".";
      var rest := TO_MUTABLE + f.variableElement.typeSimpleName;
      assert s == dot + rest + "()";
      if !PropertyTypeName(cfg, f).nullable {
        assert s[0] == '.';
      }
    }
  }

  // ---------------------------------------------------------------------------
  // Target-type, alternative constructor and creator lines
  // ---------------------------------------------------------------------------

  /** A named argument is used for Kotlin targets and for assignments that are not constructor arguments. */
  function NamedParam(info: AnnotatedElementInfo, f: FieldInfo): string {
    if info.primary.isKotlin || !f.isConstructorParam then PropertyName(f) + " = " else ""
  }

  /** Whether the target-type line of a field needs the fail-on-null fallback. */
  predicate NeedsErrNull(cfg: MembersConfig, f: FieldInfo) {
    cfg.defaultNullable && !EnvAware.IsNullable(f.variableElement)
  }

  /**
   * `toTargetTypeStatement`, as written: `this.x` with the fail-on-null fallback
   * when the DTO property may be null and the target's may not; it has no
   * format arguments.
   */
  function TargetTypeStatement(cfg: MembersConfig, info: AnnotatedElementInfo, f: FieldInfo, comma: string): Statement {
    var name := PropertyName(f);
    var ctx := AssignmentCtxForToTargetType(PropertyTypeName(cfg, f), f);
    Statement(NamedParam(info, f) + "this." + name + ctx.FallbackValue() + comma, ctx.FallbackArgs())
  }

  /**
   * A target-type line starts by reading the DTO's property of the field, ends
   * with the separator, and has a fallback in between exactly when
   * `maybeCheckForNull` keeps the outbound context; it has no format arguments.
   */
  lemma TargetTypeLineReadsDto(cfg: MembersConfig, info: AnnotatedElementInfo, f: FieldInfo, comma: string)
    ensures var s := TargetTypeStatement(cfg, info, f, comma);
            var read := NamedParam(info, f) + "this." + f.variableElement.name;
            s.args == [] && |read| + |comma| <= |s.format| &&
            s.format[..|read|] == read && s.format[|s.format| - |comma|..] == comma &&
            (|s.format| > |read| + |comma| <==> MaybeCheckForNull(cfg, f, OUT) == OUT)
  {
    var read := NamedParam(info, f) + "this." + f.variableElement.name;
    var fallback := TargetFallback(cfg, f);
    var s := TargetTypeStatement(cfg, info, f, comma).format;
    assert s == read + fallback + comma;
    assert s[..|read|] == read;
    assert s[|s| - |comma|..] == comma;
  }

  /**
   * As written, the line of a field that is not a constructor argument names
   * the DTO's own property on its left (`x = this.x`): it is the intended
   * mutation line without its leading `instance.`, so inside the target
   * function it assigns the DTO and the new instance's field is never set.
   */
  lemma TargetMutationAssignsDtoItself(cfg: MembersConfig, info: AnnotatedElementInfo, f: FieldInfo, comma: string)
    requires !f.isConstructorParam
    ensures var name := f.variableElement.name;
            TargetTypeStatement(cfg, info, f, comma).format == name + ASSIGN_THIS + name + TargetFallback(cfg, f) + comma
    ensures TargetMutationStatement(cfg, f).format == INSTANCE + TargetTypeStatement(cfg, info, f, "").format
    ensures TargetMutationStatement(cfg, f).args == TargetTypeStatement(cfg, info, f, comma).args
  {
    var name := f.variableElement.name;
    var fallback := TargetFallback(cfg, f);
    var lhs := name + ASSIGN_THIS;
    assert " = " + "this." == ASSIGN_THIS;
    Seqs.AppendAssoc(name, " = ", "this.");
    var line := lhs + name + fallback;
    assert TargetTypeStatement(cfg, info, f, comma).format == line + comma;
    assert TargetTypeStatement(cfg, info, f, "").format == line;
    Seqs.AppendAssoc(INSTANCE, name, ASSIGN_THIS);
    Seqs.AppendAssoc(INSTANCE, lhs, name);
    Seqs.AppendAssoc(INSTANCE, lhs + name, fallback);
  }

  /** The evidently intended mutation line: assign the new instance's property. */
  function TargetMutationStatement(cfg: MembersConfig, f: FieldInfo): Statement {
    var name := PropertyName(f);
    var ctx := AssignmentCtxForToTargetType(PropertyTypeName(cfg, f), f);
    Statement(INSTANCE + name + ASSIGN_THIS + name + ctx.FallbackValue(), ctx.FallbackArgs())
  }

  /** The mutation line is the instance's property, the assignment, and the DTO's property with its fallback. */
  lemma TargetMutationParts(cfg: MembersConfig, f: FieldInfo)
    ensures var name := f.variableElement.name;
            TargetMutationStatement(cfg, f).format == INSTANCE + name + ASSIGN_THIS + (name + TargetFallback(cfg, f))
  {
  }

  /** Under the intended rule every mutation line assigns the new instance's property of the same name. */
  lemma TargetMutationWritesInstance(cfg: MembersConfig, f: FieldInfo)
    ensures var s := TargetMutationStatement(cfg, f).format;
            var prefix := INSTANCE + f.variableElement.name + " = ";
            |prefix| <= |s| && s[..|prefix|] == prefix
  {
    var name := f.variableElement.name;
    var prefix := INSTANCE + name + " = ";
    var tail := name + TargetFallback(cfg, f);
    TargetMutationParts(cfg, f);
    assert INSTANCE + name + ASSIGN_THIS == prefix + "this.";
    Seqs.AppendAssoc(prefix, "this.", tail);
    Seqs.PrefixOfAppend(prefix, "this." + tail);
  }

  function TargetFallback(cfg: MembersConfig, f: FieldInfo): string {
    if NeedsErrNull(cfg, f) then ErrNullFallback(f.variableElement.name) else ""
  }

  /** Whether a line reading the original needs the fail-on-null fallback. */
  predicate NeedsCreatorFallback(cfg: MembersConfig, f: FieldInfo) {
    EnvAware.IsNullable(f.variableElement) && !cfg.defaultNullable
  }

  /** The argument prefix of lines reading the original: named for Kotlin targets. */
  function OriginalNamedParam(info: AnnotatedElementInfo, propertyName: string): string {
    if info.primary.isKotlin then propertyName + " = " else ""
  }

  /**
   * `toAltConstructorStatement`: `original.x`, converted when configured, with
   * the fail-on-null fallback (and the root DTO type as its argument) exactly
   * when the original's field may be null and the DTO's property may not.
   */
  function AltConstructorStatement(
    cfg: MembersConfig, info: AnnotatedElementInfo, f: FieldInfo, propertyName: string, comma: string): Statement
  {
    var ctx := MaybeCheckForNull(cfg, f, AssignmentCtxForToAltConstructor(propertyName));
    Statement(ALT_INDENT + OriginalNamedParam(info, propertyName) + ORIGINAL + propertyName + MutableSuffix(cfg, f)
              + ctx.FallbackValue() + comma, ctx.FallbackArgs())
  }

  /** `toCreatorStatement`: the alternative constructor's line with the creator's fallback. */
  function CreatorStatement(
    cfg: MembersConfig, info: AnnotatedElementInfo, f: FieldInfo, propertyName: string, comma: string): Statement
  {
    var ctx := MaybeCheckForNull(cfg, f, AssignmentCtxForOwnCreator(propertyName));
    Statement(ALT_INDENT + OriginalNamedParam(info, propertyName) + ORIGINAL + propertyName + MutableSuffix(cfg, f)
              + ctx.FallbackValue() + comma, ctx.FallbackArgs())
  }

  /**
   * A line reading the original needs the fail-on-null fallback exactly when
   * `maybeCheckForNull` keeps a context that reads the original into the DTO.
   */
  lemma CreatorFallbackIsNullCheck(cfg: MembersConfig, f: FieldInfo, propertyName: string)
    ensures NeedsCreatorFallback(cfg, f) <==> MaybeCheckForNull(cfg, f, IN) == IN
    ensures NeedsCreatorFallback(cfg, f) <==> MaybeCheckForNull(cfg, f, AssignmentCtxForToAltConstructor(propertyName)) != Empty
    ensures NeedsCreatorFallback(cfg, f) <==> MaybeCheckForNull(cfg, f, AssignmentCtxForOwnCreator(propertyName)) != Empty
  {
  }

  /**
   * Both lines start by reading the original's property, converted when
   * configured, and carry the root DTO type exactly when the original's field
   * needs the fallback. Without a fallback the two lines coincide; with one,
   * the alternative constructor's line is the creator's with a space inserted
   * before the fallback.
   */
  lemma AltAndCreatorLines(
    cfg: MembersConfig, info: AnnotatedElementInfo, f: FieldInfo, propertyName: string, comma: string)
    ensures var a := AltConstructorStatement(cfg, info, f, propertyName, comma);
            var c := CreatorStatement(cfg, info, f, propertyName, comma);
            var read := ALT_INDENT + OriginalNamedParam(info, propertyName) + ORIGINAL + propertyName + MutableSuffix(cfg, f);
            a.args == c.args &&
            (a.args == [Api.DTO_INTERFACE] <==> NeedsCreatorFallback(cfg, f)) &&
            (a.args == [] <==> !NeedsCreatorFallback(cfg, f)) &&
            |read| <= |c.format| && c.format[..|read|] == read &&
            (!NeedsCreatorFallback(cfg, f) ==> a == c) &&
            (NeedsCreatorFallback(cfg, f) ==> a.format == read + " " + c.format[|read|..])
  {
    var read := ALT_INDENT + OriginalNamedParam(info, propertyName) + ORIGINAL + propertyName + MutableSuffix(cfg, f);
    var c := CreatorStatement(cfg, info, f, propertyName, comma).format;
    var own := MaybeCheckForNull(cfg, f, AssignmentCtxForOwnCreator(propertyName)).FallbackValue();
    assert c == read + (own + comma);
    assert c[..|read|] == read;
    if NeedsCreatorFallback(cfg, f) {
      OriginalReadContexts(propertyName);
      assert c[|read|..] == own + comma;
      assert AltConstructorStatement(cfg, info, f, propertyName, comma).format == read + (" " + own) + comma;
    }
  }

  /** The separator is appended at the very end of a line and changes nothing else in it. */
  lemma SeparatorAppended(
    cfg: MembersConfig, info: AnnotatedElementInfo, f: FieldInfo, propertyName: string, comma: string)
    ensures var t := TargetTypeStatement(cfg, info, f, "");
            TargetTypeStatement(cfg, info, f, comma) == Statement(t.format + comma, t.args)
    ensures var a := AltConstructorStatement(cfg, info, f, propertyName, "");
            AltConstructorStatement(cfg, info, f, propertyName, comma) == Statement(a.format + comma, a.args)
    ensures var c := CreatorStatement(cfg, info, f, propertyName, "");
            CreatorStatement(cfg, info, f, propertyName, comma) == Statement(c.format + comma, c.args)
  {
    var t := NamedParam(info, f) + "this." + PropertyName(f) + TargetFallback(cfg, f);
    assert TargetTypeStatement(cfg, info, f, "").format == t + "" == t;
    var read := ALT_INDENT + OriginalNamedParam(info, propertyName) + ORIGINAL + propertyName + MutableSuffix(cfg, f);
    var a := read + MaybeCheckForNull(cfg, f, AssignmentCtxForToAltConstructor(propertyName)).FallbackValue();
    assert AltConstructorStatement(cfg, info, f, propertyName, "").format == a + "" == a;
    var c := read + MaybeCheckForNull(cfg, f, AssignmentCtxForOwnCreator(propertyName)).FallbackValue();
    assert CreatorStatement(cfg, info, f, propertyName, "").format == c + "" == c;
  }

  /**
   * With the shipped toggles the DTO's properties are nullable: reading the
   * original never needs a fallback, while writing a non-null target field
   * from the DTO always does.
   */
  lemma DefaultConfigFallbacks(info: AnnotatedElementInfo, f: FieldInfo, comma: string)
    ensures AltConstructorStatement(DEFAULT_CONFIG, info, f, PropertyName(f), comma).args == []
    ensures CreatorStatement(DEFAULT_CONFIG, info, f, PropertyName(f), comma).args == []
    ensures MaybeCheckForNull(DEFAULT_CONFIG, f, IN) == Empty
    ensures MaybeCheckForNull(DEFAULT_CONFIG, f, OUT) == OUT <==> !EnvAware.IsNullable(f.variableElement)
    ensures NeedsErrNull(DEFAULT_CONFIG, f) <==> !EnvAware.IsNullable(f.variableElement)
  {
  }

  // ---------------------------------------------------------------------------
  // Patch lines
  // ---------------------------------------------------------------------------

  /** The four shapes a patch line takes. */
  datatype PatchForm =
    | CopyOrOriginal       // the DTO value when present, else the original's
    | NonUpdatableGuard    // the guard that refuses changes to a locked field
    | IgnoredComment       // a comment: the field is neither mutable nor settable
    | ConditionalMutation  // assign the patched instance when the DTO value is present

  /** The choice `toConstructorOrCopyPatchStatement` makes. */
  function CopyFormOf(info: AnnotatedElementInfo, f: FieldInfo): PatchForm {
    if f.isMutableVariable || !info.primary.isKotlin then
      if info.IsUpdatable(f) || info.UpdateRequiresNewInstance() then CopyOrOriginal else NonUpdatableGuard
    else IgnoredComment
  }

  /** The choice `toMutationPatchStatement` makes. */
  function MutationFormOf(info: AnnotatedElementInfo, f: FieldInfo): PatchForm {
    if info.IsUpdatable(f) then ConditionalMutation else NonUpdatableGuard
  }

  /**
   * `toPatchStatement`'s choice: constructor arguments of a target that needs
   * a new instance get the copy form, or a comment for an immutable Kotlin
   * field; every other field gets a mutation when updatable and the guard
   * otherwise. The copy path never yields the guard.
   */
  function PatchFormOf(info: AnnotatedElementInfo, f: FieldInfo): PatchForm {
    if f.isConstructorParam && info.UpdateRequiresNewInstance() then CopyFormOf(info, f) else MutationFormOf(info, f)
  }

  lemma PatchFormChoice(info: AnnotatedElementInfo, f: FieldInfo)
    ensures var r := PatchFormOf(info, f);
            var needsNew := f.isConstructorParam && info.UpdateRequiresNewInstance();
            ((r == CopyOrOriginal || r == IgnoredComment) <==> needsNew) &&
            (r == IgnoredComment <==> needsNew && !f.isMutableVariable && info.primary.isKotlin) &&
            (r == ConditionalMutation <==> !needsNew && info.IsUpdatable(f)) &&
            (r == NonUpdatableGuard <==> !needsNew && !info.IsUpdatable(f))
  {
  }

  /** The extra condition on iterables: the DTO's collection must not be empty. */
  function AndIfNotEmpty(f: FieldInfo): string {
    if f.variableElement.isIterable then AND_THIS + PropertyName(f) + NOT_EMPTY else ""
  }

  function CopyText(named: string, name: string, andIf: string, comma: string): string {
    named + IF_THIS + name + NOT_NULL_TEST + andIf + ") this." + name + ELSE_ORIGINAL + name + comma
  }

  function GuardText(named: string, name: string, comma: string): string {
    named + GUARD_OPEN + name + GUARD_THIS + name + GUARD_ORIGINAL + name + ")" + comma
  }

  function CommentText(name: string): string {
    IGNORED_COMMENT + name
  }

  function MutationText(name: string, andIf: string): string {
    IF_THIS + name + NOT_NULL_TEST + andIf + PATCHED + name + ASSIGN_THIS + name + "!!"
  }

  /** `toConstructorOrCopyPatchStatement`. */
  function ConstructorOrCopyPatchStatement(info: AnnotatedElementInfo, f: FieldInfo, comma: string): Statement {
    var name := PropertyName(f);
    var named := NamedParam(info, f);
    if f.isMutableVariable || !info.primary.isKotlin then
      if info.IsUpdatable(f) || info.UpdateRequiresNewInstance() then Line(CopyText(named, name, AndIfNotEmpty(f), comma))
      else Line(GuardText(named, name, comma))
    else Line(CommentText(name))
  }

  /** `toMutationPatchStatement`: never a named argument, never a separator. */
  function MutationPatchStatement(info: AnnotatedElementInfo, f: FieldInfo): Statement {
    if info.IsUpdatable(f) then Line(MutationText(PropertyName(f), AndIfNotEmpty(f)))
    else Line(GuardText("", PropertyName(f), ""))
  }

  /** `toPatchStatement`. */
  function PatchStatement(info: AnnotatedElementInfo, f: FieldInfo, comma: string): Statement {
    if f.isConstructorParam && info.UpdateRequiresNewInstance() then ConstructorOrCopyPatchStatement(info, f, comma)
    else MutationPatchStatement(info, f)
  }

  /**
   * Patch lines have no format arguments, and only the copy form carries the
   * separator: every other patch line, the comment placed among the
   * arguments included, is the same whatever separator is asked for.
   */
  lemma PatchSeparatorOnlyOnCopy(info: AnnotatedElementInfo, f: FieldInfo, comma: string)
    ensures PatchStatement(info, f, comma).args == []
    ensures PatchFormOf(info, f) == CopyOrOriginal ==>
              PatchStatement(info, f, comma).format == PatchStatement(info, f, "").format + comma
    ensures PatchFormOf(info, f) != CopyOrOriginal ==> PatchStatement(info, f, comma) == PatchStatement(info, f, "")
  {
    if PatchFormOf(info, f) == CopyOrOriginal {
      var named, name, andIf := NamedParam(info, f), PropertyName(f), AndIfNotEmpty(f);
      var body := named + IF_THIS + name + NOT_NULL_TEST + andIf + ") this." + name + ELSE_ORIGINAL + name;
      assert CopyText(named, name, andIf, comma) == body + comma;
      assert CopyText(named, name, andIf, "") == body;
    }
  }

  /** Where a field's line goes in a function that creates or updates an instance. */
  datatype LineRoute = InitArgs | Mutations | NoLine

  /** Patch lines of constructor arguments go to the arguments when a new instance is needed, all others to the mutations. */
  function PatchRouteOf(info: AnnotatedElementInfo, f: FieldInfo): LineRoute {
    if f.isConstructorParam && info.UpdateRequiresNewInstance() then InitArgs else Mutations
  }

  /** Target-type lines: constructor arguments, then mutable fields; other fields get no line. */
  function TargetRouteOf(f: FieldInfo): LineRoute {
    if f.isConstructorParam then InitArgs else if f.isMutableVariable then Mutations else NoLine
  }

  /** The patch line is placed where its shape belongs: copy and comment lines among the arguments, the rest among the mutations. */
  lemma PatchRouteMatchesForm(info: AnnotatedElementInfo, f: FieldInfo)
    ensures PatchRouteOf(info, f) != NoLine
    ensures PatchRouteOf(info, f) == InitArgs <==> f.isConstructorParam && info.UpdateRequiresNewInstance()
    ensures PatchRouteOf(info, f) == InitArgs <==>
              (PatchFormOf(info, f) == CopyOrOriginal || PatchFormOf(info, f) == IgnoredComment)
  {
  }

  /** Each field gets exactly one of the three target-type placements. */
  lemma TargetRouteChoice(f: FieldInfo)
    ensures TargetRouteOf(f) == InitArgs <==> f.isConstructorParam
    ensures TargetRouteOf(f) == Mutations <==> !f.isConstructorParam && f.isMutableVariable
    ensures TargetRouteOf(f) == NoLine <==> !f.isConstructorParam && !f.isMutableVariable
  {
  }

  // ---------------------------------------------------------------------------
  // Property, constructor parameter and default value
  // ---------------------------------------------------------------------------

  /** The first of the fields named `name`. */
  function FieldNamed(fields: seq<FieldInfo>, name: string): Option<FieldInfo> {
    if fields == [] then None
    else if fields[0].SimpleName() == name then Some(fields[0])
    else FieldNamed(fields[1..], name)
  }

  /** `find`: nothing when no field has the name, else the first that has it. */
  lemma {:induction false} FieldNamedFindsFirst(fields: seq<FieldInfo>, name: string)
    ensures var r := FieldNamed(fields, name);
            (r.None? <==> forall i :: 0 <= i < |fields| ==> fields[i].SimpleName() != name) &&
            (r.Some? ==> exists i :: 0 <= i < |fields| && fields[i] == r.value && fields[i].SimpleName() == name &&
                           forall j :: 0 <= j < i ==> fields[j].SimpleName() != name)
  {
    if fields != [] && fields[0].SimpleName() != name {
      FieldNamedFindsFirst(fields[1..], name);
      var r := FieldNamed(fields[1..], name);
      if r.Some? {
        var i :| 0 <= i < |fields[1..]| && fields[1..][i] == r.value && fields[1..][i].SimpleName() == name &&
                 forall j :: 0 <= j < i ==> fields[1..][j].SimpleName() != name;
        assert fields[i + 1] == r.value;
        forall j | 0 <= j < i + 1
          ensures fields[j].SimpleName() != name
        {
          if j > 0 {
            assert fields[j] == fields[1..][j - 1];
          }
        }
      } else {
        forall i | 0 <= i < |fields|
          ensures fields[i].SimpleName() != name
        {
          if i > 0 {
            assert fields[i] == fields[1..][i - 1];
          }
        }
      }
    }
  }

  /** The first `@DefaultValue` among the fields, in order. */
  function FirstDefault(fields: seq<FieldInfo>): Option<Api.DefaultValue> {
    if fields == [] then None
    else if fields[0].variableElement.defaultValue.Some? then fields[0].variableElement.defaultValue
    else FirstDefault(fields[1..])
  }

  /**
   * `toDefaultValueExpression`: the `@DefaultValue` of the same-named mixin
   * field, else the field's own, else `null` (nullable) when the property
   * type is nullable, else no default.
   */
  function ToDefaultValueExpression(cfg: MembersConfig, own: AnnotatedElementInfo, f: FieldInfo): Option<Api.DefaultValue> {
    var candidates := ToSeq(FieldNamed(own.mixinFields, f.SimpleName())) + [f];
    var found := FirstDefault(candidates);
    if found.Some? then found
    else if PropertyTypeName(cfg, f).nullable then Some(Api.DefaultValue("null", true))
    else None
  }

  /** The order in which a property's default is resolved: mixin field, field, nullability. */
  lemma DefaultValueResolution(cfg: MembersConfig, own: AnnotatedElementInfo, f: FieldInfo)
    ensures var m := FieldNamed(own.mixinFields, f.SimpleName());
            var r := ToDefaultValueExpression(cfg, own, f);
            (m.Some? && m.value.variableElement.defaultValue.Some? ==> r == m.value.variableElement.defaultValue) &&
            ((m.None? || m.value.variableElement.defaultValue.None?) && f.variableElement.defaultValue.Some? ==>
               r == f.variableElement.defaultValue) &&
            ((m.None? || m.value.variableElement.defaultValue.None?) && f.variableElement.defaultValue.None? ==>
               r == (if cfg.defaultNullable then Some(Api.DefaultValue("null", true)) else None))
  {
    var m := FieldNamed(own.mixinFields, f.SimpleName());
    var candidates := ToSeq(m) + [f];
    assert [f][1..] == [];
    assert FirstDefault([f]) == f.variableElement.defaultValue;
    if m.Some? {
      assert candidates == [m.value, f];
      assert candidates[1..] == [f];
      assert FirstDefault(candidates) ==
        (if m.value.variableElement.defaultValue.Some? then m.value.variableElement.defaultValue else FirstDefault([f]));
    } else {
      assert candidates == [f];
    }
  }

  /** What `addProperty` contributes for one field. */
  datatype PropertyParts = PropertyParts(name: string, typ: TypeName, parameter: ParameterSpec, property: PropertySpec)

  /**
   * `addProperty`: the constructor parameter and the public property of one
   * field. A default value decides the nullability and is the parameter's
   * default; the property is initialised from the parameter and carries the
   * field's annotations whose package has a copy base.
   */
  function PropertyPartsOf(cfg: MembersConfig, own: AnnotatedElementInfo, f: FieldInfo): PropertyParts {
    var name := PropertyName(f);
    var defaults := ToDefaultValueExpression(cfg, own, f);
    var typ := if defaults.Some? then PropertyTypeName(cfg, f).(nullable := defaults.value.nullable) else PropertyTypeName(cfg, f);
    var parameter := ParameterSpec(name, typ, if defaults.Some? then Some(defaults.value.value) else None);
    var annotations := AnnotationSpecs(EnvAware.FilterAnnotationsByBasePackage(f.variableElement, own.copyAnnotationPackages));
    PropertyParts(name, typ, parameter, PropertySpec(name, typ, cfg.defaultMutable, ["PUBLIC"], name, annotations))
  }

  /**
   * The parameter and the property of a field share its name and type; a
   * default value decides the nullability and is the parameter's default; the
   * property is public, initialised from the parameter, and carries the
   * field's annotations whose package has a copy base.
   */
  lemma PropertyPartsAgree(cfg: MembersConfig, own: AnnotatedElementInfo, f: FieldInfo)
    ensures var r := PropertyPartsOf(cfg, own, f);
            var d := ToDefaultValueExpression(cfg, own, f);
            r.name == f.variableElement.name && r.typ.name == f.variableElement.typeName &&
            r.typ.nullable == (if d.Some? then d.value.nullable else cfg.defaultNullable) &&
            r.parameter == ParameterSpec(r.name, r.typ, if d.Some? then Some(d.value.value) else None) &&
            r.property.name == r.name && r.property.typ == r.typ && r.property.initializer == r.name &&
            r.property.mutable == cfg.defaultMutable && r.property.modifiers == ["PUBLIC"] &&
            var copied := EnvAware.FilterAnnotationsByBasePackage(f.variableElement, own.copyAnnotationPackages);
            |r.property.annotations| == |copied| &&
            forall i :: 0 <= i < |copied| ==> r.property.annotations[i] == AnnotationSpec(copied[i])
  {
    AnnotationSpecsOf(EnvAware.FilterAnnotationsByBasePackage(f.variableElement, own.copyAnnotationPackages));
  }

  function AnnotationSpecs(annotations: seq<AnnotationType>): seq<AnnotationSpec> {
    if annotations == [] then [] else [AnnotationSpec(annotations[0])] + AnnotationSpecs(annotations[1..])
  }

  /** One annotation spec per copied annotation, in order. */
  lemma {:induction false} AnnotationSpecsOf(annotations: seq<AnnotationType>)
    ensures var r := AnnotationSpecs(annotations);
            |r| == |annotations| && forall i :: 0 <= i < |r| ==> r[i] == AnnotationSpec(annotations[i])
  {
    if annotations != [] {
      AnnotationSpecsOf(annotations[1..]);
    }
  }

  /**
   * With the shipped toggles and no `@DefaultValue` in sight, every property
   * is nullable and its constructor parameter defaults to `null`.
   */
  lemma DefaultConfigProperty(own: AnnotatedElementInfo, f: FieldInfo)
    requires f.variableElement.defaultValue.None?
    requires forall i :: 0 <= i < |own.mixinFields| ==> own.mixinFields[i].variableElement.defaultValue.None?
    ensures var parts := PropertyPartsOf(DEFAULT_CONFIG, own, f);
            parts.typ.nullable && parts.parameter.defaultValue == Some("null") && parts.property.mutable
  {
    var m := FieldNamed(own.mixinFields, f.SimpleName());
    FieldNamedFindsFirst(own.mixinFields, f.SimpleName());
    DefaultValueResolution(DEFAULT_CONFIG, own, f);
    if m.Some? {
      var i :| 0 <= i < |own.mixinFields| && own.mixinFields[i] == m.value;
    }
  }

  /** A same-named mixin field's default wins over the field's own. */
  lemma MixinDefaultWins(cfg: MembersConfig, own: AnnotatedElementInfo, f: FieldInfo, mixinField: FieldInfo)
    requires FieldNamed(own.mixinFields, f.SimpleName()) == Some(mixinField)
    requires mixinField.variableElement.defaultValue.Some?
    ensures ToDefaultValueExpression(cfg, own, f) == mixinField.variableElement.defaultValue
  {
    DefaultValueResolution(cfg, own, f);
  }

  // ---------------------------------------------------------------------------
  // Functions that create or update an instance
  // ---------------------------------------------------------------------------

  /**
   * `CreateOrUpdateInstanceFunctionBuilder`: the initialisation, its closing,
   * the return, the optional initialisation used when there are no arguments,
   * and the argument and mutation lines gathered so far.
   */
  datatype InstanceFunctionBuilder = InstanceFunctionBuilder(
    init: CodeBlock,
    closing: CodeBlock,
    ret: CodeBlock,
    altInit: Option<CodeBlock>,
    args: CodeBlock,
    mutations: CodeBlock)
  {
    predicate UsesAltInit() {
      args == [] && altInit.Some?
    }

    /**
     * `toCodeBlock`: without arguments and with an alternative, the
     * alternative replaces initialisation, arguments and closing; the
     * mutation lines and the return follow in either case.
     */
    function ToCodeBlock(): (r: CodeBlock)
      ensures UsesAltInit() ==> r == altInit.value + mutations + ret
      ensures !UsesAltInit() ==> r == init + args + closing + mutations + ret
      ensures |r| >= |mutations| + |ret| && r[|r| - |ret|..] == ret
    {
      var head := if !UsesAltInit() then init + (if args != [] then args else []) + closing else altInit.value;
      var body := if mutations != [] then head + mutations else head;
      if ret != [] then body + ret else body
    }
  }

  /** `originalTypeParameter`: the `original` parameter, of the DTO's target type. */
  function OriginalParameter(dtoTarget: string): ParameterSpec {
    ParameterSpec("original", TypeName(dtoTarget, false), None)
  }

  /**
   * The patch function's builder: `copy` the original (or call the target's
   * constructor for a non-data class), or, when no argument line is added,
   * patch the original itself; it returns `patched`.
   */
  function PatchBuilder(info: AnnotatedElementInfo, dtoTarget: string): (r: InstanceFunctionBuilder)
    ensures r.args == [] && r.mutations == []
    ensures info.isNonDataClass ==> r.init == [Statement("val patched = %T(", [dtoTarget])]
    ensures !info.isNonDataClass ==> r.init == [Line("val patched = original.copy(")]
    ensures r.closing == [Line(")")] && r.ret == [Line("return patched")]
    ensures r.altInit == Some([Line("val patched = original")])
  {
    var init := if info.isNonDataClass then [Statement("val patched = %T(", [dtoTarget])] else [Line("val patched = original.copy(")];
    InstanceFunctionBuilder(init, [Line(")")], [Line("return patched")], Some([Line("val patched = original")]), [], [])
  }

  /**
   * The target-type function's builder: call the target's constructor (the
   * override's when given), or a `TODO` stub without closing when the function
   * is skipped; it returns `instance` and has no alternative initialisation.
   */
  function TargetBuilder(info: AnnotatedElementInfo, dtoTarget: string): (r: InstanceFunctionBuilder)
    ensures r.args == [] && r.mutations == [] && r.altInit.None?
    ensures r.ret == [Line("return instance")]
    ensures info.toTargetTypeFunctionConfig.skip ==> r.init == [Line("TODO(\"Not yet implemented\")")] && r.closing == []
    ensures !info.toTargetTypeFunctionConfig.skip ==>
              r.init == [Statement("val instance = %T(", [TargetTypeName(info, dtoTarget)])] && r.closing == [Line(")")]
  {
    var config := info.toTargetTypeFunctionConfig;
    var init := if config.skip then [Line("TODO(\"Not yet implemented\")")]
                else [Statement("val instance = %T(", [TargetTypeName(info, dtoTarget)])];
    var closing := if config.skip then [] else [Line(")")];
    InstanceFunctionBuilder(init, closing, [Line("return instance")], None, [], [])
  }

  /** The type the target-type function creates: the configured override, else the DTO's target. */
  function TargetTypeName(info: AnnotatedElementInfo, dtoTarget: string): string {
    match info.toTargetTypeFunctionConfig.targetTypeNameOverride
    case Some(t) => t.name
    case None => dtoTarget
  }

  /** A patch without argument lines updates the original in place. */
  lemma PatchInPlaceWithoutArgs(info: AnnotatedElementInfo, dtoTarget: string, mutations: CodeBlock)
    ensures PatchBuilder(info, dtoTarget).(mutations := mutations).ToCodeBlock() ==
              [Line("val patched = original")] + mutations + [Line("return patched")]
  {
  }

  /** A patch with argument lines builds a new instance and closes the call before the mutations. */
  lemma PatchCopyWithArgs(info: AnnotatedElementInfo, dtoTarget: string, args: CodeBlock, mutations: CodeBlock)
    requires args != []
    ensures var code := PatchBuilder(info, dtoTarget).(args := args, mutations := mutations).ToCodeBlock();
            code == PatchBuilder(info, dtoTarget).init + args + [Line(")")] + mutations + [Line("return patched")]
  {
  }

  /** The target-type function never takes the alternative initialisation. */
  lemma TargetAlwaysConstructs(info: AnnotatedElementInfo, dtoTarget: string, args: CodeBlock, mutations: CodeBlock)
    ensures var b := TargetBuilder(info, dtoTarget);
            b.(args := args, mutations := mutations).ToCodeBlock() == b.init + args + b.closing + mutations + [Line("return instance")]
  {
  }
}
