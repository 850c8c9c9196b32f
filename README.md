# kotlin-utils DTO generator, modelled in Dafny

This project models the decision core of the `kotlin-utils` annotation
processor (`kotlin-utils-kapt`). The processor turns annotated Kotlin classes
into DTO types: plain data holders with one nullable property per field of
the original type. Each DTO has:

- an alternative constructor that copies an original instance;
- `toPatched`, which applies the DTO's non-null values to an original;
- `toTargetType`, which builds a new instance from the DTO;
- optionally, a companion creator.

The model follows the processor's own structure:

- `Model`, `CodeSpec`, `Wrappers`, `Seqs`, `Text`, `LinkedMaps`: the
  compiler's view of the annotated program (elements, their kinds, names,
  modifiers and annotations). Compiler answers are recorded as fields. The
  KotlinPoet values the generator builds are reduced to names, types,
  defaults and lines of code, and the few standard-library operations the
  generator relies on are included here too.
- `EnvAware`, `ElementInfo`, `GetterAdapter`, `Processor`, `Plugins`:
  - `ProcessingEnvironmentAware`: getter and setter rules, the superclass
    hierarchy, constructor-parameter fields, the base-package filter for
    copied annotations;
  - the annotated element information and its validation;
  - the getter-as-field adapter;
  - how a processing round turns annotated elements into element infos;
  - the plugin service that picks the plugin of highest priority.
- `DtoStrategy`, `Strategies`, `Assignment`, `MemberStatements`, `Members`,
  `Composition`: the current composite DTO strategy.
  - The name and type strategies decide the DTO's package, name, supertype,
    modifiers, KDoc and copied annotations.
  - `SimpleDtoMembersStrategy` walks the fields in annotation scope. For
    each field it adds a property, a constructor parameter and one line to
    the alternative constructor, the patch function, the target-type
    function and the creator. Where each line goes and which separator it
    carries depend on the field.
  - `MemberStatements` holds the per-field decisions as functions, with
    lemmas for each decision.
  - `Members` holds the stateful strategy as a class. Its methods are
    proved against those functions, and its `ProcessFields` loop is proved
    against a recursive specification of the whole pass.
- `LegacyKaptStrategy`, `LegacyDtoStrategy`, `LegacyEnvAware`,
  `LegacyTypeSpecBuilder`, `LegacyUtils`, `LegacyMembers`: the earlier
  generators that the repository still ships. Each builds the same four
  bodies in one pass, with simpler line rules. `LegacyMembers` holds what
  they share.

Code and its documentation disagree in a few places. In each of the
places below the model follows the code. This includes the line each
non-constructor field adds to the target-type function's mutations, which
is listed under "## Findings". The model's abstractions from the code are
listed under "## Left out".

- For a constructor argument of a target that needs a new instance, the
  patch line is a comment ("Ignored since immutable") whenever the field is
  an immutable variable of a Kotlin type. Immutable constructor parameters
  of data classes are the common case, so `toPatched` never applies such a
  DTO value. The documentation describes the copy form instead.
- The new-instance patch path never produces the non-updatable guard.
- When there is no secondary target type, the defaulted secondary simple
  name is the string "null" (`Processor.Build`).
- `getTypeElementHierarchy` on an interface casts a missing superclass to a
  type element. That fails, and the model returns an error.
- `getAllMembersForHierarchy` keys members by simple name. Only one
  constructor (`<init>`) survives, and a more derived member hides a
  same-named one from a superclass.
- The `name` of the target-type function configuration is never used. The
  function is always called `toTargetType`.
- In the older `manotbatsis` packages, `SimpleDtoMembersStrategy` is
  declared over an element info. Its composite and factory build it from a
  `DtoInputContext` instead. The model takes the original type and the copy
  packages from that context.
- The older `kapt` members strategy opens its mapping body with a `return`
  inside the `try`. Its closing therefore has no second `return`, unlike
  the other older generators.

## Model

| member | source | states |
|---|---|---|
| DtoStrategy.ListedKeeps | kotlin-utils-kapt/src/main/kotlin/com/github/manosbatsis/kotlin/utils/kapt/dto/strategy/DtoStrategy.kt:42-43 | the fields kept for a name list are exactly the input's fields whose simple name is listed, in their original order |
| DtoStrategy.UnlistedKeeps | kotlin-utils-kapt/src/main/kotlin/com/github/manosbatsis/kotlin/utils/kapt/dto/strategy/DtoStrategy.kt:45-46 | the fields kept against a name list are exactly the input's fields whose simple name is not listed, in their original order |
| DtoStrategy.IncludeNamesKeeps | kotlin-utils-kapt/src/main/kotlin/com/github/manosbatsis/kotlin/utils/kapt/dto/strategy/DtoStrategy.kt:42-43 | `includeNames` returns the list unchanged when there are no includes, otherwise exactly the fields whose name is included; always an order-preserving sub-list |
| DtoStrategy.ExcludeNamesKeeps | kotlin-utils-kapt/src/main/kotlin/com/github/manosbatsis/kotlin/utils/kapt/dto/strategy/DtoStrategy.kt:45-46 | `excludeNames` returns the list unchanged when there are no excludes, otherwise drops exactly the excluded names; always an order-preserving sub-list |
| DtoStrategy.FilteredKeeps | kotlin-utils-kapt/src/main/kotlin/com/github/manosbatsis/kotlin/utils/kapt/dto/strategy/DtoStrategy.kt:32-48 | `filtered` with the default empty lists is the identity; a field survives iff it passes the includes and is not excluded; order is kept |
| DtoStrategy.ToSimpleNamesAt | kotlin-utils-kapt/src/main/kotlin/com/github/manosbatsis/kotlin/utils/kapt/dto/strategy/DtoStrategy.kt:50 | `toSimpleNames` has one entry per field, the i-th being the i-th field's simple name |
| DtoStrategy.ToSimpleNamesHas | kotlin-utils-kapt/src/main/kotlin/com/github/manosbatsis/kotlin/utils/kapt/dto/strategy/DtoStrategy.kt:50 | a name is among the simple names iff some field carries it |
| ElementInfo.NonUpdatableOnlyNarrows | kotlin-utils-kapt/src/main/kotlin/com/github/manosbatsis/kotlin/utils/kapt/processor/AnnotatedElementInfo.kt:56-57 | `isUpdatable` holds only if the field's own flag does; listing more non-updatable names never makes a field updatable; a listed name is never updatable; with an empty list the flag decides |
| ElementInfo.HasInScopeImmutableFinds | kotlin-utils-kapt/src/main/kotlin/com/github/manosbatsis/kotlin/utils/kapt/processor/AnnotatedElementInfo.kt:111-115 | the `find` for an in-scope immutable field succeeds iff such a field exists |
| ElementInfo.UpdateRequiresNewInstanceFinds | kotlin-utils-kapt/src/main/kotlin/com/github/manosbatsis/kotlin/utils/kapt/processor/AnnotatedElementInfo.kt:111-115 | `updateRequiresNewInstance` holds iff some in-scope primary field is immutable |
| ElementInfo.NewInstanceIgnoresOutOfScopeAndMutable | kotlin-utils-kapt/src/main/kotlin/com/github/manosbatsis/kotlin/utils/kapt/processor/AnnotatedElementInfo.kt:111-115 | appending out-of-scope or mutable fields never changes whether a new instance is required |
| ElementInfo.SimpleNameOrNullString | kotlin-utils-kapt/src/main/kotlin/com/github/manosbatsis/kotlin/utils/kapt/processor/AnnotatedElementInfo.kt:96-97 | the defaulted secondary/mixin simple name is the type's simple name when present and the string "null" when absent |
| ElementInfo.NewAnnotatedElementInfo | kotlin-utils-kapt/src/main/kotlin/com/github/manosbatsis/kotlin/utils/kapt/processor/AnnotatedElementInfo.kt:60-109 | construction fails with IllegalArgument "Primary and secondary target types cannot be the same" iff the primary simple name equals the defaulted secondary one; otherwise every field is the given one, the names are defaulted from the types, the overrides are null and the target-type configuration is the default (skip false, patch false, name "toTargetType", no params) |
| ElementInfo.Checked | kotlin-utils-kapt/src/main/kotlin/com/github/manosbatsis/kotlin/utils/kapt/processor/AnnotatedElementInfo.kt:106-109 | the `init` check rejects exactly the infos whose secondary simple name equals the primary one, with the fixed message, and passes the others unchanged |
| ElementInfo.NullNamedPrimaryRejected | kotlin-utils-kapt/src/main/kotlin/com/github/manosbatsis/kotlin/utils/kapt/processor/AnnotatedElementInfo.kt:96-109 | with no secondary type, a primary type whose simple name is "null" is rejected |
| Strategies.SimpleDtoNameStrategy.MapPackageName | kotlin-utils-kapt/src/main/kotlin/com/github/manosbatsis/kotlin/utils/kapt/dto/strategy/composition/SimpleDtoNameStrategy.kt:20 | package names are kept as they are |
| Strategies.SimpleDtoNameStrategy.GetClassNameSuffix | kotlin-utils-kapt/src/main/kotlin/com/github/manosbatsis/kotlin/utils/kapt/dto/strategy/composition/SimpleDtoNameStrategy.kt:27 | the suffix is the annotation's override when set, else "Dto" |
| Strategies.SimpleDtoNameStrategy.GetClassName | kotlin-utils-kapt/src/main/kotlin/com/github/manosbatsis/kotlin/utils/kapt/dto/strategy/composition/SimpleDtoNameStrategy.kt:22-25 | the DTO class is in the generated package and its simple name is the primary type's simple name followed by the suffix |
| Strategies.NameStrategyFromRoot | kotlin-utils-kapt/src/main/kotlin/com/github/manosbatsis/kotlin/utils/kapt/dto/strategy/composition/SimpleDtoNameStrategy.kt:12-16 | the alternative constructor takes the root's element information and remembers the root |
| Strategies.DefaultClassName | kotlin-utils-kapt/src/main/kotlin/com/github/manosbatsis/kotlin/utils/kapt/dto/strategy/composition/SimpleDtoNameStrategy.kt:22-27 | without a suffix override the DTO of `T` is named `TDto` |
| Strategies.SimpleDtoTypeStrategy.GetRootDtoType | kotlin-utils-kapt/src/main/kotlin/com/github/manosbatsis/kotlin/utils/kapt/dto/strategy/composition/SimpleDtoTypeStrategy.kt:16 | the root DTO type is always the runtime `Dto` interface |
| Strategies.SimpleDtoTypeStrategy.GetDtoInterface | kotlin-utils-kapt/src/main/kotlin/com/github/manosbatsis/kotlin/utils/kapt/dto/strategy/composition/SimpleDtoTypeStrategy.kt:42 | the DTO interface is the annotation's override when set, else `Dto` |
| Strategies.SimpleDtoTypeStrategy.GetDtoTarget | kotlin-utils-kapt/src/main/kotlin/com/github/manosbatsis/kotlin/utils/kapt/dto/strategy/composition/SimpleDtoTypeStrategy.kt:44 | the DTO target is the primary type's Kotlin type name |
| Strategies.SimpleDtoTypeStrategy.AnnotationItems | kotlin-utils-kapt/src/main/kotlin/com/github/manosbatsis/kotlin/utils/kapt/dto/strategy/composition/SimpleDtoTypeStrategy.kt:18-23 | the copied annotations are exactly the primary type's annotations from a copy base package, in order, followed by exactly the mixin's, in order, when there is a mixin; each has a copy base package |
| Strategies.SimpleDtoTypeStrategy.KdocItem | kotlin-utils-kapt/src/main/kotlin/com/github/manosbatsis/kotlin/utils/kapt/dto/strategy/composition/SimpleDtoTypeStrategy.kt:25-28 | the KDoc names the primary type and the DTO interface |
| Strategies.SimpleDtoTypeStrategy.SuperTypeItem | kotlin-utils-kapt/src/main/kotlin/com/github/manosbatsis/kotlin/utils/kapt/dto/strategy/composition/SimpleDtoTypeStrategy.kt:34-40 | the DTO implements the DTO interface parameterised by the DTO target |
| Strategies.SimpleDtoTypeStrategy.AddAnnotations | kotlin-utils-kapt/src/main/kotlin/com/github/manosbatsis/kotlin/utils/kapt/dto/strategy/composition/SimpleDtoTypeStrategy.kt:18-23 | the builder gains exactly the copied annotation items, after what it held |
| Strategies.SimpleDtoTypeStrategy.AddKdoc | kotlin-utils-kapt/src/main/kotlin/com/github/manosbatsis/kotlin/utils/kapt/dto/strategy/composition/SimpleDtoTypeStrategy.kt:25-28 | the builder gains exactly the KDoc item |
| Strategies.SimpleDtoTypeStrategy.AddModifiers | kotlin-utils-kapt/src/main/kotlin/com/github/manosbatsis/kotlin/utils/kapt/dto/strategy/composition/SimpleDtoTypeStrategy.kt:30-32 | the builder gains exactly the `data` modifier |
| Strategies.SimpleDtoTypeStrategy.AddSuperTypes | kotlin-utils-kapt/src/main/kotlin/com/github/manosbatsis/kotlin/utils/kapt/dto/strategy/composition/SimpleDtoTypeStrategy.kt:34-36 | the builder gains exactly the parameterised DTO interface |
| Strategies.AnnotationItemsOf | kotlin-utils-kapt/src/main/kotlin/com/github/manosbatsis/kotlin/utils/kapt/ProcessingEnvironmentAware.kt:231-271 | one annotation item per kept annotation of the type, position by position |
| Strategies.AddTypesAnnotations | kotlin-utils-kapt/src/main/kotlin/com/github/manosbatsis/kotlin/utils/kapt/dto/strategy/composition/SimpleDtoTypeStrategy.kt:20-21 | copying type after type appends the items of each type in turn |
| Strategies.PrimaryThenMixin | kotlin-utils-kapt/src/main/kotlin/com/github/manosbatsis/kotlin/utils/kapt/dto/strategy/composition/SimpleDtoTypeStrategy.kt:18-23 | the items of primary-then-mixin are the primary's items, followed by the mixin's items when there is one; every item is a kept annotation |
| Strategies.AllKept | kotlin-utils-kapt/src/main/kotlin/com/github/manosbatsis/kotlin/utils/kapt/ProcessingEnvironmentAware.kt:231-271 | every annotation copied from one type has a package under a copy base |
| Strategies.LesserComposition.AddAnnotations | kotlin-utils-kapt/src/main/kotlin/com/github/manosbatsis/kotlin/utils/kapt/dto/strategy/composition/DtoStrategyLesserComposition.kt:28 | forwards to the type strategy: the builder gains its annotation items |
| Strategies.LesserComposition.AddKdoc | kotlin-utils-kapt/src/main/kotlin/com/github/manosbatsis/kotlin/utils/kapt/dto/strategy/composition/DtoStrategyLesserComposition.kt:31 | forwards to the type strategy: the builder gains its KDoc item |
| Strategies.LesserComposition.AddModifiers | kotlin-utils-kapt/src/main/kotlin/com/github/manosbatsis/kotlin/utils/kapt/dto/strategy/composition/DtoStrategyLesserComposition.kt:34 | forwards to the type strategy: the builder gains the `data` modifier |
| Strategies.LesserComposition.AddSuperTypes | kotlin-utils-kapt/src/main/kotlin/com/github/manosbatsis/kotlin/utils/kapt/dto/strategy/composition/DtoStrategyLesserComposition.kt:37 | forwards to the type strategy: the builder gains its super-interface |
| Strategies.DefaultLesserComposition | kotlin-utils-kapt/src/main/kotlin/com/github/manosbatsis/kotlin/utils/kapt/dto/strategy/composition/SimpleDtoNameStrategy.kt:7-9 | the default composition uses the simple name and type strategies over the same element information |
| Strategies.ForwardingIsByDelegate | kotlin-utils-kapt/src/main/kotlin/com/github/manosbatsis/kotlin/utils/kapt/dto/strategy/composition/DtoStrategyLesserComposition.kt:18-43 | naming answers depend only on the name strategy and typing answers only on the type strategy |
| Strategies.DefaultCompositionNames | kotlin-utils-kapt/src/main/kotlin/com/github/manosbatsis/kotlin/utils/kapt/dto/strategy/composition/DtoStrategyLesserComposition.kt:18-43 | with the default strategies the DTO is named after the primary type plus suffix, targets the primary's Kotlin type and implements the (possibly overridden) DTO interface of it |
| EnvAware.FieldsOnly | kotlin-utils-kapt/src/main/kotlin/com/github/manosbatsis/kotlin/utils/kapt/ProcessingEnvironmentAware.kt:59 | `fieldsOnly` keeps, in order, exactly the non-static elements of kind FIELD |
| EnvAware.GetterIsAdapterGetter | kotlin-utils-kapt/src/main/kotlin/com/github/manosbatsis/kotlin/utils/kapt/ProcessingEnvironmentAware.kt:61-65 | every method the processor counts as a getter is also a getter for the getter-as-field adapter, which derives a field name for it |
| EnvAware.NonBooleanIsMethodOnlyAdapterGetter | kotlin-utils-kapt/src/main/kotlin/com/github/manosbatsis/kotlin/utils/kapt/ProcessingEnvironmentAware.kt:61-65 | an `is…` method returning a non-boolean is not a getter here, although the adapter would take it |
| EnvAware.SetterNamedAfterField | kotlin-utils-kapt/src/main/kotlin/com/github/manosbatsis/kotlin/utils/kapt/ProcessingEnvironmentAware.kt:67-112 | a one-parameter void method named `set` plus the capitalised field name, taking the field's type, is a compatible setter for it |
| EnvAware.AnyNamedFinds | kotlin-utils-kapt/src/main/kotlin/com/github/manosbatsis/kotlin/utils/kapt/ProcessingEnvironmentAware.kt:411-417 | the direct annotation search succeeds iff some annotation has the qualified name |
| EnvAware.HasAnnotationFinds | kotlin-utils-kapt/src/main/kotlin/com/github/manosbatsis/kotlin/utils/kapt/ProcessingEnvironmentAware.kt:406-426 | `hasAnnotation` holds iff the element or its constructor parameter of the same name carries the annotation |
| EnvAware.NullableUnlessPrimitiveOrNotNull | kotlin-utils-kapt/src/main/kotlin/com/github/manosbatsis/kotlin/utils/kapt/ProcessingEnvironmentAware.kt:392-398 | a primitive is never nullable; any other element is nullable iff `@NotNull` is on neither it nor its constructor parameter |
| EnvAware.Hierarchy | kotlin-utils-kapt/src/main/kotlin/com/github/manosbatsis/kotlin/utils/kapt/ProcessingEnvironmentAware.kt:73-83 | the walk of `Object` or `Any` is empty; a type that reaches no superclass before those (an interface) fails on the cast of the NONE type |
| EnvAware.HierarchyChain | kotlin-utils-kapt/src/main/kotlin/com/github/manosbatsis/kotlin/utils/kapt/ProcessingEnvironmentAware.kt:73-83 | a successful hierarchy starts with the type, links each entry to its superclass, contains no top-level type, and ends at a type whose superclass is `Object` or `Any` |
| EnvAware.GetTypeElementHierarchy | kotlin-utils-kapt/src/main/kotlin/com/github/manosbatsis/kotlin/utils/kapt/ProcessingEnvironmentAware.kt:73-83 | the while loop computes exactly the hierarchy walk, error included |
| EnvAware.Levels | kotlin-utils-kapt/src/main/kotlin/com/github/manosbatsis/kotlin/utils/kapt/ProcessingEnvironmentAware.kt:117-123 | one member list per type of the hierarchy, all members or the instance fields as asked |
| EnvAware.LastInLevels | kotlin-utils-kapt/src/main/kotlin/com/github/manosbatsis/kotlin/utils/kapt/ProcessingEnvironmentAware.kt:131-136 | the member picked for a name carries that name and comes from some level; none is picked only when no level has the name |
| EnvAware.MergeValue | kotlin-utils-kapt/src/main/kotlin/com/github/manosbatsis/kotlin/utils/kapt/ProcessingEnvironmentAware.kt:124-136 | the fold into one map keeps a name iff some level has it, with the last such member of the deepest level |
| EnvAware.MergeKeyed | kotlin-utils-kapt/src/main/kotlin/com/github/manosbatsis/kotlin/utils/kapt/ProcessingEnvironmentAware.kt:124-136 | every entry of the folded map is keyed by its member's simple name |
| EnvAware.AllMembersForHierarchy | kotlin-utils-kapt/src/main/kotlin/com/github/manosbatsis/kotlin/utils/kapt/ProcessingEnvironmentAware.kt:114-146 | `getAllMembersForHierarchy` fails exactly when the hierarchy walk does, with the same cast error |
| EnvAware.MembersHaveDistinctNames | kotlin-utils-kapt/src/main/kotlin/com/github/manosbatsis/kotlin/utils/kapt/ProcessingEnvironmentAware.kt:124-136 | no two members returned share a simple name |
| EnvAware.MostDerivedMemberWins | kotlin-utils-kapt/src/main/kotlin/com/github/manosbatsis/kotlin/utils/kapt/ProcessingEnvironmentAware.kt:115-136 | a name appears among the members iff some type of the hierarchy has it, and its member is the one of the most derived type |
| EnvAware.AtMostOneConstructor | kotlin-utils-kapt/src/main/kotlin/com/github/manosbatsis/kotlin/utils/kapt/ProcessingEnvironmentAware.kt:124-136 | since members are keyed by simple name and constructors are all `<init>`, at most one constructor survives |
| EnvAware.ConstructorKey | kotlin-utils-kapt/src/main/kotlin/com/github/manosbatsis/kotlin/utils/kapt/ProcessingEnvironmentAware.kt:124 | a surviving constructor is stored under the key `<init>` |
| EnvAware.MergeStep | kotlin-utils-kapt/src/main/kotlin/com/github/manosbatsis/kotlin/utils/kapt/ProcessingEnvironmentAware.kt:131-136 | one fold step puts the next type's members into the map accumulated so far |
| EnvAware.PutMembers | kotlin-utils-kapt/src/main/kotlin/com/github/manosbatsis/kotlin/utils/kapt/ProcessingEnvironmentAware.kt:132-134 | the `forEach` loop puts each member into the map in order, as the specification function does |
| EnvAware.GetAllMembersForHierarchy | kotlin-utils-kapt/src/main/kotlin/com/github/manosbatsis/kotlin/utils/kapt/ProcessingEnvironmentAware.kt:114-146 | the imperative walk (hierarchy reversed, maps merged) returns the specified members |
| EnvAware.AdaptGetters | kotlin-utils-kapt/src/main/kotlin/com/github/manosbatsis/kotlin/utils/kapt/ProcessingEnvironmentAware.kt:88-93 | every getter becomes an adapter field with the field name derived from the getter, nothing else is kept, and the result is empty iff there is no getter |
| EnvAware.AdaptedGetter | kotlin-utils-kapt/src/main/kotlin/com/github/manosbatsis/kotlin/utils/kapt/ProcessingEnvironmentAware.kt:89-92 | the adapter wraps the getter, does not report the original kind, sees all members, and is named after the getter |
| EnvAware.FieldsOnlyForHierarchy | kotlin-utils-kapt/src/main/kotlin/com/github/manosbatsis/kotlin/utils/kapt/ProcessingEnvironmentAware.kt:85-97 | for an interface, when asked, the adapted getters of all members; otherwise the hierarchy's instance fields; fails with the hierarchy |
| EnvAware.SettersForHierarchy | kotlin-utils-kapt/src/main/kotlin/com/github/manosbatsis/kotlin/utils/kapt/ProcessingEnvironmentAware.kt:99-104 | the result is an ordered sub-list of the hierarchy's members, all setters |
| EnvAware.AccessibleConstructorParameterFields | kotlin-utils-kapt/src/main/kotlin/com/github/manosbatsis/kotlin/utils/kapt/ProcessingEnvironmentAware.kt:190-222 | fails exactly when the hierarchy walk fails |
| EnvAware.ConstructorFieldsRule | kotlin-utils-kapt/src/main/kotlin/com/github/manosbatsis/kotlin/utils/kapt/ProcessingEnvironmentAware.kt:203-220 | outside the field-less interface case, the result is the fields named like an accessible constructor parameter, in order, unless every parameter name starts with `arg`, in which case all fields are kept |
| EnvAware.GetFieldInfos | kotlin-utils-kapt/src/main/kotlin/com/github/manosbatsis/kotlin/utils/kapt/ProcessingEnvironmentAware.kt:150-165 | one descriptor per field of the hierarchy: in scope unless asked otherwise, updatable iff not `@NoUpdate`, mutable iff public in a non-Kotlin type or a compatible setter exists, a constructor parameter iff among the accessible constructor fields (never for an interface, whose cast fails), never a constructor source |
| EnvAware.GetFieldInfosForConstructor | kotlin-utils-kapt/src/main/kotlin/com/github/manosbatsis/kotlin/utils/kapt/ProcessingEnvironmentAware.kt:167-182 | the container's out-of-scope descriptors, with each field named like a parameter of the constructor turned in scope and marked as a constructor source |
| EnvAware.ConstructorScope | kotlin-utils-kapt/src/main/kotlin/com/github/manosbatsis/kotlin/utils/kapt/ProcessingEnvironmentAware.kt:167-182 | through a constructor, a field is in scope iff a parameter has its name, and is then a constructor source |
| EnvAware.HasBasePackageOf | kotlin-utils-kapt/src/main/kotlin/com/github/manosbatsis/kotlin/utils/kapt/ProcessingEnvironmentAware.kt:224-229 | the early-return loop answers true iff some base package is a string prefix of the package name |
| EnvAware.BasePackageIsStringPrefix | kotlin-utils-kapt/src/main/kotlin/com/github/manosbatsis/kotlin/utils/kapt/ProcessingEnvironmentAware.kt:224-229 | the test is a plain string prefix: a listed base matches every name that continues it, `com.foobar` as well as `com.foo.api`; no bases match nothing, and more bases only widen the match |
| EnvAware.EmptyBasePackageMatchesAll | kotlin-utils-kapt/src/main/kotlin/com/github/manosbatsis/kotlin/utils/kapt/ProcessingEnvironmentAware.kt:224-229 | an empty base package matches every package |
| EnvAware.PrefixedByAnyHasBase | kotlin-utils-kapt/src/main/kotlin/com/github/manosbatsis/kotlin/utils/kapt/ProcessingEnvironmentAware.kt:224-229 | trying the bases in order agrees with "some base prefixes the name" |
| EnvAware.AnnotationsWithBasePackageKeeps | kotlin-utils-kapt/src/main/kotlin/com/github/manosbatsis/kotlin/utils/kapt/ProcessingEnvironmentAware.kt:231-237 | the filtered annotations are, in order, exactly those whose package has a base |
| EnvAware.GetStringValuesList | kotlin-utils-kapt/src/main/kotlin/com/github/manosbatsis/kotlin/utils/kapt/ProcessingEnvironmentAware.kt:606-608 | the string list of the member when the annotation and member exist, else the empty list |
| EnvAware.NextBoundary | kotlin-utils-kapt/src/main/kotlin/com/github/manosbatsis/kotlin/utils/kapt/ProcessingEnvironmentAware.kt:595-598 | `find` returns the first lower-to-upper position at or after the cursor, or none when there is none |
| EnvAware.UnderscoredPlain | kotlin-utils-kapt/src/main/kotlin/com/github/manosbatsis/kotlin/utils/kapt/ProcessingEnvironmentAware.kt:594-603 | text without a match is copied unchanged |
| EnvAware.CamelToUnderscores | kotlin-utils-kapt/src/main/kotlin/com/github/manosbatsis/kotlin/utils/kapt/ProcessingEnvironmentAware.kt:594-603 | the find/appendReplacement/appendTail loop yields the decapitalised input with `_` and the lower-case letter in place of each upper-case letter that follows a lower-case one |
| EnvAware.NoBoundaryOnlyDecapitalizes | kotlin-utils-kapt/src/main/kotlin/com/github/manosbatsis/kotlin/utils/kapt/ProcessingEnvironmentAware.kt:594-603 | without a lower-to-upper step the conversion only decapitalises |
| GetterAdapter.GetterToFieldName | kotlin-utils-kapt/src/main/kotlin/com/github/manosbatsis/kotlin/utils/kapt/dto/strategy/util/GetterAsFieldAdapter.kt:26-32 | the field name drops `is` (two characters) from an `is…` name and the first three characters from any other, then decapitalises as JavaBeans does; a name shorter than three characters not starting with `is` makes the substring fail |
| GetterAdapter.GetterHasFieldName | kotlin-utils-kapt/src/main/kotlin/com/github/manosbatsis/kotlin/utils/kapt/dto/strategy/util/GetterAsFieldAdapter.kt:18-32 | every getter by the adapter's rule has a field name |
| GetterAdapter.GetterAsFieldAdapter.Kind | kotlin-utils-kapt/src/main/kotlin/com/github/manosbatsis/kotlin/utils/kapt/dto/strategy/util/GetterAsFieldAdapter.kt:51 | the adapter reports FIELD unless asked to report the method's own kind |
| GetterAdapter.GetterAsFieldAdapter.EnclosedElements | kotlin-utils-kapt/src/main/kotlin/com/github/manosbatsis/kotlin/utils/kapt/dto/strategy/util/GetterAsFieldAdapter.kt:55 | the adapter has no enclosed elements |
| GetterAdapter.GetterAsFieldAdapter.ConstantValue | kotlin-utils-kapt/src/main/kotlin/com/github/manosbatsis/kotlin/utils/kapt/dto/strategy/util/GetterAsFieldAdapter.kt:57 | the adapter has no constant value |
| GetterAdapter.GetterAsFieldAdapter.AsElement | kotlin-utils-kapt/src/main/kotlin/com/github/manosbatsis/kotlin/utils/kapt/dto/strategy/util/GetterAsFieldAdapter.kt:14-53 | seen as a variable element the adapter is named after the field, has the getter's return type as its type and delegates modifiers and annotations to the getter |
| GetterAdapter.NewAdapter | kotlin-utils-kapt/src/main/kotlin/com/github/manosbatsis/kotlin/utils/kapt/dto/strategy/util/GetterAsFieldAdapter.kt:10-39 | constructing an adapter fails exactly when the getter's name yields no field name, and otherwise keeps its arguments and the derived name |
| GetterAdapter.FromGetterOrNull | kotlin-utils-kapt/src/main/kotlin/com/github/manosbatsis/kotlin/utils/kapt/dto/strategy/util/GetterAsFieldAdapter.kt:34-36 | an adapter with the default arguments exactly for getters, null otherwise |
| GetterAdapter.MutableAsWrittenNeverHolds | kotlin-utils-kapt/src/main/kotlin/com/github/manosbatsis/kotlin/utils/kapt/dto/strategy/util/GetterAsFieldAdapter.kt:41 | as written, `mutable` compares the adapter's own simple name (the field name) with `set` plus the capitalised field name, which never match, so the flag is always false |
| GetterAdapter.MutableDiscrepancy | kotlin-utils-kapt/src/main/kotlin/com/github/manosbatsis/kotlin/utils/kapt/dto/strategy/util/GetterAsFieldAdapter.kt:41 | with a matching setter among the elements the intended flag holds while the written one does not |
| Plugins.DeduplicatedKeeps | kotlin-utils-kapt/src/main/kotlin/com/github/manosbatsis/kotlin/utils/kapt/plugins/AnnotationProcessorPluginService.kt:37 | `toSet` keeps exactly the plugins of the list, each once |
| Plugins.LastMaxIndex | kotlin-utils-kapt/src/main/kotlin/com/github/manosbatsis/kotlin/utils/kapt/plugins/AnnotationProcessorPluginService.kt:45-49 | the reference choice is a position of the non-empty candidate list |
| Plugins.LastMaxIndexIsLastMax | kotlin-utils-kapt/src/main/kotlin/com/github/manosbatsis/kotlin/utils/kapt/plugins/AnnotationProcessorPluginService.kt:45-49 | the reference choice has the highest priority and every later candidate a strictly lower one |
| Plugins.InsertKeeps | kotlin-utils-kapt/src/main/kotlin/com/github/manosbatsis/kotlin/utils/kapt/plugins/AnnotationProcessorPluginService.kt:45-48 | inserting into the stable sort adds exactly the new plugin |
| Plugins.InsertHighest | kotlin-utils-kapt/src/main/kotlin/com/github/manosbatsis/kotlin/utils/kapt/plugins/AnnotationProcessorPluginService.kt:45-48 | a plugin of priority at least everyone's is inserted last (stability: after its equals) |
| Plugins.InsertBelowLast | kotlin-utils-kapt/src/main/kotlin/com/github/manosbatsis/kotlin/utils/kapt/plugins/AnnotationProcessorPluginService.kt:45-48 | a plugin of lower priority than the last leaves the last one last |
| Plugins.SortKeeps | kotlin-utils-kapt/src/main/kotlin/com/github/manosbatsis/kotlin/utils/kapt/plugins/AnnotationProcessorPluginService.kt:45-48 | `sortBy` is a reordering: same length and same plugins |
| Plugins.SortLastIsLastMax | kotlin-utils-kapt/src/main/kotlin/com/github/manosbatsis/kotlin/utils/kapt/plugins/AnnotationProcessorPluginService.kt:45-49 | the last plugin after the stable `sortBy` is the last candidate of highest priority |
| Plugins.AnnotationProcessorPluginService.FindPlugins | kotlin-utils-kapt/src/main/kotlin/com/github/manosbatsis/kotlin/utils/kapt/plugins/AnnotationProcessorPluginService.kt:27-38 | the service loader result is cached the first time a type is asked for and reused afterwards; the answer is the cached list, each plugin once |
| Plugins.AnnotationProcessorPluginService.FindPlugin | kotlin-utils-kapt/src/main/kotlin/com/github/manosbatsis/kotlin/utils/kapt/plugins/AnnotationProcessorPluginService.kt:40-51 | no plugin exactly when there is no candidate, otherwise the last candidate of highest priority; the cache changes as in `findPlugins` |
| Plugins.AnnotationProcessorPluginService.GetPlugin | kotlin-utils-kapt/src/main/kotlin/com/github/manosbatsis/kotlin/utils/kapt/plugins/AnnotationProcessorPluginService.kt:53-56 | the chosen plugin, or an IllegalState error naming the service type and strategy exactly when there is no candidate |
| Plugins.PluginServices.constructor | kotlin-utils-kapt/src/main/kotlin/com/github/manosbatsis/kotlin/utils/kapt/plugins/AnnotationProcessorPluginService.kt:12-13 | the cache starts empty |
| Plugins.PluginServices.GetInstance | kotlin-utils-kapt/src/main/kotlin/com/github/manosbatsis/kotlin/utils/kapt/plugins/AnnotationProcessorPluginService.kt:16-21 | the cached service for a known identity hash, otherwise a fresh service of the loader with no plugins loaded, cached under that hash |
| Plugins.AnnotationProcessorPluginService.constructor | kotlin-utils-kapt/src/main/kotlin/com/github/manosbatsis/kotlin/utils/kapt/plugins/AnnotationProcessorPluginService.kt:7-25 | a new service keeps its class loader and has loaded no plugins |
| Processor.MapPackageNameOfString | kotlin-utils-kapt/src/main/kotlin/com/github/manosbatsis/kotlin/utils/kapt/processor/AnnotatedModelProcessor.kt:57 | the string mapping is the identity |
| Processor.MapPackageName | kotlin-utils-kapt/src/main/kotlin/com/github/manosbatsis/kotlin/utils/kapt/processor/AnnotatedModelProcessor.kt:39-51 | the generated package is the mixin's package when there is a mixin, else the primary type's; the secondary type never matters |
| Processor.EndsWithPastDot | kotlin-utils-kapt/src/main/kotlin/com/github/manosbatsis/kotlin/utils/kapt/processor/AnnotatedModelProcessor.kt:101-134 | a dot-free suffix ends a qualified name iff it ends the part after the last dot |
| Processor.DotInTail | kotlin-utils-kapt/src/main/kotlin/com/github/manosbatsis/kotlin/utils/kapt/processor/AnnotatedModelProcessor.kt:101-134 | a tail starting at or before a dot contains that dot |
| Processor.CanonicalNameAgreesWithSimpleName | kotlin-utils-kapt/src/main/kotlin/com/github/manosbatsis/kotlin/utils/kapt/processor/AnnotatedModelProcessor.kt:101-134 | testing the annotation's canonical name and its simple name for a mixin suffix always agree |
| Processor.GeneratedSourcesRoot | kotlin-utils-kapt/src/main/kotlin/com/github/manosbatsis/kotlin/utils/kapt/processor/AnnotatedModelProcessor.kt:204-208 | the override option if set, else the kapt option, else IllegalState "Can't find the target directory for generated Kotlin files." |
| Processor.IsNonDataClass | kotlin-utils-kapt/src/main/kotlin/com/github/manosbatsis/kotlin/utils/kapt/processor/AnnotatedModelProcessor.kt:244-245 | the annotation's `nonDataClass` value, false when absent |
| Processor.WithoutExcludedKeeps | kotlin-utils-kapt/src/main/kotlin/com/github/manosbatsis/kotlin/utils/kapt/processor/AnnotatedModelProcessor.kt:86-123 | the exclusions drop exactly the named elements and keep the others in order; the default empty exclusions drop nothing |
| Processor.SourceFields | kotlin-utils-kapt/src/main/kotlin/com/github/manosbatsis/kotlin/utils/kapt/processor/AnnotatedModelProcessor.kt:98-124 | a constructor brings its parameters without the excluded names; a class or interface brings its accessible constructor parameter fields and fails when they do |
| Processor.DefaultedArgs | kotlin-utils-kapt/src/main/kotlin/com/github/manosbatsis/kotlin/utils/kapt/processor/AnnotatedModelProcessor.kt:59-74 | the defaults of the twelve-parameter builder: copied packages and ignored properties read from the annotation, no non-updatable properties, the mapped package and the `nonDataClass` flag |
| Processor.SecondaryTarget | kotlin-utils-kapt/src/main/kotlin/com/github/manosbatsis/kotlin/utils/kapt/processor/AnnotatedModelProcessor.kt:144-146 | a secondary type exactly when the processor names the member and the annotation has it |
| Processor.PrimaryArgs | kotlin-utils-kapt/src/main/kotlin/com/github/manosbatsis/kotlin/utils/kapt/processor/AnnotatedModelProcessor.kt:136-161 | the given primary and mixin, the referenced secondary type with its non-excluded instance fields (none without it), the package mapped from primary and mixin |
| Processor.MixinArgs | kotlin-utils-kapt/src/main/kotlin/com/github/manosbatsis/kotlin/utils/kapt/processor/AnnotatedModelProcessor.kt:163-180 | IllegalState "Not a mixin" without a primary target member, IllegalState "Could not find a valid value for " plus the member when the annotation references no type through it, otherwise the referenced type as primary with its fields, the annotated type as mixin and the mixin's package |
| Processor.ArgsFor | kotlin-utils-kapt/src/main/kotlin/com/github/manosbatsis/kotlin/utils/kapt/processor/AnnotatedModelProcessor.kt:95-127 | an element that is not a class, interface or constructor fails with IllegalArgument "Invalid element type, expected a class or constructor"; a mixin annotation makes the element's type the mixin, any other the primary target |
| Processor.ExclusionsNeverReachInfo | kotlin-utils-kapt/src/main/kotlin/com/github/manosbatsis/kotlin/utils/kapt/processor/AnnotatedModelProcessor.kt:86-123 | no excluded name is among the primary, secondary or mixin fields of an info |
| Processor.Build | kotlin-utils-kapt/src/main/kotlin/com/github/manosbatsis/kotlin/utils/kapt/processor/AnnotatedModelProcessor.kt:204-246 | fails with IllegalState "Can't find the target directory for generated Kotlin files." when neither kapt option is set; otherwise fails exactly when primary and defaulted secondary simple names coincide, and else carries the arguments' types, package and one field per variable element |
| Processor.Tagged | kotlin-utils-kapt/src/main/kotlin/com/github/manosbatsis/kotlin/utils/kapt/processor/AnnotatedModelProcessor.kt:95 | each element of a group is paired with the group's annotation, in order |
| Processor.Flatten | kotlin-utils-kapt/src/main/kotlin/com/github/manosbatsis/kotlin/utils/kapt/processor/AnnotatedModelProcessor.kt:93 | the flattened list has one entry per annotated element |
| Processor.FlattenHasEveryElement | kotlin-utils-kapt/src/main/kotlin/com/github/manosbatsis/kotlin/utils/kapt/processor/AnnotatedModelProcessor.kt:93-95 | every element of every group is pending with its own group's annotation |
| Processor.MapOrThrowOnePerElement | kotlin-utils-kapt/src/main/kotlin/com/github/manosbatsis/kotlin/utils/kapt/processor/AnnotatedModelProcessor.kt:93-129 | a map that may throw gives one result per element, in order, iff no element fails, and otherwise the first failure |
| Processor.InfosOfOnePerElement | kotlin-utils-kapt/src/main/kotlin/com/github/manosbatsis/kotlin/utils/kapt/processor/AnnotatedModelProcessor.kt:93-129 | one info per pending element, in order, iff none fails; otherwise the exception of the first failing element; without the kapt options the first element already fails, with its own argument error or the missing-directory IllegalState |
| Processor.OneInfoPerAnnotatedElement | kotlin-utils-kapt/src/main/kotlin/com/github/manosbatsis/kotlin/utils/kapt/processor/AnnotatedModelProcessor.kt:88-130 | a round without failure yields as many infos as there are annotated elements |
| Processor.InvalidKindFailsRound | kotlin-utils-kapt/src/main/kotlin/com/github/manosbatsis/kotlin/utils/kapt/processor/AnnotatedModelProcessor.kt:126 | any annotated element of another kind makes the whole round fail |
| Processor.Process | kotlin-utils-kapt/src/main/kotlin/com/github/manosbatsis/kotlin/utils/kapt/processor/AnnotatedModelProcessor.kt:195-202 | annotations are never claimed; without supported annotation types nothing is handed on; types that annotate nothing hand on an empty list; without the kapt options any annotated element makes the round fail; otherwise the infos are handed on, or the round fails with the first exception |
| Text.RemovePrefix | kotlin-utils-kapt/src/main/kotlin/com/github/manosbatsis/kotlin/utils/kapt/ProcessingEnvironmentAware.kt:110 | `removePrefix` strips the prefix exactly when the string starts with it and otherwise returns the string |
| Text.Decapitalize | kotlin-utils-kapt/src/main/kotlin/com/github/manosbatsis/kotlin/utils/kapt/ProcessingEnvironmentAware.kt:110 | `decapitalize` lower-cases the first character only and keeps the length |
| Text.Capitalize | kotlin-utils-kapt/src/main/kotlin/com/github/manosbatsis/kotlin/utils/kapt/dto/strategy/util/GetterAsFieldAdapter.kt:41 | `capitalize` upper-cases the first character only and keeps the length |
| Text.IntrospectorDecapitalize | kotlin-utils-kapt/src/main/kotlin/com/github/manosbatsis/kotlin/utils/kapt/dto/strategy/util/GetterAsFieldAdapter.kt:29 | JavaBeans decapitalisation keeps a name starting with two capitals and lower-cases the first character of any other |
| Text.DecapitalizeCapitalize | kotlin-utils-kapt/src/main/kotlin/com/github/manosbatsis/kotlin/utils/kapt/ProcessingEnvironmentAware.kt:106-112 | the setter name `set` plus the capitalised field name leads back to the field name when that name does not start with a capital |
| Text.DecapitalizeCapitalizeLoses | kotlin-utils-kapt/src/main/kotlin/com/github/manosbatsis/kotlin/utils/kapt/ProcessingEnvironmentAware.kt:106-112 | a field name starting with a capital is never matched by its own setter |
| LinkedMaps.Put | kotlin-utils-kapt/src/main/kotlin/com/github/manosbatsis/kotlin/utils/kapt/ProcessingEnvironmentAware.kt:133 | assigning into the insertion-ordered map sets the value and appends the key only when it is new |
| LinkedMaps.Values | kotlin-utils-kapt/src/main/kotlin/com/github/manosbatsis/kotlin/utils/kapt/ProcessingEnvironmentAware.kt:145 | `values.toList()` lists the values in key insertion order |
| LinkedMaps.LastWithKey | kotlin-utils-kapt/src/main/kotlin/com/github/manosbatsis/kotlin/utils/kapt/ProcessingEnvironmentAware.kt:124 | the last element with a key comes from the list and has that key; there is none iff no element has it |
| LinkedMaps.PutAllValue | kotlin-utils-kapt/src/main/kotlin/com/github/manosbatsis/kotlin/utils/kapt/ProcessingEnvironmentAware.kt:124-134 | after putting a list in, a key is present iff it was or some element has it, with the last such element's value |
| LinkedMaps.PutAllKeyed | kotlin-utils-kapt/src/main/kotlin/com/github/manosbatsis/kotlin/utils/kapt/ProcessingEnvironmentAware.kt:124-134 | putting elements under their own keys keeps every entry keyed by its value |
| LegacyMembers.Comma | kotlin-utils-kapt/src/main/kotlin/com/github/manotbatsis/kotlin/utils/kapt/dto/strategy/DtoMembersStrategy.kt:105 | the separator is a comma exactly for every field but the last, and empty otherwise |
| LegacyMembers.PatchLineDeterminesField | kotlin-utils-kapt/src/main/kotlin/com/github/manotbatsis/kotlin/utils/kapt/dto/strategy/DtoMembersStrategy.kt:90-93 | two patch lines are equal iff they are for the same field with the same separator |
| LegacyMembers.AltLineDeterminesField | kotlin-utils-kapt/src/main/kotlin/com/github/manotbatsis/kotlin/utils/kapt/dto/strategy/DtoMembersStrategy.kt:95-99 | two alternative-constructor lines are equal iff they are for the same field with the same separator |
| LegacyMembers.MapLineAssertsNonNull | kotlin-utils-kapt/src/main/kotlin/com/github/manotbatsis/kotlin/utils/kapt/dto/strategy/DtoMembersStrategy.kt:85-88 | the mapping line asserts `!!` on the DTO's value exactly when the field is not nullable |
| LegacyMembers.EndsWithCommaIffSeparator | kotlin-utils-kapt/src/main/kotlin/com/github/manotbatsis/kotlin/utils/kapt/dto/strategy/DtoMembersStrategy.kt:105 | a line ends with a comma exactly when its separator is one |
| LegacyMembers.OnlyTheLastFieldHasNoComma | kotlin-utils-kapt/src/main/kotlin/com/github/manotbatsis/kotlin/utils/kapt/dto/strategy/DtoMembersStrategy.kt:85-105 | the patch, mapping and alternative-constructor lines of a field end with a comma iff it is not the last field |
| LegacyMembers.LastCharOfNamed | kotlin-utils-kapt/src/main/kotlin/com/github/manotbatsis/kotlin/utils/kapt/dto/strategy/DtoMembersStrategy.kt:92-98 | a line ending in a comma-free field name does not end with a comma |
| LegacyMembers.PropertyType | kotlin-utils-kapt/src/main/kotlin/com/github/manotbatsis/kotlin/utils/kapt/dto/strategy/DtoMembersStrategy.kt:79-80 | the DTO property type is the field's type made nullable |
| LegacyMembers.Lines | kotlin-utils-kapt/src/main/kotlin/com/github/manotbatsis/kotlin/utils/kapt/dto/strategy/DtoMembersStrategy.kt:104 | the first `n` contributions, one per field, in order |
| LegacyMembers.FieldContribution | kotlin-utils-kapt/src/main/kotlin/com/github/manotbatsis/kotlin/utils/kapt/dto/strategy/DtoMembersStrategy.kt:108-139 | each field's property is public, mutable, nullable and initialised from a constructor parameter of the same name and type with the field's default; it carries exactly the field's annotations from a copied base package |
| LegacyMembers.AddAllSnoc | kotlin-utils-kapt/src/main/kotlin/com/github/manotbatsis/kotlin/utils/kapt/dto/strategy/DtoMembersStrategy.kt:104 | one more field is one more step of the pass |
| LegacyMembers.PropertyItems | kotlin-utils-kapt/src/main/kotlin/com/github/manotbatsis/kotlin/utils/kapt/dto/strategy/DtoMembersStrategy.kt:116 | one property item per contribution, in order |
| LegacyMembers.Parameters | kotlin-utils-kapt/src/main/kotlin/com/github/manotbatsis/kotlin/utils/kapt/dto/strategy/DtoMembersStrategy.kt:111-113 | one constructor parameter per contribution, in order |
| LegacyMembers.Patches | kotlin-utils-kapt/src/main/kotlin/com/github/manotbatsis/kotlin/utils/kapt/dto/strategy/DtoMembersStrategy.kt:118 | one patch line per contribution, in order |
| LegacyMembers.Mappings | kotlin-utils-kapt/src/main/kotlin/com/github/manotbatsis/kotlin/utils/kapt/dto/strategy/DtoMembersStrategy.kt:120 | one mapping line per contribution, in order |
| LegacyMembers.Alts | kotlin-utils-kapt/src/main/kotlin/com/github/manotbatsis/kotlin/utils/kapt/dto/strategy/DtoMembersStrategy.kt:122 | one alternative-constructor line per contribution, in order |
| LegacyMembers.AddAllItems | kotlin-utils-kapt/src/main/kotlin/com/github/manotbatsis/kotlin/utils/kapt/dto/strategy/DtoMembersStrategy.kt:104-125 | a pass appends one property per field to the type and one parameter per field to the constructor, in order |
| LegacyMembers.AddAllBodies | kotlin-utils-kapt/src/main/kotlin/com/github/manotbatsis/kotlin/utils/kapt/dto/strategy/DtoMembersStrategy.kt:104-125 | a pass appends each field's line to the patch, mapping and alternative-constructor bodies (and to the creator only when it has one), and leaves the bodies it does not write unchanged |
| LegacyMembers.PassLines | kotlin-utils-kapt/src/main/kotlin/com/github/manotbatsis/kotlin/utils/kapt/dto/strategy/DtoMembersStrategy.kt:85-122 | a whole pass yields, field by field, `x = this.x ?: original.x`, `x = this.x` (with `!!` when not nullable) and `x = original.x`, each with a comma but the last |
| LegacyMembers.MemberBuilders.Snapshot | kotlin-utils-kapt/src/main/kotlin/com/github/manotbatsis/kotlin/utils/kapt/dto/strategy/DtoMembersStrategy.kt:51-69 | the state of all builders, with the type builder's items |
| LegacyMembers.MemberBuilders.constructor | kotlin-utils-kapt/src/main/kotlin/com/github/manotbatsis/kotlin/utils/kapt/dto/strategy/DtoMembersStrategy.kt:51-69 | the builders start with no parameters and the given openings of the bodies |
| LegacyMembers.MemberBuilders.AddField | kotlin-utils-kapt/src/main/kotlin/com/github/manotbatsis/kotlin/utils/kapt/dto/strategy/DtoMembersStrategy.kt:105-124 | one field's property, parameter and lines are added to the builders the mode names |
| LegacyMembers.MemberBuilders.AddFields | kotlin-utils-kapt/src/main/kotlin/com/github/manotbatsis/kotlin/utils/kapt/dto/strategy/DtoMembersStrategy.kt:104-125 | the `forEachIndexed` loop leaves the builders as the whole pass specifies |
| LegacyMembers.OriginalParameter | kotlin-utils-kapt/src/main/kotlin/com/github/manotbatsis/kotlin/utils/kapt/dto/strategy/DtoMembersStrategy.kt:49 | the `original` parameter has the primary type, non-null, without default |
| LegacyMembers.MapClosing | kotlin-utils-kapt/src/main/kotlin/com/github/manotbatsis/kotlin/utils/kapt/dto/strategy/DtoMembersStrategy.kt:172-177 | the mapping body closes the call, returns the instance (when the generator does), and rethrows any exception as the insufficient-mapping exception |
| LegacyMembers.Closed | kotlin-utils-kapt/src/main/kotlin/com/github/manotbatsis/kotlin/utils/kapt/dto/strategy/DtoMembersStrategy.kt:165-185 | finalising appends the patch and mapping closings and the four members, and leaves parameters and other bodies unchanged |
| LegacyMembers.ClosedPassItems | kotlin-utils-kapt/src/main/kotlin/com/github/manotbatsis/kotlin/utils/kapt/dto/strategy/DtoMembersStrategy.kt:101-185 | after a closed pass the type holds its earlier items, one property per field, then the four members; the patch body grows by the fields plus two lines and the mapping body by the fields plus six |
| LegacyDtoStrategy.DefaultContext | kotlin-utils-kapt/src/main/kotlin/com/github/manotbatsis/kotlin/utils/kapt/dto/DtoInputContext.kt:12-19 | a context with the declared defaults has no fields and no annotation packages |
| LegacyDtoStrategy.MapPackageName | kotlin-utils-kapt/src/main/kotlin/com/github/manotbatsis/kotlin/utils/kapt/dto/strategy/DtoNameStrategy.kt:23-24 | the mapped package is the original followed by ".generated" |
| LegacyDtoStrategy.UnmapPackageName | kotlin-utils-kapt/src/main/kotlin/com/github/manotbatsis/kotlin/utils/kapt/dto/strategy/DtoNameStrategy.kt:23-24 | a package is a mapped one exactly when it ends with ".generated" |
| LegacyDtoStrategy.UnmapAfterMap | kotlin-utils-kapt/src/main/kotlin/com/github/manotbatsis/kotlin/utils/kapt/dto/strategy/DtoNameStrategy.kt:23-24 | unmapping undoes mapping |
| LegacyDtoStrategy.MapAfterUnmap | kotlin-utils-kapt/src/main/kotlin/com/github/manotbatsis/kotlin/utils/kapt/dto/strategy/DtoNameStrategy.kt:23-24 | mapping undoes unmapping |
| LegacyDtoStrategy.SimpleDtoNameStrategy.GetClassName | kotlin-utils-kapt/src/main/kotlin/com/github/manotbatsis/kotlin/utils/kapt/dto/strategy/DtoNameStrategy.kt:26-28 | the DTO is the original's simple name plus "Dto", in the mapped package |
| LegacyDtoStrategy.GeneratedPackageIsNeverOriginal | kotlin-utils-kapt/src/main/kotlin/com/github/manotbatsis/kotlin/utils/kapt/dto/strategy/DtoNameStrategy.kt:23-28 | the DTO never lands in the original package, and types of different packages never share a DTO package |
| LegacyDtoStrategy.SimpleDtoTypeStrategy.AddAnnotations | kotlin-utils-kapt/src/main/kotlin/com/github/manotbatsis/kotlin/utils/kapt/dto/strategy/DtoTypeStrategy.kt:34-36 | the builder gains the original type's annotations from a copied package |
| LegacyDtoStrategy.SimpleDtoTypeStrategy.AddKdoc | kotlin-utils-kapt/src/main/kotlin/com/github/manotbatsis/kotlin/utils/kapt/dto/strategy/DtoTypeStrategy.kt:38-40 | the builder gains the KDoc naming the original type and `Dto` |
| LegacyDtoStrategy.SimpleDtoTypeStrategy.AddModifiers | kotlin-utils-kapt/src/main/kotlin/com/github/manotbatsis/kotlin/utils/kapt/dto/strategy/DtoTypeStrategy.kt:42-44 | the builder gains the `data` modifier |
| LegacyDtoStrategy.SimpleDtoTypeStrategy.AddSuperTypes | kotlin-utils-kapt/src/main/kotlin/com/github/manotbatsis/kotlin/utils/kapt/dto/strategy/DtoTypeStrategy.kt:46-48 | the builder gains `Dto` parameterised by the original type |
| LegacyDtoStrategy.DefaultValueExpression | kotlin-utils-kapt/src/main/kotlin/com/github/manotbatsis/kotlin/utils/kapt/dto/strategy/DtoMembersStrategy.kt:82-83 | a field's default is its `DefaultValue` annotation's value, else "null" |
| LegacyDtoStrategy.SimpleDtoMembersStrategy.constructor | kotlin-utils-kapt/src/main/kotlin/com/github/manotbatsis/kotlin/utils/kapt/dto/strategy/DtoMembersStrategy.kt:43-69 | a new strategy opens the patch body with the copy call, the mapping body with `try {` and the instance call, and the alternative constructor with an empty line |
| LegacyDtoStrategy.SimpleDtoMembersStrategy.PassOf | kotlin-utils-kapt/src/main/kotlin/com/github/manotbatsis/kotlin/utils/kapt/dto/strategy/DtoMembersStrategy.kt:101-110 | the pass is over exactly the given fields |
| LegacyDtoStrategy.SimpleDtoMembersStrategy.ProcessFields | kotlin-utils-kapt/src/main/kotlin/com/github/manotbatsis/kotlin/utils/kapt/dto/strategy/DtoMembersStrategy.kt:101-127 | every field's lines are added in order, then `finalize` runs exactly once |
| LegacyDtoStrategy.SimpleDtoMembersStrategy.Finalize | kotlin-utils-kapt/src/main/kotlin/com/github/manotbatsis/kotlin/utils/kapt/dto/strategy/DtoMembersStrategy.kt:165-185 | the patch and mapping bodies are closed and the primary constructor, alternative constructor and two functions are added |
| LegacyDtoStrategy.ProcessedParametersAndMapping | kotlin-utils-kapt/src/main/kotlin/com/github/manotbatsis/kotlin/utils/kapt/dto/strategy/DtoMembersStrategy.kt:110-177 | each field's constructor parameter is nullable with its default, and the mapping body ends with the return and the catch that rethrows the insufficient-mapping exception |
| LegacyDtoStrategy.ProcessedProperties | kotlin-utils-kapt/src/main/kotlin/com/github/manotbatsis/kotlin/utils/kapt/dto/strategy/DtoMembersStrategy.kt:114-184 | processing keeps the type's items, then adds one nullable mutable property per field, then the four members |
| LegacyDtoStrategy.DtoStrategyComposition.DtoNameStrategy | kotlin-utils-kapt/src/main/kotlin/com/github/manotbatsis/kotlin/utils/kapt/dto/strategy/DtoStrategyComposition.kt:24-29 | the simple composition makes the simple name strategy over the context |
| LegacyDtoStrategy.DtoStrategyComposition.DtoTypeStrategy | kotlin-utils-kapt/src/main/kotlin/com/github/manotbatsis/kotlin/utils/kapt/dto/strategy/DtoStrategyComposition.kt:38-43 | the simple composition makes the simple type strategy over the context |
| LegacyDtoStrategy.DtoStrategyComposition.DtoMembersStrategy | kotlin-utils-kapt/src/main/kotlin/com/github/manotbatsis/kotlin/utils/kapt/dto/strategy/DtoStrategyComposition.kt:31-36 | the simple composition makes a fresh simple members strategy over the context |
| LegacyDtoStrategy.CompositeDtoStrategy.constructor | kotlin-utils-kapt/src/main/kotlin/com/github/manotbatsis/kotlin/utils/kapt/dto/strategy/CompositeDtoStrategy.kt:13-28 | each strategy not given defaults to the simple one over the same context |
| LegacyDtoStrategy.CompositeDtoStrategy.FromComposition | kotlin-utils-kapt/src/main/kotlin/com/github/manotbatsis/kotlin/utils/kapt/dto/strategy/CompositeDtoStrategy.kt:31-41 | the three strategies come from the composition's factories |
| LegacyDtoStrategy.CompositeDtoStrategy.GetFieldsToProcess | kotlin-utils-kapt/src/main/kotlin/com/github/manotbatsis/kotlin/utils/kapt/dto/strategy/CompositeDtoStrategy.kt:65-67 | the context's fields when there are any, otherwise the type's accessible constructor-parameter fields |
| LegacyDtoStrategy.CompositeDtoStrategy.AddMembers | kotlin-utils-kapt/src/main/kotlin/com/github/manotbatsis/kotlin/utils/kapt/dto/strategy/CompositeDtoStrategy.kt:61-63 | adding members is processing exactly the fields to process |
| LegacyDtoStrategy.CompositeDtoStrategy.DtoTypeSpecBuilder | kotlin-utils-kapt/src/main/kotlin/com/github/manotbatsis/kotlin/utils/kapt/dto/strategy/CompositeDtoStrategy.kt:45-57 | a class named by the name strategy gets the supertype, modifiers, KDoc, annotations and members in that order, then one type variable per type parameter |
| LegacyKaptStrategy.SimpleDtoNameStrategy.MapPackageName | kotlin-utils-kapt/src/main/kotlin/com/github/manosbatsis/kotlin/utils/kapt/dto/strategy/DtoNameStrategy.kt:19 | package names are kept as they are |
| LegacyKaptStrategy.SimpleDtoNameStrategy.GetClassNameSuffix | kotlin-utils-kapt/src/main/kotlin/com/github/manosbatsis/kotlin/utils/kapt/dto/strategy/DtoNameStrategy.kt:26 | the suffix is always "Dto", whatever the annotation overrides |
| LegacyKaptStrategy.SimpleDtoNameStrategy.GetClassName | kotlin-utils-kapt/src/main/kotlin/com/github/manosbatsis/kotlin/utils/kapt/dto/strategy/DtoNameStrategy.kt:21-24 | the generated package and the primary type's simple name plus "Dto" |
| LegacyKaptStrategy.NameAgreesWithComposition | kotlin-utils-kapt/src/main/kotlin/com/github/manosbatsis/kotlin/utils/kapt/dto/strategy/DtoNameStrategy.kt:21-26 | this name strategy and the composition's agree on the package always and on the name exactly when no other suffix is overridden |
| LegacyKaptStrategy.DefaultCandidates | kotlin-utils-kapt/src/main/kotlin/com/github/manosbatsis/kotlin/utils/kapt/dto/strategy/DtoMembersStrategy.kt:133-137 | the candidates end with the field itself, after the same-named mixin field when there is one |
| LegacyKaptStrategy.FirstDefault | kotlin-utils-kapt/src/main/kotlin/com/github/manosbatsis/kotlin/utils/kapt/dto/strategy/DtoMembersStrategy.kt:137-139 | the first `DefaultValue` among the candidates; none exactly when no candidate has one |
| LegacyKaptStrategy.DefaultValueExpression | kotlin-utils-kapt/src/main/kotlin/com/github/manosbatsis/kotlin/utils/kapt/dto/strategy/DtoMembersStrategy.kt:132-143 | the default of the first same-named mixin field when it has one, else the field's own, else "null" |
| LegacyKaptStrategy.OwnDefaultWithoutMixin | kotlin-utils-kapt/src/main/kotlin/com/github/manosbatsis/kotlin/utils/kapt/dto/strategy/DtoMembersStrategy.kt:132-140 | without a same-named mixin field the field's own default decides |
| LegacyKaptStrategy.SimpleDtoMembersStrategy.constructor | kotlin-utils-kapt/src/main/kotlin/com/github/manosbatsis/kotlin/utils/kapt/dto/strategy/DtoMembersStrategy.kt:73-101 | a new strategy opens the patch body with the copy call, the mapping body with `try {` and the returning call, the alternative constructor with an empty line and the creator with the DTO call |
| LegacyKaptStrategy.SimpleDtoMembersStrategy.PassOf | kotlin-utils-kapt/src/main/kotlin/com/github/manosbatsis/kotlin/utils/kapt/dto/strategy/DtoMembersStrategy.kt:182-187 | the pass is over exactly the given fields |
| LegacyKaptStrategy.SimpleDtoMembersStrategy.ProcessFields | kotlin-utils-kapt/src/main/kotlin/com/github/manosbatsis/kotlin/utils/kapt/dto/strategy/DtoMembersStrategy.kt:182-225 | each field adds a property, a parameter and one line to the patch, mapping, alternative-constructor and creator bodies |
| LegacyKaptStrategy.SimpleDtoMembersStrategy.ProcessDtoOnlyFields | kotlin-utils-kapt/src/main/kotlin/com/github/manosbatsis/kotlin/utils/kapt/dto/strategy/DtoMembersStrategy.kt:171-180 | each DTO-only field adds a property and a parameter only |
| LegacyKaptStrategy.SimpleDtoMembersStrategy.Finished | kotlin-utils-kapt/src/main/kotlin/com/github/manosbatsis/kotlin/utils/kapt/dto/strategy/DtoMembersStrategy.kt:294-323 | finalising closes the creator with `)`, the patch with the call and return, and the mapping with the catch (no second return), and adds the final members |
| LegacyKaptStrategy.SimpleDtoMembersStrategy.Finalize | kotlin-utils-kapt/src/main/kotlin/com/github/manosbatsis/kotlin/utils/kapt/dto/strategy/DtoMembersStrategy.kt:294-327 | the builders become exactly what finalising specifies |
| LegacyKaptStrategy.PassesRouteLines | kotlin-utils-kapt/src/main/kotlin/com/github/manosbatsis/kotlin/utils/kapt/dto/strategy/DtoMembersStrategy.kt:171-225 | `processFields` gives the creator exactly the alternative constructor's lines and every body one line per field; `processDtoOnlyFields` leaves every body unchanged; both add the same properties and parameters |
| LegacyKaptStrategy.FinishedParametersAndMapping | kotlin-utils-kapt/src/main/kotlin/com/github/manosbatsis/kotlin/utils/kapt/dto/strategy/DtoMembersStrategy.kt:227-312 | each parameter is nullable with the mixin-first default, and the finalised mapping body ends with the closing call and the catch that rethrows the insufficient-mapping exception |
| LegacyEnvAware.AccessibleConstructorParameterFieldsKeeps | kotlin-utils-kapt/src/main/kotlin/com/github/manotbatsis/kotlin/utils/kapt/ProcessingEnvironmentAware.kt:56-74 | the result keeps, in member order, exactly the non-static fields named like a constructor parameter that is neither private nor protected; it is empty when no such parameter exists |
| LegacyEnvAware.KaptRuleDropsStaticFields | kotlin-utils-kapt/src/main/kotlin/com/github/manotbatsis/kotlin/utils/kapt/ProcessingEnvironmentAware.kt:56-74 | this rule gives the same list as the older utilities' rule with the static fields removed |
| LegacyUtils.AccessibleConstructorParameterFieldsKeeps | kotlin-utils-kapt/src/main/kotlin/com/github/manotbatsis/kotlin/utils/ProcessingEnvironmentAware.kt:53-67 | the result keeps, in member order, exactly the fields (static or not) named like an accessible constructor parameter; it is empty when no such parameter exists |
| LegacyUtils.DtoClassName | kotlin-utils-kapt/src/main/kotlin/com/github/manotbatsis/kotlin/utils/ProcessingEnvironmentAware.kt:72-73 | the DTO goes in the target package, not a mapped one, and is named after the type with "Dto" added |
| LegacyUtils.DtoSpecBuilder | kotlin-utils-kapt/src/main/kotlin/com/github/manotbatsis/kotlin/utils/ProcessingEnvironmentAware.kt:70-148 | the builder is fresh, has the DTO class name and holds the header, one property per field and the closing members |
| LegacyUtils.GeneratedProperties | kotlin-utils-kapt/src/main/kotlin/com/github/manotbatsis/kotlin/utils/ProcessingEnvironmentAware.kt:72-120 | the type starts with its three header items, then has a public, mutable, nullable property for each field, initialised from the parameter of the same name |
| LegacyUtils.GeneratedParameters | kotlin-utils-kapt/src/main/kotlin/com/github/manotbatsis/kotlin/utils/ProcessingEnvironmentAware.kt:112-116 | there is one constructor parameter per field, named after it, nullable, with the default "null" |
| LegacyUtils.MappingIsWrapped | kotlin-utils-kapt/src/main/kotlin/com/github/manotbatsis/kotlin/utils/ProcessingEnvironmentAware.kt:104-142 | the mapping body opens `try {`, returns the built instance and rethrows any exception as the insufficient-mapping exception |
| LegacyTypeSpecBuilder.DefaultContext | kotlin-utils-kapt/src/main/kotlin/com/github/manotbatsis/kotlin/utils/dto/DtoTypeSpecBuilder.kt:9-14 | by default there are no fields, the target package is the type's own and no annotation packages are copied |
| LegacyTypeSpecBuilder.DefaultDtoTypeSpecBuilderStrategy.MapPackageName | kotlin-utils-kapt/src/main/kotlin/com/github/manotbatsis/kotlin/utils/dto/DtoTypeSpecBuilderStrategy.kt:92 | the mapped package starts with the original one and is longer by ".generated" |
| LegacyTypeSpecBuilder.DefaultDtoTypeSpecBuilderStrategy.GetClassName | kotlin-utils-kapt/src/main/kotlin/com/github/manotbatsis/kotlin/utils/dto/DtoTypeSpecBuilderStrategy.kt:114-115 | the DTO goes in the context's target package and is named after the type with "Dto" added |
| LegacyTypeSpecBuilder.DefaultDtoTypeSpecBuilderStrategy.GetFieldsToProcess | kotlin-utils-kapt/src/main/kotlin/com/github/manotbatsis/kotlin/utils/dto/DtoTypeSpecBuilderStrategy.kt:197-199 | the fields given in the context when there are any; otherwise the type's accessible constructor-parameter fields |
| LegacyTypeSpecBuilder.DefaultDtoTypeSpecBuilderStrategy.AddMembers | kotlin-utils-kapt/src/main/kotlin/com/github/manotbatsis/kotlin/utils/dto/DtoTypeSpecBuilderStrategy.kt:117-195 | the type's items become what adding every field to process and closing the bodies gives |
| LegacyTypeSpecBuilder.DefaultDtoTypeSpecBuilderStrategy.DtoTypeSpecBuilder | kotlin-utils-kapt/src/main/kotlin/com/github/manotbatsis/kotlin/utils/dto/DtoTypeSpecBuilderStrategy.kt:78-90 | a fresh builder with the DTO class name, holding the header, then the members, then one type variable per type parameter |
| LegacyTypeSpecBuilder.OwnDefault | kotlin-utils-kapt/src/main/kotlin/com/github/manotbatsis/kotlin/utils/dto/DtoTypeSpecBuilderStrategy.kt:155-156 | a field's `DefaultValue` when it has one, otherwise "null" |
| LegacyTypeSpecBuilder.ClassNameIgnoresMappedPackage | kotlin-utils-kapt/src/main/kotlin/com/github/manotbatsis/kotlin/utils/dto/DtoTypeSpecBuilderStrategy.kt:92-115 | the DTO's package is never the mapped package, and with the default context it is the original type's own package |
| LegacyTypeSpecBuilder.MembersAddedKeepsItems | kotlin-utils-kapt/src/main/kotlin/com/github/manotbatsis/kotlin/utils/dto/DtoTypeSpecBuilderStrategy.kt:148-194 | adding members keeps the existing items as a prefix, then adds one property per field to process, then four closing members |
| LegacyTypeSpecBuilder.MembersAddedParameters | kotlin-utils-kapt/src/main/kotlin/com/github/manotbatsis/kotlin/utils/dto/DtoTypeSpecBuilderStrategy.kt:153-159 | there is one constructor parameter per field to process, named after it, nullable, with its own `DefaultValue` or "null" |
| Api.ErrNull | kotlin-utils-api/src/main/kotlin/com/github/manosbatsis/kotlin/utils/api/dto.kt:7-9 | never returns normally: it fails with an illegal-argument error whose message is the fixed prefix followed by the field name |
| Api.InstanceErrNull | kotlin-utils-api/src/main/kotlin/com/github/manosbatsis/kotlin/utils/api/dto.kt:13 | a DTO's own `errNull` fails with the same error as the companion's |
| Api.ErrNullNamesField | kotlin-utils-api/src/main/kotlin/com/github/manosbatsis/kotlin/utils/api/dto.kt:7-9 | the error tells field names apart: equal errors come from equal names |
| Api.DefaultValueOf | kotlin-utils-api/src/main/kotlin/com/github/manosbatsis/kotlin/utils/api/dto.kt:34-37 | a `DefaultValue` keeps its expression and is not nullable unless stated |
| Assignment.AssignmentContext.FallbackValue | kotlin-utils-kapt/src/main/kotlin/com/github/manosbatsis/kotlin/utils/kapt/dto/strategy/composition/AssignmentContext.kt:8-13 | the empty context has no fallback text; any other context has its own |
| Assignment.AssignmentContext.FallbackArgs | kotlin-utils-kapt/src/main/kotlin/com/github/manosbatsis/kotlin/utils/kapt/dto/strategy/composition/AssignmentContext.kt:8-13 | the empty context has no fallback arguments; any other context has its own |
| Assignment.AssignmentContext.WithFallbackValue | kotlin-utils-kapt/src/main/kotlin/com/github/manosbatsis/kotlin/utils/kapt/dto/strategy/composition/AssignmentContext.kt:17-18 | only the fallback text changes; source, target and arguments stay |
| Assignment.AssignmentContext.WithFallbackArg | kotlin-utils-kapt/src/main/kotlin/com/github/manosbatsis/kotlin/utils/kapt/dto/strategy/composition/AssignmentContext.kt:20-21 | only the arguments change, to the single given one |
| Assignment.AssignmentContext.WithFallbackArgs | kotlin-utils-kapt/src/main/kotlin/com/github/manosbatsis/kotlin/utils/kapt/dto/strategy/composition/AssignmentContext.kt:23-24 | only the arguments change, to the given ones |
| CodeSpec.Line | kotlin-utils-kapt/src/main/kotlin/com/github/manosbatsis/kotlin/utils/kapt/dto/strategy/composition/DtoMembersStrategy.kt:19 | a statement without format arguments |
| CodeSpec.AddStatement | kotlin-utils-kapt/src/main/kotlin/com/github/manosbatsis/kotlin/utils/kapt/ProcessingEnvironmentAware.kt:589-592 | a missing statement leaves the block unchanged; a present one is appended after the existing lines |
| CodeSpec.TypeSpecBuilder.Add | kotlin-utils-kapt/src/main/kotlin/com/github/manosbatsis/kotlin/utils/kapt/dto/strategy/composition/DtoStrategyComposition.kt:24-27 | the items are appended after those already added, in order |
| MemberStatements.MaybeCheckForNullKeeps | kotlin-utils-kapt/src/main/kotlin/com/github/manosbatsis/kotlin/utils/kapt/dto/strategy/composition/SimpleDtoMembersStrategy.kt:218-235 | the context is kept or replaced by the empty one, and kept exactly when a nullable source flows into a non-null target |
| MemberStatements.TargetContextAgreesWithNullCheck | kotlin-utils-kapt/src/main/kotlin/com/github/manosbatsis/kotlin/utils/kapt/dto/strategy/composition/SimpleDtoMembersStrategy.kt:128-138 | for the DTO property type, the target context is the outbound one and has a fallback exactly when `maybeCheckForNull` keeps the outbound context; the fallback names the field |
| MemberStatements.OriginalReadContexts | kotlin-utils-kapt/src/main/kotlin/com/github/manosbatsis/kotlin/utils/kapt/dto/strategy/composition/SimpleDtoMembersStrategy.kt:145-151 | both contexts read the original into the DTO like `IN` and fail through the root DTO type; the message ends with the property name, and the alternative constructor's fallback is the creator's after one space |
| MemberStatements.MutableSuffixConverts | kotlin-utils-kapt/src/main/kotlin/com/github/manosbatsis/kotlin/utils/kapt/dto/strategy/composition/SimpleDtoMembersStrategy.kt:120-126 | a suffix exists exactly for configured iterables; it is a call ending in `()`, null-safe exactly when the DTO property may be null |
| MemberStatements.TargetTypeLineReadsDto | kotlin-utils-kapt/src/main/kotlin/com/github/manosbatsis/kotlin/utils/kapt/dto/strategy/composition/SimpleDtoMembersStrategy.kt:206-216 | a target-type line starts by reading the DTO's property of the field and ends with the separator, with a fallback in between exactly when `maybeCheckForNull` keeps the outbound context, and has no format arguments |
| MemberStatements.TargetMutationAssignsDtoItself | kotlin-utils-kapt/src/main/kotlin/com/github/manosbatsis/kotlin/utils/kapt/dto/strategy/composition/SimpleDtoMembersStrategy.kt:206-216 | as written, every field that is not a constructor argument gets `x = this.x` plus its fallback and separator: the intended mutation line without its leading `instance.`, with the same arguments |
| MemberStatements.TargetMutationWritesInstance | kotlin-utils-kapt/src/main/kotlin/com/github/manosbatsis/kotlin/utils/kapt/dto/strategy/composition/SimpleDtoMembersStrategy.kt:357-361 | under the corrected rule every mutation line starts by writing `instance.` and the field's name |
| MemberStatements.AltAndCreatorLines | kotlin-utils-kapt/src/main/kotlin/com/github/manosbatsis/kotlin/utils/kapt/dto/strategy/composition/SimpleDtoMembersStrategy.kt:284-312 | both lines start by reading the original's property and carry the root DTO type exactly when the original's field needs a fallback; without one the lines coincide, with one the alternative constructor's line is the creator's with a space before the fallback |
| MemberStatements.SeparatorAppended | kotlin-utils-kapt/src/main/kotlin/com/github/manosbatsis/kotlin/utils/kapt/dto/strategy/composition/SimpleDtoMembersStrategy.kt:206-312 | the target-type, alternative-constructor and creator lines with a separator are the lines without it followed by the separator, with the same arguments |
| MemberStatements.CreatorFallbackIsNullCheck | kotlin-utils-kapt/src/main/kotlin/com/github/manosbatsis/kotlin/utils/kapt/dto/strategy/composition/SimpleDtoMembersStrategy.kt:218-234 | a line reading the original needs the fallback exactly when `maybeCheckForNull` keeps `IN`, and so exactly when it keeps the alternative constructor's or the creator's context |
| MemberStatements.DefaultConfigFallbacks | kotlin-utils-kapt/src/main/kotlin/com/github/manosbatsis/kotlin/utils/kapt/dto/strategy/composition/DtoMembersStrategy.kt:29-31 | with the shipped settings, reading the original never needs a fallback, inbound contexts are always dropped, and writing the target needs one exactly for a non-null field |
| MemberStatements.PatchFormChoice | kotlin-utils-kapt/src/main/kotlin/com/github/manosbatsis/kotlin/utils/kapt/dto/strategy/composition/SimpleDtoMembersStrategy.kt:237-281 | a patch line is the copy form or the comment exactly for constructor arguments of a type that needs a new instance, the comment only for immutable Kotlin fields among those, and otherwise a mutation when updatable and the guard when not |
| MemberStatements.PatchSeparatorOnlyOnCopy | kotlin-utils-kapt/src/main/kotlin/com/github/manosbatsis/kotlin/utils/kapt/dto/strategy/composition/SimpleDtoMembersStrategy.kt:237-281 | patch lines have no format arguments; the copy form is its line without separator followed by the separator, and every other form, the comment among the arguments included, ignores the separator |
| MemberStatements.PatchRouteMatchesForm | kotlin-utils-kapt/src/main/kotlin/com/github/manosbatsis/kotlin/utils/kapt/dto/strategy/composition/SimpleDtoMembersStrategy.kt:348-352 | every patch line is placed, among the arguments exactly when a new instance is needed, which is exactly when its form is the copy or the comment |
| MemberStatements.TargetRouteChoice | kotlin-utils-kapt/src/main/kotlin/com/github/manosbatsis/kotlin/utils/kapt/dto/strategy/composition/SimpleDtoMembersStrategy.kt:357-360 | target-type lines go to the arguments for constructor arguments, to the mutations for other mutable fields, and nowhere otherwise |
| MemberStatements.FieldNamedFindsFirst | kotlin-utils-kapt/src/main/kotlin/com/github/manosbatsis/kotlin/utils/kapt/dto/strategy/composition/SimpleDtoMembersStrategy.kt:185-186 | the lookup finds nothing exactly when no field has the name, and otherwise the first field that has it |
| MemberStatements.DefaultValueResolution | kotlin-utils-kapt/src/main/kotlin/com/github/manosbatsis/kotlin/utils/kapt/dto/strategy/composition/SimpleDtoMembersStrategy.kt:184-193 | a property's default is the same-named mixin field's, else its own, else a nullable `null` when properties are nullable, else none |
| MemberStatements.PropertyPartsAgree | kotlin-utils-kapt/src/main/kotlin/com/github/manosbatsis/kotlin/utils/kapt/dto/strategy/composition/SimpleDtoMembersStrategy.kt:395-441 | the parameter and the property share the field's name and type; a default decides nullability and is the parameter's default; the property is public, initialised from the parameter, and carries the copied annotations in order |
| MemberStatements.AnnotationSpecsOf | kotlin-utils-kapt/src/main/kotlin/com/github/manosbatsis/kotlin/utils/kapt/dto/strategy/composition/SimpleDtoMembersStrategy.kt:174-176 | one annotation spec per copied annotation, in order |
| MemberStatements.DefaultConfigProperty | kotlin-utils-kapt/src/main/kotlin/com/github/manosbatsis/kotlin/utils/kapt/dto/strategy/composition/DtoMembersStrategy.kt:29-31 | with the shipped settings and no `DefaultValue`, a property is nullable, mutable and defaults to `null` |
| MemberStatements.MixinDefaultWins | kotlin-utils-kapt/src/main/kotlin/com/github/manosbatsis/kotlin/utils/kapt/dto/strategy/composition/SimpleDtoMembersStrategy.kt:184-193 | whenever the first same-named mixin field has a default, that default wins over the field's own and over the nullable "null" |
| MemberStatements.InstanceFunctionBuilder.ToCodeBlock | kotlin-utils-kapt/src/main/kotlin/com/github/manosbatsis/kotlin/utils/kapt/dto/strategy/composition/SimpleDtoMembersStrategy.kt:57-87 | without argument lines and with an alternative, the alternative replaces the call; otherwise the call, arguments and closing come first; the mutations and the return always end the block |
| MemberStatements.PatchBuilder | kotlin-utils-kapt/src/main/kotlin/com/github/manosbatsis/kotlin/utils/kapt/dto/strategy/composition/SimpleDtoMembersStrategy.kt:42-55 | the patch calls the target's constructor for a non-data class and `copy` otherwise, can fall back to the original itself, and returns `patched` |
| MemberStatements.TargetBuilder | kotlin-utils-kapt/src/main/kotlin/com/github/manosbatsis/kotlin/utils/kapt/dto/strategy/composition/SimpleDtoMembersStrategy.kt:91-111 | the target-type function calls the override type or the DTO target, or is a `TODO` stub without closing when skipped; it returns `instance` and has no alternative |
| MemberStatements.PatchInPlaceWithoutArgs | kotlin-utils-kapt/src/main/kotlin/com/github/manosbatsis/kotlin/utils/kapt/dto/strategy/composition/SimpleDtoMembersStrategy.kt:42-86 | a patch without argument lines takes the original itself, applies the mutations and returns it |
| MemberStatements.PatchCopyWithArgs | kotlin-utils-kapt/src/main/kotlin/com/github/manosbatsis/kotlin/utils/kapt/dto/strategy/composition/SimpleDtoMembersStrategy.kt:42-86 | a patch with argument lines builds a new instance and closes the call before the mutations |
| MemberStatements.TargetAlwaysConstructs | kotlin-utils-kapt/src/main/kotlin/com/github/manosbatsis/kotlin/utils/kapt/dto/strategy/composition/SimpleDtoMembersStrategy.kt:72-111 | the target-type function never uses the alternative: it always builds a new instance |
| Members.InScopeKeeps | kotlin-utils-kapt/src/main/kotlin/com/github/manosbatsis/kotlin/utils/kapt/dto/strategy/composition/SimpleDtoMembersStrategy.kt:331 | the fields processed are exactly those in annotation scope, in their original order |
| Members.CtorCountNext | kotlin-utils-kapt/src/main/kotlin/com/github/manosbatsis/kotlin/utils/kapt/dto/strategy/composition/SimpleDtoMembersStrategy.kt:333-335 | the constructor-parameter counter goes up by one exactly at a constructor parameter |
| Members.CtorCountMonotone | kotlin-utils-kapt/src/main/kotlin/com/github/manosbatsis/kotlin/utils/kapt/dto/strategy/composition/SimpleDtoMembersStrategy.kt:333-335 | the counter never goes down |
| Members.CtorCountGrows | kotlin-utils-kapt/src/main/kotlin/com/github/manosbatsis/kotlin/utils/kapt/dto/strategy/composition/SimpleDtoMembersStrategy.kt:333-335 | the counter grows between two points exactly when a constructor parameter lies between them |
| Members.ArgCommaPlacement | kotlin-utils-kapt/src/main/kotlin/com/github/manosbatsis/kotlin/utils/kapt/dto/strategy/composition/SimpleDtoMembersStrategy.kt:332-336 | an argument line ends with a comma exactly when it is a constructor parameter followed later by another one; otherwise it ends with nothing |
| Members.ArgCommasUpTo | kotlin-utils-kapt/src/main/kotlin/com/github/manosbatsis/kotlin/utils/kapt/dto/strategy/composition/SimpleDtoMembersStrategy.kt:332-336 | up to any point, every constructor parameter has a comma except the last one of the pass |
| Members.SeparatorCount | kotlin-utils-kapt/src/main/kotlin/com/github/manosbatsis/kotlin/utils/kapt/dto/strategy/composition/SimpleDtoMembersStrategy.kt:332-336 | with k constructor parameters in scope there are exactly k-1 argument commas, none when k is 0 |
| Members.AltCommasUpTo | kotlin-utils-kapt/src/main/kotlin/com/github/manosbatsis/kotlin/utils/kapt/dto/strategy/composition/SimpleDtoMembersStrategy.kt:376-387 | every alternative-constructor and creator line has a comma except the last one of the pass |
| Members.FieldRouting | kotlin-utils-kapt/src/main/kotlin/com/github/manosbatsis/kotlin/utils/kapt/dto/strategy/composition/SimpleDtoMembersStrategy.kt:348-366 | each field gives exactly one patch line, among the arguments exactly when a new instance is needed for it; and a target-type argument for a constructor parameter, the same `toTargetTypeStatement` line among the mutations for another mutable field, and nothing otherwise |
| Members.AddAllSnoc | kotlin-utils-kapt/src/main/kotlin/com/github/manosbatsis/kotlin/utils/kapt/dto/strategy/composition/SimpleDtoMembersStrategy.kt:334 | processing one more field adds its contribution after those of the earlier fields |
| Members.AddAllAppends | kotlin-utils-kapt/src/main/kotlin/com/github/manosbatsis/kotlin/utils/kapt/dto/strategy/composition/SimpleDtoMembersStrategy.kt:334-392 | processing fields appends each field's property, parameter and lines to the matching part, in order, and changes nothing else about the two function builders |
| Members.SimpleDtoMembersStrategy.constructor | kotlin-utils-kapt/src/main/kotlin/com/github/manosbatsis/kotlin/utils/kapt/dto/strategy/composition/SimpleDtoMembersStrategy.kt:13-118 | a new strategy has no parameters, an empty first line for the alternative constructor, the patch and target-type builders over the DTO target, and the creator's opening call |
| Members.SimpleDtoMembersStrategy.FromRoot | kotlin-utils-kapt/src/main/kotlin/com/github/manosbatsis/kotlin/utils/kapt/dto/strategy/composition/SimpleDtoMembersStrategy.kt:19-24 | a strategy built from a root composition takes the root's information and its name and type strategies, remembers the root, and starts empty |
| Members.SimpleDtoMembersStrategy.AddProperty | kotlin-utils-kapt/src/main/kotlin/com/github/manosbatsis/kotlin/utils/kapt/dto/strategy/composition/SimpleDtoMembersStrategy.kt:395-419 | returns the field's property name and type, registers its constructor parameter, adds its property to the type, and changes no function body |
| Members.SimpleDtoMembersStrategy.ProcessField | kotlin-utils-kapt/src/main/kotlin/com/github/manosbatsis/kotlin/utils/kapt/dto/strategy/composition/SimpleDtoMembersStrategy.kt:339-391 | adds one field's contribution to every part |
| Members.SimpleDtoMembersStrategy.ProcessNextField | kotlin-utils-kapt/src/main/kotlin/com/github/manosbatsis/kotlin/utils/kapt/dto/strategy/composition/SimpleDtoMembersStrategy.kt:334-392 | after field i, the strategy holds what the first i+1 fields contribute |
| Members.SimpleDtoMembersStrategy.AddPatchLine | kotlin-utils-kapt/src/main/kotlin/com/github/manosbatsis/kotlin/utils/kapt/dto/strategy/composition/SimpleDtoMembersStrategy.kt:348-354 | the patch line goes among the arguments or the mutations as the field requires, and nothing else changes |
| Members.SimpleDtoMembersStrategy.AddTargetTypeLine | kotlin-utils-kapt/src/main/kotlin/com/github/manosbatsis/kotlin/utils/kapt/dto/strategy/composition/SimpleDtoMembersStrategy.kt:357-366 | the target-type line goes among the arguments, the mutations or nowhere as the field requires, and nothing else changes |
| Members.SimpleDtoMembersStrategy.ProcessFields | kotlin-utils-kapt/src/main/kotlin/com/github/manosbatsis/kotlin/utils/kapt/dto/strategy/composition/SimpleDtoMembersStrategy.kt:326-393 | the strategy and the type end up as a whole pass over the fields in scope makes them |
| Members.SimpleDtoMembersStrategy.ProcessDtoOnlyFields | kotlin-utils-kapt/src/main/kotlin/com/github/manosbatsis/kotlin/utils/kapt/dto/strategy/composition/SimpleDtoMembersStrategy.kt:314-324 | each DTO-only field adds a constructor parameter and a property, in order, and no function body changes |
| Members.SimpleDtoMembersStrategy.Finished | kotlin-utils-kapt/src/main/kotlin/com/github/manosbatsis/kotlin/utils/kapt/dto/strategy/composition/SimpleDtoMembersStrategy.kt:481-503 | finalising closes the creator call, appends the alternative constructor, the primary constructor, the companion and the two functions, and leaves parameters and bodies as they were |
| Members.SimpleDtoMembersStrategy.Finalize | kotlin-utils-kapt/src/main/kotlin/com/github/manosbatsis/kotlin/utils/kapt/dto/strategy/composition/SimpleDtoMembersStrategy.kt:481-503 | the strategy and the type become what finalising specifies |
| Composition.FieldsToProcessKeeps | kotlin-utils-kapt/src/main/kotlin/com/github/manosbatsis/kotlin/utils/kapt/dto/strategy/composition/DtoStrategyComposition.kt:44-48 | the fields to process are exactly the primary type's fields whose name is not ignored, in their order; with nothing ignored, all of them |
| Composition.ExtraFieldsFromMixinKeeps | kotlin-utils-kapt/src/main/kotlin/com/github/manosbatsis/kotlin/utils/kapt/dto/strategy/composition/DtoStrategyComposition.kt:50-53 | the mixin's extra fields are exactly its fields whose name is neither ignored nor a primary field's name, in mixin order |
| Composition.AddMembers | kotlin-utils-kapt/src/main/kotlin/com/github/manosbatsis/kotlin/utils/kapt/dto/strategy/composition/DtoStrategyComposition.kt:38-42 | the members strategy and the type end up as processing the fields, then the mixin's extra fields, then finalising makes them |
| Composition.MembersAddedParts | kotlin-utils-kapt/src/main/kotlin/com/github/manosbatsis/kotlin/utils/kapt/dto/strategy/composition/DtoStrategyComposition.kt:38-42 | every part is what was there, then the pass's lines field by field, then (properties and parameters only) the mixin's extra fields, then what finalising adds |
| Composition.TypeVariableItems | kotlin-utils-kapt/src/main/kotlin/com/github/manosbatsis/kotlin/utils/kapt/dto/strategy/composition/DtoStrategyComposition.kt:29-32 | one type variable per type parameter, in order |
| Composition.TypeVariableItemsSnoc | kotlin-utils-kapt/src/main/kotlin/com/github/manosbatsis/kotlin/utils/kapt/dto/strategy/composition/DtoStrategyComposition.kt:29-32 | one more type parameter adds its type variable at the end |
| Composition.BuildDtoType | kotlin-utils-kapt/src/main/kotlin/com/github/manosbatsis/kotlin/utils/kapt/dto/strategy/composition/DtoStrategyComposition.kt:22-35 | a fresh class with the name strategy's class name, holding the header, the members and then the type variables |
| Composition.AddHeader | kotlin-utils-kapt/src/main/kotlin/com/github/manosbatsis/kotlin/utils/kapt/dto/strategy/composition/DtoStrategyComposition.kt:24-27 | the supertypes, the modifiers, the KDoc and the annotations are appended in that order |
| Composition.AddTypeVariables | kotlin-utils-kapt/src/main/kotlin/com/github/manosbatsis/kotlin/utils/kapt/dto/strategy/composition/DtoStrategyComposition.kt:29-32 | one type variable per type parameter is appended, in order |
| Composition.MembersAddedKeepsHeader | kotlin-utils-kapt/src/main/kotlin/com/github/manosbatsis/kotlin/utils/kapt/dto/strategy/composition/DtoStrategyComposition.kt:38-42 | adding members only appends: the items already there stay as a prefix |
| Composition.RunItems | kotlin-utils-kapt/src/main/kotlin/com/github/manosbatsis/kotlin/utils/kapt/dto/strategy/composition/DtoStrategyComposition.kt:39 | the properties of a pass follow the items already gathered |
| Composition.BuiltTypeStartsWithHeader | kotlin-utils-kapt/src/main/kotlin/com/github/manosbatsis/kotlin/utils/kapt/dto/strategy/composition/DtoStrategyComposition.kt:22-35 | a built DTO type starts with its composition's header and ends with its type variables |
| Composition.CompositeDtoStrategy.constructor | kotlin-utils-kapt/src/main/kotlin/com/github/manosbatsis/kotlin/utils/kapt/dto/strategy/CompositeDtoStrategy.kt:8-14 | each missing strategy defaults to the simple one over the element, and the default members strategy uses the name and type strategies just chosen |
| Composition.CompositeDtoStrategy.FromComposition | kotlin-utils-kapt/src/main/kotlin/com/github/manosbatsis/kotlin/utils/kapt/dto/strategy/CompositeDtoStrategy.kt:15-23 | the copy takes the new element's information and the given composition's three strategies |
| Composition.CompositeDtoStrategy.DtoTypeSpecBuilder | kotlin-utils-kapt/src/main/kotlin/com/github/manosbatsis/kotlin/utils/kapt/dto/strategy/composition/DtoStrategyComposition.kt:22-42 | a fresh builder with the composition's class name, holding the header, the members and the type variables |
| Composition.CopyForwardsToSameMembers | kotlin-utils-kapt/src/main/kotlin/com/github/manosbatsis/kotlin/utils/kapt/dto/strategy/composition/DtoStrategyComposition.kt:55-62 | two compositions sharing a members strategy give the same answer for every forwarded operation, whatever their element |
| Composition.ConstructorRefsCompositeDtoStrategy.constructor | kotlin-utils-kapt/src/main/kotlin/com/github/manosbatsis/kotlin/utils/kapt/dto/strategy/ConstructorRefsCompositeDtoStrategy.kt:11-19 | the name and type strategies come from applying the constructor references to the element; the members strategy is not yet created |
| Composition.ConstructorRefsCompositeDtoStrategy.DtoMembersStrategy | kotlin-utils-kapt/src/main/kotlin/com/github/manosbatsis/kotlin/utils/kapt/dto/strategy/ConstructorRefsCompositeDtoStrategy.kt:20-22 | created from the composition as root on first access, and the same instance on every later access |
| Composition.ConstructorRefsCompositeDtoStrategy.With | kotlin-utils-kapt/src/main/kotlin/com/github/manosbatsis/kotlin/utils/kapt/dto/strategy/ConstructorRefsCompositeDtoStrategy.kt:24-31 | a new composition over the other element with the same constructor references and a members strategy not yet created |
| Composition.ConstructorRefsCompositeDtoStrategy.DtoTypeSpecBuilder | kotlin-utils-kapt/src/main/kotlin/com/github/manosbatsis/kotlin/utils/kapt/dto/strategy/composition/DtoStrategyComposition.kt:22-42 | creates the members strategy if needed and keeps an existing one, then builds the type as the composition does |

## Left out

- KotlinPoet emission: building `TypeSpec`, `FunSpec`, `CodeBlock` and `PropertySpec`, `%T` substitution, indentation and rendering. Generated code is modelled as statements (a format string and its arguments) in sequences, and a type under construction as its list of added items.
- Compiler and reflection queries: `asKotlinTypeName`, `asKotlinClassName` (including `Class.forName` and the "Mutable" prefixing), `isAssignableTo`, `isSubTypeOf`, `asTypeElement`, annotation-mirror lookups beyond string lists, `isKotlin`, `isStatic`, `isIterable`. Each is a recorded answer on the element, not a computation.
- `errNonUpdatableOrOriginalValue`: only the text of its call is generated. Its runtime behaviour is not part of this model.
- The `strategy.util` package (`AssignmentContext.EMPTY`, `FieldContext`) is not part of this model as source. `EMPTY` is the `Empty` case of `Assignment.AssignmentContext`, read as having no fallback text and no arguments.
- ServiceLoader and reflective construction: class-loader identity hashing becomes a given number, and the service loader's result becomes a given list (`Plugins`). `DtoInputContext.dtoStrategy`, `DtoTypeSpecBuilder.dtoStrategy` and both factory plugins build strategies reflectively and are not modelled.
- Composition.ConstructorRefsCompositeDtoStrategy: the members-strategy constructor reference is always `SimpleDtoMembersStrategy` built from the composition as root. The name and type references are kept as given functions.
- The file system and diagnostics: `sourceRootFile.mkdir()`, messager notes and errors, and the round plumbing of `process` beyond its return value and the infos it builds. The options are read only to resolve the generated sources root, and its failure is modelled (`Processor.Build`). The element info does not carry the resulting directory.
- LegacyKaptStrategy.DefaultValueExpression: in the older `kapt` members strategy, the code that looks up the mixin's default compares a field descriptor's name string with a variable element's `Name`, and passes the matched descriptor where a variable element is expected. As written it is not well-typed. The model reads it as a match by name that takes the default from the descriptor's variable element, as the current strategy does.
- GetterAdapter.GetterAsFieldAdapter.AsElement: the adapter keeps the getter's recorded `isPrimitive` and `isIterable` flags. It does not derive them from the return type. No modelled pass reaches an adapter, because adapters arise only for interfaces and the hierarchy walk fails on those.
- Processor.Build: the processor passes variable-element lists where field descriptors are expected. The model takes the descriptor of each element as a parameter.
- Build scripts, files that hold only interfaces, data holders or single builder calls, and the deprecated `SimpleDtoStrategyComposition`, whose wiring is the default wiring of `CompositeDtoStrategy`.
- Concurrency: the processor has none.
- Text: character operations cover ASCII letters only. Unicode case mapping is not modelled.
- Type variables record a type parameter's name and bounds as given, without converting the bounds to Kotlin type names.
- Processing options are given as a map from option names to values. Reading them from the environment is not modelled.

## Findings

| source | as written | input that shows it | evidently intended | confidence | as-written member | corrected member |
|---|---|---|---|---|---|---|
| kotlin-utils-kapt/src/main/kotlin/com/github/manosbatsis/kotlin/utils/kapt/dto/strategy/composition/SimpleDtoMembersStrategy.kt:206-216 | For a mutable field that is not a constructor argument, the target-type line placed among the mutations is `x = this.x`. This assigns the DTO's own property, so the new instance's field is never set. | Any mutable field `x` with `isConstructorParam` false | `instance.x = this.x`, with the same fail-on-null fallback | high (not executed) | MemberStatements.TargetMutationAssignsDtoItself | MemberStatements.TargetMutationWritesInstance |
| kotlin-utils-kapt/src/main/kotlin/com/github/manosbatsis/kotlin/utils/kapt/dto/strategy/util/GetterAsFieldAdapter.kt:41 | `mutable` compares the adapter's own simple name (the field name) with `set` plus the capitalised field name, so it is always false | A getter `getName` with a setter `setName` among the elements | true exactly when some element is named `set` plus the capitalised field name | high (not executed); the flag is private and unused, so generated code is unaffected | GetterAdapter.MutableAsWrittenNeverHolds | GetterAdapter.MutableDiscrepancy |
