/**
 * The older `kapt` `ProcessingEnvironmentAware`: its constructor-parameter
 * fields, which keep only instance fields and, unlike the current rule,
 * never fall back to all fields when the parameter names look
 * compiler-generated. The file's other helpers (`fieldsOnly`,
 * `hasBasePackageOf`, `camelToUnderscores`, `getStringValuesList`,
 * `addStatement`, `isNullable`) are the current ones of `EnvAware` and
 * `CodeSpec`, which the older generators use directly.
 */
module LegacyEnvAware {
  import opened Model
  import Seqs
  import EnvAware
  import LegacyUtils

  /**
   * `accessibleConstructorParameterFields`: the non-static fields among all
   * members named like a parameter, neither private nor protected, of a
   * constructor.
   */
  function AccessibleConstructorParameterFields(t: TypeElement): seq<Element> {
    Seqs.Filter(EnvAware.FieldsOnly(t.allMembers), LegacyUtils.NamedIn(EnvAware.ConstructorParamNames(t.allMembers)))
  }

  predicate IsNonStatic(e: Element) {
    !e.isStatic
  }

  /**
   * The result keeps exactly the instance fields named like an accessible
   * constructor parameter, in their order; without such names it is empty.
   */
  lemma AccessibleConstructorParameterFieldsKeeps(t: TypeElement)
    ensures var r, names := AccessibleConstructorParameterFields(t), EnvAware.ConstructorParamNames(t.allMembers);
            Seqs.IsSubsequence(r, t.allMembers) &&
            (forall e :: e in r <==> e in t.allMembers && e.kind == FIELD && !e.isStatic && e.name in names) &&
            (names == {} ==> r == [])
  {
    var names := EnvAware.ConstructorParamNames(t.allMembers);
    var fields := EnvAware.FieldsOnly(t.allMembers);
    var r := AccessibleConstructorParameterFields(t);
    Seqs.FilterIsSubsequence(fields, LegacyUtils.NamedIn(names));
    Seqs.SubsequenceTrans(r, fields, t.allMembers);
    Seqs.FilterMembership(fields, LegacyUtils.NamedIn(names));
  }

  /**
   * The `kapt` rule is the utilities' rule with the static fields dropped:
   * both keep the same instance fields in the same order.
   */
  lemma KaptRuleDropsStaticFields(t: TypeElement)
    ensures AccessibleConstructorParameterFields(t) ==
            Seqs.Filter(LegacyUtils.AccessibleConstructorParameterFields(t), IsNonStatic)
  {
    var all := t.allMembers;
    var named := LegacyUtils.NamedIn(EnvAware.ConstructorParamNames(all));
    var namedField := (e: Element) => e.kind == FIELD && named(e);
    var both := (e: Element) => e.kind == FIELD && !e.isStatic && named(e);
    Seqs.FilterOfFilter(all, EnvAware.IsInstanceField, named, both);
    Seqs.FilterOfFilter(all, LegacyUtils.IsField, named, namedField);
    Seqs.FilterOfFilter(all, namedField, IsNonStatic, both);
  }
}
