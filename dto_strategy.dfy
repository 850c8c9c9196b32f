/**
 * The field-name filters every DTO strategy shares: `includeNames`,
 * `excludeNames`, `filtered` and `toSimpleNames`.
 */
module DtoStrategy {
  import opened ElementInfo
  import Seqs

  /** The fields whose simple name is listed in `names`, in their order. */
  function Listed(fields: seq<FieldInfo>, names: seq<string>): seq<FieldInfo> {
    if fields == [] then []
    else (if fields[0].SimpleName() in names then [fields[0]] else []) + Listed(fields[1..], names)
  }

  /** The fields whose simple name is not listed in `names`, in their order. */
  function Unlisted(fields: seq<FieldInfo>, names: seq<string>): seq<FieldInfo> {
    if fields == [] then []
    else (if fields[0].SimpleName() in names then [] else [fields[0]]) + Unlisted(fields[1..], names)
  }

  /** `includeNames`: without includes every field is kept, otherwise only the listed ones. */
  function IncludeNames(fields: seq<FieldInfo>, includes: seq<string>): seq<FieldInfo> {
    if includes == [] then fields else Listed(fields, includes)
  }

  /** `excludeNames`: without excludes every field is kept, otherwise the listed ones are dropped. */
  function ExcludeNames(fields: seq<FieldInfo>, excludes: seq<string>): seq<FieldInfo> {
    if excludes == [] then fields else Unlisted(fields, excludes)
  }

  /** `filtered`: the includes are applied first, then the excludes. */
  function Filtered(fields: seq<FieldInfo>, includes: seq<string>, excludes: seq<string>): seq<FieldInfo> {
    ExcludeNames(IncludeNames(fields, includes), excludes)
  }

  /** `toSimpleNames`. */
  function ToSimpleNames(fields: seq<FieldInfo>): seq<string> {
    if fields == [] then [] else [fields[0].SimpleName()] + ToSimpleNames(fields[1..])
  }

  // ---------------------------------------------------------------------------
  // Laws
  // ---------------------------------------------------------------------------

  /** `Listed` keeps exactly the fields with a listed name, in their order. */
  lemma {:induction false} ListedKeeps(fields: seq<FieldInfo>, names: seq<string>)
    ensures forall f :: f in Listed(fields, names) <==> f in fields && f.SimpleName() in names
    ensures Seqs.IsSubsequence(Listed(fields, names), fields)
  {
    if fields != [] {
      ListedKeeps(fields[1..], names);
      assert fields == [fields[0]] + fields[1..];
      var r := Listed(fields, names);
      if fields[0].SimpleName() in names {
        assert r == [fields[0]] + Listed(fields[1..], names);
        assert r[0] == fields[0] && r[1..] == Listed(fields[1..], names);
      } else {
        assert r == Listed(fields[1..], names);
        Seqs.SubsequenceOfTail(r, fields);
      }
    }
  }

  /** `Unlisted` keeps exactly the fields without a listed name, in their order. */
  lemma {:induction false} UnlistedKeeps(fields: seq<FieldInfo>, names: seq<string>)
    ensures forall f :: f in Unlisted(fields, names) <==> f in fields && f.SimpleName() !in names
    ensures Seqs.IsSubsequence(Unlisted(fields, names), fields)
  {
    if fields != [] {
      UnlistedKeeps(fields[1..], names);
      assert fields == [fields[0]] + fields[1..];
      var r := Unlisted(fields, names);
      if fields[0].SimpleName() in names {
        assert r == Unlisted(fields[1..], names);
        Seqs.SubsequenceOfTail(r, fields);
      } else {
        assert r == [fields[0]] + Unlisted(fields[1..], names);
        assert r[0] == fields[0] && r[1..] == Unlisted(fields[1..], names);
      }
    }
  }

  /**
   * `includeNames` is the identity without includes; otherwise it keeps
   * exactly the fields whose name is listed. Either way the result is the
   * input with some fields dropped, in their order.
   */
  lemma IncludeNamesKeeps(fields: seq<FieldInfo>, includes: seq<string>)
    ensures includes == [] ==> IncludeNames(fields, includes) == fields
    ensures forall f :: f in IncludeNames(fields, includes) <==>
              f in fields && (includes == [] || f.SimpleName() in includes)
    ensures Seqs.IsSubsequence(IncludeNames(fields, includes), fields)
  {
    if includes == [] {
      Seqs.SubsequenceRefl(fields);
    } else {
      ListedKeeps(fields, includes);
    }
  }

  /**
   * `excludeNames` is the identity without excludes; otherwise it drops
   * exactly the fields whose name is listed, keeping the others in order.
   */
  lemma ExcludeNamesKeeps(fields: seq<FieldInfo>, excludes: seq<string>)
    ensures excludes == [] ==> ExcludeNames(fields, excludes) == fields
    ensures forall f :: f in ExcludeNames(fields, excludes) <==> f in fields && f.SimpleName() !in excludes
    ensures Seqs.IsSubsequence(ExcludeNames(fields, excludes), fields)
  {
    if excludes == [] {
      Seqs.SubsequenceRefl(fields);
    } else {
      UnlistedKeeps(fields, excludes);
    }
  }

  /**
   * `filtered` keeps the fields that pass the includes and are not excluded,
   * in their order; with the default empty lists it keeps every field.
   */
  lemma FilteredKeeps(fields: seq<FieldInfo>, includes: seq<string>, excludes: seq<string>)
    ensures Filtered(fields, [], []) == fields
    ensures forall f :: f in Filtered(fields, includes, excludes) <==>
              f in fields && (includes == [] || f.SimpleName() in includes) && f.SimpleName() !in excludes
    ensures Seqs.IsSubsequence(Filtered(fields, includes, excludes), fields)
  {
    var included := IncludeNames(fields, includes);
    IncludeNamesKeeps(fields, includes);
    ExcludeNamesKeeps(included, excludes);
    Seqs.SubsequenceTrans(Filtered(fields, includes, excludes), included, fields);
  }

  /** `toSimpleNames` gives each field's name, position by position. */
  lemma {:induction false} ToSimpleNamesAt(fields: seq<FieldInfo>)
    ensures |ToSimpleNames(fields)| == |fields|
    ensures forall i :: 0 <= i < |fields| ==> ToSimpleNames(fields)[i] == fields[i].SimpleName()
  {
    if fields != [] {
      ToSimpleNamesAt(fields[1..]);
      assert forall i :: 1 <= i < |fields| ==> fields[i] == fields[1..][i - 1];
    }
  }

  /** A field's name is among the simple names exactly when some field of the list has it. */
  lemma ToSimpleNamesHas(fields: seq<FieldInfo>, name: string)
    ensures name in ToSimpleNames(fields) <==> exists f :: f in fields && f.SimpleName() == name
  {
    ToSimpleNamesAt(fields);
    var names := ToSimpleNames(fields);
    if name in names {
      var i :| 0 <= i < |names| && names[i] == name;
      assert fields[i] in fields;
    }
    if exists f :: f in fields && f.SimpleName() == name {
      var f :| f in fields && f.SimpleName() == name;
      var i :| 0 <= i < |fields| && fields[i] == f;
      assert names[i] == name;
    }
  }
}
