/**
 * The string operations of the Kotlin and Java standard libraries that the
 * generator relies on, on ASCII letters.
 */
module Text {

  predicate IsUpper(c: char) { 'A' <= c <= 'Z' }
  predicate IsLower(c: char) { 'a' <= c <= 'z' }

  function ToLower(c: char): (r: char)
    ensures IsUpper(c) ==> IsLower(r) && r as int - 'a' as int == c as int - 'A' as int
    ensures !IsUpper(c) ==> r == c
  {
    if IsUpper(c) then (c as int - 'A' as int + 'a' as int) as char else c
  }

  function ToUpper(c: char): (r: char)
    ensures IsLower(c) ==> IsUpper(r) && r as int - 'A' as int == c as int - 'a' as int
    ensures !IsLower(c) ==> r == c
  {
    if IsLower(c) then (c as int - 'a' as int + 'A' as int) as char else c
  }

  predicate StartsWith(s: string, prefix: string) {
    |prefix| <= |s| && s[..|prefix|] == prefix
  }

  predicate EndsWith(s: string, suffix: string) {
    |suffix| <= |s| && s[|s| - |suffix|..] == suffix
  }

  /** Kotlin `removePrefix`: the string without `prefix` when it starts with it. */
  function RemovePrefix(s: string, prefix: string): (r: string)
    ensures StartsWith(s, prefix) ==> prefix + r == s
    ensures !StartsWith(s, prefix) ==> r == s
  {
    if StartsWith(s, prefix) then s[|prefix|..] else s
  }

  /** Kotlin `decapitalize`: the first character in lower case. */
  function Decapitalize(s: string): (r: string)
    ensures |r| == |s|
    ensures |s| > 0 ==> r[0] == ToLower(s[0]) && r[1..] == s[1..]
    ensures |s| > 0 && !IsUpper(s[0]) ==> r == s
  {
    if |s| > 0 && IsUpper(s[0]) then [ToLower(s[0])] + s[1..] else s
  }

  /** Kotlin `capitalize`: the first character in upper case. */
  function Capitalize(s: string): (r: string)
    ensures |r| == |s|
    ensures |s| > 0 ==> r[0] == ToUpper(s[0]) && r[1..] == s[1..]
  {
    if |s| > 0 && IsLower(s[0]) then [ToUpper(s[0])] + s[1..] else s
  }

  /**
   * `java.beans.Introspector.decapitalize`: a name that starts with two
   * upper-case letters ("URL") is kept, any other gets its first character
   * in lower case; the empty name stays empty.
   */
  function IntrospectorDecapitalize(s: string): (r: string)
    ensures |r| == |s|
    ensures |s| > 1 && IsUpper(s[0]) && IsUpper(s[1]) ==> r == s
    ensures !(|s| > 1 && IsUpper(s[0]) && IsUpper(s[1])) && |s| > 0 ==>
              r[0] == ToLower(s[0]) && r[1..] == s[1..]
  {
    if |s| == 0 then s
    else if |s| > 1 && IsUpper(s[1]) && IsUpper(s[0]) then s
    else [ToLower(s[0])] + s[1..]
  }

  /**
   * Decapitalising undoes capitalising whenever the name does not already
   * start with an upper-case letter: the setter name `set` + `Capitalize(n)`
   * leads back to the field name `n`.
   */
  lemma DecapitalizeCapitalize(n: string)
    requires |n| == 0 || !IsUpper(n[0])
    ensures Decapitalize(Capitalize(n)) == n
  {
    if |n| > 0 {
      var c := Capitalize(n);
      assert c[1..] == n[1..];
      assert [n[0]] + n[1..] == n;
    }
  }

  /** A name that starts with an upper-case letter is never given back. */
  lemma DecapitalizeCapitalizeLoses(n: string)
    requires |n| > 0 && IsUpper(n[0])
    ensures Decapitalize(Capitalize(n)) != n
  {
    assert Decapitalize(Capitalize(n))[0] != n[0];
  }
}
