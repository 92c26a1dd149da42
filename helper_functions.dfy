/** `capitalizeFirstLetter` from the utility helpers:
    `s.charAt(0).toUpperCase() + s.slice(1)`. */
module HelperFunctions {
  import opened Common

  /** `s.charAt(0)`: the first character as a string, `""` when `s` is empty. */
  function CharAt0(s: string): (r: string)
    ensures |r| == if s == [] then 0 else 1
    ensures s != [] ==> r[0] == s[0]
  {
    if s == [] then "" else [s[0]]
  }

  function CapitalizeFirstLetter(s: string): (r: string)
    ensures s == [] <==> r == []
    ensures |r| == |s|
    ensures s != [] ==> r[0] == UpperChar(s[0]) && r[1..] == s[1..]
  {
    UpperString(CharAt0(s)) + if s == [] then [] else s[1..]
  }

  /** Capitalising twice is capitalising once. */
  lemma CapitalizeIdempotent(s: string)
    ensures CapitalizeFirstLetter(CapitalizeFirstLetter(s)) == CapitalizeFirstLetter(s)
  {
    var once := CapitalizeFirstLetter(s);
    if s != [] {
      assert once[0] == UpperChar(s[0]);
      assert UpperChar(UpperChar(s[0])) == UpperChar(s[0]);
      var twice := CapitalizeFirstLetter(once);
      assert twice[0] == once[0] && twice[1..] == once[1..];
      assert twice == [twice[0]] + twice[1..];
      assert once == [once[0]] + once[1..];
    }
  }

  /** Every character from index 1 on is left as it was, and only the first
      one can change (and only when it is a lower-case letter). */
  lemma CapitalizeChangesOnlyALowerFirst(s: string)
    ensures forall i :: 1 <= i < |s| ==> CapitalizeFirstLetter(s)[i] == s[i]
    ensures CapitalizeFirstLetter(s) == s <==> (s == [] || !IsLower(s[0]))
  {
    var r := CapitalizeFirstLetter(s);
    forall i | 1 <= i < |s| ensures r[i] == s[i] {
      assert r[i] == r[1..][i - 1];
    }
    if s != [] && !IsLower(s[0]) {
      assert r == [r[0]] + r[1..];
      assert s == [s[0]] + s[1..];
    }
  }
}
