/** The substring search of the engine's string type, used by several name filters. */
module UnrealStrings {

  /** Case-insensitive equality of two characters (ASCII letters). */
  predicate SameLetter(a: char, b: char)
  {
    a == b || ('A' <= a <= 'Z' && b as int == a as int + 32) || ('A' <= b <= 'Z' && a as int == b as int + 32)
  }

  /** `t` occurs in `s` at position `i`, ignoring case. */
  predicate MatchesAt(s: string, t: string, i: nat)
    requires i + |t| <= |s|
  {
    forall j :: 0 <= j < |t| ==> SameLetter(s[i + j], t[j])
  }

  /** `FString::Contains` with its default case-insensitive search. */
  predicate ContainsIgnoringCase(s: string, t: string)
  {
    exists i: nat :: i + |t| <= |s| && MatchesAt(s, t, i)
  }

  /** A name that holds the text verbatim contains it, whatever precedes and follows it. */
  lemma ContainsVerbatim(prefix: string, t: string, suffix: string)
    ensures ContainsIgnoringCase(prefix + t + suffix, t)
  {
    var s := prefix + t + suffix;
    assert forall j :: 0 <= j < |t| ==> s[|prefix| + j] == t[j];
    assert MatchesAt(s, t, |prefix|);
  }
}
