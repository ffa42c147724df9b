/**
 * The name format `[\p{Alnum}][\p{Alnum} ]*` that Machine.NAME_VALIDATION_REGEX declares, as
 * `String.matches` applies it: the whole string must match. The regex is run here as the
 * two-state automaton it denotes and is characterised by a quantified formula.
 */
module NameConstraint {
  import opened StringUtil

  /** The automaton: `afterFirst` is false before the mandatory first character. */
  function MatchesFrom(s: string, afterFirst: bool): bool
    decreases |s|
  {
    if s == [] then afterFirst
    else if !afterFirst then IsAsciiAlnum(s[0]) && MatchesFrom(s[1..], true)
    else (IsAsciiAlnum(s[0]) || s[0] == ' ') && MatchesFrom(s[1..], true)
  }

  /** `s.matches("[\\p{Alnum}][\\p{Alnum} ]*")`. */
  predicate MatchesNameRegex(s: string) {
    MatchesFrom(s, false)
  }

  /** A name: non-empty, ASCII alphanumeric first, then only ASCII alphanumerics and spaces. */
  ghost predicate WellFormedName(s: string) {
    && |s| > 0
    && IsAsciiAlnum(s[0])
    && forall i :: 1 <= i < |s| ==> IsAsciiAlnum(s[i]) || s[i] == ' '
  }

  /** The repeated part `[\p{Alnum} ]*` accepts exactly the strings of alphanumerics and spaces. */
  lemma {:induction false} TailMatches(s: string)
    ensures MatchesFrom(s, true) <==> forall i :: 0 <= i < |s| ==> IsAsciiAlnum(s[i]) || s[i] == ' '
    decreases |s|
  {
    if s != [] {
      TailMatches(s[1..]);
      assert forall i :: 1 <= i < |s| ==> s[i] == s[1..][i - 1];
    }
  }

  lemma NameRegexCharacterisation(s: string)
    ensures MatchesNameRegex(s) <==> WellFormedName(s)
  {
    if s != [] {
      TailMatches(s[1..]);
      assert forall i :: 1 <= i < |s| ==> s[i] == s[1..][i - 1];
    }
  }

  /** The rejections the format comment and the command tests rely on. */
  lemma RejectedNames()
    ensures !MatchesNameRegex("")
    ensures !MatchesNameRegex(" ")
    ensures !MatchesNameRegex(" ULTIMAKER")
    ensures !MatchesNameRegex("ultimaker&")
    ensures !MatchesNameRegex("James&")
  {
    NameRegexCharacterisation("ultimaker&");
    assert "ultimaker&"[9] == '&';
    NameRegexCharacterisation("James&");
    assert "James&"[5] == '&';
  }

  lemma AcceptedNames()
    ensures MatchesNameRegex("ULTIMAKER")
    ensures MatchesNameRegex("ENDER")
    ensures MatchesNameRegex("Amy Bee")
    ensures MatchesNameRegex("a ")
  {
    NameRegexCharacterisation("ULTIMAKER");
    NameRegexCharacterisation("ENDER");
    NameRegexCharacterisation("Amy Bee");
    NameRegexCharacterisation("a ");
  }
}
