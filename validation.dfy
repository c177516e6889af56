/** The form validators: a field name is a letter followed by letters,
    digits and underscores; a record count is a number from 1 to 10000.
    A validator reports every rule the input breaks, in rule order. */
module Validation {
  import opened Values
  import DesktopEngine

  /** One broken rule: a length or size below the minimum, a size above
      the maximum, or a text that does not match the pattern. */
  datatype Issue = TooSmall(minimum: int, message: Option<string>) | TooBig(maximum: int) | NoMatch(hint: string)

  const MAX_COUNT := 10000

  /** A later character of a field name: a letter, a digit or `_`. */
  predicate NameChar(c: char) {
    IsAlnum(c) || c == '_'
  }

  /** The field-name rule in words: not empty, a leading ASCII letter, and
      only letters, digits and underscores after it. */
  predicate FieldNameValid(s: string) {
    |s| >= 1 && IsLetter(s[0]) && forall i :: 1 <= i < |s| ==> NameChar(s[i])
  }

  /** The pattern `^[a-zA-Z][a-zA-Z0-9_]*$` run as a two-state matcher:
      before the first character, and inside the tail. */
  function MatchFrom(s: string, inTail: bool): bool {
    if |s| == 0 then inTail
    else if inTail then NameChar(s[0]) && MatchFrom(s[1..], true)
    else IsLetter(s[0]) && MatchFrom(s[1..], true)
  }

  lemma {:induction false} TailMatches(s: string)
    ensures MatchFrom(s, true) <==> forall i :: 0 <= i < |s| ==> NameChar(s[i])
  {
    if |s| > 0 {
      TailMatches(s[1..]);
      assert forall i :: 1 <= i < |s| ==> s[i] == s[1..][i - 1];
    }
  }

  /** The matcher accepts exactly the names the rule describes. */
  lemma PatternMeansRule(s: string)
    ensures MatchFrom(s, false) <==> FieldNameValid(s)
  {
    if |s| > 0 {
      TailMatches(s[1..]);
      assert forall i :: 1 <= i < |s| ==> s[i] == s[1..][i - 1];
    }
  }

  /** `fieldNameSchema`: the length rule and the pattern rule are both
      checked, so the empty name breaks both. */
  function FieldNameIssues(s: string): (r: seq<Issue>)
    ensures |r| == 0 <==> FieldNameValid(s)
    ensures s == "" ==> r == [TooSmall(1, Some("Field name is required")), NoMatch("Use letters, numbers, and underscores")]
    ensures s != "" && !FieldNameValid(s) ==> r == [NoMatch("Use letters, numbers, and underscores")]
  {
    PatternMeansRule(s);
    (if |s| < 1 then [TooSmall(1, Some("Field name is required"))] else [])
    + (if !MatchFrom(s, false) then [NoMatch("Use letters, numbers, and underscores")] else [])
  }

  /** `recordCountSchema` on a number. */
  function RecordCountIssues(n: real): (r: seq<Issue>)
    ensures |r| == 0 <==> 1.0 <= n <= MAX_COUNT as real
    ensures |r| <= 1
    ensures n < 1.0 ==> r == [TooSmall(1, None)]
    ensures n > MAX_COUNT as real ==> r == [TooBig(MAX_COUNT)]
  {
    (if n < 1.0 then [TooSmall(1, None)] else []) + (if n > MAX_COUNT as real then [TooBig(MAX_COUNT)] else [])
  }

  /** A whole count the form accepts is one the desktop generator neither
      rejects as too large nor turns into an empty run. */
  lemma CountAgreesWithGenerator(count: int)
    ensures |RecordCountIssues(count as real)| == 0 <==> 1 <= count <= DesktopEngine.MAX_RECORDS
    ensures |RecordCountIssues(count as real)| == 0 ==> Max(count, 0) == count
  {
  }
}
