/**
 * Credential checks that gate the search client (apps/web/src/lib/algolia.ts):
 * an application ID is ten letters or digits in either case, a search key is
 * at least twenty characters long.
 */
module Algolia {

  /** The minimum length of a search key. */
  const MinKeyLength: nat := 20

  /** The exact length of an application ID. */
  const AppIdLength: nat := 10

  predicate IsUpperAlnum(c: char) {
    ('A' <= c <= 'Z') || ('0' <= c <= '9')
  }

  predicate IsAsciiAlnum(c: char) {
    ('A' <= c <= 'Z') || ('a' <= c <= 'z') || ('0' <= c <= '9')
  }

  /**
   * The case canonicalisation of a regular expression with the `i` flag and
   * no `u` flag: ASCII lower-case letters map to upper case; no character
   * outside ASCII maps into ASCII.
   */
  function Canonical(c: char): char {
    if 'a' <= c <= 'z' then (c as int - 32) as char else c
  }

  function ToUpperAscii(s: string): (r: string)
    ensures |r| == |s|
  {
    seq(|s|, i requires 0 <= i < |s| => Canonical(s[i]))
  }

  function ToLowerAscii(s: string): (r: string)
    ensures |r| == |s|
  {
    seq(|s|, i requires 0 <= i < |s| => if 'A' <= s[i] <= 'Z' then (s[i] as int + 32) as char else s[i])
  }

  /**
   * The pattern `^[A-Z0-9]{n}$` with the `i` flag: exactly `n` characters,
   * each of whose canonical form lies in the class.
   */
  predicate MatchesClassRun(s: string, n: nat) {
    if n == 0 then s == []
    else |s| >= 1 && IsUpperAlnum(Canonical(s[0])) && MatchesClassRun(s[1..], n - 1)
  }

  /** `isValidAppId`. */
  predicate IsValidAppId(appId: string)
    ensures IsValidAppId(appId) ==> |appId| == AppIdLength
  {
    MatchesClassRunLength(appId, AppIdLength);
    MatchesClassRun(appId, AppIdLength)
  }

  lemma {:induction false} MatchesClassRunLength(s: string, n: nat)
    ensures MatchesClassRun(s, n) ==> |s| == n
  {
    if n > 0 && |s| >= 1 {
      MatchesClassRunLength(s[1..], n - 1);
    }
  }

  /** `isValidApiKey`. */
  predicate IsValidApiKey(apiKey: string) {
    |apiKey| >= MinKeyLength
  }

  /** `hasValidAlgoliaCredentials`. */
  predicate HasValidAlgoliaCredentials(appId: string, apiKey: string)
    ensures HasValidAlgoliaCredentials(appId, apiKey) ==> |appId| == AppIdLength && |apiKey| >= MinKeyLength
  {
    IsValidAppId(appId) && IsValidApiKey(apiKey)
  }

  lemma {:induction false} MatchesClassRunIff(s: string, n: nat)
    ensures MatchesClassRun(s, n) <==> |s| == n && forall i :: 0 <= i < |s| ==> IsAsciiAlnum(s[i])
    decreases n
  {
    if n > 0 && |s| >= 1 {
      MatchesClassRunIff(s[1..], n - 1);
      assert forall i :: 1 <= i < |s| ==> s[i] == s[1..][i - 1];
    }
  }

  /** An application ID is valid exactly when it is ten ASCII letters or digits. */
  lemma AppIdShape(appId: string)
    ensures IsValidAppId(appId) <==> |appId| == 10 && forall i :: 0 <= i < |appId| ==> IsAsciiAlnum(appId[i])
  {
    MatchesClassRunIff(appId, AppIdLength);
  }

  /** The check ignores case: upper- and lower-casing an ID never changes the verdict. */
  lemma AppIdIgnoresCase(appId: string)
    ensures IsValidAppId(ToUpperAscii(appId)) == IsValidAppId(appId)
    ensures IsValidAppId(ToLowerAscii(appId)) == IsValidAppId(appId)
  {
    AppIdShape(appId);
    AppIdShape(ToUpperAscii(appId));
    AppIdShape(ToLowerAscii(appId));
    var u := ToUpperAscii(appId);
    var l := ToLowerAscii(appId);
    assert forall i :: 0 <= i < |appId| ==> (IsAsciiAlnum(u[i]) <==> IsAsciiAlnum(appId[i]));
    assert forall i :: 0 <= i < |appId| ==> (IsAsciiAlnum(l[i]) <==> IsAsciiAlnum(appId[i]));
  }

  /** Empty credentials fail both checks, and so the combined check. */
  lemma EmptyCredentialsRejected(appId: string, apiKey: string)
    ensures !IsValidAppId("") && !IsValidApiKey("")
    ensures appId == "" || apiKey == "" ==> !HasValidAlgoliaCredentials(appId, apiKey)
  {
    AppIdShape("");
  }
}
