/** The two values the user service derives from the token issuer URI
    (config/CognitoConfig.java): the provider's region and the user pool id. */
module CognitoConfig {
  import opened Wrappers
  import Ascii

  const HOST_PREFIX: string := "cognito-idp."
  const HOST_SUFFIX: string := ".amazonaws.com"

  /** Length of the longest prefix of `s` without a '.'. */
  function NonDotRun(s: string): (n: nat)
    ensures n <= |s|
    ensures forall j :: 0 <= j < n ==> s[j] != '.'
    ensures n < |s| ==> s[n] == '.'
  {
    if s == [] || s[0] == '.' then 0 else 1 + NonDotRun(s[1..])
  }

  /** The pattern `cognito-idp\.([^.]+)\.amazonaws\.com` matches at `i`. The
      group cannot end before a non-dot character, so it is the whole run of
      non-dot characters after the prefix. */
  predicate MatchAt(s: string, i: nat) {
    i <= |s| && Ascii.StartsWith(s[i..], HOST_PREFIX)
    && var rest := s[i + |HOST_PREFIX|..];
       var n := NonDotRun(rest);
       n > 0 && Ascii.StartsWith(rest[n..], HOST_SUFFIX)
  }

  /** The captured group of a match at `i`. */
  function GroupAt(s: string, i: nat): (g: string)
    requires MatchAt(s, i)
    ensures |g| > 0 && forall j :: 0 <= j < |g| ==> g[j] != '.'
  {
    var rest := s[i + |HOST_PREFIX|..];
    rest[..NonDotRun(rest)]
  }

  /** `Matcher.find` from position `from`: the leftmost match. */
  function FindMatch(s: string, from: nat): (m: Option<nat>)
    decreases |s| - from
    ensures m.Some? ==> from <= m.value && MatchAt(s, m.value)
                        && forall j :: from <= j < m.value ==> !MatchAt(s, j)
    ensures m.None? ==> forall j :: from <= j ==> !MatchAt(s, j)
  {
    if from > |s| then None
    else if MatchAt(s, from) then Some(from)
    else FindMatch(s, from + 1)
  }

  /** `parseRegionFromIssuerUri`: the group of the leftmost match, or the
      IllegalArgumentException's message. */
  function ParseRegion(issuerUri: string): (r: Result<string, string>)
    ensures r.Success? <==> exists i :: 0 <= i <= |issuerUri| && MatchAt(issuerUri, i)
    ensures r.Failure? ==> r.error == "Could not parse AWS region from Cognito issuer URI: " + issuerUri
    ensures r.Success? ==> |r.value| > 0 && forall j :: 0 <= j < |r.value| ==> r.value[j] != '.'
    ensures r.Success? ==> exists i :: 0 <= i <= |issuerUri| && MatchAt(issuerUri, i)
                                       && (forall j :: 0 <= j < i ==> !MatchAt(issuerUri, j))
                                       && r.value == GroupAt(issuerUri, i)
  {
    match FindMatch(issuerUri, 0)
    case Some(i) => Success(GroupAt(issuerUri, i))
    case None => Failure("Could not parse AWS region from Cognito issuer URI: " + issuerUri)
  }

  /** `String.lastIndexOf(c)`: -1 when `c` does not occur. */
  function LastIndexOf(s: string, c: char): (k: int)
    ensures -1 <= k < |s|
    ensures k >= 0 ==> s[k] == c
    ensures forall j :: k < j < |s| ==> s[j] != c
  {
    if s == [] then -1
    else if s[|s| - 1] == c then |s| - 1
    else LastIndexOf(s[..|s| - 1], c)
  }

  /** `parseUserPoolIdFromIssuerUri`: the text after the last '/', which must
      be non-empty. */
  function ParseUserPoolId(issuerUri: string): (r: Result<string, string>)
    ensures r.Success? ==> |r.value| > 0 && (forall j :: 0 <= j < |r.value| ==> r.value[j] != '/')
                           && |r.value| < |issuerUri|
                           && issuerUri == issuerUri[..|issuerUri| - |r.value| - 1] + "/" + r.value
    ensures r.Failure? <==> (forall j :: 0 <= j < |issuerUri| ==> issuerUri[j] != '/') || issuerUri[|issuerUri| - 1] == '/'
    ensures r.Failure? ==> r.error == "Could not parse User Pool ID from Cognito issuer URI: " + issuerUri
  {
    var k := LastIndexOf(issuerUri, '/');
    if k != -1 && k < |issuerUri| - 1 then
      assert issuerUri == issuerUri[..k] + "/" + issuerUri[k + 1..];
      Success(issuerUri[k + 1..])
    else
      Failure("Could not parse User Pool ID from Cognito issuer URI: " + issuerUri)
  }

  /** Every pool id is recovered from an issuer URI that ends in "/" and the id. */
  lemma {:induction false} PoolIdRoundTrip(base: string, poolId: string)
    requires |poolId| > 0 && forall j :: 0 <= j < |poolId| ==> poolId[j] != '/'
    ensures ParseUserPoolId(base + "/" + poolId) == Success(poolId)
  {
    var s := base + "/" + poolId;
    assert s[|base|] == '/';
    assert forall j :: |base| < j < |s| ==> s[j] == poolId[j - |base| - 1];
    assert LastIndexOf(s, '/') == |base|;
    assert s[|base| + 1..] == poolId;
  }

  /** The issuer URI of a user pool, as the provider publishes it. */
  function IssuerUri(region: string, poolId: string): string {
    "https://" + HOST_PREFIX + region + HOST_SUFFIX + "/" + poolId
  }

  /** Region and pool id are both recovered from the issuer URI built from them. */
  lemma {:induction false} IssuerUriRoundTrip(region: string, poolId: string)
    requires |region| > 0 && forall j :: 0 <= j < |region| ==> region[j] != '.'
    requires |poolId| > 0 && forall j :: 0 <= j < |poolId| ==> poolId[j] != '/'
    ensures ParseRegion(IssuerUri(region, poolId)) == Success(region)
    ensures ParseUserPoolId(IssuerUri(region, poolId)) == Success(poolId)
  {
    var base := "https://" + HOST_PREFIX + region + HOST_SUFFIX;
    assert IssuerUri(region, poolId) == base + "/" + poolId;
    PoolIdRoundTrip(base, poolId);
    RegionOfIssuerUri(region, poolId);
  }

  /** The region half of the round trip. */
  lemma {:induction false} RegionOfIssuerUri(region: string, poolId: string)
    requires |region| > 0 && forall j :: 0 <= j < |region| ==> region[j] != '.'
    ensures ParseRegion(IssuerUri(region, poolId)) == Success(region)
  {
    var s := IssuerUri(region, poolId);
    var tail := HOST_SUFFIX + "/" + poolId;
    assert tail[..|HOST_SUFFIX|] == HOST_SUFFIX;
    assert s == "https://" + (HOST_PREFIX + region + tail);
    MatchAfterScheme(region, tail);
    NoEarlierMatch(s, 8);
  }

  /** After the eight characters of "https://", the host matches and its
      group is the region; no earlier position can match, because no
      character of "https://" is the 'c' the pattern starts with. */
  lemma {:induction false} MatchAfterScheme(region: string, tail: string)
    requires |region| > 0 && forall j :: 0 <= j < |region| ==> region[j] != '.'
    requires Ascii.StartsWith(tail, HOST_SUFFIX)
    ensures var s := "https://" + (HOST_PREFIX + region + tail);
      MatchAt(s, 8) && GroupAt(s, 8) == region && forall j :: 0 <= j < 8 ==> !MatchAt(s, j)
  {
    var s := "https://" + (HOST_PREFIX + region + tail);
    var rest := region + tail;
    assert s[8..] == HOST_PREFIX + rest;
    assert s[8 + |HOST_PREFIX|..] == rest;
    RunOfPrefix(region, tail);
    assert rest[|region|..] == tail;
    assert rest[..|region|] == region;
    forall j | 0 <= j < 8 ensures !MatchAt(s, j) {
      assert s[j] == "https://"[j] != HOST_PREFIX[0];
      assert !Ascii.StartsWith(s[j..], HOST_PREFIX) by {
        assert s[j..][0] == s[j];
      }
    }
  }

  /** A run of non-dot characters followed by a '.' is measured exactly. */
  lemma {:induction false} RunOfPrefix(a: string, b: string)
    requires forall j :: 0 <= j < |a| ==> a[j] != '.'
    requires |b| > 0 && b[0] == '.'
    ensures NonDotRun(a + b) == |a|
  {
    if a != [] {
      assert (a + b)[1..] == a[1..] + b;
      RunOfPrefix(a[1..], b);
    }
  }

  /** When no position before `i` matches and `i` does, `find` stops at `i`. */
  lemma NoEarlierMatch(s: string, i: nat)
    requires MatchAt(s, i)
    requires forall j :: 0 <= j < i ==> !MatchAt(s, j)
    ensures FindMatch(s, 0) == Some(i)
  {
  }
}
