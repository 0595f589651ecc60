/** The client service's token converter
    (security/CognitoGroupGrantedAuthoritiesConverter.java in the client
    profile service): one authority per provider group, in order, and no
    authentication at all for a token without groups. */
module ClientAuthorities {
  import opened Wrappers
  import opened UserDomain

  const NO_GROUPS: string := "Cognito groups is empty;"

  /** `convert`: `groups` is the token's group claim, None when it is absent. */
  method Convert(groups: Option<seq<string>>) returns (r: Result<seq<string>, string>)
    ensures groups.None? || groups.value == [] <==> r == Failure(NO_GROUPS)
    ensures groups.Some? && groups.value != [] <==> r.Success?
    ensures r.Success? ==> groups.Some? && |r.value| == |groups.value|
                           && forall i :: 0 <= i < |groups.value| ==> r.value[i] == GroupAuthority(groups.value[i])
  {
    if groups.None? || |groups.value| == 0 {
      return Failure(NO_GROUPS);
    }
    var gs := groups.value;
    var granted: seq<string> := [];
    var i := 0;
    while i < |gs|
      invariant 0 <= i <= |gs|
      invariant |granted| == i
      invariant forall j :: 0 <= j < i ==> granted[j] == GroupAuthority(gs[j])
    {
      granted := granted + [GroupAuthority(gs[i])];
      i := i + 1;
    }
    r := Success(granted);
  }
}
