/** The account service's token converter
    (security/CognitoGroupGrantedAuthoritiesConverter.java in the client
    account service). Unlike the client service's, it has no guard: an
    absent group claim fails with a null dereference and an empty one gives
    no authorities. */
module AccountAuthorities {
  import opened Wrappers
  import opened UserDomain

  const NULL_GROUPS: string := "NullPointerException"

  method Convert(groups: Option<seq<string>>) returns (r: Result<seq<string>, string>)
    ensures groups.None? <==> r == Failure(NULL_GROUPS)
    ensures groups.Some? <==> r.Success?
    ensures groups == Some([]) ==> r == Success([])
    ensures r.Success? ==> groups.Some? && |r.value| == |groups.value|
                           && forall i :: 0 <= i < |groups.value| ==> r.value[i] == GroupAuthority(groups.value[i])
  {
    if groups.None? {
      return Failure(NULL_GROUPS);
    }
    var gs := groups.value;
    var granted: seq<string> := [];
    for i := 0 to |gs|
      invariant |granted| == i
      invariant forall j :: 0 <= j < i ==> granted[j] == GroupAuthority(gs[j])
    {
      granted := granted + [GroupAuthority(gs[i])];
    }
    r := Success(granted);
  }
}
