/** Staff provisioning against the identity provider (service/UserService.java).
    The provider is an external system: it is modelled by a class whose ghost
    `trace` records the administrative calls sent to it, and whose fixed
    oracle functions say which calls it accepts and which attributes it
    reports for a created user. */
module UserService {
  import opened Wrappers
  import opened UserDomain
  import opened UserRepository

  /** A provider user attribute; the value is null when the field it comes from is. */
  datatype Attribute = Attribute(name: string, value: Option<string>)

  /** The administrative requests the service sends. The username is the
      user's email, null when an update request leaves the email out. */
  datatype ProviderCall =
    | AdminCreateUser(pool: string, username: Option<string>, temporaryPassword: string,
                      attributes: seq<Attribute>, messageAction: string)
    | AdminAddUserToGroup(pool: string, username: Option<string>, groupName: string)
    | AdminUpdateUserAttributes(pool: string, username: Option<string>, attributes: seq<Attribute>)
    | AdminSetUserPassword(pool: string, username: Option<string>, password: string)

  /** Why provisioning stopped with an exception. */
  datatype ServiceError =
    | ProviderRejected(call: ProviderCall)  // the provider's own exception
    | MissingSub                            // no "sub" attribute in the creation response
    | SaveRejected                          // the database refused the row

  /** `toAttributeTypes`: email, given name, family name, in that order. */
  function AttributesOf(email: Option<string>, firstName: Option<string>, lastName: Option<string>): (attrs: seq<Attribute>)
    ensures |attrs| == 3
    ensures attrs[0].name == "email" && attrs[0].value == email
    ensures attrs[1].name == "given_name" && attrs[1].value == firstName
    ensures attrs[2].name == "family_name" && attrs[2].value == lastName
  {
    [Attribute("email", email), Attribute("given_name", firstName), Attribute("family_name", lastName)]
  }

  /** The temporary password: the caller's when non-empty, otherwise a
      freshly generated one (`generated` stands for `UUID.randomUUID()`). */
  function TemporaryPassword(password: Option<string>, generated: string): (pw: string)
    ensures password.Some? && password.value != "" ==> pw == password.value
    ensures password.None? || password.value == "" ==> pw == generated
  {
    if password.None? || password.value == "" then generated else password.value
  }

  /** The creation request: the email is the provider username and the
      welcome message is suppressed. */
  function CreateRequest(pool: string, u: User, password: Option<string>, generated: string): (c: ProviderCall)
    ensures c.AdminCreateUser? && c.pool == pool && c.username == Some(u.email)
    ensures c.temporaryPassword == TemporaryPassword(password, generated)
    ensures c.attributes == AttributesOf(Some(u.email), Some(u.firstName), Some(u.lastName))
    ensures c.messageAction == "SUPPRESS"
  {
    AdminCreateUser(pool, Some(u.email), TemporaryPassword(password, generated),
                    AttributesOf(Some(u.email), Some(u.firstName), Some(u.lastName)), "SUPPRESS")
  }

  /** The group request: the group is named after the role. */
  function GroupRequest(pool: string, u: User): (c: ProviderCall)
    ensures c.AdminAddUserToGroup? && c.pool == pool && c.username == Some(u.email)
    ensures FromAuthority(GroupAuthority(c.groupName)) == u.role
  {
    GroupRoundTrip(u.role);
    AdminAddUserToGroup(pool, Some(u.email), RoleName(u.role))
  }

  /** The value of the first attribute named "sub"; None when there is no
      such attribute or its value is null. */
  function FindSub(attrs: seq<Attribute>): (sub: Option<string>)
    ensures sub.Some? ==> exists i :: 0 <= i < |attrs| && attrs[i].name == "sub" && attrs[i].value == sub
    ensures (forall i :: 0 <= i < |attrs| ==> attrs[i].name != "sub") ==> sub.None?
  {
    if attrs == [] then None
    else if attrs[0].name == "sub" then attrs[0].value
    else FindSub(attrs[1..])
  }

  /** The first "sub" attribute decides, even when a later one has a value. */
  lemma {:induction false} FindSubIsFirst(attrs: seq<Attribute>, i: nat)
    requires i < |attrs| && attrs[i].name == "sub"
    requires forall j :: 0 <= j < i ==> attrs[j].name != "sub"
    ensures FindSub(attrs) == attrs[i].value
  {
    if i > 0 {
      FindSubIsFirst(attrs[1..], i - 1);
    }
  }

  /** The external identity provider (the Cognito user pool). */
  class IdentityProvider {
    ghost var trace: seq<ProviderCall>
    const accepts: ProviderCall -> bool
    const reportedAttributes: ProviderCall -> seq<Attribute>

    constructor (accepts: ProviderCall -> bool, reportedAttributes: ProviderCall -> seq<Attribute>)
      ensures trace == [] && this.accepts == accepts && this.reportedAttributes == reportedAttributes
    {
      trace := [];
      this.accepts := accepts;
      this.reportedAttributes := reportedAttributes;
    }

    /** Send one request; `ok` is false when the provider throws. */
    method Send(c: ProviderCall) returns (ok: bool)
      modifies this
      ensures trace == old(trace) + [c]
      ensures ok == accepts(c)
    {
      trace := trace + [c];
      ok := accepts(c);
    }
  }

  class UserService {
    const repo: UserStore
    const provider: IdentityProvider
    const userPoolId: string

    ghost predicate Valid()
      reads this, repo
    {
      repo.Valid()
    }

    constructor (repo: UserStore, provider: IdentityProvider, userPoolId: string)
      requires repo.Valid()
      ensures Valid() && this.repo == repo && this.provider == provider && this.userPoolId == userPoolId
    {
      this.repo := repo;
      this.provider := provider;
      this.userPoolId := userPoolId;
    }

    /** `create`: create the provider user, add it to its role's group, take
        its subject id as the user id and save the row. A failure after the
        provider accepted the creation leaves the provider user in place
        without a row. */
    method Create(user: User, password: Option<string>, generated: string, dbAccepts: bool)
        returns (r: Result<User, ServiceError>)
      requires Valid()
      modifies repo, provider
      ensures Valid()
      ensures var c := CreateRequest(userPoolId, user, password, generated);
              var g := GroupRequest(userPoolId, user);
              var sub := FindSub(provider.reportedAttributes(c));
        && (!provider.accepts(c) ==> provider.trace == old(provider.trace) + [c] && r == Failure(ProviderRejected(c)))
        && (provider.accepts(c) ==> provider.trace == old(provider.trace) + [c, g])
        && (provider.accepts(c) && !provider.accepts(g) ==> r == Failure(ProviderRejected(g)))
        && (provider.accepts(c) && provider.accepts(g) && sub.None? ==> r == Failure(MissingSub))
        && (provider.accepts(c) && provider.accepts(g) && sub.Some? && !dbAccepts ==> r == Failure(SaveRejected))
        && (r.Success? <==> provider.accepts(c) && provider.accepts(g) && sub.Some? && dbAccepts)
        && (r.Success? ==> r.value == user.(userId := sub)
                           && repo.rows == old(repo.rows)[sub.value := r.value])
        && (r.Failure? ==> repo.rows == old(repo.rows))
    {
      var c := CreateRequest(userPoolId, user, password, generated);
      var g := GroupRequest(userPoolId, user);
      var ok := provider.Send(c);
      if !ok {
        return Failure(ProviderRejected(c));
      }
      ok := provider.Send(g);
      if !ok {
        return Failure(ProviderRejected(g));
      }
      var sub := FindSub(provider.reportedAttributes(c));
      if sub.None? {
        return Failure(MissingSub);
      }
      var created := user.(userId := sub);
      if !dbAccepts {
        return Failure(SaveRejected);
      }
      repo.Save(created);
      r := Success(created);
    }

    /** `deleteUser`: the repository's soft delete with the caller's role.
        The provider is not told: the disabled user's sign-in stays. */
    method DeleteUser(authority: string, id: string, dbAccepts: bool) returns (err: Option<RepoError>)
      requires Valid()
      modifies repo
      ensures Valid()
      ensures Outcome(err, repo.rows) == DeleteOutcome(old(repo.rows), FromAuthority(authority), id, dbAccepts)
      ensures provider.trace == old(provider.trace)
    {
      err := repo.DeleteById(FromAuthority(authority), id, dbAccepts);
    }

    /** `updateUser`: the provider's attributes (and password, when one is
        given) are overwritten BEFORE the repository checks existence,
        status and rank, so a refused update still changes the provider. */
    method UpdateUser(authority: string, user: UserPatch, password: Option<string>, dbAccepts: bool)
        returns (r: Result<Option<RepoError>, ServiceError>)
      requires Valid()
      modifies repo, provider
      ensures Valid()
      ensures var a := AdminUpdateUserAttributes(userPoolId, user.email, AttributesOf(user.email, user.firstName, user.lastName));
              var setPw := password.Some? && password.value != "";
              var s := AdminSetUserPassword(userPoolId, user.email, if setPw then password.value else "");
        && (!provider.accepts(a) ==> provider.trace == old(provider.trace) + [a] && r == Failure(ProviderRejected(a)))
        && (provider.accepts(a) && !setPw ==> provider.trace == old(provider.trace) + [a])
        && (provider.accepts(a) && setPw ==> provider.trace == old(provider.trace) + [a, s])
        && (provider.accepts(a) && setPw && !provider.accepts(s) ==> r == Failure(ProviderRejected(s)))
        && (r.Failure? ==> repo.rows == old(repo.rows))
        && (r.Success? <==> provider.accepts(a) && (setPw ==> provider.accepts(s)))
        && (r.Success? ==> Outcome(r.value, repo.rows) == UpdateOutcome(old(repo.rows), FromAuthority(authority), user, dbAccepts))
      ensures r.Success? && r.value.Some? ==>
                |provider.trace| > |old(provider.trace)| && provider.trace[|old(provider.trace)|].AdminUpdateUserAttributes?
    {
      var a := AdminUpdateUserAttributes(userPoolId, user.email, AttributesOf(user.email, user.firstName, user.lastName));
      var ok := provider.Send(a);
      if !ok {
        return Failure(ProviderRejected(a));
      }
      if password.Some? && password.value != "" {
        var s := AdminSetUserPassword(userPoolId, user.email, password.value);
        ok := provider.Send(s);
        if !ok {
          return Failure(ProviderRejected(s));
        }
      }
      var err := repo.Update(FromAuthority(authority), user, dbAccepts);
      r := Success(err);
    }
  }

  /** A caller who may not update the target still has the target's provider
      attributes overwritten: the refusal comes only from the repository,
      after the provider call. */
  lemma RefusedUpdateStillReachesProvider(rows: map<string, User>, authority: string, user: UserPatch, b: bool)
    requires IsLive(rows, user.userId) && !Outranks(FromAuthority(authority), rows[user.userId].role)
    ensures UpdateOutcome(rows, FromAuthority(authority), user, b).error.Some?
    ensures UpdateOutcome(rows, FromAuthority(authority), user, b).rows == rows
  {
  }
}
