/** The front end's in-memory mock of the staff endpoint (app/api/users/route.ts):
    a module-level list of users that POST appends to and GET returns. The
    clock is a parameter: `now` stands for `Date.now()` and `createdAt` for
    the ISO timestamp of the same instant. */
module UsersRoute {
  import opened Wrappers

  /** The JSON payload of a POST; absent properties are `None`. */
  datatype CreateUserPayload = CreateUserPayload(
    firstName: Option<string>, lastName: Option<string>, email: Option<string>,
    role: Option<string>, requesterRole: Option<string>)

  /** A stored user; every user this route creates is "Active". */
  datatype UserResponse = UserResponse(
    id: string, firstName: string, lastName: string, email: string,
    role: string, status: string, createdAt: string)

  datatype Body = ErrorBody(error: string) | UserBody(user: UserResponse) | UserList(users: seq<UserResponse>)

  datatype Response = Response(status: int, body: Body)

  const MISSING_FIELDS := Response(400, ErrorBody("Missing required fields."))
  const ADMIN_REFUSED := Response(403, ErrorBody("Admins are not allowed to create other Admin users."))

  /** `!value` for an optional string: absent or empty. */
  predicate Falsy(s: Option<string>) { s.None? || s.value == "" }

  /** Any of the four required fields is absent or empty. */
  predicate MissingField(p: CreateUserPayload) {
    Falsy(p.firstName) || Falsy(p.lastName) || Falsy(p.email) || Falsy(p.role)
  }

  /** `payload.requesterRole ?? "Agent"`: only an absent value is defaulted. */
  function RequesterRole(p: CreateUserPayload): (r: string)
    ensures p.requesterRole.None? ==> r == "Agent"
    ensures p.requesterRole.Some? ==> r == p.requesterRole.value
  {
    p.requesterRole.GetOr("Agent")
  }

  /** The decimal rendering of a natural number, as template literals print it. */
  function Decimal(n: nat): (s: string)
    ensures |s| > 0
    ensures forall i :: 0 <= i < |s| ==> '0' <= s[i] <= '9'
    ensures n < 10 <==> |s| == 1
  {
    if n < 10 then [DigitChar(n)] else Decimal(n / 10) + [DigitChar(n % 10)]
  }

  function DigitChar(d: nat): (c: char)
    requires d < 10
    ensures '0' <= c <= '9'
  {
    (48 + d) as char
  }

  /** The number a string of decimal digits denotes, read left to right. */
  function DigitsValue(s: string): nat
    requires forall i :: 0 <= i < |s| ==> '0' <= s[i] <= '9'
  {
    if s == [] then 0 else 10 * DigitsValue(s[..|s| - 1]) + (s[|s| - 1] as int - '0' as int)
  }

  /** Reading the rendering back gives the number, and the rendering has no
      leading zero. */
  lemma {:induction false} DecimalRoundTrip(n: nat)
    ensures DigitsValue(Decimal(n)) == n
    ensures n >= 10 ==> Decimal(n)[0] != '0'
  {
    if n >= 10 {
      DecimalRoundTrip(n / 10);
      var s := Decimal(n);
      assert s[..|s| - 1] == Decimal(n / 10);
      assert s[0] == Decimal(n / 10)[0];
    }
  }

  /** The id of a user created at millisecond `now`. */
  function UserId(now: nat): (id: string)
    ensures |id| > 4 && id[..4] == "usr_"
    ensures forall i :: 4 <= i < |id| ==> '0' <= id[i] <= '9'
    ensures DigitsValue(id[4..]) == now
  {
    DecimalRoundTrip(now);
    assert ("usr_" + Decimal(now))[4..] == Decimal(now);
    "usr_" + Decimal(now)
  }

  /** The outcome of a POST on the list `users`: the reply and the new list.
      The field check runs before the role check, and the only role rule is
      that an Admin requester cannot create an Admin. */
  function PostOutcome(users: seq<UserResponse>, p: CreateUserPayload, now: nat, createdAt: string): (o: (Response, seq<UserResponse>))
    ensures MissingField(p) ==> o == (MISSING_FIELDS, users)
    ensures !MissingField(p) && RequesterRole(p) == "Admin" && p.role == Some("Admin") ==> o == (ADMIN_REFUSED, users)
    ensures o.0.status == 201 <==> !MissingField(p) && !(RequesterRole(p) == "Admin" && p.role == Some("Admin"))
    ensures o.0.status != 201 ==> o.1 == users
    ensures o.0.status == 201 ==>
      o.0.body.UserBody? && o.1 == users + [o.0.body.user] &&
      o.0.body.user == UserResponse(UserId(now), p.firstName.value, p.lastName.value, p.email.value,
                                    p.role.value, "Active", createdAt)
  {
    if MissingField(p) then (MISSING_FIELDS, users)
    else if RequesterRole(p) == "Admin" && p.role == Some("Admin") then (ADMIN_REFUSED, users)
    else
      var u := UserResponse(UserId(now), p.firstName.value, p.lastName.value, p.email.value,
                            p.role.value, "Active", createdAt);
      (Response(201, UserBody(u)), users + [u])
  }

  /** Only an Admin requester is refused an Admin: a request without a
      requester role, or from an Agent or a SuperAdmin, creates one. */
  lemma NonAdminRequestersCreateAdmins(users: seq<UserResponse>, p: CreateUserPayload, now: nat, createdAt: string)
    requires !MissingField(p) && p.role == Some("Admin")
    requires p.requesterRole in {None, Some("Agent"), Some("SuperAdmin")}
    ensures PostOutcome(users, p, now, createdAt).0.status == 201
    ensures |PostOutcome(users, p, now, createdAt).1| == |users| + 1
  {
  }

  /** A request missing a field is answered 400 even from an Admin asking for
      an Admin: the field check comes first. */
  lemma FieldCheckComesFirst(users: seq<UserResponse>, p: CreateUserPayload, now: nat, createdAt: string)
    requires p.requesterRole == Some("Admin") && p.role == Some("Admin") && p.email == Some("")
    ensures PostOutcome(users, p, now, createdAt).0 == MISSING_FIELDS
  {
  }

  /** Users created in different milliseconds get different ids. */
  lemma DistinctMillisecondsDistinctIds(a: nat, b: nat)
    requires a != b
    ensures UserId(a) != UserId(b)
  {
    assert UserId(a)[4..] != UserId(b)[4..];
  }

  /** Ids only depend on the clock: two users created in the same millisecond
      share an id, and the list then holds both. */
  lemma {:induction false} SameMillisecondSameId(users: seq<UserResponse>, p: CreateUserPayload, q: CreateUserPayload, now: nat, createdAt: string)
    requires PostOutcome(users, p, now, createdAt).0.status == 201
    requires PostOutcome(PostOutcome(users, p, now, createdAt).1, q, now, createdAt).0.status == 201
    ensures var after := PostOutcome(PostOutcome(users, p, now, createdAt).1, q, now, createdAt).1;
      |after| == |users| + 2 && after[|users|].id == after[|users| + 1].id
  {
    var first := PostOutcome(users, p, now, createdAt);
    var second := PostOutcome(first.1, q, now, createdAt);
    assert first.1[|users|] == first.0.body.user;
    assert second.1[|users|] == first.1[|users|];
  }

  /** The module-level `users` array. */
  class MockUsers {
    var users: seq<UserResponse>

    constructor ()
      ensures users == []
    {
      users := [];
    }

    /** `POST`: appends the new user only when it answers 201. */
    method Post(p: CreateUserPayload, now: nat, createdAt: string) returns (resp: Response)
      modifies this
      ensures (resp, users) == PostOutcome(old(users), p, now, createdAt)
    {
      var requesterRole := if p.requesterRole.Some? then p.requesterRole.value else "Agent";
      if Falsy(p.firstName) || Falsy(p.lastName) || Falsy(p.email) || Falsy(p.role) {
        return MISSING_FIELDS;
      }
      if requesterRole == "Admin" && p.role == Some("Admin") {
        return ADMIN_REFUSED;
      }
      var u := UserResponse(UserId(now), p.firstName.value, p.lastName.value, p.email.value,
                            p.role.value, "Active", createdAt);
      users := users + [u];
      resp := Response(201, UserBody(u));
    }

    /** `GET`: the whole list, in insertion order. */
    method Get() returns (resp: Response)
      ensures resp == Response(200, UserList(users))
    {
      resp := Response(200, UserList(users));
    }
  }
}
