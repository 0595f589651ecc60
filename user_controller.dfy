/** The staff REST endpoints (api/UserController.java): authority checks on
    the token, the creation gate, and the mapping of repository errors to
    HTTP responses. */
module UserController {
  import opened Wrappers
  import opened UserDomain
  import opened UserRepository
  import opened UserService

  /** What the controller makes of the token's authority list. */
  datatype AuthorityCheck = NoAuthorities | MultipleRoles | Single(authority: string)

  function CheckAuthorities(authorities: seq<string>): (c: AuthorityCheck)
    ensures c == NoAuthorities <==> |authorities| == 0
    ensures c == MultipleRoles <==> |authorities| > 1
    ensures c.Single? ==> authorities == [c.authority]
  {
    if |authorities| == 0 then NoAuthorities
    else if |authorities| > 1 then MultipleRoles
    else Single(authorities[0])
  }

  datatype Response =
    | CreatedUser(user: User)                  // 201 with the saved user
    | Problem(status: int, detail: string)     // a ProblemDetail body
    | Json(status: int, body: map<string, string>)
    | AssertionFailure                          // "requests without authorities should have been filtered"
    | ServiceFailure(error: ServiceError)       // an exception out of the service

  /** The HTTP status of a response; thrown errors end as 500. */
  function StatusOf(r: Response): (s: int)
    ensures r.CreatedUser? ==> s == 201
    ensures r.AssertionFailure? || r.ServiceFailure? ==> s == 500
  {
    match r
    case CreatedUser(_) => 201
    case Problem(s, _) => s
    case Json(s, _) => s
    case AssertionFailure => 500
    case ServiceFailure(_) => 500
  }

  const MULTIPLE_ROLES: Response := Problem(400, "Multiple roles detected")

  /** The creation gate as written: an Agent is refused, and the role the
      caller is then taken to have is Admin for "ROLE_SUPERADMIN" and
      SuperAdmin for every other authority; only a caller taken to be Admin
      is restricted to creating Agents. */
  function CreateGate(authority: string, requested: Role): (refusal: Option<Response>)
    ensures authority == "ROLE_AGENT" ==> refusal == Some(Problem(403, ""))
    ensures authority == "ROLE_SUPERADMIN" ==>
              (refusal.None? <==> requested == Agent)
              && (refusal.Some? ==> refusal == Some(Problem(403, "Admins cannot create other admins.")))
    ensures authority != "ROLE_AGENT" && authority != "ROLE_SUPERADMIN" ==> refusal.None?
  {
    if authority == "ROLE_AGENT" then Some(Problem(403, ""))
    else
      var role := if authority == "ROLE_SUPERADMIN" then Admin else SuperAdmin;
      if role == Admin && requested != Agent then Some(Problem(403, "Admins cannot create other admins."))
      else None
  }

  /** The gate and the rank order disagree in both directions: a SuperAdmin
      may not create an Admin although it outranks one, and an Admin may
      create a SuperAdmin although it does not outrank one. */
  lemma CreateGateInvertsRank()
    ensures Outranks(FromAuthority("ROLE_SUPERADMIN"), Admin) && CreateGate("ROLE_SUPERADMIN", Admin).Some?
    ensures !Outranks(FromAuthority("ROLE_ADMIN"), SuperAdmin) && CreateGate("ROLE_ADMIN", SuperAdmin).None?
  {
  }

  /** Whatever the caller's authority, an Agent may be created unless the
      caller is an Agent. */
  lemma AgentsCreatableByNonAgents(authority: string)
    ensures CreateGate(authority, Agent).None? <==> authority != "ROLE_AGENT"
  {
  }

  /** The body of delete and update: `{"result":"ok"}` with 200, or the
      repository's status with `{"result":"err","status":<message>}`. */
  function ResultResponse(err: Option<RepoError>): (r: Response)
    ensures r.Json? && ("result" in r.body)
    ensures err.None? <==> r.status == 200 && r.body == map["result" := "ok"]
    ensures err.Some? ==> r.status == err.value.status && r.body["result"] == "err"
                          && "status" in r.body && r.body["status"] == err.value.message
  {
    match err
    case None => Json(200, map["result" := "ok"])
    case Some(e) => Json(e.status, map["result" := "err", "status" := e.message])
  }

  /** The fields of a creation request after Bean Validation. */
  datatype CreationRequest = CreationRequest(
    firstName: string, lastName: string, email: string, password: Option<string>, role: Role)

  /** The fields of an update request; each may be left out. */
  datatype UpdateRequest = UpdateRequest(
    firstName: Option<string>, lastName: Option<string>, email: Option<string>, password: Option<string>)

  /** The patch built from an update request: the path id and the three
      names, never a role. */
  function PatchOf(id: string, req: UpdateRequest): (p: UserPatch)
    ensures p.userId == id && p.role.None?
    ensures p.firstName == req.firstName && p.lastName == req.lastName && p.email == req.email
  {
    UserPatch(id, req.firstName, req.lastName, req.email, None)
  }

  /** An update through the endpoint never changes a role, and never takes
      the repository's "no changes" short cut. */
  lemma {:induction false} EndpointUpdateKeepsRole(rows: map<string, User>, updater: Role, id: string, req: UpdateRequest, b: bool)
    requires IsLive(rows, id)
    ensures UpdateOutcome(rows, updater, PatchOf(id, req), b).rows[id].role == rows[id].role
    ensures !NoChange(rows[id], PatchOf(id, req))
  {
    NullFieldDefeatsShortCut(rows[id], PatchOf(id, req));
  }

  class UserController {
    const service: UserService

    ghost predicate Valid()
      reads this, service, service.repo
    {
      service.Valid()
    }

    constructor (service: UserService)
      requires service.Valid()
      ensures Valid() && this.service == service
    {
      this.service := service;
    }

    /** POST /api/users. */
    method CreateUser(authorities: seq<string>, request: CreationRequest, generated: string, dbAccepts: bool)
        returns (resp: Response)
      requires Valid()
      modifies service.repo, service.provider
      ensures Valid()
      ensures |authorities| == 0 ==> resp == AssertionFailure
      ensures |authorities| > 1 ==> resp == MULTIPLE_ROLES
      ensures |authorities| != 1 || CreateGate(authorities[0], request.role).Some? ==>
                service.repo.rows == old(service.repo.rows)
                && service.provider.trace == old(service.provider.trace)
      ensures |authorities| == 1 && CreateGate(authorities[0], request.role).Some? ==>
                Some(resp) == CreateGate(authorities[0], request.role)
      ensures |authorities| == 1 && CreateGate(authorities[0], request.role).None? ==>
                var u := NewUser(request.firstName, request.lastName, request.email, request.role);
                var c := CreateRequest(service.userPoolId, u, request.password, generated);
                var g := GroupRequest(service.userPoolId, u);
                var sub := FindSub(service.provider.reportedAttributes(c));
                && (!service.provider.accepts(c) ==>
                      service.provider.trace == old(service.provider.trace) + [c]
                      && resp == ServiceFailure(ProviderRejected(c)))
                && (service.provider.accepts(c) ==> service.provider.trace == old(service.provider.trace) + [c, g])
                && (service.provider.accepts(c) && !service.provider.accepts(g) ==>
                      resp == ServiceFailure(ProviderRejected(g)))
                && (service.provider.accepts(c) && service.provider.accepts(g) && sub.None? ==>
                      resp == ServiceFailure(MissingSub))
                && (service.provider.accepts(c) && service.provider.accepts(g) && sub.Some? && !dbAccepts ==>
                      resp == ServiceFailure(SaveRejected))
                && (resp.CreatedUser? <==>
                      service.provider.accepts(c) && service.provider.accepts(g) && sub.Some? && dbAccepts)
                && (resp.CreatedUser? ==> resp.user == u.(userId := sub))
      ensures resp.CreatedUser? ==>
                |authorities| == 1 && CreateGate(authorities[0], request.role).None?
                && resp.user == NewUser(request.firstName, request.lastName, request.email, request.role).(userId := resp.user.userId)
                && resp.user.userId.Some?
                && service.repo.rows == old(service.repo.rows)[resp.user.userId.value := resp.user]
    {
      match CheckAuthorities(authorities)
      case NoAuthorities =>
        return AssertionFailure;
      case MultipleRoles =>
        return MULTIPLE_ROLES;
      case Single(authority) =>
        var refusal := CreateGate(authority, request.role);
        if refusal.Some? {
          return refusal.value;
        }
        var newUser := NewUser(request.firstName, request.lastName, request.email, request.role);
        var created := service.Create(newUser, request.password, generated, dbAccepts);
        match created
        case Success(u) =>
          resp := CreatedUser(u);
        case Failure(e) =>
          resp := ServiceFailure(e);
    }

    /** DELETE /api/users/{id}. */
    method DeleteUser(authorities: seq<string>, id: string, dbAccepts: bool) returns (resp: Response)
      requires Valid()
      modifies service.repo
      ensures Valid()
      ensures service.provider.trace == old(service.provider.trace)
      ensures |authorities| == 0 ==> resp == AssertionFailure && service.repo.rows == old(service.repo.rows)
      ensures |authorities| > 1 ==> resp == MULTIPLE_ROLES && service.repo.rows == old(service.repo.rows)
      ensures |authorities| == 1 ==>
                var o := DeleteOutcome(old(service.repo.rows), FromAuthority(authorities[0]), id, dbAccepts);
                resp == ResultResponse(o.error) && service.repo.rows == o.rows
    {
      match CheckAuthorities(authorities)
      case NoAuthorities =>
        return AssertionFailure;
      case MultipleRoles =>
        return MULTIPLE_ROLES;
      case Single(authority) =>
        var err := service.DeleteUser(authority, id, dbAccepts);
        resp := ResultResponse(err);
    }

    /** PATCH /api/users/{id}. */
    method UpdateUser(authorities: seq<string>, id: string, request: UpdateRequest, dbAccepts: bool) returns (resp: Response)
      requires Valid()
      modifies service.repo, service.provider
      ensures Valid()
      ensures |authorities| != 1 ==>
                service.repo.rows == old(service.repo.rows) && service.provider.trace == old(service.provider.trace)
      ensures |authorities| == 0 ==> resp == AssertionFailure
      ensures |authorities| > 1 ==> resp == MULTIPLE_ROLES
      ensures |authorities| == 1 && !resp.ServiceFailure? ==>
                var o := UpdateOutcome(old(service.repo.rows), FromAuthority(authorities[0]), PatchOf(id, request), dbAccepts);
                resp == ResultResponse(o.error) && service.repo.rows == o.rows
      ensures resp.ServiceFailure? ==> service.repo.rows == old(service.repo.rows)
      ensures |authorities| == 1 ==>
                var a := AdminUpdateUserAttributes(service.userPoolId, request.email,
                                                   AttributesOf(request.email, request.firstName, request.lastName));
                var setPw := request.password.Some? && request.password.value != "";
                var s := AdminSetUserPassword(service.userPoolId, request.email, if setPw then request.password.value else "");
                && (!service.provider.accepts(a) ==>
                      service.provider.trace == old(service.provider.trace) + [a]
                      && resp == ServiceFailure(ProviderRejected(a)))
                && (service.provider.accepts(a) && !setPw ==> service.provider.trace == old(service.provider.trace) + [a])
                && (service.provider.accepts(a) && setPw ==> service.provider.trace == old(service.provider.trace) + [a, s])
                && (service.provider.accepts(a) && setPw && !service.provider.accepts(s) ==>
                      resp == ServiceFailure(ProviderRejected(s)))
                && (resp.ServiceFailure? <==> !service.provider.accepts(a) || (setPw && !service.provider.accepts(s)))
    {
      match CheckAuthorities(authorities)
      case NoAuthorities =>
        return AssertionFailure;
      case MultipleRoles =>
        return MULTIPLE_ROLES;
      case Single(authority) =>
        var user := PatchOf(id, request);
        var r := service.UpdateUser(authority, user, request.password, dbAccepts);
        match r
        case Success(err) =>
          resp := ResultResponse(err);
        case Failure(e) =>
          resp := ServiceFailure(e);
    }
  }
}
