/** The account REST endpoints (api/AccountController.java). Get, update and
    delete answer 404 for an unknown account and 403 when the calling agent
    (the token's subject) does not manage it. Unlike clients, a deleted
    account can still be read and updated. */
module AccountController {
  import opened Wrappers
  import opened Calendar
  import opened AccountDomain
  import opened AccountService

  datatype Body =
    | Error(error: string, message: string)   // {"error": ..., "message": ...}
    | One(dto: AccountDto)
    | Many(accounts: map<string, AccountDto>)
    | NoBody

  datatype Response = Response(status: int, body: Body)

  /** The forbidden message is built with `String.format`, which does not
      expand "{}": it names neither the account nor the agent. */
  const FORBIDDEN: Response :=
    Response(403, Error("Forbidden", "AccountID : {} is not managed by AgentID: {}"))

  /** The not-found answer of update carries a body; get and delete send none. */
  function UpdateNotFound(id: string): Response {
    Response(404, Error("Not Found", "AccountID: " + id + " does not exist."))
  }

  /** The existence and ownership check; `notFound` is the endpoint's own 404. */
  function Gate(accounts: map<string, Account>, caller: string, id: string, notFound: Response): (refusal: Option<Response>)
    requires notFound.status == 404
    ensures refusal == Some(notFound) <==> id !in accounts
    ensures refusal.None? <==> id in accounts && accounts[id].agentId == caller
    ensures refusal.Some? && refusal != Some(notFound) ==> refusal == Some(FORBIDDEN)
  {
    if id !in accounts then Some(notFound)
    else if accounts[id].agentId != caller then Some(FORBIDDEN)
    else None
  }

  /** The account `create` builds: owned by the caller, Active, opened today,
      whatever the request says about the opening date. */
  function NewAccount(caller: string, req: CreateAccountRequest, today: Date): (a: Account)
    ensures a.agentId == caller && a.accountStatus == AccountActive && a.openingDate == today
    ensures a.clientId == req.clientId && a.accountType == req.accountType && a.currency == req.currency
    ensures a.initialDeposit == req.initialDeposit && a.branchId == req.branchId
  {
    Account(req.clientId, caller, req.accountType, AccountActive, today, req.initialDeposit,
            req.currency, req.branchId)
  }

  /** The six conditional setters of `update`. */
  function ApplyUpdate(a: Account, req: UpdateAccountRequest): (u: Account)
    ensures u.clientId == a.clientId && u.agentId == a.agentId
  {
    a.(accountType := req.accountType.GetOr(a.accountType),
       accountStatus := req.accountStatus.GetOr(a.accountStatus),
       initialDeposit := req.initialDeposit.GetOr(a.initialDeposit),
       currency := req.currency.GetOr(a.currency),
       branchId := if req.branchId.Some? then req.branchId else a.branchId,
       openingDate := req.openingDate.GetOr(a.openingDate))
  }

  /** A null request field keeps the stored value; a present one replaces it. */
  lemma ApplyUpdateFieldwise(a: Account, req: UpdateAccountRequest)
    ensures var u := ApplyUpdate(a, req);
      && (req.accountType.None? ==> u.accountType == a.accountType)
      && (req.accountType.Some? ==> u.accountType == req.accountType.value)
      && (req.accountStatus.None? ==> u.accountStatus == a.accountStatus)
      && (req.accountStatus.Some? ==> u.accountStatus == req.accountStatus.value)
      && (req.initialDeposit.None? ==> u.initialDeposit == a.initialDeposit)
      && (req.initialDeposit.Some? ==> u.initialDeposit == req.initialDeposit.value)
      && (req.currency.None? ==> u.currency == a.currency)
      && (req.currency.Some? ==> u.currency == req.currency.value)
      && (req.branchId.None? ==> u.branchId == a.branchId)
      && (req.branchId.Some? ==> u.branchId == req.branchId)
      && (req.openingDate.None? ==> u.openingDate == a.openingDate)
      && (req.openingDate.Some? ==> u.openingDate == req.openingDate.value)
  {
  }

  /** The requested opening date has no effect on a created account. */
  lemma CreateIgnoresRequestedOpeningDate(caller: string, req: CreateAccountRequest, d: Date, today: Date)
    ensures NewAccount(caller, req, today) == NewAccount(caller, req.(openingDate := d), today)
  {
  }

  /** An update can restore a deleted account: nothing guards the status. */
  lemma UpdateCanUndelete(a: Account, req: UpdateAccountRequest)
    requires a.accountStatus == AccountDeleted && req.accountStatus == Some(AccountActive)
    ensures ApplyUpdate(a, req).accountStatus == AccountActive
  {
  }

  /** Applying the same update twice is the same as applying it once, and an
      update never moves an account to another client or agent. */
  lemma ApplyUpdateIdempotent(a: Account, req: UpdateAccountRequest)
    ensures ApplyUpdate(ApplyUpdate(a, req), req) == ApplyUpdate(a, req)
  {
  }

  /** A forbidden answer is the same for every account and agent, so it does
      not reveal who manages the account. */
  lemma ForbiddenRevealsNoIds(acc1: map<string, Account>, acc2: map<string, Account>, c1: string, c2: string, id1: string, id2: string, nf: Response)
    requires nf.status == 404
    requires Gate(acc1, c1, id1, nf).Some? && Gate(acc1, c1, id1, nf) != Some(nf)
    requires Gate(acc2, c2, id2, nf).Some? && Gate(acc2, c2, id2, nf) != Some(nf)
    ensures Gate(acc1, c1, id1, nf) == Gate(acc2, c2, id2, nf)
  {
  }

  class AccountController {
    const service: AccountService

    constructor (service: AccountService)
      ensures this.service == service
    {
      this.service := service;
    }

    /** GET /api/accounts: the caller's accounts; the `clientId` parameter is ignored. */
    method GetAll(caller: string, clientId: Option<string>) returns (resp: Response)
      ensures resp.status == 200 && resp.body.Many?
      ensures forall k :: k in resp.body.accounts <==> k in service.accounts && service.accounts[k].agentId == caller
      ensures forall k :: k in resp.body.accounts ==> resp.body.accounts[k] == AccountToDto(k, service.accounts[k])
    {
      var mine := service.FindByAgentId(caller);
      resp := Response(200, Many(map k | k in mine :: AccountToDto(k, mine[k])));
    }

    /** GET /api/accounts/{id}. */
    method GetOne(caller: string, id: string) returns (resp: Response)
      ensures Gate(service.accounts, caller, id, Response(404, NoBody)).Some? ==>
                Some(resp) == Gate(service.accounts, caller, id, Response(404, NoBody))
      ensures Gate(service.accounts, caller, id, Response(404, NoBody)).None? ==>
                resp == Response(200, One(AccountToDto(id, service.accounts[id])))
    {
      var found := service.FindById(id);
      if found.None? {
        return Response(404, NoBody);
      }
      var acc := found.value;
      if caller != acc.agentId {
        return FORBIDDEN;
      }
      resp := Response(200, One(AccountToDto(id, acc)));
    }

    /** POST /api/accounts. `newId` stands for the random UUID and `today`
        for the server's current date. */
    method Create(caller: string, req: CreateAccountRequest, newId: string, today: Date) returns (resp: Response)
      modifies service
      ensures service.accounts == old(service.accounts)[newId := NewAccount(caller, req, today)]
      ensures resp == Response(201, One(AccountToDto(newId, NewAccount(caller, req, today))))
    {
      var acc := NewAccount(caller, req, today);
      service.Save(newId, acc);
      resp := Response(201, One(AccountToDto(newId, acc)));
    }

    /** PUT /api/accounts/{id}. */
    method Update(caller: string, id: string, req: UpdateAccountRequest) returns (resp: Response)
      modifies service
      ensures Gate(old(service.accounts), caller, id, UpdateNotFound(id)).Some? ==>
                Some(resp) == Gate(old(service.accounts), caller, id, UpdateNotFound(id))
                && service.accounts == old(service.accounts)
      ensures Gate(old(service.accounts), caller, id, UpdateNotFound(id)).None? ==>
                var u := ApplyUpdate(old(service.accounts)[id], req);
                service.accounts == old(service.accounts)[id := u] && resp == Response(200, One(AccountToDto(id, u)))
    {
      var found := service.FindById(id);
      if found.None? {
        return UpdateNotFound(id);
      }
      var acc := found.value;
      if acc.agentId != caller {
        return FORBIDDEN;
      }
      if req.accountType.Some? { acc := acc.(accountType := req.accountType.value); }
      if req.accountStatus.Some? { acc := acc.(accountStatus := req.accountStatus.value); }
      if req.initialDeposit.Some? { acc := acc.(initialDeposit := req.initialDeposit.value); }
      if req.currency.Some? { acc := acc.(currency := req.currency.value); }
      if req.branchId.Some? { acc := acc.(branchId := req.branchId); }
      if req.openingDate.Some? { acc := acc.(openingDate := req.openingDate.value); }
      service.Save(id, acc);
      resp := Response(200, One(AccountToDto(id, acc)));
    }

    /** DELETE /api/accounts/{id}: soft delete, 204 with no body. */
    method Delete(caller: string, id: string) returns (resp: Response)
      modifies service
      ensures Gate(old(service.accounts), caller, id, Response(404, NoBody)).Some? ==>
                Some(resp) == Gate(old(service.accounts), caller, id, Response(404, NoBody))
                && service.accounts == old(service.accounts)
      ensures Gate(old(service.accounts), caller, id, Response(404, NoBody)).None? ==>
                resp == Response(204, NoBody)
                && service.accounts == old(service.accounts)[id := old(service.accounts)[id].(accountStatus := AccountDeleted)]
    {
      var found := service.FindById(id);
      if found.None? {
        return Response(404, NoBody);
      }
      var acc := found.value;
      if acc.agentId != caller {
        return FORBIDDEN;
      }
      service.SoftDelete(id, acc);
      resp := Response(204, NoBody);
    }
  }
}
