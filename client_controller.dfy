/** The client REST endpoints (api/ClientController.java). Every endpoint
    that names a client answers 404 when it does not exist and 403 when the
    calling agent does not own it; update also answers 410 for a soft-deleted
    client, and create and update refuse an email or phone number already
    on file. The caller is the agent whose id is the token's subject. */
module ClientController {
  import opened Wrappers
  import Ascii
  import opened ClientDomain
  import opened ClientMapper
  import opened ClientService

  datatype Body =
    | Message(text: string)               // {"message": text}
    | One(dto: ClientDto)
    | Many(clients: map<Uuid, Client>)
    | NoBody

  datatype Response = Response(status: int, body: Body)

  const NOT_FOUND: Response := Response(404, Message("Client not found"))
  const FORBIDDEN: Response := Response(403, Message("Forbidden"))
  const GONE: Response := Response(410, Message("Client has been deleted and cannot be updated"))
  const EMAIL_TAKEN: Response := Response(400, Message("Email already exists."))
  const PHONE_TAKEN: Response := Response(400, Message("Phone number already exists."))

  /** The existence and ownership check of get, verify and delete. */
  function Gate(clients: map<Uuid, Client>, caller: Uuid, id: Uuid): (refusal: Option<Response>)
    ensures refusal == Some(NOT_FOUND) <==> id !in clients
    ensures refusal == Some(FORBIDDEN) <==> id in clients && clients[id].agentId != caller
    ensures refusal.None? <==> id in clients && clients[id].agentId == caller
  {
    if id !in clients then Some(NOT_FOUND)
    else if clients[id].agentId != caller then Some(FORBIDDEN)
    else None
  }

  /** The duplicate checks of create, in order: email first, then phone. */
  function CreateCheck(clients: map<Uuid, Client>, req: CreateClientRequest): (refusal: Option<Response>)
    ensures refusal == Some(EMAIL_TAKEN) <==> HasEmail(clients, req.email)
    ensures refusal == Some(PHONE_TAKEN) <==> !HasEmail(clients, req.email) && HasPhone(clients, req.phoneNumber)
    ensures refusal.None? <==> !HasEmail(clients, req.email) && !HasPhone(clients, req.phoneNumber)
  {
    if HasEmail(clients, req.email) then Some(EMAIL_TAKEN)
    else if HasPhone(clients, req.phoneNumber) then Some(PHONE_TAKEN)
    else None
  }

  /** The email check of update is skipped when the new email equals the
      current one ignoring case. */
  predicate EmailClash(clients: map<Uuid, Client>, current: Client, req: UpdateClientRequest) {
    req.email.Some? && !Ascii.EqualsIgnoreCase(req.email.value, current.email) && HasEmail(clients, req.email.value)
  }

  /** The phone check of update is skipped when the new number equals the current one. */
  predicate PhoneClash(clients: map<Uuid, Client>, current: Client, req: UpdateClientRequest) {
    req.phoneNumber.Some? && req.phoneNumber.value != current.phoneNumber && HasPhone(clients, req.phoneNumber.value)
  }

  /** The checks of update, in order: exists, not deleted, owned, email, phone. */
  function UpdateCheck(clients: map<Uuid, Client>, caller: Uuid, id: Uuid, req: UpdateClientRequest): (refusal: Option<Response>)
    ensures refusal == Some(NOT_FOUND) <==> id !in clients
    ensures refusal == Some(GONE) <==> id in clients && clients[id].clientStatus == ClientDeleted
    ensures refusal == Some(FORBIDDEN) <==>
              id in clients && clients[id].clientStatus == ClientActive && clients[id].agentId != caller
    ensures refusal.None? <==>
              id in clients && clients[id].clientStatus == ClientActive && clients[id].agentId == caller
              && !EmailClash(clients, clients[id], req) && !PhoneClash(clients, clients[id], req)
  {
    assert id in clients && clients[id].clientStatus != ClientDeleted ==> clients[id].clientStatus == ClientActive;
    if id !in clients then Some(NOT_FOUND)
    else if clients[id].clientStatus == ClientDeleted then Some(GONE)
    else if clients[id].agentId != caller then Some(FORBIDDEN)
    else if EmailClash(clients, clients[id], req) then Some(EMAIL_TAKEN)
    else if PhoneClash(clients, clients[id], req) then Some(PHONE_TAKEN)
    else None
  }

  /** Deleted is checked before ownership, so any agent learns that a client
      it does not own has been deleted. */
  lemma UpdateRevealsDeletionToAnyAgent(clients: map<Uuid, Client>, caller: Uuid, id: Uuid, req: UpdateClientRequest)
    requires id in clients && clients[id].clientStatus == ClientDeleted && clients[id].agentId != caller
    ensures UpdateCheck(clients, caller, id, req) == Some(GONE)
  {
  }

  /** A successful create keeps emails and phone numbers unique. */
  lemma {:induction false} CreateKeepsContactsUnique(clients: map<Uuid, Client>, req: CreateClientRequest, caller: Uuid, newId: Uuid)
    requires UniqueContacts(clients) && newId !in clients
    requires CreateCheck(clients, req).None?
    ensures UniqueContacts(clients[newId := ToEntity(req, caller)])
  {
    var after := clients[newId := ToEntity(req, caller)];
    forall a, b | a in after && b in after && a != b
      ensures after[a].email != after[b].email && after[a].phoneNumber != after[b].phoneNumber
    {
      if a == newId {
        assert b in clients;
        assert clients[b].email != req.email;
        assert clients[b].phoneNumber != req.phoneNumber;
      } else if b == newId {
        assert clients[a].email != req.email;
        assert clients[a].phoneNumber != req.phoneNumber;
      }
    }
  }

  /** A successful update keeps emails and phone numbers unique, unless the
      request changes only the letter case of the current email: that change
      skips the lookup. */
  lemma {:induction false} UpdateKeepsContactsUnique(clients: map<Uuid, Client>, caller: Uuid, id: Uuid, req: UpdateClientRequest)
    requires UniqueContacts(clients)
    requires UpdateCheck(clients, caller, id, req).None?
    requires req.email.None? || req.email.value == clients[id].email
             || !Ascii.EqualsIgnoreCase(req.email.value, clients[id].email)
    ensures UniqueContacts(clients[id := UpdateEntity(clients[id], req)])
  {
    var u := UpdateEntity(clients[id], req);
    var after := clients[id := u];
    UpdateEntityFieldwise(clients[id], req);
    forall a, b | a in after && b in after && a != b
      ensures after[a].email != after[b].email && after[a].phoneNumber != after[b].phoneNumber
    {
      if a == id {
        OtherRowContacts(clients, id, b, req);
      } else if b == id {
        OtherRowContacts(clients, id, a, req);
      }
    }
  }

  /** The updated row's contacts differ from those of every other row. */
  lemma {:induction false} OtherRowContacts(clients: map<Uuid, Client>, id: Uuid, other: Uuid, req: UpdateClientRequest)
    requires UniqueContacts(clients)
    requires id in clients && other in clients && other != id
    requires !EmailClash(clients, clients[id], req) && !PhoneClash(clients, clients[id], req)
    requires req.email.None? || req.email.value == clients[id].email
             || !Ascii.EqualsIgnoreCase(req.email.value, clients[id].email)
    ensures UpdateEntity(clients[id], req).email != clients[other].email
    ensures UpdateEntity(clients[id], req).phoneNumber != clients[other].phoneNumber
  {
    UpdateEntityFieldwise(clients[id], req);
    if req.email.Some? && req.email.value != clients[id].email {
      assert !HasEmail(clients, req.email.value);
    }
    if req.phoneNumber.Some? && req.phoneNumber.value != clients[id].phoneNumber {
      assert !HasPhone(clients, req.phoneNumber.value);
    }
  }

  /** The exception above is real: with "A" on file for the caller's client
      and "a" for another client, changing the former to "a" passes every
      check and leaves two clients with the same email. */
  lemma {:induction false} CaseOnlyEmailChangeDuplicates(clients: map<Uuid, Client>, caller: Uuid, id: Uuid, other: Uuid)
    requires id != other && id in clients && other in clients
    requires clients[id].agentId == caller && clients[id].clientStatus == ClientActive
    requires clients[id].email == "A" && clients[other].email == "a"
    ensures UpdateCheck(clients, caller, id, EmptyUpdate.(email := Some("a"))).None?
    ensures !UniqueContacts(clients[id := UpdateEntity(clients[id], EmptyUpdate.(email := Some("a")))])
  {
    var req := EmptyUpdate.(email := Some("a"));
    assert Ascii.ToLower("a") == "a" == Ascii.ToLower("A");
    assert !EmailClash(clients, clients[id], req);
    var after := clients[id := UpdateEntity(clients[id], req)];
    assert after[id].email == "a" == after[other].email;
  }

  /** A soft-deleted client still holds its email: creating another client
      with it is refused. */
  lemma DeletedClientKeepsEmail(clients: map<Uuid, Client>, id: Uuid, req: CreateClientRequest)
    requires id in clients && clients[id].clientStatus == ClientDeleted && clients[id].email == req.email
    ensures CreateCheck(clients, req) == Some(EMAIL_TAKEN)
  {
  }

  class ClientController {
    const service: ClientService

    constructor (service: ClientService)
      ensures this.service == service
    {
      this.service := service;
    }

    /** GET /api/clients: the caller's clients, deleted ones included. */
    method GetAll(caller: Uuid) returns (resp: Response)
      ensures resp.status == 200 && resp.body.Many?
      ensures forall k :: k in resp.body.clients <==> k in service.clients && service.clients[k].agentId == caller
      ensures forall k :: k in resp.body.clients ==> resp.body.clients[k] == service.clients[k]
    {
      var mine := service.FindByAgentId(caller);
      resp := Response(200, Many(mine));
    }

    /** GET /api/clients/{id}: the client, deleted or not, to its owner only. */
    method GetOne(caller: Uuid, id: Uuid) returns (resp: Response)
      ensures Gate(service.clients, caller, id).Some? ==> Some(resp) == Gate(service.clients, caller, id)
      ensures Gate(service.clients, caller, id).None? ==> resp == Response(200, One(ToDto(id, service.clients[id])))
    {
      var found := service.FindById(id);
      if found.None? {
        return NOT_FOUND;
      }
      var client := found.value;
      if client.agentId != caller {
        return FORBIDDEN;
      }
      resp := Response(200, One(ToDto(id, client)));
    }

    /** POST /api/clients: a new client owned by the caller. `newId` is the
        id the database generates. */
    method CreateClient(caller: Uuid, req: CreateClientRequest, newId: Uuid) returns (resp: Response)
      requires newId !in service.clients
      modifies service
      ensures CreateCheck(old(service.clients), req).Some? ==>
                Some(resp) == CreateCheck(old(service.clients), req) && service.clients == old(service.clients)
      ensures CreateCheck(old(service.clients), req).None? ==>
                service.clients == old(service.clients)[newId := ToEntity(req, caller)]
                && resp == Response(201, One(ToDto(newId, ToEntity(req, caller))))
    {
      var byEmail := service.FindByEmail(req.email);
      if byEmail.Some? {
        return EMAIL_TAKEN;
      }
      var byPhone := service.FindByPhoneNumber(req.phoneNumber);
      if byPhone.Some? {
        return PHONE_TAKEN;
      }
      var client := ToEntity(req, caller);
      service.Save(newId, client);
      resp := Response(201, One(ToDto(newId, client)));
    }

    /** POST /api/clients/{id}/verify: marks the client Verified, even a deleted one. */
    method Verify(caller: Uuid, id: Uuid) returns (resp: Response)
      modifies service
      ensures Gate(old(service.clients), caller, id).Some? ==>
                Some(resp) == Gate(old(service.clients), caller, id) && service.clients == old(service.clients)
      ensures Gate(old(service.clients), caller, id).None? ==>
                resp == Response(200, NoBody)
                && service.clients == old(service.clients)[id := old(service.clients)[id].(verificationStatus := Verified)]
    {
      var found := service.FindById(id);
      if found.None? {
        return NOT_FOUND;
      }
      var client := found.value;
      if client.agentId != caller {
        return FORBIDDEN;
      }
      service.Verify(id, client);
      resp := Response(200, NoBody);
    }

    /** PUT /api/clients/{id}. */
    method UpdateClient(caller: Uuid, id: Uuid, req: UpdateClientRequest) returns (resp: Response)
      modifies service
      ensures UpdateCheck(old(service.clients), caller, id, req).Some? ==>
                Some(resp) == UpdateCheck(old(service.clients), caller, id, req) && service.clients == old(service.clients)
      ensures UpdateCheck(old(service.clients), caller, id, req).None? ==>
                var updated := UpdateEntity(old(service.clients)[id], req);
                service.clients == old(service.clients)[id := updated]
                && resp == Response(200, One(ToDto(id, updated)))
    {
      var found := service.FindById(id);
      if found.None? {
        return NOT_FOUND;
      }
      var existing := found.value;
      if existing.clientStatus == ClientDeleted {
        return GONE;
      }
      if existing.agentId != caller {
        return FORBIDDEN;
      }
      if req.email.Some? && !Ascii.EqualsIgnoreCase(req.email.value, existing.email) {
        var byEmail := service.FindByEmail(req.email.value);
        if byEmail.Some? {
          return EMAIL_TAKEN;
        }
      }
      if req.phoneNumber.Some? && req.phoneNumber.value != existing.phoneNumber {
        var byPhone := service.FindByPhoneNumber(req.phoneNumber.value);
        if byPhone.Some? {
          return PHONE_TAKEN;
        }
      }
      var updated := UpdateEntity(existing, req);
      service.Save(id, updated);
      resp := Response(200, One(ToDto(id, updated)));
    }

    /** DELETE /api/clients/{id}: soft delete; deleting again succeeds again. */
    method DeleteClient(caller: Uuid, id: Uuid) returns (resp: Response)
      modifies service
      ensures Gate(old(service.clients), caller, id).Some? ==>
                Some(resp) == Gate(old(service.clients), caller, id) && service.clients == old(service.clients)
      ensures Gate(old(service.clients), caller, id).None? ==>
                resp == Response(200, Message("Client deleted successfully"))
                && service.clients == old(service.clients)[id := old(service.clients)[id].(clientStatus := ClientDeleted)]
    {
      var found := service.FindById(id);
      if found.None? {
        return NOT_FOUND;
      }
      var client := found.value;
      if client.agentId != caller {
        return FORBIDDEN;
      }
      service.SoftDelete(id, client);
      resp := Response(200, Message("Client deleted successfully"));
    }
  }
}
