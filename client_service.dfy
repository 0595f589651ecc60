/** The client table and its operations (service/ClientService.java over the
    client repository). Deletion is soft: the row stays, with status Deleted. */
module ClientService {
  import opened Wrappers
  import opened ClientDomain

  /** No two distinct clients share an email or a phone number. */
  ghost predicate UniqueContacts(clients: map<Uuid, Client>) {
    forall a, b :: a in clients && b in clients && a != b ==>
      clients[a].email != clients[b].email && clients[a].phoneNumber != clients[b].phoneNumber
  }

  predicate HasEmail(clients: map<Uuid, Client>, email: string) {
    exists k :: k in clients && clients[k].email == email
  }

  predicate HasPhone(clients: map<Uuid, Client>, phone: string) {
    exists k :: k in clients && clients[k].phoneNumber == phone
  }

  class ClientService {
    var clients: map<Uuid, Client>

    constructor ()
      ensures clients == map[]
    {
      clients := map[];
    }

    /** `findAll`: every client, deleted ones included. */
    method FindAll() returns (r: map<Uuid, Client>)
      ensures r == clients
    {
      r := clients;
    }

    /** `findByAgentId`: the clients the agent owns, deleted ones included. */
    method FindByAgentId(agentId: Uuid) returns (r: map<Uuid, Client>)
      ensures forall k :: k in r <==> k in clients && clients[k].agentId == agentId
      ensures forall k :: k in r ==> r[k] == clients[k]
    {
      r := map k | k in clients && clients[k].agentId == agentId :: clients[k];
    }

    method FindById(id: Uuid) returns (r: Option<Client>)
      ensures r.Some? <==> id in clients
      ensures r.Some? ==> r.value == clients[id]
    {
      r := if id in clients then Some(clients[id]) else None;
    }

    /** `findByEmail`: exact match on the stored email, any status. */
    method FindByEmail(email: string) returns (r: Option<Uuid>)
      ensures r.Some? <==> HasEmail(clients, email)
      ensures r.Some? ==> r.value in clients && clients[r.value].email == email
    {
      if HasEmail(clients, email) {
        var k :| k in clients && clients[k].email == email;
        r := Some(k);
      } else {
        r := None;
      }
    }

    /** `findByPhoneNumber`: exact match on the stored phone number, any status. */
    method FindByPhoneNumber(phone: string) returns (r: Option<Uuid>)
      ensures r.Some? <==> HasPhone(clients, phone)
      ensures r.Some? ==> r.value in clients && clients[r.value].phoneNumber == phone
    {
      if HasPhone(clients, phone) {
        var k :| k in clients && clients[k].phoneNumber == phone;
        r := Some(k);
      } else {
        r := None;
      }
    }

    /** `save` (and `update`, which only saves): write the row under its id. */
    method Save(id: Uuid, c: Client)
      modifies this
      ensures clients == old(clients)[id := c]
    {
      clients := clients[id := c];
    }

    /** `verify`: mark the client Verified, whatever its status. */
    method Verify(id: Uuid, c: Client)
      modifies this
      ensures clients == old(clients)[id := c.(verificationStatus := Verified)]
    {
      clients := clients[id := c.(verificationStatus := Verified)];
    }

    /** `softDelete`: mark the client Deleted; the row is kept. */
    method SoftDelete(id: Uuid, c: Client)
      modifies this
      ensures clients == old(clients)[id := c.(clientStatus := ClientDeleted)]
      ensures id in clients
    {
      clients := clients[id := c.(clientStatus := ClientDeleted)];
    }
  }
}
