/** The account table and its operations (service/AccountService.java over
    the account repository). Deletion is soft: the row stays, with status Deleted. */
module AccountService {
  import opened Wrappers
  import opened AccountDomain

  class AccountService {
    var accounts: map<string, Account>

    constructor ()
      ensures accounts == map[]
    {
      accounts := map[];
    }

    /** `findAll`: every account, deleted ones included. */
    method FindAll() returns (r: map<string, Account>)
      ensures r == accounts
    {
      r := accounts;
    }

    method FindById(id: string) returns (r: Option<Account>)
      ensures r.Some? <==> id in accounts
      ensures r.Some? ==> r.value == accounts[id]
    {
      r := if id in accounts then Some(accounts[id]) else None;
    }

    /** `findByClientId`: the client's accounts, deleted ones included. */
    method FindByClientId(clientId: string) returns (r: map<string, Account>)
      ensures forall k :: k in r <==> k in accounts && accounts[k].clientId == clientId
      ensures forall k :: k in r ==> r[k] == accounts[k]
    {
      r := map k | k in accounts && accounts[k].clientId == clientId :: accounts[k];
    }

    /** `findByAgentId`: the agent's accounts, deleted ones included. */
    method FindByAgentId(agentId: string) returns (r: map<string, Account>)
      ensures forall k :: k in r <==> k in accounts && accounts[k].agentId == agentId
      ensures forall k :: k in r ==> r[k] == accounts[k]
    {
      r := map k | k in accounts && accounts[k].agentId == agentId :: accounts[k];
    }

    /** `existsById`. */
    method ExistsById(id: string) returns (b: bool)
      ensures b <==> id in accounts
    {
      b := id in accounts;
    }

    method Save(id: string, a: Account)
      modifies this
      ensures accounts == old(accounts)[id := a]
    {
      accounts := accounts[id := a];
    }

    /** `softDelete`: mark the account Deleted; the row is kept. */
    method SoftDelete(id: string, a: Account)
      modifies this
      ensures accounts == old(accounts)[id := a.(accountStatus := AccountDeleted)]
    {
      accounts := accounts[id := a.(accountStatus := AccountDeleted)];
    }
  }
}
