/** The transaction REST endpoints (api/TransactionController.java): both
    answer 404 for an unknown account and 403, with no body, when the calling
    agent does not manage it. A deleted account's transactions stay readable. */
module TransactionController {
  import opened Wrappers
  import opened AccountDomain
  import opened AccountService
  import opened TransactionService
  import opened TransactionMapper

  datatype Body = TxList(items: seq<TransactionDto>) | TxOne(item: TransactionDto) | NoBody
  datatype Response = Response(status: int, body: Body)

  /** The account check both endpoints make first. */
  function AccountGate(accounts: map<string, Account>, caller: string, accountId: string): (refusal: Option<Response>)
    ensures refusal == Some(Response(404, NoBody)) <==> accountId !in accounts
    ensures refusal == Some(Response(403, NoBody)) <==> accountId in accounts && accounts[accountId].agentId != caller
    ensures refusal.None? <==> accountId in accounts && accounts[accountId].agentId == caller
  {
    if accountId !in accounts then Some(Response(404, NoBody))
    else if accounts[accountId].agentId != caller then Some(Response(403, NoBody))
    else None
  }

  /** An illustration of `AccountGate` and `Lookup` together: a transaction
      reaches only the agent managing its account. */
  lemma {:induction false} OnlyManagerSeesTransactions(accounts: map<string, Account>, ts: seq<Transaction>, caller: string, accountId: string, transactionId: string)
    requires AccountGate(accounts, caller, accountId).None?
    requires Lookup(ts, accountId, transactionId).Some?
    ensures accounts[Lookup(ts, accountId, transactionId).value.accountId].agentId == caller
  {
  }

  class TransactionController {
    const accountService: AccountService
    const transactionService: TransactionService

    constructor (accountService: AccountService, transactionService: TransactionService)
      requires transactionService.accountService == accountService
      ensures this.accountService == accountService && this.transactionService == transactionService
    {
      this.accountService := accountService;
      this.transactionService := transactionService;
    }

    /** GET /api/accounts/{accountId}/transactions. */
    method GetTransactions(caller: string, accountId: string) returns (resp: Response)
      ensures AccountGate(accountService.accounts, caller, accountId).Some? ==>
                Some(resp) == AccountGate(accountService.accounts, caller, accountId)
      ensures AccountGate(accountService.accounts, caller, accountId).None? ==>
                resp == Response(200, TxList(ToDtos(ForAccount(transactionService.transactions, accountId))))
      ensures resp.status == 200 ==> forall d :: d in resp.body.items ==> d.accountId == accountId
    {
      var found := accountService.FindById(accountId);
      if found.None? {
        return Response(404, NoBody);
      }
      if found.value.agentId != caller {
        return Response(403, NoBody);
      }
      var ts := transactionService.FindByAccountId(accountId);
      var ds := ToDtos(ts);
      assert forall d :: d in ds ==> d.accountId == accountId by {
        forall d | d in ds ensures d.accountId == accountId {
          var i :| 0 <= i < |ds| && ds[i] == d;
          assert ts[i] in ts;
        }
      }
      resp := Response(200, TxList(ds));
    }

    /** GET /api/accounts/{accountId}/transactions/{transactionId}. */
    method GetTransaction(caller: string, accountId: string, transactionId: string) returns (resp: Response)
      requires transactionService.accountService == accountService
      ensures AccountGate(accountService.accounts, caller, accountId).Some? ==>
                Some(resp) == AccountGate(accountService.accounts, caller, accountId)
      ensures AccountGate(accountService.accounts, caller, accountId).None? ==>
                var t := Lookup(transactionService.transactions, accountId, transactionId);
                (t.None? ==> resp == Response(404, NoBody))
                && (t.Some? ==> resp == Response(200, TxOne(ToDto(t.value))))
      ensures resp.status == 200 ==> resp.body.item.accountId == accountId && resp.body.item.transactionId == transactionId
    {
      var found := accountService.FindById(accountId);
      if found.None? {
        return Response(404, NoBody);
      }
      if found.value.agentId != caller {
        return Response(403, NoBody);
      }
      var t := transactionService.FindByAccountIdAndTransactionId(accountId, transactionId);
      if t.None? {
        return Response(404, NoBody);
      }
      resp := Response(200, TxOne(ToDto(t.value)));
    }
  }
}
