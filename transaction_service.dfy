/** Transaction look-ups (service/TransactionService.java). The transaction
    table is kept in storage order, which is the order lists are returned in. */
module TransactionService {
  import opened Wrappers
  import opened AccountDomain
  import opened AccountService

  /** The transactions of one account, in table order
      (`findByAccountAccountId`). */
  function ForAccount(ts: seq<Transaction>, accountId: string): (r: seq<Transaction>)
    ensures |r| <= |ts|
    ensures forall t :: t in r <==> t in ts && t.accountId == accountId
  {
    if ts == [] then []
    else if ts[0].accountId == accountId then [ts[0]] + ForAccount(ts[1..], accountId)
    else ForAccount(ts[1..], accountId)
  }

  /** The first transaction with both ids
      (`findByAccountAccountIdAndTransactionId`). */
  function Lookup(ts: seq<Transaction>, accountId: string, transactionId: string): (r: Option<Transaction>)
    ensures r.Some? ==> r.value in ts && r.value.accountId == accountId && r.value.transactionId == transactionId
    ensures r.None? ==> forall t :: t in ts ==> t.accountId != accountId || t.transactionId != transactionId
  {
    if ts == [] then None
    else if ts[0].accountId == accountId && ts[0].transactionId == transactionId then Some(ts[0])
    else Lookup(ts[1..], accountId, transactionId)
  }

  /** Filtering distributes over concatenation: the transactions of an
      account keep their relative order. */
  lemma {:induction false} ForAccountAppend(a: seq<Transaction>, b: seq<Transaction>, accountId: string)
    ensures ForAccount(a + b, accountId) == ForAccount(a, accountId) + ForAccount(b, accountId)
  {
    if a == [] {
      assert a + b == b;
    } else {
      assert (a + b)[1..] == a[1..] + b;
      ForAccountAppend(a[1..], b, accountId);
    }
  }

  /** A single lookup finds exactly what the account's list holds. */
  lemma {:induction false} LookupAgreesWithList(ts: seq<Transaction>, accountId: string, transactionId: string)
    ensures Lookup(ts, accountId, transactionId).Some? <==>
            exists t :: t in ForAccount(ts, accountId) && t.transactionId == transactionId
  {
    var r := Lookup(ts, accountId, transactionId);
    if r.Some? {
      assert r.value in ForAccount(ts, accountId);
    }
  }

  class TransactionService {
    var transactions: seq<Transaction>
    const accountService: AccountService

    constructor (accountService: AccountService)
      ensures transactions == [] && this.accountService == accountService
    {
      transactions := [];
      this.accountService := accountService;
    }

    /** `findByAccountId`: the account's transactions, whether or not the
        account still exists. */
    method FindByAccountId(accountId: string) returns (r: seq<Transaction>)
      ensures forall t :: t in r <==> t in transactions && t.accountId == accountId
      ensures r == ForAccount(transactions, accountId)
    {
      r := ForAccount(transactions, accountId);
    }

    /** `findByAccountIdAndTransactionId`: nothing for an unknown account,
        otherwise the transaction with both ids. */
    method FindByAccountIdAndTransactionId(accountId: string, transactionId: string) returns (r: Option<Transaction>)
      ensures accountId !in accountService.accounts ==> r.None?
      ensures accountId in accountService.accounts ==> r == Lookup(transactions, accountId, transactionId)
      ensures r.Some? ==> r.value in transactions && r.value.accountId == accountId && r.value.transactionId == transactionId
    {
      var known := accountService.ExistsById(accountId);
      if !known {
        return None;
      }
      r := Lookup(transactions, accountId, transactionId);
    }
  }
}
