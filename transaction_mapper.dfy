/** Transaction entities to API records (service/TransactionMapper.java). */
module TransactionMapper {
  import opened AccountDomain

  /** `toDto(Transaction)`: the record names the owning account by its id. */
  function ToDto(t: Transaction): (d: TransactionDto)
    ensures d.transactionId == t.transactionId && d.accountId == t.accountId && d.clientId == t.clientId
    ensures d.transactionType == t.transactionType && d.amount == t.amount
    ensures d.date == t.date && d.status == t.status
  {
    TransactionDto(t.transactionId, t.clientId, t.accountId, t.transactionType, t.amount, t.date, t.status)
  }

  /** The record loses nothing: different transactions give different records. */
  lemma ToDtoInjective(t1: Transaction, t2: Transaction)
    requires ToDto(t1) == ToDto(t2)
    ensures t1 == t2
  {
  }

  /** `toDto(List<Transaction>)`: element by element, in order. */
  function ToDtos(ts: seq<Transaction>): (ds: seq<TransactionDto>)
    ensures |ds| == |ts|
    ensures forall i :: 0 <= i < |ts| ==> ds[i] == ToDto(ts[i])
  {
    if ts == [] then [] else [ToDto(ts[0])] + ToDtos(ts[1..])
  }

  /** Mapping a concatenation maps each part. */
  lemma {:induction false} ToDtosAppend(a: seq<Transaction>, b: seq<Transaction>)
    ensures ToDtos(a + b) == ToDtos(a) + ToDtos(b)
  {
    var l, r := ToDtos(a + b), ToDtos(a) + ToDtos(b);
    assert |l| == |r|;
    forall i | 0 <= i < |l| ensures l[i] == r[i] {
      if i < |a| { assert (a + b)[i] == a[i]; } else { assert (a + b)[i] == b[i - |a|]; }
    }
  }
}
