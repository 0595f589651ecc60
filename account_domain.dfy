/** Accounts and transactions of the client account service
    (domain/Account.java, domain/Transaction.java and the api/dto records).
    Monetary amounts are `Double` in the source; the model carries them as
    `real` values and never computes with them. */
module AccountDomain {
  import opened Wrappers
  import opened Calendar

  /** The account statuses the service and its front end use. */
  datatype AccountStatus = AccountActive | AccountInactive | AccountPending | AccountDeleted

  /** A stored account without its id: the id is the table key. The account
      type is the name of its enum constant. */
  datatype Account = Account(
    clientId: string,
    agentId: string,
    accountType: string,
    accountStatus: AccountStatus,
    openingDate: Date,
    initialDeposit: real,
    currency: string,
    branchId: Option<string>)

  datatype AccountDto = AccountDto(
    accountId: string,
    clientId: string,
    agentId: string,
    accountType: string,
    accountStatus: AccountStatus,
    openingDate: Date,
    initialDeposit: real,
    currency: string,
    branchId: Option<string>)

  /** `AccountMapper.toDto`: the stored account with its id. */
  function AccountToDto(id: string, a: Account): (d: AccountDto)
    ensures d.accountId == id && d.agentId == a.agentId && d.accountStatus == a.accountStatus
  {
    AccountDto(id, a.clientId, a.agentId, a.accountType, a.accountStatus, a.openingDate,
               a.initialDeposit, a.currency, a.branchId)
  }

  datatype CreateAccountRequest = CreateAccountRequest(
    clientId: string,
    clientEmail: string,
    accountType: string,
    initialDeposit: real,
    currency: string,
    branchId: Option<string>,
    openingDate: Date)

  /** Every field may be left out (null). */
  datatype UpdateAccountRequest = UpdateAccountRequest(
    accountType: Option<string>,
    accountStatus: Option<AccountStatus>,
    openingDate: Option<Date>,
    initialDeposit: Option<real>,
    currency: Option<string>,
    branchId: Option<string>)

  datatype TransactionStatus = Completed | Pending | Failed

  /** A stored transaction; `accountId` is the id of the account it belongs to. */
  datatype Transaction = Transaction(
    transactionId: string,
    clientId: string,
    accountId: string,
    transactionType: string,
    amount: real,
    date: Date,
    status: TransactionStatus)

  datatype TransactionDto = TransactionDto(
    transactionId: string,
    clientId: string,
    accountId: string,
    transactionType: string,
    amount: real,
    date: Date,
    status: TransactionStatus)
}
