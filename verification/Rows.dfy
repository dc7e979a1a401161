/** The tables of the bank, as rows keyed the way the schema's unique constraints key them. */
module Rows {
  import opened Text
  import opened Json

  type Id = string

  /** User ids are UUIDs; all that matters here is that they hold no colon. */
  type UserId = u: string | ':' !in u witness ""

  /** Microseconds since the epoch, the resolution of the `Timestamptz(6)` columns. */
  type Time = int

  datatype Kyc = Pending | Verified | Rejected
  datatype Profile = Profile(id: Id, kyc: Kyc)

  datatype AccountStatus = Active | Frozen | Closed

  /** Balances and amounts are whole ten-thousandths, the scale of `Decimal(19, 4)`. */
  datatype Account = Account(
    customer: Id, iban: string, currency: string, balance: int,
    status: AccountStatus, accountType: string, isSystem: bool)

  datatype BeneficiaryStatus = Listed | Archived
  datatype Beneficiary = Beneficiary(
    customer: Id, iban: string, displayName: string, alias: Option<string>,
    status: BeneficiaryStatus, archivedAt: Option<Time>)

  datatype Merchant = Merchant(settlementAccount: Id, isActive: bool)

  datatype TxnType = InternalTransfer | BeneficiaryTransfer | MerchantPayment | AdminCredit
  datatype TxnStatus = TxnPending | TxnPosted | TxnFailed | TxnReversed
  datatype Txn = Txn(
    kind: TxnType, status: TxnStatus, amount: nat, currency: string, description: Option<string>,
    customer: Id, from: Id, to: Id, idempotencyKey: Option<Id>, postedAt: Option<Time>)

  datatype Side = Debit | Credit
  datatype Entry = Entry(
    txn: Id, account: Id, side: Side, amount: nat, currency: string, sequence: nat, createdAt: Time)

  datatype KeyStatus = InProgress | Completed | Failed
  datatype KeyRow = KeyRow(
    id: Id, scope: string, requestHash: Option<string>, status: KeyStatus,
    payload: Option<Value>, httpStatus: Option<nat>, completedAt: Option<Time>)

  datatype AuditAction =
    | PaymentTransferPosted | BeneficiaryTransferPosted | MerchantPaymentPosted
    | AccountCreditedByAdmin
    | BeneficiaryCreated | BeneficiaryReactivated | BeneficiaryDeleted
    | CustomerVerified | CustomerRejected | UserRegistered
  datatype Audit = Audit(actor: UserId, action: AuditAction, resource: Id)

  /** `IdempotencyKey` rows are unique per user and key. */
  type KeyOf = (UserId, string)

  datatype Db = Db(
    profiles: map<UserId, Profile>,
    accounts: map<Id, Account>,
    beneficiaries: map<Id, Beneficiary>,
    merchants: map<Id, Merchant>,
    txns: map<Id, Txn>,
    ledger: seq<Entry>,
    keys: map<KeyOf, KeyRow>,
    audits: seq<Audit>)

  /** The `where` clauses that may match more than one account. */
  datatype Filter =
    | ByIban(iban: string, currency: string)
    | ExternalSettlement(currency: string)
    | AnySystem(currency: string)

  predicate Matches(f: Filter, a: Account) {
    match f
    case ByIban(iban, currency) => a.iban == iban && a.status.Active? && a.currency == currency && !a.isSystem
    case ExternalSettlement(currency) =>
      a.accountType == "EXTERNAL_SETTLEMENT" && a.isSystem && a.status.Active? && a.currency == currency
    case AnySystem(currency) => a.isSystem && a.currency == currency && a.status.Active?
  }

  /** `findFirst` without an order: the first match in whatever order the database scans. */
  function FindFirst(scan: seq<Id>, accounts: map<Id, Account>, f: Filter): (r: Option<Id>)
    ensures r.Some? ==> r.value in accounts && Matches(f, accounts[r.value])
    ensures r.None? ==> forall id :: id in scan && id in accounts ==> !Matches(f, accounts[id])
  {
    if scan == [] then None
    else if scan[0] in accounts && Matches(f, accounts[scan[0]]) then Some(scan[0])
    else FindFirst(scan[1..], accounts, f)
  }

  function AddTo(accounts: map<Id, Account>, id: Id, delta: int): map<Id, Account>
    requires id in accounts
  {
    accounts[id := accounts[id].(balance := accounts[id].balance + delta)]
  }
}
