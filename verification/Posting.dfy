/** What one database transaction of each posting route does, as a function of the tables
    it starts from. */
module Posting {
  import opened Text
  import opened Rows
  import opened Requests

  datatype Error =
    | KeyRequired | KycRequired | SameAccount | UnsupportedCurrency | AmountNotPositive
    | StepUpRequired(challengeId: string) | ChallengeNotFound | InvalidOtp | UnreadableChallenge
    | KeyReusedWithOtherBody | StoredResponseInvalid | KeyNotAvailable | KeyConflict
    | PreviousAttemptFailed | KeyInProgress
    | ProfileNotFound | SourceNotFound | DestinationNotFound | CurrencyMismatch | InsufficientFunds
    | BeneficiaryNotFound | SettlementNotFound | MerchantNotFound | MerchantCurrencyMismatch
    | TargetNotFound | TargetNotActive
    | BeneficiaryExists | UniqueViolation
    | SerializationFailure

  datatype TxResult = Return(httpStatus: nat, body: Body) | Throw(error: Error)

  /** What the database and the clock choose during a transaction: the generated ids, the
      time, and the order in which accounts are scanned. */
  datatype Choice = Choice(newId: Id, newKeyId: Id, now: Time, scan: seq<Id>)

  function Units(cents: nat): nat { 100 * cents }

  // ---- A movement and the rows it leaves ----

  /** One payment that was posted, with everything that decided its rows. */
  datatype PaymentRecord = PaymentRecord(
    user: UserId, key: string, request: Request, customer: Id, keyId: Id, txn: Id,
    destination: Id, internal: bool, iban: string, now: Time)

  datatype Movement =
    | Payment(p: PaymentRecord)
    | Funding(admin: UserId, fundingTxn: Id, system: Id, target: Id, cents: nat,
              note: string, owner: Id, at: Time)

  function TxnOf(m: Movement): Id { if m.Payment? then m.p.txn else m.fundingTxn }
  function FromOf(m: Movement): Id { if m.Payment? then m.p.request.source else m.system }
  function ToOf(m: Movement): Id { if m.Payment? then m.p.destination else m.target }
  function AmountOf(m: Movement): nat { Units(if m.Payment? then m.p.request.cents else m.cents) }
  function CurrencyText(m: Movement): string { if m.Payment? then CurrencyOf(m.p.request) else "RON" }
  function TimeOf(m: Movement): Time { if m.Payment? then m.p.now else m.at }

  function ScopeOf(r: Request): string {
    match r
    case TransferRequest(_, _, _, _, _) => "POST /payments/transfer"
    case BeneficiaryRequest(_, _, _, _, _) => "POST /payments/transfer-to-beneficiary"
    case MerchantRequest(_, _, _, _, _) => "POST /payments/pay-merchant"
  }

  function KindOf(r: Request): TxnType {
    match r
    case TransferRequest(_, _, _, _, _) => InternalTransfer
    case BeneficiaryRequest(_, _, _, _, _) => BeneficiaryTransfer
    case MerchantRequest(_, _, _, _, _) => MerchantPayment
  }

  function ActionOf(r: Request): AuditAction {
    match r
    case TransferRequest(_, _, _, _, _) => PaymentTransferPosted
    case BeneficiaryRequest(_, _, _, _, _) => BeneficiaryTransferPosted
    case MerchantRequest(_, _, _, _, _) => MerchantPaymentPosted
  }

  /** `dto.description ?? null` on transfers, `dto.description || null` on the other routes. */
  function StoredDescription(r: Request): Option<string> {
    match r.description
    case Given(t) => if t == "" && !r.TransferRequest? then None else Some(t)
    case _ => None
  }

  function BodyOf(p: PaymentRecord): Body {
    var amount := ToFixed2(p.request.cents);
    match p.request
    case TransferRequest(s, _, _, _, _) =>
      TransferBody(p.txn, "POSTED", s, p.destination, amount, CurrencyOf(p.request))
    case BeneficiaryRequest(s, b, _, _, _) =>
      BeneficiaryBody(p.txn, "POSTED", s, b, p.iban, amount, CurrencyOf(p.request), p.internal)
    case MerchantRequest(s, m, _, _, _) =>
      MerchantBody(p.txn, "POSTED", s, m, amount, CurrencyOf(p.request))
  }

  function KeyRowOf(p: PaymentRecord): KeyRow {
    KeyRow(p.keyId, ScopeOf(p.request), Some(Canonical(p.request)), Completed,
           Some(BodyJson(BodyOf(p))), Some(201), Some(p.now))
  }

  /** Beneficiary transfers neither link their key row nor set `postedAt`. */
  function TxnRow(m: Movement): Txn {
    match m
    case Payment(p) =>
      var linked := !p.request.BeneficiaryRequest?;
      Txn(KindOf(p.request), TxnPosted, AmountOf(m), CurrencyText(m), StoredDescription(p.request),
          p.customer, FromOf(m), ToOf(m), if linked then Some(p.keyId) else None,
          if linked then Some(p.now) else None)
    case Funding(_, _, _, _, _, note, owner, _) =>
      Txn(AdminCredit, TxnPosted, AmountOf(m), CurrencyText(m),
          Some(note), owner, FromOf(m), ToOf(m), None, None)
  }

  function DebitLeg(m: Movement): Entry {
    Entry(TxnOf(m), FromOf(m), Debit, AmountOf(m), CurrencyText(m), 0, TimeOf(m))
  }

  /** Admin credits leave both legs at the default sequence 0. */
  function CreditLeg(m: Movement): Entry {
    Entry(TxnOf(m), ToOf(m), Credit, AmountOf(m), CurrencyText(m), if m.Payment? then 1 else 0, TimeOf(m))
  }

  function AuditRow(m: Movement): Audit {
    match m
    case Payment(p) => Audit(p.user, ActionOf(p.request), p.txn)
    case Funding(admin, t, _, _, _, _, _, _) => Audit(admin, AccountCreditedByAdmin, t)
  }

  function Move(accounts: map<Id, Account>, from: Id, to: Id, amount: nat): map<Id, Account>
    requires from in accounts && to in accounts
  {
    AddTo(AddTo(accounts, from, 0 - amount), to, amount)
  }

  /** All the rows of one committed movement, at once. */
  function Apply(db: Db, m: Movement): Db
    requires FromOf(m) in db.accounts && ToOf(m) in db.accounts
  {
    db.(accounts := Move(db.accounts, FromOf(m), ToOf(m), AmountOf(m)),
        txns := db.txns[TxnOf(m) := TxnRow(m)],
        ledger := db.ledger + [DebitLeg(m), CreditLeg(m)],
        audits := db.audits + [AuditRow(m)],
        keys := match m
                case Payment(p) => db.keys[(p.user, p.key) := KeyRowOf(p)]
                case Funding(_, _, _, _, _, _, _, _) => db.keys)
  }

  // ---- Which movement a request leads to ----

  datatype Plan = Accept(movement: Movement) | Reject(error: Error)

  predicate OwnedActive(db: Db, id: Id, customer: Id) {
    id in db.accounts && db.accounts[id].customer == customer && db.accounts[id].status.Active?
  }

  /** The source clause of the beneficiary and merchant routes. */
  predicate UsableSource(db: Db, id: Id, customer: Id, currency: string) {
    OwnedActive(db, id, customer) && db.accounts[id].currency == currency && !db.accounts[id].isSystem
  }

  function TransferPlan(db: Db, user: UserId, r: Request, key: string, c: Choice): Plan
    requires r.TransferRequest?
  {
    if user !in db.profiles then Reject(ProfileNotFound)
    else
      var customer, currency := db.profiles[user].id, CurrencyOf(r);
      if !OwnedActive(db, r.source, customer) then Reject(SourceNotFound)
      else if !OwnedActive(db, r.destination, customer) then Reject(DestinationNotFound)
      else if db.accounts[r.source].currency != currency || db.accounts[r.destination].currency != currency then
        Reject(CurrencyMismatch)
      else if db.accounts[r.source].balance < Units(r.cents) then Reject(InsufficientFunds)
      else Accept(Payment(PaymentRecord(user, key, r, customer, c.newKeyId, c.newId, r.destination, false, "", c.now)))
  }

  predicate UsableBeneficiary(db: Db, id: Id, customer: Id) {
    id in db.beneficiaries && db.beneficiaries[id].customer == customer && db.beneficiaries[id].status.Listed?
  }

  /** Where a beneficiary's IBAN leads: an account of the bank, or the external settlement account. */
  function Resolve(db: Db, iban: string, currency: string, c: Choice): Option<(Id, bool)> {
    match FindFirst(c.scan, db.accounts, ByIban(iban, currency))
    case Some(id) => Some((id, true))
    case None =>
      match FindFirst(c.scan, db.accounts, ExternalSettlement(currency))
      case Some(id) => Some((id, false))
      case None => None
  }

  function BeneficiaryPlan(db: Db, user: UserId, customer: Id, r: Request, key: string, c: Choice): Plan
    requires r.BeneficiaryRequest?
  {
    var currency := CurrencyOf(r);
    if !UsableSource(db, r.source, customer, currency) then Reject(SourceNotFound)
    else if db.accounts[r.source].balance < Units(r.cents) then Reject(InsufficientFunds)
    else if !UsableBeneficiary(db, r.beneficiary, customer) then Reject(BeneficiaryNotFound)
    else
      var iban := db.beneficiaries[r.beneficiary].iban;
      match Resolve(db, iban, currency, c)
      case None => Reject(SettlementNotFound)
      case Some((destination, internal)) =>
        if destination == r.source then Reject(SameAccount)
        else
          Accept(Payment(
            PaymentRecord(user, key, r, customer, c.newKeyId, c.newId, destination, internal, iban, c.now)))
  }

  function MerchantPlan(db: Db, user: UserId, customer: Id, r: Request, key: string, c: Choice): Plan
    requires r.MerchantRequest?
  {
    var currency := CurrencyOf(r);
    if !UsableSource(db, r.source, customer, currency) then Reject(SourceNotFound)
    else if r.merchant !in db.merchants || !db.merchants[r.merchant].isActive then Reject(MerchantNotFound)
    else
      var settlement := db.merchants[r.merchant].settlementAccount;
      if settlement !in db.accounts || !db.accounts[settlement].status.Active? then Reject(MerchantNotFound)
      else if db.accounts[settlement].currency != currency then Reject(MerchantCurrencyMismatch)
      else if db.accounts[r.source].balance < Units(r.cents) then Reject(InsufficientFunds)
      else Accept(Payment(PaymentRecord(user, key, r, customer, c.newKeyId, c.newId, settlement, false, "", c.now)))
  }

  function PaymentPlan(db: Db, user: UserId, customer: Id, r: Request, key: string, c: Choice): Plan {
    match r
    case TransferRequest(_, _, _, _, _) => TransferPlan(db, user, r, key, c)
    case BeneficiaryRequest(_, _, _, _, _) => BeneficiaryPlan(db, user, customer, r, key, c)
    case MerchantRequest(_, _, _, _, _) => MerchantPlan(db, user, customer, r, key, c)
  }

  function CreditPlan(db: Db, admin: UserId, target: Id, cents: nat, currency: string, note: Option<string>,
    c: Choice): Plan {
    if currency != "RON" then Reject(UnsupportedCurrency)
    else if target !in db.accounts || db.accounts[target].isSystem then Reject(TargetNotFound)
    else if !db.accounts[target].status.Active? then Reject(TargetNotActive)
    else
      match FindFirst(c.scan, db.accounts, AnySystem("RON"))
      case None => Reject(SettlementNotFound)
      case Some(system) =>
        var text := match note
                    case Some(t) => (if t == "" then "Admin credit funding" else t)
                    case None => "Admin credit funding";
        Accept(Funding(admin, c.newId, system, target, cents, text, db.accounts[target].customer, c.now))
  }

  // ---- Answering from an existing key row ----

  function TransferReplay(row: KeyRow, hash: string): TxResult {
    if !row.status.Completed? then Throw(KeyNotAvailable)
    else if row.requestHash.Some? && row.requestHash.value != "" && row.requestHash.value != hash then
      Throw(KeyReusedWithOtherBody)
    else match ParseTransferBody(row.payload)
         case Some(b) => Return(200, b)
         case None => Throw(StoredResponseInvalid)
  }

  function StrictReplay(row: KeyRow, hash: string, parsed: Option<Body>): TxResult {
    if row.requestHash != Some(hash) then Throw(KeyReusedWithOtherBody)
    else if row.status.Completed? && parsed.Some? then Return(200, parsed.value)
    else if row.status.Failed? then Throw(PreviousAttemptFailed)
    else Throw(KeyInProgress)
  }

  function Replay(r: Request, row: KeyRow): TxResult {
    match r
    case TransferRequest(_, _, _, _, _) => TransferReplay(row, Canonical(r))
    case BeneficiaryRequest(_, _, _, _, _) => StrictReplay(row, Canonical(r), ParseBeneficiaryBody(row.payload))
    case MerchantRequest(_, _, _, _, _) => StrictReplay(row, Canonical(r), ParseMerchantBody(row.payload))
  }

  predicate KeyIdTaken(db: Db, id: Id) {
    exists k :: k in db.keys && db.keys[k].id == id
  }

  /** Which payment a transaction commits, if any: the key must be unused, and the database
      refuses a generated id that exists already. */
  function Commits(db: Db, user: UserId, customer: Id, r: Request, key: string, c: Choice): Option<Movement> {
    var plan := PaymentPlan(db, user, customer, r, key, c);
    if (user, key) !in db.keys && !KeyIdTaken(db, c.newKeyId) && plan.Accept? && c.newId !in db.txns
    then Some(plan.movement) else None
  }

  /** One serializable transaction of a payment route: the tables it leaves and its outcome. */
  function PaymentTx(db: Db, user: UserId, customer: Id, r: Request, key: string, c: Choice): (Db, TxResult) {
    if (user, key) in db.keys then (db, Replay(r, db.keys[(user, key)]))
    else if KeyIdTaken(db, c.newKeyId) then (db, Throw(if r.TransferRequest? then KeyConflict else UniqueViolation))
    else
      match PaymentPlan(db, user, customer, r, key, c)
      case Reject(e) => (db, Throw(e))
      case Accept(m) =>
        if c.newId in db.txns then (db, Throw(UniqueViolation))
        else (Apply(db, m), Return(201, BodyOf(m.p)))
  }

  /** `creditAccount`: the movement it commits, or the error it throws. */
  function CreditTx(db: Db, admin: UserId, target: Id, cents: nat, currency: string, note: Option<string>,
    c: Choice): Plan {
    match CreditPlan(db, admin, target, cents, currency, note, c)
    case Reject(e) => Reject(e)
    case Accept(m) => if c.newId in db.txns then Reject(UniqueViolation) else Accept(m)
  }
}
