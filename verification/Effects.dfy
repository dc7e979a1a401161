/** What a posted payment answers and writes, column by column. */
module Effects {
  import opened Text
  import opened Rows
  import opened Requests
  import opened Posting

  // ---- The answer ----

  /** The response of a posted payment: the request's own accounts, and its amount with two decimals. */
  predicate Says(b: Body, r: Request, t: Id, iban: string, internal: bool) {
    && b.txn == t && b.status == "POSTED" && b.source == r.source && b.currency == "RON"
    && ParseCents(b.amount) == Some((r.cents, "")) && |b.amount| >= 4 && b.amount[|b.amount| - 3] == '.'
    && match r
       case TransferRequest(_, destination, _, _, _) => b.TransferBody? && b.destination == destination
       case BeneficiaryRequest(_, row, _, _, _) =>
         b.BeneficiaryBody? && b.beneficiary == row && b.iban == iban && b.internalBeneficiary == internal
       case MerchantRequest(_, merchant, _, _, _) => b.MerchantBody? && b.merchant == merchant
  }

  lemma AnswerIsSpelled(p: PaymentRecord)
    requires CurrencyOf(p.request) == "RON"
    ensures Says(BodyOf(p), p.request, p.txn, p.iban, p.internal)
            || (p.request.TransferRequest? && p.destination != p.request.destination)
  {
    ToFixed2Parses(p.request.cents);
    hide ToFixed2, ParseCents, CurrencyOf;
  }

  // ---- The rows ----

  /** One account pays another; paying oneself changes nothing. */
  ghost predicate Pays(before: map<Id, Account>, after: map<Id, Account>, from: Id, to: Id, amount: nat) {
    && after.Keys == before.Keys
    && forall a :: a in before ==>
         after[a] == before[a].(balance :=
           before[a].balance - (if a == from then amount else 0) + if a == to then amount else 0)
  }

  /** An empty description is kept on transfers only. */
  predicate KeepsDescription(r: Request, stored: Option<string>) {
    match r.description
    case Given(text) => if text == "" && !r.TransferRequest? then stored == None else stored == Some(text)
    case _ => stored == None
  }

  /** The transaction row. Beneficiary transfers are not linked to their key and have no posting time. */
  predicate IsPaymentRow(x: Txn, r: Request, customer: Id, to: Id, keyId: Id, now: Time) {
    && x.status == TxnPosted && x.amount == 100 * r.cents && x.currency == "RON"
    && x.customer == customer && x.from == r.source && x.to == to && KeepsDescription(r, x.description)
    && match r
       case TransferRequest(_, _, _, _, _) =>
         x.kind == InternalTransfer && x.idempotencyKey == Some(keyId) && x.postedAt == Some(now)
       case BeneficiaryRequest(_, _, _, _, _) =>
         x.kind == BeneficiaryTransfer && x.idempotencyKey == None && x.postedAt == None
       case MerchantRequest(_, _, _, _, _) =>
         x.kind == MerchantPayment && x.idempotencyKey == Some(keyId) && x.postedAt == Some(now)
  }

  predicate IsKeyRow(k: KeyRow, r: Request, body: Body, id: Id, now: Time) {
    && k.id == id && k.status == Completed && k.requestHash == Some(Canonical(r)) && k.httpStatus == Some(201)
    && k.payload == Some(BodyJson(body)) && k.completedAt == Some(now)
    && k.scope == match r
                  case TransferRequest(_, _, _, _, _) => "POST /payments/transfer"
                  case BeneficiaryRequest(_, _, _, _, _) => "POST /payments/transfer-to-beneficiary"
                  case MerchantRequest(_, _, _, _, _) => "POST /payments/pay-merchant"
  }

  predicate IsPostingAudit(a: Audit, r: Request, user: UserId, t: Id) {
    && a.actor == user && a.resource == t
    && match r
       case TransferRequest(_, _, _, _, _) => a.action == PaymentTransferPosted
       case BeneficiaryRequest(_, _, _, _, _) => a.action == BeneficiaryTransferPosted
       case MerchantRequest(_, _, _, _, _) => a.action == MerchantPaymentPosted
  }

  /** The tables after a payment: the balances of its two accounts, one transaction with a debit and a credit,
      one audit row and one completed key; everything else as before. */
  ghost predicate Writes(db: Db, db': Db, user: UserId, key: string, customer: Id, to: Id, r: Request, body: Body,
    c: Choice) {
    && db'.profiles == db.profiles && db'.beneficiaries == db.beneficiaries && db'.merchants == db.merchants
    && Pays(db.accounts, db'.accounts, r.source, to, 100 * r.cents)
    && c.newId in db'.txns && db'.txns == db.txns[c.newId := db'.txns[c.newId]]
    && IsPaymentRow(db'.txns[c.newId], r, customer, to, c.newKeyId, c.now)
    && db'.ledger == db.ledger + [Entry(c.newId, r.source, Debit, 100 * r.cents, "RON", 0, c.now),
                                  Entry(c.newId, to, Credit, 100 * r.cents, "RON", 1, c.now)]
    && |db'.audits| == |db.audits| + 1 && db'.audits[..|db.audits|] == db.audits
    && IsPostingAudit(db'.audits[|db.audits|], r, user, c.newId)
    && (user, key) in db'.keys && db'.keys == db.keys[(user, key) := db'.keys[(user, key)]]
    && IsKeyRow(db'.keys[(user, key)], r, body, c.newKeyId, c.now)
  }

  lemma MovePays(accounts: map<Id, Account>, from: Id, to: Id, amount: nat)
    requires from in accounts && to in accounts
    ensures Pays(accounts, Move(accounts, from, to, amount), from, to, amount)
  {
  }

  lemma TxnRowIsSpelled(p: PaymentRecord)
    requires CurrencyOf(p.request) == "RON"
    ensures IsPaymentRow(TxnRow(Payment(p)), p.request, p.customer, p.destination, p.keyId, p.now)
  {
    hide CurrencyOf;
  }

  lemma KeyRowIsSpelled(p: PaymentRecord)
    ensures IsKeyRow(KeyRowOf(p), p.request, BodyOf(p), p.keyId, p.now)
  {
    hide BodyOf, BodyJson, Canonical;
  }

  lemma LegsAndAuditAreSpelled(p: PaymentRecord)
    requires CurrencyOf(p.request) == "RON"
    ensures DebitLeg(Payment(p)) == Entry(p.txn, p.request.source, Debit, 100 * p.request.cents, "RON", 0, p.now)
    ensures CreditLeg(Payment(p)) == Entry(p.txn, p.destination, Credit, 100 * p.request.cents, "RON", 1, p.now)
    ensures IsPostingAudit(AuditRow(Payment(p)), p.request, p.user, p.txn)
  {
    hide CurrencyOf;
  }

  lemma RowsAreSpelled(db: Db, p: PaymentRecord, c: Choice)
    requires CurrencyOf(p.request) == "RON" && p.txn == c.newId && p.keyId == c.newKeyId && p.now == c.now
    requires p.request.source in db.accounts && p.destination in db.accounts
    ensures Writes(db, Apply(db, Payment(p)), p.user, p.key, p.customer, p.destination, p.request, BodyOf(p), c)
  {
    MovePays(db.accounts, p.request.source, p.destination, 100 * p.request.cents);
    TxnRowIsSpelled(p);
    KeyRowIsSpelled(p);
    LegsAndAuditAreSpelled(p);
    hide Pays, Move, BodyOf, CurrencyOf, IsPaymentRow, IsKeyRow, IsPostingAudit, TxnRow, KeyRowOf, AuditRow;
    hide DebitLeg, CreditLeg;
  }
}
