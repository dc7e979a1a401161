/** When a payment can be posted, said about the tables alone. */
module Conditions {
  import opened Text
  import opened Rows
  import opened Requests
  import opened Posting

  // ---- The accounts a `where` clause selects ----

  /** Active customer accounts with that IBAN and currency. */
  function WithIban(accounts: map<Id, Account>, iban: string, currency: string): set<Id> {
    set a | a in accounts && accounts[a].iban == iban && accounts[a].currency == currency
            && accounts[a].status == Active && accounts[a].isSystem == false
  }

  /** Active system accounts for payments that leave the bank. */
  function Settlements(accounts: map<Id, Account>, currency: string): set<Id> {
    set a | a in accounts && accounts[a].accountType == "EXTERNAL_SETTLEMENT" && accounts[a].currency == currency
            && accounts[a].status == Active && accounts[a].isSystem == true
  }

  /** Active system accounts of any type. */
  function SystemAccounts(accounts: map<Id, Account>, currency: string): set<Id> {
    set a | a in accounts && accounts[a].currency == currency
            && accounts[a].status == Active && accounts[a].isSystem == true
  }

  /** The account is the first of the scan that is selected. */
  predicate IsFirst(scan: seq<Id>, selected: set<Id>, a: Id) {
    exists i :: 0 <= i < |scan| && scan[i] == a && a in selected && NoneOf(scan[..i], selected)
  }

  predicate NoneOf(scan: seq<Id>, selected: set<Id>) {
    forall i :: 0 <= i < |scan| ==> scan[i] !in selected
  }

  function Selected(accounts: map<Id, Account>, f: Filter): set<Id> {
    set a | a in accounts && Matches(f, accounts[a])
  }

  lemma {:induction false} FindFirstIsFirst(scan: seq<Id>, accounts: map<Id, Account>, f: Filter)
    ensures forall a :: FindFirst(scan, accounts, f) == Some(a) <==> IsFirst(scan, Selected(accounts, f), a)
    ensures FindFirst(scan, accounts, f) == None <==> NoneOf(scan, Selected(accounts, f))
    decreases |scan|
  {
    if scan != [] {
      FindFirstIsFirst(scan[1..], accounts, f);
      FirstOfRest(scan, Selected(accounts, f));
    }
  }

  lemma FirstOfRest(scan: seq<Id>, selected: set<Id>)
    requires scan != []
    ensures scan[0] in selected ==> forall a :: IsFirst(scan, selected, a) <==> a == scan[0]
    ensures scan[0] !in selected ==> forall a :: IsFirst(scan, selected, a) <==> IsFirst(scan[1..], selected, a)
    ensures NoneOf(scan, selected) <==> scan[0] !in selected && NoneOf(scan[1..], selected)
  {
    assert scan[..0] == [];
    forall a ensures scan[0] !in selected ==> (IsFirst(scan, selected, a) <==> IsFirst(scan[1..], selected, a)) {
      if scan[0] !in selected && IsFirst(scan[1..], selected, a) {
        var i :| 0 <= i < |scan[1..]| && scan[1..][i] == a && a in selected && NoneOf(scan[1..][..i], selected);
        assert scan[..i + 1] == [scan[0]] + scan[1..][..i];
        assert scan[i + 1] == a;
      }
      if scan[0] !in selected && IsFirst(scan, selected, a) {
        var i :| 0 <= i < |scan| && scan[i] == a && a in selected && NoneOf(scan[..i], selected);
        assert scan[1..][..i - 1] == scan[..i][1..];
        assert scan[1..][i - 1] == a;
      }
    }
  }

  /** Each lookup finds the first account of the scan that its clause selects, column by column, and
      nothing when none is selected. */
  lemma LookupsSelect(scan: seq<Id>, accounts: map<Id, Account>, iban: string, currency: string)
    ensures forall a :: FindFirst(scan, accounts, ByIban(iban, currency)) == Some(a)
                   <==> IsFirst(scan, WithIban(accounts, iban, currency), a)
    ensures FindFirst(scan, accounts, ByIban(iban, currency)) == None
       <==> NoneOf(scan, WithIban(accounts, iban, currency))
    ensures forall a :: FindFirst(scan, accounts, ExternalSettlement(currency)) == Some(a)
                   <==> IsFirst(scan, Settlements(accounts, currency), a)
    ensures FindFirst(scan, accounts, ExternalSettlement(currency)) == None
       <==> NoneOf(scan, Settlements(accounts, currency))
    ensures forall a :: FindFirst(scan, accounts, AnySystem(currency)) == Some(a)
                   <==> IsFirst(scan, SystemAccounts(accounts, currency), a)
    ensures FindFirst(scan, accounts, AnySystem(currency)) == None
       <==> NoneOf(scan, SystemAccounts(accounts, currency))
  {
    FindFirstIsFirst(scan, accounts, ByIban(iban, currency));
    FindFirstIsFirst(scan, accounts, ExternalSettlement(currency));
    FindFirstIsFirst(scan, accounts, AnySystem(currency));
    assert Selected(accounts, ByIban(iban, currency)) == WithIban(accounts, iban, currency);
    assert Selected(accounts, ExternalSettlement(currency)) == Settlements(accounts, currency);
    assert Selected(accounts, AnySystem(currency)) == SystemAccounts(accounts, currency);
  }

  // ---- When a transaction posts ----

  /** The key is unused and the database has generated ids that do not exist yet. */
  predicate Unused(db: Db, user: UserId, key: string, c: Choice) {
    && (user, key) !in db.keys && c.newId !in db.txns
    && forall k :: k in db.keys ==> db.keys[k].id != c.newKeyId
  }

  /** The source is the customer's own, active, in the currency, and covers the amount. Only transfers
      between own accounts may use a system account. */
  predicate CanPay(db: Db, r: Request, customer: Id) {
    && r.source in db.accounts
    && var a := db.accounts[r.source];
    && a.customer == customer && a.status.Active? && a.currency == CurrencyOf(r) && a.balance >= 100 * r.cents
    && (a.isSystem ==> r.TransferRequest?)
  }

  predicate CanReceive(db: Db, r: Request, a: Id) {
    a in db.accounts && db.accounts[a].status.Active? && db.accounts[a].currency == CurrencyOf(r)
  }

  /** Where the route sends the money, given the order in which the database scans accounts. */
  predicate GoesTo(db: Db, r: Request, customer: Id, scan: seq<Id>, p: PaymentRecord) {
    match r
    case TransferRequest(_, destination, _, _, _) =>
      && p.destination == destination && !p.internal && p.iban == ""
      && CanReceive(db, r, destination) && db.accounts[destination].customer == customer
    case BeneficiaryRequest(source, row, _, _, _) =>
      && row in db.beneficiaries && db.beneficiaries[row].customer == customer && db.beneficiaries[row].status.Listed?
      && p.iban == db.beneficiaries[row].iban && p.destination != source
      && var own := WithIban(db.accounts, p.iban, CurrencyOf(r));
      && (p.internal ==> IsFirst(scan, own, p.destination))
      && (!p.internal ==>
            NoneOf(scan, own) && IsFirst(scan, Settlements(db.accounts, CurrencyOf(r)), p.destination))
    case MerchantRequest(_, merchant, _, _, _) =>
      && merchant in db.merchants && db.merchants[merchant].isActive
      && p.destination == db.merchants[merchant].settlementAccount && !p.internal && p.iban == ""
      && CanReceive(db, r, p.destination)
  }

  /** The tables let this user post this payment under this key, and p is its record. */
  predicate CanPost(db: Db, user: UserId, r: Request, key: string, c: Choice, p: PaymentRecord) {
    && user in db.profiles && Unused(db, user, key, c)
    && var customer := db.profiles[user].id;
    && CanPay(db, r, customer) && GoesTo(db, r, customer, c.scan, p)
    && p == PaymentRecord(user, key, r, customer, c.newKeyId, c.newId, p.destination, p.internal, p.iban, c.now)
  }

  lemma BeneficiaryPlanIs(db: Db, user: UserId, customer: Id, r: Request, key: string, c: Choice, p: PaymentRecord)
    requires r.BeneficiaryRequest?
    requires p == PaymentRecord(user, key, r, customer, c.newKeyId, c.newId, p.destination, p.internal, p.iban, c.now)
    ensures PaymentPlan(db, user, customer, r, key, c) == Accept(Payment(p))
        <==> CanPay(db, r, customer) && GoesTo(db, r, customer, c.scan, p)
  {
    if r.beneficiary in db.beneficiaries {
      LookupsSelect(c.scan, db.accounts, db.beneficiaries[r.beneficiary].iban, CurrencyOf(r));
    }
    hide IsFirst, NoneOf, FindFirst, Matches, WithIban, Settlements;
  }

  lemma OtherPlansAre(db: Db, user: UserId, customer: Id, r: Request, key: string, c: Choice, p: PaymentRecord)
    requires !r.BeneficiaryRequest? && user in db.profiles && db.profiles[user].id == customer
    requires p == PaymentRecord(user, key, r, customer, c.newKeyId, c.newId, p.destination, p.internal, p.iban, c.now)
    ensures PaymentPlan(db, user, customer, r, key, c) == Accept(Payment(p))
        <==> CanPay(db, r, customer) && GoesTo(db, r, customer, c.scan, p)
  {
    hide FindFirst, Matches;
  }

  /** A transaction commits a payment exactly when the tables allow it. */
  lemma CommitsExactly(db: Db, user: UserId, r: Request, key: string, c: Choice, p: PaymentRecord)
    requires user in db.profiles
    ensures Commits(db, user, db.profiles[user].id, r, key, c) == Some(Payment(p)) <==> CanPost(db, user, r, key, c, p)
  {
    var customer := db.profiles[user].id;
    var q := PaymentRecord(user, key, r, customer, c.newKeyId, c.newId, p.destination, p.internal, p.iban, c.now);
    if r.BeneficiaryRequest? {
      BeneficiaryPlanIs(db, user, customer, r, key, c, q);
    } else {
      OtherPlansAre(db, user, customer, r, key, c, q);
    }
    if PaymentPlan(db, user, customer, r, key, c).Accept? { PlanRecords(db, user, customer, r, key, c); }
    hide PaymentPlan, CanPay, GoesTo;
  }

  lemma PlanRecords(db: Db, user: UserId, customer: Id, r: Request, key: string, c: Choice)
    requires user in db.profiles && db.profiles[user].id == customer
    requires PaymentPlan(db, user, customer, r, key, c).Accept?
    ensures var m := PaymentPlan(db, user, customer, r, key, c).movement;
            m.Payment? && m.p == PaymentRecord(user, key, r, customer, c.newKeyId, c.newId, m.p.destination,
              m.p.internal, m.p.iban, c.now)
  {
    hide FindFirst, Matches;
  }

  /** What happens when the database refuses a generated id, and the key is new: a taken key id is a key conflict
      on the internal transfer, which looks for the key once more, and a unique violation elsewhere; a taken
      transaction id is a unique violation. */
  lemma TakenIdsAreRefused(db: Db, user: UserId, customer: Id, r: Request, key: string, c: Choice)
    requires (user, key) !in db.keys
    ensures (exists k :: k in db.keys && db.keys[k].id == c.newKeyId) ==>
              PaymentTx(db, user, customer, r, key, c)
              == (db, Throw(match r case TransferRequest(_, _, _, _, _) => KeyConflict case _ => UniqueViolation))
    ensures (forall k :: k in db.keys ==> db.keys[k].id != c.newKeyId) && c.newId in db.txns
            && PaymentPlan(db, user, customer, r, key, c).Accept? ==>
              PaymentTx(db, user, customer, r, key, c) == (db, Throw(UniqueViolation))
  {
    hide PaymentPlan, Apply, BodyOf;
  }

  // ---- Why a transaction refuses ----

  /** The customer's own active account. */
  predicate Own(db: Db, a: Id, customer: Id) {
    a in db.accounts && db.accounts[a].customer == customer && db.accounts[a].status.Active?
  }

  /** An own active customer account in the request's currency. */
  predicate OwnSource(db: Db, r: Request, customer: Id) {
    Own(db, r.source, customer) && db.accounts[r.source].currency == CurrencyOf(r) && !db.accounts[r.source].isSystem
  }

  predicate Short(db: Db, r: Request)
    requires r.source in db.accounts
  {
    db.accounts[r.source].balance < 100 * r.cents
  }

  predicate OwnPayee(db: Db, row: Id, customer: Id) {
    row in db.beneficiaries && db.beneficiaries[row].customer == customer && db.beneficiaries[row].status.Listed?
  }

  /** A merchant that takes payments: active, with an active settlement account. */
  predicate OpenMerchant(db: Db, m: Id) {
    && m in db.merchants && db.merchants[m].isActive
    && db.merchants[m].settlementAccount in db.accounts
    && db.accounts[db.merchants[m].settlementAccount].status.Active?
  }

  /** The internal transfer looks for the profile inside its transaction. */
  lemma TransferNeedsProfile(db: Db, user: UserId, customer: Id, r: Request, key: string, c: Choice)
    requires user !in db.profiles && Unused(db, user, key, c) && r.TransferRequest?
    ensures PaymentTx(db, user, customer, r, key, c) == (db, Throw(ProfileNotFound))
  {
    hide Apply, BodyOf, CurrencyOf;
  }

  lemma TransferRefusals(db: Db, user: UserId, r: Request, key: string, c: Choice)
    requires user in db.profiles && Unused(db, user, key, c) && r.TransferRequest?
    ensures var me, result := db.profiles[user].id, PaymentTx(db, user, db.profiles[user].id, r, key, c).1;
            var owned := Own(db, r.source, me) && Own(db, r.destination, me);
            var sameCurrency := owned && db.accounts[r.source].currency == CurrencyOf(r)
                                && db.accounts[r.destination].currency == CurrencyOf(r);
            && (result == Throw(SourceNotFound) <==> !Own(db, r.source, me))
            && (result == Throw(DestinationNotFound) <==> Own(db, r.source, me) && !Own(db, r.destination, me))
            && (result == Throw(CurrencyMismatch) <==> owned && !sameCurrency)
            && (result == Throw(InsufficientFunds) <==> sameCurrency && Short(db, r))
            && (result.Return? <==> sameCurrency && !Short(db, r))
  {
    hide Apply, BodyOf, CurrencyOf;
  }

  lemma BeneficiaryTransferRefusals(db: Db, user: UserId, r: Request, key: string, c: Choice)
    requires user in db.profiles && Unused(db, user, key, c) && r.BeneficiaryRequest?
    ensures var me, result := db.profiles[user].id, PaymentTx(db, user, db.profiles[user].id, r, key, c).1;
            var covered := OwnSource(db, r, me) && !Short(db, r);
            var payee := covered && OwnPayee(db, r.beneficiary, me);
            var iban := if payee then db.beneficiaries[r.beneficiary].iban else "";
            var inside, outside := WithIban(db.accounts, iban, CurrencyOf(r)), Settlements(db.accounts, CurrencyOf(r));
            && (result == Throw(SourceNotFound) <==> !OwnSource(db, r, me))
            && (result == Throw(InsufficientFunds) <==> OwnSource(db, r, me) && Short(db, r))
            && (result == Throw(BeneficiaryNotFound) <==> covered && !payee)
            && (result == Throw(SettlementNotFound) <==> payee && NoneOf(c.scan, inside) && NoneOf(c.scan, outside))
            && (result == Throw(SameAccount) <==> payee && IsFirst(c.scan, inside, r.source))
            && (result.Return? <==> payee && !(NoneOf(c.scan, inside) && NoneOf(c.scan, outside))
                                    && !IsFirst(c.scan, inside, r.source))
  {
    if r.beneficiary in db.beneficiaries {
      LookupsSelect(c.scan, db.accounts, db.beneficiaries[r.beneficiary].iban, CurrencyOf(r));
    }
    if OwnSource(db, r, db.profiles[user].id) { SourceIsNoSettlement(db, r, c); }
    hide Apply, BodyOf, CurrencyOf, FindFirst, Matches, IsFirst, NoneOf, WithIban, Settlements;
  }

  lemma SourceIsNoSettlement(db: Db, r: Request, c: Choice)
    requires r.source in db.accounts && !db.accounts[r.source].isSystem
    ensures FindFirst(c.scan, db.accounts, ExternalSettlement(CurrencyOf(r))) != Some(r.source)
  {
    hide CurrencyOf;
  }

  lemma MerchantRefusals(db: Db, user: UserId, r: Request, key: string, c: Choice)
    requires user in db.profiles && Unused(db, user, key, c) && r.MerchantRequest?
    ensures var me, result := db.profiles[user].id, PaymentTx(db, user, db.profiles[user].id, r, key, c).1;
            var shop := OwnSource(db, r, me) && OpenMerchant(db, r.merchant);
            var sameCurrency := shop
              && db.accounts[db.merchants[r.merchant].settlementAccount].currency == CurrencyOf(r);
            && (result == Throw(SourceNotFound) <==> !OwnSource(db, r, me))
            && (result == Throw(MerchantNotFound) <==> OwnSource(db, r, me) && !OpenMerchant(db, r.merchant))
            && (result == Throw(MerchantCurrencyMismatch) <==> shop && !sameCurrency)
            && (result == Throw(InsufficientFunds) <==> sameCurrency && Short(db, r))
            && (result.Return? <==> sameCurrency && !Short(db, r))
  {
    hide Apply, BodyOf, CurrencyOf;
  }
}
