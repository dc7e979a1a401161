/** The services as they run: tables and Redis changed statement by statement, a transaction
    undone when it throws, and the retry loop around it. Each method is proved to do what the
    step system says. */
module Bank {
  import opened Text
  import opened Json
  import opened Rows
  import opened Requests
  import opened Posting
  import opened Protocol
  import opened Frames
  import opened Retries

  /** Reserving a key does not influence where the money goes. */
  lemma PlanIgnoresKeys(db: Db, db': Db, user: UserId, customer: Id, r: Request, key: string, c: Choice)
    requires db' == db.(keys := db'.keys)
    ensures PaymentPlan(db', user, customer, r, key, c) == PaymentPlan(db, user, customer, r, key, c)
  {
  }

  /** The tables with the transaction, ledger and audit rows of a payment added. */
  function WithRows(db: Db, p: PaymentRecord): Db {
    db.(txns := db.txns[p.txn := TxnRow(Payment(p))],
        ledger := db.ledger + [DebitLeg(Payment(p)), CreditLeg(Payment(p))],
        audits := db.audits + [AuditRow(Payment(p))])
  }

  function ReservedRow(p: PaymentRecord): KeyRow {
    KeyRow(p.keyId, ScopeOf(p.request), Some(Canonical(p.request)), InProgress, None, None, None)
  }

  function CompletedRow(row: KeyRow, body: Body, now: Time): KeyRow {
    row.(status := Completed, payload := Some(BodyJson(body)), httpStatus := Some(201), completedAt := Some(now))
  }

  /** Reserving the key, moving the balances, adding the rows and completing the key is the
      whole movement. */
  lemma PiecesMakeMovement(start: Db, p: PaymentRecord)
    requires p.request.source in start.accounts && p.destination in start.accounts
    ensures var reserved := start.(keys := start.keys[(p.user, p.key) := ReservedRow(p)]);
            var accounts := Move(start.accounts, p.request.source, p.destination, Units(p.request.cents));
            var moved := reserved.(accounts := accounts);
            var rows := WithRows(moved, p);
            rows.(keys := rows.keys[(p.user, p.key) := CompletedRow(ReservedRow(p), BodyOf(p), p.now)])
              == Apply(start, Payment(p))
  {
    assert start.keys[(p.user, p.key) := ReservedRow(p)][(p.user, p.key) := KeyRowOf(p)]
      == start.keys[(p.user, p.key) := KeyRowOf(p)];
  }

  /** Balances agree with a plan: refused with its error, or moved as it says. */
  predicate FollowsPlan(plan: Plan, before: map<Id, Account>, after: map<Id, Account>, error: Option<Error>) {
    match plan
    case Reject(e) => error == Some(e)
    case Accept(m) =>
      && error.None? && FromOf(m) in before && ToOf(m) in before
      && after == Move(before, FromOf(m), ToOf(m), AmountOf(m))
  }

  class Server {
    var profiles: map<UserId, Profile>
    var accounts: map<Id, Account>
    var beneficiaries: map<Id, Beneficiary>
    var merchants: map<Id, Merchant>
    var txns: map<Id, Txn>
    var ledger: seq<Entry>
    var keys: map<KeyOf, KeyRow>
    var audits: seq<Audit>
    var redis: map<string, string>
    var calls: map<nat, Call>
    ghost var history: seq<Event>

    constructor (db: Db)
      ensures State() == System(db, map[], map[], [])
    {
      profiles, accounts, beneficiaries, merchants := db.profiles, db.accounts, db.beneficiaries, db.merchants;
      txns, ledger, keys, audits := db.txns, db.ledger, db.keys, db.audits;
      redis, calls, history := map[], map[], [];
    }

    function Tables(): Db
      reads this
    {
      Db(profiles, accounts, beneficiaries, merchants, txns, ledger, keys, audits)
    }

    ghost function State(): System
      reads this
    {
      System(Tables(), redis, calls, history)
    }

    // ---- Single statements ----

    /** `updateMany` on the source with its balance guard; the number of rows updated. */
    method DebitIfCovered(id: Id, amount: nat) returns (count: nat)
      modifies this`accounts
      ensures count == if id in old(accounts) && old(accounts)[id].balance >= amount then 1 else 0
      ensures accounts == if count == 1 then AddTo(old(accounts), id, 0 - amount) else old(accounts)
    {
      count := 0;
      if id in accounts && accounts[id].balance >= amount {
        accounts := accounts[id := accounts[id].(balance := accounts[id].balance - amount)];
        count := 1;
      }
    }

    method Increment(id: Id, amount: nat)
      requires id in accounts
      modifies this`accounts
      ensures accounts == AddTo(old(accounts), id, amount)
    {
      accounts := accounts[id := accounts[id].(balance := accounts[id].balance + amount)];
    }

    /** `account.findFirst`, visiting rows in the given order. */
    method FindAccount(scan: seq<Id>, f: Filter) returns (r: Option<Id>)
      ensures r == FindFirst(scan, accounts, f)
    {
      for i := 0 to |scan|
        invariant FindFirst(scan, accounts, f) == FindFirst(scan[i..], accounts, f)
      {
        if scan[i] in accounts && Matches(f, accounts[scan[i]]) { return Some(scan[i]); }
        assert scan[i..][1..] == scan[i + 1..];
      }
      return None;
    }

    /** `idempotencyKey.create` with status IN_PROGRESS; false when the id is taken. */
    method CreateKey(user: UserId, key: string, scope: string, hash: string, id: Id) returns (ok: bool)
      modifies this`keys
      ensures ok <==> !KeyIdTaken(old(Tables()), id)
      ensures ok ==> keys == old(keys)[(user, key) := KeyRow(id, scope, Some(hash), InProgress, None, None, None)]
      ensures !ok ==> keys == old(keys)
    {
      ok := !KeyIdTaken(Tables(), id);
      if ok { keys := keys[(user, key) := KeyRow(id, scope, Some(hash), InProgress, None, None, None)]; }
    }

    method CompleteKey(user: UserId, key: string, body: Body, now: Time)
      requires (user, key) in keys
      modifies this`keys
      ensures keys == old(keys)[(user, key) := CompletedRow(old(keys)[(user, key)], body, now)]
    {
      var row := keys[(user, key)];
      keys := keys[(user, key) := row.(status := Completed, payload := Some(BodyJson(body)),
                                       httpStatus := Some(201), completedAt := Some(now))];
    }

    method RecordTransfer(user: UserId, r: Request, customer: Id, currency: string, amount: nat, c: Choice,
      ghost p: PaymentRecord)
      returns (body: Body)
      requires r.TransferRequest? && currency == CurrencyOf(r) && amount == Units(r.cents)
      requires p == PaymentRecord(user, p.key, r, customer, c.newKeyId, c.newId, r.destination, false, "", c.now)
      modifies this`txns, this`ledger, this`audits
      ensures Tables() == WithRows(old(Tables()), p) && body == BodyOf(p)
    {
      var description := match r.description case Given(text) => Some(text) case _ => None;
      txns := txns[c.newId := Txn(InternalTransfer, TxnPosted, amount, currency, description, customer,
                                  r.source, r.destination, Some(c.newKeyId), Some(c.now))];
      ledger := ledger + [Entry(c.newId, r.source, Debit, amount, currency, 0, c.now),
                          Entry(c.newId, r.destination, Credit, amount, currency, 1, c.now)];
      audits := audits + [Audit(user, PaymentTransferPosted, c.newId)];
      body := TransferBody(c.newId, "POSTED", r.source, r.destination, ToFixed2(r.cents), currency);
    }

    method RecordBeneficiaryTransfer(user: UserId, r: Request, customer: Id, currency: string, amount: nat,
                                     destination: Id, internal: bool, iban: string, c: Choice, ghost p: PaymentRecord)
      returns (body: Body)
      requires r.BeneficiaryRequest? && currency == CurrencyOf(r) && amount == Units(r.cents)
      requires p == PaymentRecord(user, p.key, r, customer, c.newKeyId, c.newId, destination, internal, iban, c.now)
      modifies this`txns, this`ledger, this`audits
      ensures Tables() == WithRows(old(Tables()), p) && body == BodyOf(p)
    {
      var description := match r.description
                         case Given(text) => (if text == "" then None else Some(text))
                         case _ => None;
      txns := txns[c.newId := Txn(BeneficiaryTransfer, TxnPosted, amount, currency, description, customer,
                                  r.source, destination, None, None)];
      ledger := ledger + [Entry(c.newId, r.source, Debit, amount, currency, 0, c.now),
                          Entry(c.newId, destination, Credit, amount, currency, 1, c.now)];
      audits := audits + [Audit(user, BeneficiaryTransferPosted, c.newId)];
      body := BeneficiaryBody(c.newId, "POSTED", r.source, r.beneficiary, iban, ToFixed2(r.cents), currency, internal);
    }

    method RecordMerchantPayment(user: UserId, r: Request, customer: Id, currency: string, amount: nat, settlement: Id,
      c: Choice, ghost p: PaymentRecord)
      returns (body: Body)
      requires r.MerchantRequest? && currency == CurrencyOf(r) && amount == Units(r.cents)
      requires p == PaymentRecord(user, p.key, r, customer, c.newKeyId, c.newId, settlement, false, "", c.now)
      modifies this`txns, this`ledger, this`audits
      ensures Tables() == WithRows(old(Tables()), p) && body == BodyOf(p)
    {
      var description := match r.description
                         case Given(text) => (if text == "" then None else Some(text))
                         case _ => None;
      txns := txns[c.newId := Txn(MerchantPayment, TxnPosted, amount, currency, description, customer,
                                  r.source, settlement, Some(c.newKeyId), Some(c.now))];
      ledger := ledger + [Entry(c.newId, r.source, Debit, amount, currency, 0, c.now),
                          Entry(c.newId, settlement, Credit, amount, currency, 1, c.now)];
      audits := audits + [Audit(user, MerchantPaymentPosted, c.newId)];
      body := MerchantBody(c.newId, "POSTED", r.source, r.merchant, ToFixed2(r.cents), currency);
    }

    // ---- The three transactions ----

    /** The key lookup of a transfer: an answer from an existing row, or a fresh row. */
    method ReserveTransferKey(user: UserId, r: Request, key: string, c: Choice) returns (answer: Option<TxResult>)
      requires r.TransferRequest?
      modifies this`keys
      ensures answer == if (user, key) in old(keys) then Some(Replay(r, old(keys)[(user, key)]))
                        else if KeyIdTaken(old(Tables()), c.newKeyId) then Some(Throw(KeyConflict)) else None
      ensures keys == if answer.Some? then old(keys) else
                old(keys)[(user, key) :=
                  KeyRow(c.newKeyId, ScopeOf(r), Some(Canonical(r)), InProgress, None, None, None)]
    {
      var hash := Canonical(r);
      if (user, key) in keys {
        var existing := keys[(user, key)];
        if existing.status.Completed? {
          if existing.requestHash.Some? && existing.requestHash.value != "" && existing.requestHash.value != hash {
            return Some(Throw(KeyReusedWithOtherBody));
          }
          var parsed := ParseTransferBody(existing.payload);
          if parsed.None? { return Some(Throw(StoredResponseInvalid)); }
          return Some(Return(200, parsed.value));
        }
        return Some(Throw(KeyNotAvailable));
      }
      var created := CreateKey(user, key, "POST /payments/transfer", hash, c.newKeyId);
      // P2002, and the second lookup finds no row for this user and key.
      return if created then None else Some(Throw(KeyConflict));
    }

    /** The key lookup of the other two routes, which is the same code twice. */
    method ReserveKey(user: UserId, r: Request, key: string, scope: string, c: Choice)
      returns (answer: Option<TxResult>)
      requires !r.TransferRequest? && scope == ScopeOf(r)
      modifies this`keys
      ensures answer == if (user, key) in old(keys) then Some(Replay(r, old(keys)[(user, key)]))
                        else if KeyIdTaken(old(Tables()), c.newKeyId) then Some(Throw(UniqueViolation)) else None
      ensures keys == if answer.Some? then old(keys) else
                old(keys)[(user, key) :=
                  KeyRow(c.newKeyId, ScopeOf(r), Some(Canonical(r)), InProgress, None, None, None)]
    {
      var hash := Canonical(r);
      if (user, key) in keys {
        var existing := keys[(user, key)];
        if existing.requestHash != Some(hash) { return Some(Throw(KeyReusedWithOtherBody)); }
        if existing.status.Completed? {
          var payload := if r.BeneficiaryRequest? then ParseBeneficiaryBody(existing.payload)
            else ParseMerchantBody(existing.payload);
          if payload.Some? { return Some(Return(200, payload.value)); }
        }
        if existing.status.Failed? { return Some(Throw(PreviousAttemptFailed)); }
        return Some(Throw(KeyInProgress));
      }
      var created := CreateKey(user, key, scope, hash, c.newKeyId);
      return if created then None else Some(Throw(UniqueViolation));
    }

    method MoveTransfer(user: UserId, r: Request, ghost key: string, ghost c: Choice)
      returns (error: Option<Error>, customer: Id)
      requires r.TransferRequest?
      modifies this`accounts
      ensures FollowsPlan(TransferPlan(old(Tables()), user, r, key, c), old(accounts), accounts, error)
      ensures error.None? ==>
                TransferPlan(old(Tables()), user, r, key, c) == Accept(Payment(
                  PaymentRecord(user, key, r, customer, c.newKeyId, c.newId, r.destination, false, "", c.now)))
    {
      var currency, amount := CurrencyOf(r), Units(r.cents);
      customer := "";
      if user !in profiles { return Some(ProfileNotFound), customer; }
      customer := profiles[user].id;
      if !OwnedActive(Tables(), r.source, customer) { return Some(SourceNotFound), customer; }
      if !OwnedActive(Tables(), r.destination, customer) { return Some(DestinationNotFound), customer; }
      if accounts[r.source].currency != currency || accounts[r.destination].currency != currency {
        return Some(CurrencyMismatch), customer;
      }
      var count := DebitIfCovered(r.source, amount);
      if count != 1 { return Some(InsufficientFunds), customer; }
      Increment(r.destination, amount);
      return None, customer;
    }

    method ExecuteTransferTx(user: UserId, r: Request, key: string, c: Choice) returns (result: TxResult)
      requires r.TransferRequest?
      modifies this`accounts, this`txns, this`ledger, this`keys, this`audits
      ensures result == PaymentTx(old(Tables()), user, "", r, key, c).1
      ensures result.Return? ==> Tables() == PaymentTx(old(Tables()), user, "", r, key, c).0
    {
      hide TransferPlan, BeneficiaryPlan, MerchantPlan, Replay, BodyOf, Apply, KeyIdTaken, Canonical, Move;
      ghost var start := Tables();
      var answer := ReserveTransferKey(user, r, key, c);
      if answer.Some? { return answer.value; }
      ghost var reserved := Tables();
      PlanIgnoresKeys(start, reserved, user, "", r, key, c);
      var error, customer := MoveTransfer(user, r, key, c);
      if error.Some? { return Throw(error.value); }
      if c.newId in txns { return Throw(UniqueViolation); }
      ghost var p := PaymentRecord(user, key, r, customer, c.newKeyId, c.newId, r.destination, false, "", c.now);
      var body := RecordTransfer(user, r, customer, CurrencyOf(r), Units(r.cents), c, p);
      CompleteKey(user, key, body, c.now);
      PiecesMakeMovement(start, p);
      return Return(201, body);
    }

    /** Where the money goes: the IBAN's own account, or the external settlement account. */
    method ResolveDestination(iban: string, currency: string, c: Choice)
      returns (found: bool, destination: Id, internal: bool)
      ensures Resolve(Tables(), iban, currency, c) == if found then Some((destination, internal)) else None
    {
      found, internal, destination := true, false, "";
      var matched := FindAccount(c.scan, ByIban(iban, currency));
      if matched.Some? {
        internal, destination := true, matched.value;
      } else {
        var external := FindAccount(c.scan, ExternalSettlement(currency));
        if external.None? { found := false; } else { destination := external.value; }
      }
    }

    method MoveToBeneficiary(ghost user: UserId, customer: Id, r: Request, ghost key: string, c: Choice)
      returns (error: Option<Error>, destination: Id, internal: bool, iban: string)
      requires r.BeneficiaryRequest?
      modifies this`accounts
      ensures FollowsPlan(BeneficiaryPlan(old(Tables()), user, customer, r, key, c), old(accounts), accounts, error)
      ensures error.None? ==>
                BeneficiaryPlan(old(Tables()), user, customer, r, key, c) == Accept(Payment(
                  PaymentRecord(user, key, r, customer, c.newKeyId, c.newId, destination, internal, iban, c.now)))
    {
      var currency, amount := CurrencyOf(r), Units(r.cents);
      destination, internal, iban := "", false, "";
      if !UsableSource(Tables(), r.source, customer, currency) { error := Some(SourceNotFound); return; }
      if accounts[r.source].balance < amount { error := Some(InsufficientFunds); return; }
      if !UsableBeneficiary(Tables(), r.beneficiary, customer) { error := Some(BeneficiaryNotFound); return; }
      iban := beneficiaries[r.beneficiary].iban;
      var found;
      found, destination, internal := ResolveDestination(iban, currency, c);
      if !found { error := Some(SettlementNotFound); return; }
      if r.source == destination { error := Some(SameAccount); return; }
      var count := DebitIfCovered(r.source, amount);
      if count != 1 { error := Some(InsufficientFunds); return; }
      Increment(destination, amount);
      error := None;
    }

    method ExecuteBeneficiaryTransferTx(user: UserId, customer: Id, r: Request, key: string, c: Choice)
      returns (result: TxResult)
      requires r.BeneficiaryRequest?
      modifies this`accounts, this`txns, this`ledger, this`keys, this`audits
      ensures result == PaymentTx(old(Tables()), user, customer, r, key, c).1
      ensures result.Return? ==> Tables() == PaymentTx(old(Tables()), user, customer, r, key, c).0
    {
      hide TransferPlan, BeneficiaryPlan, MerchantPlan, Replay, BodyOf, Apply, KeyIdTaken, Canonical, Move;
      ghost var start := Tables();
      var answer := ReserveKey(user, r, key, "POST /payments/transfer-to-beneficiary", c);
      if answer.Some? { return answer.value; }
      ghost var reserved := Tables();
      PlanIgnoresKeys(start, reserved, user, customer, r, key, c);
      var error, destination, internal, iban := MoveToBeneficiary(user, customer, r, key, c);
      if error.Some? {
        if error.value.InsufficientFunds? { keys := keys[(user, key) := keys[(user, key)].(status := Failed)]; }
        return Throw(error.value);
      }
      if c.newId in txns { return Throw(UniqueViolation); }
      ghost var p := PaymentRecord(user, key, r, customer, c.newKeyId, c.newId, destination, internal, iban, c.now);
      var body := RecordBeneficiaryTransfer(user, r, customer, CurrencyOf(r), Units(r.cents), destination, internal,
        iban, c, p);
      CompleteKey(user, key, body, c.now);
      PiecesMakeMovement(start, p);
      return Return(201, body);
    }

    method MoveToMerchant(ghost user: UserId, customer: Id, r: Request, ghost key: string, ghost c: Choice)
      returns (error: Option<Error>, settlement: Id)
      requires r.MerchantRequest?
      modifies this`accounts
      ensures FollowsPlan(MerchantPlan(old(Tables()), user, customer, r, key, c), old(accounts), accounts, error)
      ensures error.None? ==>
                MerchantPlan(old(Tables()), user, customer, r, key, c) == Accept(Payment(
                  PaymentRecord(user, key, r, customer, c.newKeyId, c.newId, settlement, false, "", c.now)))
    {
      var currency, amount := CurrencyOf(r), Units(r.cents);
      settlement := "";
      if !UsableSource(Tables(), r.source, customer, currency) { error := Some(SourceNotFound); return; }
      if r.merchant !in merchants || !merchants[r.merchant].isActive { error := Some(MerchantNotFound); return; }
      settlement := merchants[r.merchant].settlementAccount;
      if settlement !in accounts || !accounts[settlement].status.Active? { error := Some(MerchantNotFound); return; }
      if accounts[settlement].currency != currency { error := Some(MerchantCurrencyMismatch); return; }
      var count := DebitIfCovered(r.source, amount);
      if count != 1 { error := Some(InsufficientFunds); return; }
      Increment(settlement, amount);
      error := None;
    }

    method ExecuteMerchantPaymentTx(user: UserId, customer: Id, r: Request, key: string, c: Choice)
      returns (result: TxResult)
      requires r.MerchantRequest?
      modifies this`accounts, this`txns, this`ledger, this`keys, this`audits
      ensures result == PaymentTx(old(Tables()), user, customer, r, key, c).1
      ensures result.Return? ==> Tables() == PaymentTx(old(Tables()), user, customer, r, key, c).0
    {
      hide TransferPlan, BeneficiaryPlan, MerchantPlan, Replay, BodyOf, Apply, KeyIdTaken, Canonical, Move;
      ghost var start := Tables();
      var answer := ReserveKey(user, r, key, "POST /payments/pay-merchant", c);
      if answer.Some? { return answer.value; }
      ghost var reserved := Tables();
      PlanIgnoresKeys(start, reserved, user, customer, r, key, c);
      var error, settlement := MoveToMerchant(user, customer, r, key, c);
      if error.Some? {
        if error.value.InsufficientFunds? { keys := keys[(user, key) := keys[(user, key)].(status := Failed)]; }
        return Throw(error.value);
      }
      if c.newId in txns { return Throw(UniqueViolation); }
      ghost var p := PaymentRecord(user, key, r, customer, c.newKeyId, c.newId, settlement, false, "", c.now);
      var body := RecordMerchantPayment(user, r, customer, CurrencyOf(r), Units(r.cents), settlement, c, p);
      CompleteKey(user, key, body, c.now);
      PiecesMakeMovement(start, p);
      return Return(201, body);
    }

    /** `$transaction`: a throw undoes every write of the body, the FAILED key rows included. */
    method Transaction(user: UserId, customer: Id, r: Request, key: string, c: Choice) returns (result: TxResult)
      modifies this`accounts, this`txns, this`ledger, this`keys, this`audits
      ensures (Tables(), result) == PaymentTx(old(Tables()), user, customer, r, key, c)
    {
      var accounts0, txns0, ledger0, keys0, audits0 := accounts, txns, ledger, keys, audits;
      match r {
        case TransferRequest(_, _, _, _, _) => result := ExecuteTransferTx(user, r, key, c);
        case BeneficiaryRequest(_, _, _, _, _) => result := ExecuteBeneficiaryTransferTx(user, customer, r, key, c);
        case MerchantRequest(_, _, _, _, _) => result := ExecuteMerchantPaymentTx(user, customer, r, key, c);
      }
      if result.Throw? {
        accounts, txns, ledger, keys, audits := accounts0, txns0, ledger0, keys0, audits0;
      }
    }

    // ---- Payment calls ----

    method Begin(id: nat, m: Message)
      modifies this`profiles, this`accounts, this`calls
      ensures State() == Protocol.Begin(old(State()), id, m)
    {
      match m {
        case Pay(user, request, key) => calls := calls[id := Enter(user, request, key, Direct)];
        case Confirm(user, challengeId, otp) => calls := calls[id := Fetching(user, challengeId, otp)];
        case AddBeneficiary(user, name, iban, alias) => calls := calls[id := Finding(user, name, iban, alias)];
        case RemoveBeneficiary(user, ben) => calls := calls[id := Seeking(user, ben)];
        case UpdateKyc(admin, subject, status) => calls := calls[id := Reviewing(admin, subject, status)];
        case CreditAccount(admin, target, cents, currency, note) =>
          calls := calls[id := Crediting(admin, target, cents, currency, note)];
        case Register(user, profile, account, iban) =>
          if CanRegister(Tables(), user, account, iban) {
            profiles := profiles[user := Profile(profile, Pending)];
            accounts := accounts[account := Account(profile, iban, "RON", 0, Active, "CHECKING", false)];
            calls := calls[id := Noting(Audit(user, UserRegistered, user))];
          } else {
            calls := calls[id := Refused(UniqueViolation)];
          }
      }
    }

    /** The KYC read, and the checks up to the next await. */
    method ReadKyc(id: nat, user: UserId, r: Request, key: string, origin: Origin)
      modifies this`calls, this`history
      ensures State() == Protocol.ReadKyc(old(State()), id, user, r, key, origin)
    {
      if user !in profiles || !profiles[user].kyc.Verified? {
        calls := calls[id := Refused(KycRequired)];
        return;
      }
      history := history + [Event.Verified(id, user)];
      if r.TransferRequest? && r.source == r.destination {
        calls := calls[id := Refused(SameAccount)];
        return;
      }
      if CurrencyOf(r) != "RON" {
        calls := calls[id := Refused(UnsupportedCurrency)];
        return;
      }
      if r.MerchantRequest? && r.cents <= 0 {
        calls := calls[id := Refused(AmountNotPositive)];
        return;
      }
      var customer := profiles[user].id;
      if origin.Direct? {
        if r.cents > STEP_UP_THRESHOLD {
          calls := calls[id := CheckingRisk(user, customer, r, key)];
          return;
        }
      }
      calls := calls[id := Executing(user, customer, r, key, origin, 1)];
    }

    /** The first half of the fraud check: a completed key needs no second confirmation. */
    method ReadKeyForRisk(id: nat, user: UserId, customer: Id, r: Request, key: string)
      modifies this`calls
      ensures State() == Protocol.ReadKeyForRisk(old(State()), id, user, customer, r, key)
    {
      if (user, key) in keys && keys[(user, key)].status.Completed? {
        calls := calls[id := Executing(user, customer, r, key, Direct, 1)];
      } else {
        calls := calls[id := Challenging(user, r, key)];
      }
    }

    /** The second half: `redis.set` and the step-up exception. */
    method SetChallenge(id: nat, user: UserId, r: Request, key: string, t: Turn)
      modifies this`redis, this`calls, this`history
      ensures State() == Protocol.SetChallenge(old(State()), id, user, r, key, t)
    {
      var redisKey := "stepup:transfer:" + user + ":" + t.challengeId;
      var challenge := Challenge(user, r, key, t.createdAt, t.otp);
      redis := redis[redisKey := Stringify(ChallengeJson(challenge))];
      calls := calls[id := Refused(StepUpRequired(t.challengeId))];
      history := history + [Issued(user, t.challengeId, challenge)];
    }

    /** One pass of the retry loop's body. The database may refuse to serialize after any of its writes,
        and then undoes them. */
    method Attempt(id: nat, t: Turn)
      requires id in calls && calls[id].Executing?
      modifies this`accounts, this`txns, this`ledger, this`keys, this`audits, this`calls, this`history
      ensures State() == Protocol.Attempt(old(State()), id, old(calls)[id], t)
    {
      hide PaymentTx, Commits, PaymentPlan;
      var Executing(user, customer, r, key, origin, attempt) := calls[id];
      var accounts0, txns0, ledger0, keys0, audits0 := accounts, txns, ledger, keys, audits;
      ghost var committed := Commits(Tables(), user, customer, r, key, t.choice);
      var result := Transaction(user, customer, r, key, t.choice);
      if t.conflict {
        accounts, txns, ledger, keys, audits := accounts0, txns0, ledger0, keys0, audits0;
        if attempt < SERIALIZABLE_RETRIES {
          calls := calls[id := Executing(user, customer, r, key, origin, attempt + 1)];
        } else {
          calls := calls[id := Paid(user, key, r, Throw(SerializationFailure))];
        }
        return;
      }
      calls := calls[id := Paid(user, key, r, result)];
      history := match committed case Some(m) => history + [Moved(id, origin, m)] case None => history;
    }

    /** `get` and the OTP comparison. */
    method FetchChallenge(id: nat, user: UserId, challengeId: string, otp: string)
      modifies this`calls, this`history
      ensures State() == Protocol.FetchChallenge(old(State()), id, user, challengeId, otp)
    {
      var redisKey := RedisKey(user, challengeId);
      if redisKey !in redis {
        calls := calls[id := Refused(ChallengeNotFound)];
        return;
      }
      var data := ParseChallenge(redis[redisKey]);
      if data.None? {
        calls := calls[id := Refused(UnreadableChallenge)];
        return;
      }
      if data.value.otp != otp {
        calls := calls[id := Refused(InvalidOtp)];
        return;
      }
      calls := calls[id := Consuming(user, challengeId, data.value)];
      history := history + [Confirmed(id, user, challengeId, data.value, otp)];
    }

    /** `del`, then the route the challenge was issued for, without its fraud check. */
    method ConsumeChallenge(id: nat, user: UserId, challengeId: string, ch: Challenge)
      modifies this`redis, this`calls
      ensures State() == Protocol.ConsumeChallenge(old(State()), id, user, challengeId, ch)
    {
      redis := redis - {RedisKey(user, challengeId)};
      calls := calls[id := Enter(user, ch.request, ch.key, Stepped(challengeId, ch))];
    }

    // ---- Beneficiaries ----

    method FindBeneficiary(id: nat, user: UserId, name: string, iban: string, alias: Option<string>, scan: seq<Id>)
      modifies this`calls
      ensures State() == Protocol.FindBeneficiary(old(State()), id, user, name, iban, alias, scan)
    {
      if user !in profiles {
        calls := calls[id := Refused(ProfileNotFound)];
        return;
      }
      var customer, norm := profiles[user].id, NormalIban(iban);
      var existing := FindRow(scan, Tables(), customer, norm);
      if existing.Some? {
        if beneficiaries[existing.value].status.Listed? {
          calls := calls[id := Refused(BeneficiaryExists)];
        } else {
          calls := calls[id := Reactivating(user, existing.value, name, alias)];
        }
      } else {
        calls := calls[id := Inserting(user, customer, name, norm, alias)];
      }
    }

    method Reactivate(id: nat, user: UserId, row: Id, name: string, alias: Option<string>)
      modifies this`beneficiaries, this`calls
      ensures State() == Protocol.Reactivate(old(State()), id, user, row, name, alias)
    {
      if row !in beneficiaries {
        calls := calls[id := Refused(BeneficiaryNotFound)];
        return;
      }
      var b := beneficiaries[row];
      beneficiaries := beneficiaries[row := Beneficiary(b.customer, b.iban, name, alias, Listed, None)];
      calls := calls[id := Noting(Audit(user, BeneficiaryReactivated, row))];
    }

    method Insert(id: nat, call: Call, newId: Id)
      requires call.Inserting?
      modifies this`beneficiaries, this`calls
      ensures State() == Protocol.Insert(old(State()), id, call, newId)
    {
      var taken := exists row :: row in beneficiaries && IsRowFor(Tables(), row, call.customer, call.iban);
      if newId in beneficiaries || taken {
        calls := calls[id := Refused(UniqueViolation)];
        return;
      }
      var added := Beneficiary(call.customer, call.iban, call.name, call.alias, Listed, None);
      beneficiaries := beneficiaries[newId := added];
      calls := calls[id := Noting(Audit(call.user, BeneficiaryCreated, newId))];
    }

    method SeekBeneficiary(id: nat, user: UserId, row: Id)
      modifies this`calls
      ensures State() == Protocol.SeekBeneficiary(old(State()), id, user, row)
    {
      if user !in profiles {
        calls := calls[id := Refused(ProfileNotFound)];
      } else if
        || row !in beneficiaries
        || beneficiaries[row].customer != profiles[user].id
        || beneficiaries[row].status.Archived?
      {
        calls := calls[id := Refused(BeneficiaryNotFound)];
      } else {
        calls := calls[id := Archiving(user, row)];
      }
    }

    method Archive(id: nat, user: UserId, row: Id, now: Time)
      modifies this`beneficiaries, this`calls
      ensures State() == Protocol.Archive(old(State()), id, user, row, now)
    {
      if row !in beneficiaries {
        calls := calls[id := Refused(BeneficiaryNotFound)];
        return;
      }
      beneficiaries := beneficiaries[row := beneficiaries[row].(status := Archived, archivedAt := Some(now))];
      calls := calls[id := Noting(Audit(user, BeneficiaryDeleted, row))];
    }

    // ---- Administration ----

    method SetKyc(id: nat, admin: UserId, subject: UserId, status: Kyc)
      modifies this`profiles, this`calls
      ensures State() == Protocol.SetKyc(old(State()), id, admin, subject, status)
    {
      if subject !in profiles {
        calls := calls[id := Refused(ProfileNotFound)];
        return;
      }
      profiles := profiles[subject := Profile(profiles[subject].id, status)];
      var action := if status.Verified? then CustomerVerified else CustomerRejected;
      calls := calls[id := Noting(Audit(admin, action, profiles[subject].id))];
    }

    /** The checks and balance updates of `creditAccount`. */
    method MoveCredit(ghost admin: UserId, target: Id, cents: nat, currency: string, note: Option<string>, c: Choice)
      returns (error: Option<Error>, system: Id, text: string)
      modifies this`accounts
      ensures var plan := CreditPlan(old(Tables()), admin, target, cents, currency, note, c);
              FollowsPlan(plan, old(accounts), accounts, error)
      ensures error.None? ==>
                CreditPlan(old(Tables()), admin, target, cents, currency, note, c) == Accept(
                  Funding(admin, c.newId, system, target, cents, text, old(accounts)[target].customer, c.now))
    {
      error, system, text := None, "", "";
      if currency != "RON" { error := Some(UnsupportedCurrency); return; }
      if target !in accounts || accounts[target].isSystem { error := Some(TargetNotFound); return; }
      if !accounts[target].status.Active? { error := Some(TargetNotActive); return; }
      var found := FindAccount(c.scan, AnySystem("RON"));
      if found.None? { error := Some(SettlementNotFound); return; }
      system := found.value;
      accounts := accounts[system := accounts[system].(balance := accounts[system].balance - Units(cents))];
      Increment(target, Units(cents));
      text := match note
              case Some(n) => (if n == "" then "Admin credit funding" else n)
              case None => "Admin credit funding";
    }

    /** The body of `creditAccount`'s transaction; what it wrote is undone when it throws. */
    method ExecuteCreditTx(admin: UserId, target: Id, cents: nat, currency: string, note: Option<string>, c: Choice)
      returns (error: Option<Error>, ghost m: Option<Movement>)
      modifies this`accounts, this`txns, this`ledger, this`audits
      ensures match CreditTx(old(Tables()), admin, target, cents, currency, note, c)
              case Reject(e) => error == Some(e) && Tables() == old(Tables())
              case Accept(x) => error == None && m == Some(x) && Tables() == Apply(old(Tables()), x)
    {
      hide CreditPlan;
      var accounts0 := accounts;
      var system, text;
      error, system, text := MoveCredit(admin, target, cents, currency, note, c);
      if error.None? && c.newId in txns { error := Some(UniqueViolation); }
      if error.Some? {
        accounts, m := accounts0, None;
      } else {
        ghost var x := Funding(admin, c.newId, system, target, cents, text, accounts[target].customer, c.now);
        RecordCredit(admin, system, target, Units(cents), text, c, x);
        m := Some(x);
      }
    }

    /** `creditAccount`: a refusal to serialize undoes it too, and is not retried. */
    method CreditAccount(id: nat, t: Turn)
      requires id in calls && calls[id].Crediting?
      modifies this`accounts, this`txns, this`ledger, this`audits, this`calls, this`history
      ensures State() == ExecuteCredit(old(State()), id, old(calls)[id], t)
    {
      hide CreditTx, Apply;
      var Crediting(admin, target, cents, currency, note) := calls[id];
      var accounts0, txns0, ledger0, audits0 := accounts, txns, ledger, audits;
      ghost var m;
      var error;
      error, m := ExecuteCreditTx(admin, target, cents, currency, note, t.choice);
      if t.conflict {
        accounts, txns, ledger, audits := accounts0, txns0, ledger0, audits0;
        calls := calls[id := Refused(SerializationFailure)];
      } else if error.Some? {
        calls := calls[id := Refused(error.value)];
      } else {
        calls := calls[id := Ended];
        history := history + [Moved(id, Direct, m.value)];
      }
    }

    method RecordCredit(admin: UserId, system: Id, target: Id, amount: nat, text: string, c: Choice, ghost m: Movement)
      requires target in accounts && m.Funding? && amount == Units(m.cents)
      requires m == Funding(admin, c.newId, system, target, m.cents, text, accounts[target].customer, c.now)
      modifies this`txns, this`ledger, this`audits
      ensures txns == old(txns)[TxnOf(m) := TxnRow(m)]
      ensures ledger == old(ledger) + [DebitLeg(m), CreditLeg(m)]
      ensures audits == old(audits) + [AuditRow(m)]
    {
      txns := txns[c.newId := Txn(AdminCredit, TxnPosted, amount, "RON", Some(text), accounts[target].customer,
                                  system, target, None, None)];
      ledger := ledger + [Entry(c.newId, system, Debit, amount, "RON", 0, c.now),
        Entry(c.newId, target, Credit, amount, "RON", 0, c.now)];
      audits := audits + [Audit(admin, AccountCreditedByAdmin, c.newId)];
    }

    // ---- The whole server ----

    method ResumePayment(id: nat, t: Turn)
      requires id in calls && !IsSideCall(calls[id])
      modifies this
      ensures State() == Protocol.Resume(old(State()), id, old(calls)[id], t)
    {
      hide Protocol.ReadKyc, Protocol.ReadKeyForRisk, Protocol.SetChallenge, Protocol.Attempt;
      hide Protocol.FetchChallenge, Protocol.ConsumeChallenge, ExecuteCredit;
      match calls[id] {
        case Entering(user, r, key, origin) => ReadKyc(id, user, r, key, origin);
        case CheckingRisk(user, customer, r, key) => ReadKeyForRisk(id, user, customer, r, key);
        case Challenging(user, r, key) => SetChallenge(id, user, r, key, t);
        case Executing(_, _, _, _, _, _) => Attempt(id, t);
        case Fetching(user, challengeId, otp) => FetchChallenge(id, user, challengeId, otp);
        case Consuming(user, challengeId, ch) => ConsumeChallenge(id, user, challengeId, ch);
        case Crediting(_, _, _, _, _) => CreditAccount(id, t);
        case Noting(audit) =>
          audits := audits + [audit];
          calls := calls[id := Ended];
        case _ =>
      }
    }

    method ResumeSide(id: nat, t: Turn)
      requires id in calls && IsSideCall(calls[id])
      modifies this`profiles, this`beneficiaries, this`calls
      ensures State() == Protocol.Resume(old(State()), id, old(calls)[id], t)
    {
      hide Protocol.FindBeneficiary, Protocol.Reactivate, Protocol.Insert, Protocol.SeekBeneficiary, Protocol.Archive,
        Protocol.SetKyc;
      hide Protocol.ReadKyc, Protocol.ReadKeyForRisk, Protocol.SetChallenge, Protocol.Attempt, Protocol.FetchChallenge;
      hide Protocol.ConsumeChallenge, Protocol.ExecuteCredit;
      match calls[id] {
        case Finding(user, name, iban, alias) => FindBeneficiary(id, user, name, iban, alias, t.choice.scan);
        case Reactivating(user, row, name, alias) => Reactivate(id, user, row, name, alias);
        case Inserting(_, _, _, _, _) => Insert(id, calls[id], t.choice.newId);
        case Seeking(user, row) => SeekBeneficiary(id, user, row);
        case Archiving(user, row) => Archive(id, user, row, t.choice.now);
        case Reviewing(admin, subject, status) => SetKyc(id, admin, subject, status);
      }
    }

    method Resume(id: nat, t: Turn)
      requires id in calls
      modifies this
      ensures State() == Protocol.Resume(old(State()), id, old(calls)[id], t)
    {
      if IsSideCall(calls[id]) { ResumeSide(id, t); } else { ResumePayment(id, t); }
    }

    method Step(a: Action)
      modifies this
      ensures State() == Next(old(State()), a)
    {
      hide Protocol.Resume, Protocol.Begin;
      match a {
        case Arrive(id, m) => if id !in calls { Begin(id, m); }
        case Advance(id, t) => if id in calls { Resume(id, t); }
        case Expire(k) => redis := redis - {k};
      }
    }

    method RunAll(run: seq<Action>)
      modifies this
      ensures State() == Exec(old(State()), run)
    {
      hide Next;
      for i := 0 to |run|
        invariant State() == Exec(old(State()), run[..i])
      {
        Step(run[i]);
        assert run[..i + 1][..i] == run[..i];
      }
      assert run[..|run|] == run;
    }

    /** What others do before attempt `n`, and the attempt. */
    method TryOnce(id: nat, turns: seq<Turn>, others: seq<seq<Action>>, n: nat, ghost start: System)
      requires id in calls && calls[id].Executing? && 1 <= calls[id].attempt <= SERIALIZABLE_RETRIES
      requires n < |turns| && n < |others| && LacksAdvance(id, others[n])
      requires State() == Exec(start, Interleaved(id, turns, others, n))
      modifies this
      ensures State() == Exec(start, Interleaved(id, turns, others, n + 1))
      ensures id in calls
      ensures turns[n].conflict && old(calls)[id].attempt < SERIALIZABLE_RETRIES ==>
                calls[id] == old(calls)[id].(attempt := old(calls)[id].attempt + 1)
      ensures turns[n].conflict && old(calls)[id].attempt == SERIALIZABLE_RETRIES ==>
                calls[id].Paid? && calls[id].result == Throw(SerializationFailure)
      ensures !turns[n].conflict ==> calls[id].Paid?
    {
      hide Next, Protocol.Attempt;
      OthersKeepCallOverRun(State(), others[n], id);
      InterleavedStep(start, id, turns, others, n);
      RunAll(others[n]);
      AttemptOutcome(State(), id, turns[n]);
      Attempt(id, turns[n]);
    }

    /** The retry loop of the three routes, while other calls run before each of its attempts. It ends
        the call within five attempts, all but the last of them undone by a conflict; what happened is
        what one attempt would have done, or nothing when all five failed. The throw after the loop
        is never reached. */
    method PostWithRetries(id: nat, turns: seq<Turn>, others: seq<seq<Action>>) returns (attempts: nat)
      requires LoopOf(State(), id, turns, others)
      modifies this
      ensures 1 <= attempts <= 5 && id in calls && calls[id].Paid?
      ensures forall i :: 0 <= i < attempts - 1 ==> turns[i].conflict
      ensures turns[attempts - 1].conflict ==> attempts == 5
      ensures State() == Exec(old(State()), Interleaved(id, turns, others, attempts))
      ensures !turns[attempts - 1].conflict ==>
                State() == Exec(old(State()), Without(others, attempts) + [Advance(id, turns[attempts - 1])])
      ensures turns[attempts - 1].conflict ==>
                var e, c := Exec(old(State()), Without(others, attempts)), old(calls)[id];
                State() == e.(calls := e.calls[id := Paid(c.user, c.key, c.request, Throw(SerializationFailure))])
    {
      hide Next;
      ghost var start := State();
      attempts := 0;
      while attempts < SERIALIZABLE_RETRIES
        invariant attempts < SERIALIZABLE_RETRIES
        invariant State() == Exec(start, Interleaved(id, turns, others, attempts))
        invariant id in calls && calls[id].Executing? && calls[id].attempt == attempts + 1
        invariant forall i :: 0 <= i < attempts ==> turns[i].conflict
      {
        TryOnce(id, turns, others, attempts, start);
        attempts := attempts + 1;
        if turns[attempts - 1].conflict && attempts < SERIALIZABLE_RETRIES { continue; }
        if turns[attempts - 1].conflict {
          ExhaustedLoopLeavesNoTrace(start, id, turns, others);
        } else {
          LoopIsOneAttempt(start, id, turns, others, attempts - 1);
        }
        return;
      }
      assert false;
    }
  }

  lemma AttemptOutcome(s: System, id: nat, t: Turn)
    requires id in s.calls && s.calls[id].Executing?
    ensures Next(s, Advance(id, t)) == Protocol.Attempt(s, id, s.calls[id], t)
    ensures var c, s' := s.calls[id], Protocol.Attempt(s, id, s.calls[id], t);
            && id in s'.calls
            && (t.conflict && c.attempt < SERIALIZABLE_RETRIES ==> s'.calls[id] == c.(attempt := c.attempt + 1))
            && (t.conflict && c.attempt >= SERIALIZABLE_RETRIES ==>
                s'.calls[id].Paid? && s'.calls[id].result == Throw(SerializationFailure))
            && (!t.conflict ==> s'.calls[id].Paid?)
  {
    var s' := AttemptStep(s, id, t);
  }
}
