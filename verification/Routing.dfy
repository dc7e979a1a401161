/** Whose money a payment takes and where it goes, over any run. */
module Routing {
  import opened Text
  import opened Rows
  import opened Requests
  import opened Posting
  import opened Protocol
  import opened Invariants
  import opened Preservation
  import opened Frames
  import opened Ledger
  import opened Payees
  import opened Conditions

  // ---- What was decided when a payment was posted ----

  predicate SourceOk(db: Db, p: PaymentRecord) {
    && p.user in db.profiles && db.profiles[p.user].id == p.customer
    && OwnedActive(db, p.request.source, p.customer)
    && db.accounts[p.request.source].currency == CurrencyOf(p.request)
    && (!p.request.TransferRequest? ==> !db.accounts[p.request.source].isSystem)
  }

  predicate DestinationOk(db: Db, p: PaymentRecord) {
    && p.destination in db.accounts
    && var d := db.accounts[p.destination];
    && d.status.Active? && d.currency == CurrencyOf(p.request)
    && match p.request
       case TransferRequest(_, destination, _, _, _) => p.destination == destination && d.customer == p.customer
       case BeneficiaryRequest(source, row, _, _, _) =>
         && p.destination != source
         && row in db.beneficiaries
         && db.beneficiaries[row].iban == p.iban && db.beneficiaries[row].customer == p.customer
         && (if p.internal then d.iban == p.iban && !d.isSystem
             else d.isSystem && d.accountType == "EXTERNAL_SETTLEMENT")
       case MerchantRequest(_, merchant, _, _, _) =>
         && merchant in db.merchants && db.merchants[merchant].isActive
         && db.merchants[merchant].settlementAccount == p.destination
  }

  /** The payer's own active account was debited, and the money went where the route sends it. */
  predicate RoutedOk(db: Db, p: PaymentRecord) {
    SourceOk(db, p) && DestinationOk(db, p)
  }

  lemma TransferIsRouted(db: Db, user: UserId, r: Request, key: string, c: Choice)
    requires r.TransferRequest? && TransferPlan(db, user, r, key, c).Accept?
    ensures RoutedOk(db, TransferPlan(db, user, r, key, c).movement.p)
  {
  }

  lemma BeneficiaryTransferIsRouted(db: Db, user: UserId, customer: Id, r: Request, key: string, c: Choice)
    requires r.BeneficiaryRequest? && BeneficiaryPlan(db, user, customer, r, key, c).Accept?
    requires user in db.profiles && db.profiles[user].id == customer
    ensures RoutedOk(db, BeneficiaryPlan(db, user, customer, r, key, c).movement.p)
  {
  }

  lemma MerchantPaymentIsRouted(db: Db, user: UserId, customer: Id, r: Request, key: string, c: Choice)
    requires r.MerchantRequest? && MerchantPlan(db, user, customer, r, key, c).Accept?
    requires user in db.profiles && db.profiles[user].id == customer
    ensures RoutedOk(db, MerchantPlan(db, user, customer, r, key, c).movement.p)
  {
  }

  lemma PlanIsRouted(db: Db, user: UserId, customer: Id, r: Request, key: string, c: Choice)
    requires PaymentPlan(db, user, customer, r, key, c).Accept?
    requires user in db.profiles && db.profiles[user].id == customer
    ensures RoutedOk(db, PaymentPlan(db, user, customer, r, key, c).movement.p)
  {
    hide RoutedOk, TransferPlan, BeneficiaryPlan, MerchantPlan;
    match r
    case TransferRequest(_, _, _, _, _) => TransferIsRouted(db, user, r, key, c);
    case BeneficiaryRequest(_, _, _, _, _) => BeneficiaryTransferIsRouted(db, user, customer, r, key, c);
    case MerchantRequest(_, _, _, _, _) => MerchantPaymentIsRouted(db, user, customer, r, key, c);
  }

  /** An admin credit debits an active system account and credits a customer's. */
  predicate FundingOk(db: Db, m: Movement)
    requires m.Funding?
  {
    && m.system in db.accounts && m.target in db.accounts
    && var from, to := db.accounts[m.system], db.accounts[m.target];
    && from.isSystem && from.status.Active? && from.currency == "RON"
    && !to.isSystem && to.status.Active? && to.customer == m.owner
  }

  lemma CreditIsRouted(db: Db, admin: UserId, target: Id, cents: nat, currency: string, note: Option<string>, c: Choice)
    requires CreditTx(db, admin, target, cents, currency, note, c).Accept?
    ensures var m := CreditTx(db, admin, target, cents, currency, note, c).movement; m.Funding? && FundingOk(db, m)
  {
  }

  predicate MovementOk(db: Db, m: Movement) {
    match m
    case Payment(p) => RoutedOk(db, p)
    case Funding(_, _, _, _, _, _, _, _) => FundingOk(db, m)
  }

  lemma FirstOfCoveringScan(scan: seq<Id>, accounts: map<Id, Account>, selected: set<Id>)
    requires (forall a :: a in accounts ==> a in scan) && selected <= accounts.Keys
    ensures NoneOf(scan, selected) <==> selected == {}
  {
    if selected != {} {
      var a :| a in selected;
      var i :| 0 <= i < |scan| && scan[i] == a;
      assert scan[i] in selected;
    }
  }

  /** When the scan covers the table, a payment stays inside the bank exactly when some active customer
      account has the IBAN and the currency, and then goes there; otherwise it goes to an active external
      settlement account, and is refused exactly when there is none. */
  lemma ResolutionIsDecided(db: Db, iban: string, currency: string, c: Choice)
    requires forall a :: a in db.accounts ==> a in c.scan
    ensures var r := Resolve(db, iban, currency, c);
            var known := exists a :: a in db.accounts && db.accounts[a].iban == iban && db.accounts[a].status.Active?
                                     && db.accounts[a].currency == currency && !db.accounts[a].isSystem;
            var external := exists a :: a in db.accounts && db.accounts[a].accountType == "EXTERNAL_SETTLEMENT"
                                        && db.accounts[a].isSystem && db.accounts[a].status.Active?
                                        && db.accounts[a].currency == currency;
            && (r.Some? && r.value.1 <==> known)
            && (r.Some? && !r.value.1 <==> !known && external)
            && (r.Some? ==>
                  && r.value.0 in db.accounts
                  && var d := db.accounts[r.value.0];
                  && d.status.Active? && d.currency == currency
                  && if known then d.iban == iban && !d.isSystem
                     else d.accountType == "EXTERNAL_SETTLEMENT" && d.isSystem)
  {
    var own, external := WithIban(db.accounts, iban, currency), Settlements(db.accounts, currency);
    LookupsSelect(c.scan, db.accounts, iban, currency);
    FirstOfCoveringScan(c.scan, db.accounts, own);
    FirstOfCoveringScan(c.scan, db.accounts, external);
    var found := FindFirst(c.scan, db.accounts, ByIban(iban, currency));
    var settlement := FindFirst(c.scan, db.accounts, ExternalSettlement(currency));
    assert found.Some? ==> IsFirst(c.scan, own, found.value);
    assert settlement.Some? ==> IsFirst(c.scan, external, settlement.value);
    assert own != {} ==> exists a :: a in own;
    assert external != {} ==> exists a :: a in external;
    hide Matches, FindFirst, NoneOf;
  }

  // ---- It stays true ----

  /** Rows keep what a routing looked at. */
  predicate SameRows(db: Db, db': Db) {
    && SamePeople(db, db') && SameAccounts(db, db') && RowsKept(db.beneficiaries, db'.beneficiaries)
  }

  predicate SameAccounts(db: Db, db': Db) {
    forall a :: a in db.accounts ==>
      a in db'.accounts && db'.accounts[a] == db.accounts[a].(balance := db'.accounts[a].balance)
  }

  lemma MovementStable(db: Db, db': Db, m: Movement)
    requires MovementOk(db, m) && SameRows(db, db')
    ensures MovementOk(db', m)
  {
  }

  lemma SameRowsCompose(a: Db, b: Db, c: Db)
    requires SameRows(a, b) && SameRows(b, c)
    ensures SameRows(a, c)
  {
    assert forall x :: x in a.accounts ==> c.accounts[x] == a.accounts[x].(balance := c.accounts[x].balance);
  }

  lemma MoneyKeepsAccounts(db: Db, db': Db, c: MoneyChange)
    requires Changes(db, db', c)
    ensures SameAccounts(db, db')
  {
  }

  lemma BookKeepsPayees(db: Db, db': Db, c: BookChange)
    requires BookChanges(db, db', c)
    ensures RowsKept(db.beneficiaries, db'.beneficiaries)
  {
  }

  lemma StepKeepsRows(s: System, a: Action)
    ensures SameRows(s.db, Next(s, a).db)
  {
    hide Next, Changes, BookChanges, SameAccounts, RowsKept;
    var c := StepChange(s, a);
    MoneyKeepsAccounts(s.db, Next(s, a).db, c);
    var b := BookStep(s, a);
    BookKeepsPayees(s.db, Next(s, a).db, b);
  }

  // ---- The customer a call pays for ----

  predicate PaysForItself(db: Db, c: Call) {
    c.CheckingRisk? || c.Executing? ==> c.user in db.profiles && db.profiles[c.user].id == c.customer
  }

  predicate EveryonePaysForThemselves(s: System) {
    forall id :: id in s.calls ==> PaysForItself(s.db, s.calls[id])
  }

  lemma PaymentStepsPay(s: System, id: nat, c: Call, t: Turn)
    requires PaysForItself(s.db, c)
    ensures c.Entering? ==> PaysForItself(s.db, ReadKyc(s, id, c.user, c.request, c.key, c.origin).calls[id])
    ensures c.CheckingRisk? ==>
        PaysForItself(s.db, ReadKeyForRisk(s, id, c.user, c.customer, c.request, c.key).calls[id])
  {
  }

  lemma AttemptPays(s: System, id: nat, c: Call, t: Turn)
    requires c.Executing? && PaysForItself(s.db, c)
    ensures PaysForItself(s.db, Attempt(s, id, c, t).calls[id])
  {
    hide PaymentTx, Commits;
  }

  lemma FetchPaysNothing(s: System, id: nat, user: UserId, c: string, otp: string)
    ensures PaysForItself(s.db, FetchChallenge(s, id, user, c, otp).calls[id])
  {
    hide ParseChallenge;
  }

  lemma CreditPaysNothing(s: System, id: nat, c: Call, t: Turn)
    requires c.Crediting?
    ensures PaysForItself(s.db, ExecuteCredit(s, id, c, t).calls[id])
  {
    hide CreditTx, Apply;
  }

  lemma ResumePays(s: System, id: nat, t: Turn)
    requires id in s.calls && PaysForItself(s.db, s.calls[id])
    ensures id in Resume(s, id, s.calls[id], t).calls && PaysForItself(s.db, Resume(s, id, s.calls[id], t).calls[id])
  {
    ResumeTouchesOneCall(s, id, t);
    hide ReadKyc, ReadKeyForRisk, Attempt, FetchChallenge, ExecuteCredit;
    hide FindBeneficiary, Reactivate, Insert, SeekBeneficiary, Archive, SetKyc;
    var c := s.calls[id];
    match c
    case Entering(_, _, _, _) => PaymentStepsPay(s, id, c, t);
    case CheckingRisk(_, _, _, _) => PaymentStepsPay(s, id, c, t);
    case Executing(_, _, _, _, _, _) => AttemptPays(s, id, c, t);
    case Fetching(user, challengeId, otp) => FetchPaysNothing(s, id, user, challengeId, otp);
    case Crediting(_, _, _, _, _) => CreditPaysNothing(s, id, c, t);
    case _ => if IsSideCall(c) { SideCallFrame(s, id, t); }
  }

  lemma StepPays(s: System, a: Action)
    requires EveryonePaysForThemselves(s)
    ensures EveryonePaysForThemselves(Next(s, a))
  {
    var book := BookStep(s, a);
    var s' := Next(s, a);
    forall k | k in s'.calls ensures PaysForItself(s'.db, s'.calls[k]) {
      if k in s.calls && !(a.Advance? && a.id == k) {
        OthersKeepCall(s, a, k);
      } else if k in s.calls {
        ResumePays(s, k, a.turn);
      } else {
        NewcomerPays(s, a, k);
      }
    }
  }

  lemma NewcomerPays(s: System, a: Action, k: nat)
    requires k !in s.calls && k in Next(s, a).calls
    ensures PaysForItself(Next(s, a).db, Next(s, a).calls[k])
  {
    if a.Advance? && a.id in s.calls { ResumeTouchesOneCall(s, a.id, a.turn); }
  }

  // ---- Main results ----

  predicate AllRouted(s: System) {
    forall j :: 0 <= j < |s.history| && s.history[j].Moved? ==> MovementOk(s.db, s.history[j].movement)
  }

  /** The movements one step adds to the history. */
  predicate AddsRouted(s: System, s': System) {
    && s.history <= s'.history
    && forall j :: |s.history| <= j < |s'.history| && s'.history[j].Moved? ==> MovementOk(s.db, s'.history[j].movement)
  }

  lemma QuietStepsAdd(s: System, id: nat, c: Call, t: Turn)
    ensures c.Entering? ==> AddsRouted(s, ReadKyc(s, id, c.user, c.request, c.key, c.origin))
    ensures c.Challenging? ==> AddsRouted(s, SetChallenge(s, id, c.user, c.request, c.key, t))
    ensures c.Fetching? ==> AddsRouted(s, FetchChallenge(s, id, c.user, c.challengeId, c.otp))
  {
    hide MovementOk, ParseChallenge, AfterKyc;
  }

  lemma CommittedIsRouted(db: Db, user: UserId, customer: Id, r: Request, key: string, c: Choice)
    requires user in db.profiles && db.profiles[user].id == customer
    ensures var m := Commits(db, user, customer, r, key, c); m.Some? ==> MovementOk(db, m.value)
  {
    if PaymentPlan(db, user, customer, r, key, c).Accept? { PlanIsRouted(db, user, customer, r, key, c); }
    PlansArePayments(db, user, customer, r, key, c);
    hide PaymentPlan, RoutedOk, KeyIdTaken;
  }

  lemma PlansArePayments(db: Db, user: UserId, customer: Id, r: Request, key: string, c: Choice)
    ensures PaymentPlan(db, user, customer, r, key, c).Accept? ==>
        PaymentPlan(db, user, customer, r, key, c).movement.Payment?
  {
    hide FindFirst, Matches;
  }

  lemma AttemptAdds(s: System, id: nat, c: Call, t: Turn)
    requires c.Executing? && PaysForItself(s.db, c)
    ensures AddsRouted(s, Attempt(s, id, c, t))
  {
    CommittedIsRouted(s.db, c.user, c.customer, c.request, c.key, t.choice);
    hide PaymentTx, Commits, MovementOk;
  }

  lemma CreditAdds(s: System, id: nat, c: Call, t: Turn)
    requires c.Crediting?
    ensures AddsRouted(s, ExecuteCredit(s, id, c, t))
  {
    var plan := CreditTx(s.db, c.admin, c.target, c.cents, c.currency, c.note, t.choice);
    if plan.Accept? { CreditIsRouted(s.db, c.admin, c.target, c.cents, c.currency, c.note, t.choice); }
    hide CreditTx, Apply, FundingOk;
  }

  lemma ResumeAdds(s: System, id: nat, t: Turn)
    requires id in s.calls && PaysForItself(s.db, s.calls[id])
    ensures AddsRouted(s, Resume(s, id, s.calls[id], t))
  {
    hide ReadKyc, SetChallenge, Attempt, FetchChallenge, ExecuteCredit, PaysForItself;
    hide FindBeneficiary, Reactivate, Insert, SeekBeneficiary, Archive, SetKyc;
    var c := s.calls[id];
    match c
    case Entering(_, _, _, _) => QuietStepsAdd(s, id, c, t);
    case Challenging(_, _, _) => QuietStepsAdd(s, id, c, t);
    case Fetching(_, _, _) => QuietStepsAdd(s, id, c, t);
    case Executing(_, _, _, _, _, _) => AttemptAdds(s, id, c, t);
    case Crediting(_, _, _, _, _) => CreditAdds(s, id, c, t);
    case _ => if IsSideCall(c) { SideCallFrame(s, id, t); }
  }

  lemma StepAdds(s: System, a: Action)
    requires EveryonePaysForThemselves(s)
    ensures AddsRouted(s, Next(s, a))
  {
    hide Resume;
    match a
    case Arrive(id, m) => ArrivalFrame(s, id, m);
    case Expire(_) =>
    case Advance(id, t) => if id in s.calls { ResumeAdds(s, id, t); }
  }

  lemma StepRoutes(s: System, a: Action)
    requires EveryonePaysForThemselves(s) && AllRouted(s)
    ensures EveryonePaysForThemselves(Next(s, a)) && AllRouted(Next(s, a)) && SameRows(s.db, Next(s, a).db)
  {
    StepPays(s, a);
    StepAdds(s, a);
    StepKeepsRows(s, a);
    hide Next, MovementOk, SameRows, EveryonePaysForThemselves;
    var s' := Next(s, a);
    forall j | 0 <= j < |s'.history| && s'.history[j].Moved? ensures MovementOk(s'.db, s'.history[j].movement) {
      assert j < |s.history| ==> s'.history[j] == s.history[j];
      MovementStable(s.db, s'.db, s'.history[j].movement);
    }
  }

  /** Over any run: every payment debited an active account of the paying user's own profile, in the
      request's currency, and credited what its route names: an own account, the account with the
      beneficiary's IBAN or an external settlement account, or the merchant's settlement account. */
  lemma {:induction false} PaymentsAreRouted(s: System, run: seq<Action>)
    requires EveryonePaysForThemselves(s) && AllRouted(s)
    ensures EveryonePaysForThemselves(Exec(s, run)) && AllRouted(Exec(s, run)) && SameRows(s.db, Exec(s, run).db)
    decreases |run|
  {
    hide Next, MovementOk;
    if run != [] {
      var before, a := Exec(s, run[..|run| - 1]), run[|run| - 1];
      PaymentsAreRouted(s, run[..|run| - 1]);
      StepRoutes(before, a);
      SameRowsCompose(s.db, before.db, Next(before, a).db);
    }
  }

  lemma {:induction false} DebitHasMovement(h: seq<Event>, n: nat) returns (j: nat)
    requires n < |LedgerOf(h)| && LedgerOf(h)[n].side.Debit?
    ensures j < |h| && h[j].Moved? && LedgerOf(h)[n] == DebitLeg(h[j].movement)
    decreases |h|
  {
    var init := h[..|h| - 1];
    j := |h| - 1;
    if n < |LedgerOf(init)| { j := DebitHasMovement(init, n); }
  }

  /** Only its owner takes money out of a customer's account: each debit in the ledger of a non-system
      account is the payment of a user whose profile owns the account. */
  lemma DebitsAreByOwners(s: System, run: seq<Action>, n: nat) returns (j: nat)
    requires Initial(s) && n < |Exec(s, run).db.ledger|
    requires Exec(s, run).db.ledger[n].side.Debit?
    ensures var e := Exec(s, run);
            var a := e.db.ledger[n].account;
            && j < |e.history| && e.history[j].Moved? && e.db.ledger[n] == DebitLeg(e.history[j].movement)
            && a in e.db.accounts
            && (!e.db.accounts[a].isSystem ==>
                  && IsPayment(e.history[j])
                  && var p := e.history[j].movement.p;
                  && p.request.source == a && p.user in e.db.profiles
                  && e.db.accounts[a].customer == e.db.profiles[p.user].id)
  {
    hide Next;
    Reachable(s, run);
    PaymentsAreRouted(s, run);
    j := DebitHasMovement(Exec(s, run).history, n);
    assert MovementOk(Exec(s, run).db, Exec(s, run).history[j].movement);
  }

  /** A beneficiary transfer goes by the IBAN its beneficiary row had at any earlier moment, for
      instance when its challenge was issued, and the stored response says so. */
  lemma ConfirmedTransferKeepsIban(s: System, earlier: seq<Action>, later: seq<Action>, j: nat)
    requires Initial(s) && j < |Exec(s, earlier + later).history| && IsPayment(Exec(s, earlier + later).history[j])
    requires Exec(s, earlier + later).history[j].movement.p.request.BeneficiaryRequest?
    requires Exec(s, earlier + later).history[j].movement.p.request.beneficiary in Exec(s, earlier).db.beneficiaries
    ensures var p, now := Exec(s, earlier + later).history[j].movement.p, Exec(s, earlier + later).db;
            var row := Exec(s, earlier).db.beneficiaries[p.request.beneficiary];
            && p.iban == row.iban && BodyOf(p).BeneficiaryBody? && BodyOf(p).iban == row.iban
            && p.customer == row.customer
            && RoutedOk(now, p)
  {
    hide Next;
    ExecAppend(s, earlier, later);
    PaymentsAreRouted(s, earlier);
    PaymentsAreRouted(Exec(s, earlier), later);
    assert MovementOk(Exec(s, earlier + later).db, Exec(s, earlier + later).history[j].movement);
  }
}
