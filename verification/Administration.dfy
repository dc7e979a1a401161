/** KYC updates, admin credits and registrations, run to their end. */
module Administration {
  import opened Text
  import opened Rows
  import opened Requests
  import opened Posting
  import opened Protocol
  import opened Frames
  import opened Payees
  import opened Conditions
  import opened Effects

  // ---- KYC updates ----

  lemma ReviewArrives(s: System, id: nat, admin: UserId, subject: UserId, status: Kyc)
    requires id !in s.calls
    ensures Next(s, Arrive(id, UpdateKyc(admin, subject, status)))
         == s.(calls := s.calls[id := Reviewing(admin, subject, status)])
  {
  }

  lemma ReviewStep(s: System, id: nat, t: Turn) returns (s': System)
    requires id in s.calls && s.calls[id].Reviewing?
    ensures s' == Next(s, Advance(id, t))
    ensures var c := s.calls[id]; s' == SetKyc(s, id, c.admin, c.subject, c.status)
  {
    hide ReadKyc, ReadKeyForRisk, SetChallenge, Attempt, FetchChallenge, ConsumeChallenge, ExecuteCredit;
    hide FindBeneficiary, Reactivate, Insert, SeekBeneficiary, Archive, SetKyc;
    ResumeStep(s, id, t);
    s' := Resume(s, id, s.calls[id], t);
  }

  lemma NoteStep(s: System, id: nat, t: Turn) returns (s': System)
    requires id in s.calls && s.calls[id].Noting?
    ensures s' == Next(s, Advance(id, t))
    ensures s' == s.(db := s.db.(audits := s.db.audits + [s.calls[id].audit]), calls := s.calls[id := Ended])
  {
    hide ReadKyc, ReadKeyForRisk, SetChallenge, Attempt, FetchChallenge, ConsumeChallenge, ExecuteCredit;
    hide FindBeneficiary, Reactivate, Insert, SeekBeneficiary, Archive, SetKyc;
    ResumeStep(s, id, t);
    s' := Resume(s, id, s.calls[id], t);
  }

  lemma RefusedStays(s: System, id: nat, t: Turn)
    requires id in s.calls && s.calls[id].Refused?
    ensures Next(s, Advance(id, t)) == s
  {
  }

  /** The profiles and audit rows after a KYC update. */
  ghost predicate Reviewed(db: Db, db': Db, admin: UserId, subject: UserId, status: Kyc) {
    && db' == db.(profiles := db'.profiles, audits := db'.audits)
    && db'.profiles.Keys == db.profiles.Keys && subject in db.profiles
    && (forall u :: u in db.profiles && u != subject ==> db'.profiles[u] == db.profiles[u])
    && db'.profiles[subject].id == db.profiles[subject].id && db'.profiles[subject].kyc == status
    && db'.audits == db.audits + [Audit(admin, if status == Kyc.Verified then CustomerVerified else CustomerRejected,
                                        db.profiles[subject].id)]
  }

  /** A KYC update gives the subject the requested status and touches nobody else; it is noted as a
      verification exactly when the status is verified. An unknown subject is refused without a change. */
  lemma KycIsUpdated(s: System, id: nat, admin: UserId, subject: UserId, status: Kyc, t: Turn)
    requires id !in s.calls
    ensures var e := Next(Next(Next(s, Arrive(id, UpdateKyc(admin, subject, status))), Advance(id, t)), Advance(id, t));
            && (subject in s.db.profiles ==> Reviewed(s.db, e.db, admin, subject, status))
            && (subject !in s.db.profiles ==> e == s.(calls := s.calls[id := Refused(ProfileNotFound)]))
  {
    hide Next;
    ReviewArrives(s, id, admin, subject, status);
    var e0 := s.(calls := s.calls[id := Reviewing(admin, subject, status)]);
    var e1 := ReviewStep(e0, id, t);
    if subject in s.db.profiles {
      var e2 := NoteStep(e1, id, t);
    } else {
      RefusedStays(e1, id, t);
    }
  }

  // ---- Payments after a rejection ----

  predicate IsVerified(db: Db, user: UserId) { user in db.profiles && db.profiles[user].kyc == Kyc.Verified }

  /** No KYC update to verified is under way for the user. */
  predicate NoVerification(s: System, user: UserId) {
    forall id :: id in s.calls ==> !IsVerification(s.calls[id], user)
  }

  predicate IsVerification(c: Call, user: UserId) { c.Reviewing? && c.subject == user && c.status == Kyc.Verified }

  predicate AsksVerification(a: Action, user: UserId) {
    a.Arrive? && a.message.UpdateKyc? && a.message.subject == user && a.message.status == Kyc.Verified
  }

  lemma NoCallTurnsReview(s: System, id: nat, t: Turn)
    requires id in s.calls
    ensures var s' := Resume(s, id, s.calls[id], t); id in s'.calls && !s'.calls[id].Reviewing?
  {
    hide PaymentTx, Commits, CreditTx, ParseChallenge, RedisKey;
    var call := s.calls[id];
    if IsSideCall(call) {
      SideCallFrame(s, id, t);
    } else if call.Executing? {
      assert !Attempt(s, id, call, t).calls[id].Reviewing?;
    } else if call.Crediting? {
      assert !ExecuteCredit(s, id, call, t).calls[id].Reviewing?;
    }
  }

  lemma ReviewKeepsUnverified(s: System, id: nat, c: Call, user: UserId)
    requires c.Reviewing? && !IsVerification(c, user) && !IsVerified(s.db, user)
    ensures !IsVerified(SetKyc(s, id, c.admin, c.subject, c.status).db, user)
  {
  }

  lemma StepKeepsUnverified(s: System, a: Action, user: UserId)
    requires NoVerification(s, user) && !IsVerified(s.db, user) && !AsksVerification(a, user)
    ensures NoVerification(Next(s, a), user) && !IsVerified(Next(s, a).db, user)
  {
    var s' := Next(s, a);
    match a
    case Expire(_) =>
    case Arrive(id, m) => if id !in s.calls { ArrivalKeepsUnverified(s, id, m, user); }
    case Advance(id, t) =>
      if id in s.calls {
        hide Resume;
        NoCallTurnsReview(s, id, t);
        ResumeTouchesOneCall(s, id, t);
        var c := BookResume(s, id, t);
        if s.calls[id].Reviewing? {
          ReviewKeepsUnverified(s, id, s.calls[id], user);
          var after := ReviewStep(s, id, t);
        }
      }
  }

  lemma ArrivalKeepsUnverified(s: System, id: nat, m: Message, user: UserId)
    requires !IsVerified(s.db, user) && !AsksVerification(Arrive(id, m), user)
    ensures var s' := Begin(s, id, m); !IsVerified(s'.db, user)
    ensures var s' := Begin(s, id, m);
            id in s'.calls && s'.calls == s.calls[id := s'.calls[id]] && !IsVerification(s'.calls[id], user)
  {
  }

  /** What a payment of the user can be that has not read KYC yet: still before the read, or refused by it. */
  predicate HeldByKyc(c: Call, user: UserId) {
    (c.Entering? && c.user == user) || c == Refused(KycRequired)
  }

  lemma HeldStep(s: System, a: Action, user: UserId, id: nat)
    requires !IsVerified(s.db, user) && id in s.calls && HeldByKyc(s.calls[id], user)
    ensures id in Next(s, a).calls && HeldByKyc(Next(s, a).calls[id], user)
    ensures a.Advance? && a.id == id ==> Next(s, a).calls[id] == Refused(KycRequired) && Next(s, a).db == s.db
  {
    if !(a.Advance? && a.id == id) {
      OthersKeepCall(s, a, id);
    } else if s.calls[id].Entering? {
      hide Next;
      var s' := EnterStep(s, id, a.turn);
    } else {
      RefusedStays(s, id, a.turn);
    }
  }

  /** A user who is not verified, rejected for instance, stays so until an update to verified is asked for,
      and until then no payment of his gets past its KYC read: as soon as it moves it is refused. */
  lemma {:induction false} UnverifiedCannotPay(s: System, run: seq<Action>, user: UserId, id: nat)
    requires !IsVerified(s.db, user) && NoVerification(s, user)
    requires forall a :: a in run ==> !AsksVerification(a, user)
    requires id in s.calls && s.calls[id].Entering? && s.calls[id].user == user
    ensures var e := Exec(s, run);
            && !IsVerified(e.db, user) && NoVerification(e, user)
            && id in e.calls && HeldByKyc(e.calls[id], user)
            && ((exists a :: a in run && a.Advance? && a.id == id) ==> e.calls[id] == Refused(KycRequired))
    decreases |run|
  {
    hide Next, NoVerification, AsksVerification, IsVerified;
    if run != [] {
      var before, a := run[..|run| - 1], run[|run| - 1];
      UnverifiedCannotPay(s, before, user, id);
      StepKeepsUnverified(Exec(s, before), a, user);
      HeldStep(Exec(s, before), a, user, id);
      RefusedForGood(Exec(s, before), a, id);
    }
  }

  lemma RefusedForGood(s: System, a: Action, id: nat)
    requires id in s.calls
    ensures s.calls[id] == Refused(KycRequired) ==>
              id in Next(s, a).calls && Next(s, a).calls[id] == Refused(KycRequired)
  {
    if s.calls[id].Refused? {
      if a.Advance? && a.id == id { RefusedStays(s, id, a.turn); } else { OthersKeepCall(s, a, id); }
    }
  }

  // ---- Admin credits ----

  lemma CreditArrives(s: System, id: nat, admin: UserId, target: Id, cents: nat, currency: string, note: Option<string>)
    requires id !in s.calls
    ensures Next(s, Arrive(id, CreditAccount(admin, target, cents, currency, note)))
         == s.(calls := s.calls[id := Crediting(admin, target, cents, currency, note)])
  {
  }

  /** An active customer account. */
  predicate Creditable(db: Db, target: Id) {
    target in db.accounts && !db.accounts[target].isSystem && db.accounts[target].status.Active?
  }

  /** The rows of an admin credit. */
  ghost predicate Credited(db: Db, db': Db, admin: UserId, system: Id, target: Id, cents: nat, note: Option<string>,
    c: Choice)
    requires target in db.accounts
  {
    && db' == db.(accounts := db'.accounts, txns := db'.txns, ledger := db'.ledger, audits := db'.audits)
    && Pays(db.accounts, db'.accounts, system, target, 100 * cents)
    && db'.txns == db.txns[c.newId := Txn(
         AdminCredit, TxnPosted, 100 * cents, "RON",
         Some(Wording(note)),
         db.accounts[target].customer, system, target, None, None)]
    && db'.ledger == db.ledger + [Entry(c.newId, system, Debit, 100 * cents, "RON", 0, c.now),
                                  Entry(c.newId, target, Credit, 100 * cents, "RON", 0, c.now)]
    && db'.audits == db.audits + [Audit(admin, AccountCreditedByAdmin, c.newId)]
  }

  lemma CreditPlanIs(db: Db, admin: UserId, target: Id, cents: nat, currency: string, note: Option<string>, c: Choice)
    ensures var plan := CreditTx(db, admin, target, cents, currency, note, c);
            var ron, found := currency == "RON", target in db.accounts && !db.accounts[target].isSystem;
            var paid := !NoneOf(c.scan, SystemAccounts(db.accounts, "RON"));
            && (plan == Reject(UnsupportedCurrency) <==> !ron)
            && (plan == Reject(TargetNotFound) <==> ron && !found)
            && (plan == Reject(TargetNotActive) <==> ron && found && !db.accounts[target].status.Active?)
            && (plan == Reject(SettlementNotFound) <==> ron && Creditable(db, target) && !paid)
            && (plan == Reject(UniqueViolation) <==> ron && Creditable(db, target) && paid && c.newId in db.txns)
            && (plan.Accept? <==> ron && Creditable(db, target) && paid && c.newId !in db.txns)
  {
    LookupsSelect(c.scan, db.accounts, "", "RON");
    hide FindFirst, Matches, NoneOf, SystemAccounts;
  }

  function Wording(note: Option<string>): string {
    match note
    case Some(text) => if text == "" then "Admin credit funding" else text
    case None => "Admin credit funding"
  }

  lemma CreditMovement(db: Db, admin: UserId, target: Id, cents: nat, currency: string, note: Option<string>, c: Choice)
    requires CreditTx(db, admin, target, cents, currency, note, c).Accept?
    ensures var m := CreditTx(db, admin, target, cents, currency, note, c).movement;
            && m.Funding? && target in db.accounts && m.system in db.accounts
            && IsFirst(c.scan, SystemAccounts(db.accounts, "RON"), m.system)
            && m == Funding(admin, c.newId, m.system, target, cents, Wording(note), db.accounts[target].customer, c.now)
  {
    LookupsSelect(c.scan, db.accounts, "", "RON");
    hide Matches, IsFirst, SystemAccounts, NoneOf;
  }

  lemma FundingApplies(db: Db, m: Movement, note: Option<string>, c: Choice)
    requires m.Funding? && m.system in db.accounts && m.target in db.accounts
    requires m.fundingTxn == c.newId && m.at == c.now && m.note == Wording(note)
    requires m.owner == db.accounts[m.target].customer
    ensures Credited(db, Apply(db, m), m.admin, m.system, m.target, m.cents, note, c)
  {
    MovePays(db.accounts, m.system, m.target, 100 * m.cents);
    hide Pays, Move;
  }

  lemma CreditIsSpelled(db: Db, admin: UserId, target: Id, cents: nat, currency: string, note: Option<string>,
    c: Choice)
    requires CreditTx(db, admin, target, cents, currency, note, c).Accept?
    ensures var m := CreditTx(db, admin, target, cents, currency, note, c).movement;
            && m.Funding? && m.system in db.accounts && target in db.accounts
            && IsFirst(c.scan, SystemAccounts(db.accounts, "RON"), m.system)
            && m.target == target && Credited(db, Apply(db, m), admin, m.system, target, cents, note, c)
  {
    CreditMovement(db, admin, target, cents, currency, note, c);
    hide CreditTx, IsFirst, SystemAccounts, Credited, Apply;
    FundingApplies(db, CreditTx(db, admin, target, cents, currency, note, c).movement, note, c);
  }

  /** An admin credit in RON to an active customer account moves the amount from the first active RON system
      account of the scan and writes its rows; anything else is refused without a change, each case with its
      own error. */
  lemma CreditRun(s: System, id: nat, admin: UserId, target: Id, cents: nat, currency: string, note: Option<string>,
    t: Turn)
    requires id !in s.calls
    ensures var e := Next(Next(s, Arrive(id, CreditAccount(admin, target, cents, currency, note))), Advance(id, t));
            var systems := SystemAccounts(s.db.accounts, "RON");
            var posts := !t.conflict && currency == "RON" && Creditable(s.db, target)
                         && !NoneOf(t.choice.scan, systems) && t.choice.newId !in s.db.txns;
            && id in e.calls && e.redis == s.redis
            && (posts ==>
                  && e.calls[id] == Ended
                  && exists system :: IsFirst(t.choice.scan, systems, system)
                                      && Credited(s.db, e.db, admin, system, target, cents, note, t.choice))
            && (!posts ==> e.db == s.db && e.calls[id].Refused?)
            && (t.conflict ==> e.calls[id] == Refused(SerializationFailure))
            && (!posts && !t.conflict ==>
                  CreditTx(s.db, admin, target, cents, currency, note, t.choice) == Reject(e.calls[id].error))
  {
    CreditArrives(s, id, admin, target, cents, currency, note);
    CreditPlanIs(s.db, admin, target, cents, currency, note, t.choice);
    if CreditTx(s.db, admin, target, cents, currency, note, t.choice).Accept? {
      CreditIsSpelled(s.db, admin, target, cents, currency, note, t.choice);
    }
    hide Next, CreditTx, Apply, Credited, IsFirst, NoneOf, SystemAccounts;
    var e0 := s.(calls := s.calls[id := Crediting(admin, target, cents, currency, note)]);
    var e1 := CreditStep(e0, id, t);
  }

  // ---- Registration ----

  /** Registration opens one active checking account in RON with nothing on it, for a profile that is not
      verified yet; a known user, a taken account id or a taken IBAN refuses it without a change. */
  lemma RegistrationOpens(s: System, id: nat, user: UserId, profile: Id, account: Id, iban: string, t: Turn)
    requires id !in s.calls
    ensures var e := Next(Next(s, Arrive(id, Register(user, profile, account, iban))), Advance(id, t));
            var free := user !in s.db.profiles && account !in s.db.accounts
                        && forall a :: a in s.db.accounts ==> s.db.accounts[a].iban != iban;
            && (free ==>
                  && e.db == s.db.(profiles := e.db.profiles, accounts := e.db.accounts, audits := e.db.audits)
                  && e.db.profiles == s.db.profiles[user := Profile(profile, Kyc.Pending)]
                  && e.db.accounts == s.db.accounts[account :=
                       Account(profile, iban, "RON", 0, Active, "CHECKING", false)]
                  && e.db.audits == s.db.audits + [Audit(user, UserRegistered, user)])
            && (!free ==> e == s.(calls := s.calls[id := Refused(UniqueViolation)]))
  {
    var e0 := RegisterArrives(s, id, user, profile, account, iban);
    hide Next;
    if e0.calls[id].Noting? {
      var e1 := NoteStep(e0, id, t);
    } else {
      RefusedStays(e0, id, t);
    }
  }

  lemma RegisterArrives(s: System, id: nat, user: UserId, profile: Id, account: Id, iban: string) returns (e: System)
    requires id !in s.calls
    ensures e == Next(s, Arrive(id, Register(user, profile, account, iban)))
    ensures var free := user !in s.db.profiles && account !in s.db.accounts
                        && forall a :: a in s.db.accounts ==> s.db.accounts[a].iban != iban;
            var added := s.db.(
              profiles := s.db.profiles[user := Profile(profile, Kyc.Pending)],
              accounts := s.db.accounts[account := Account(profile, iban, "RON", 0, Active, "CHECKING", false)]);
            e == if free then s.(db := added, calls := s.calls[id := Noting(Audit(user, UserRegistered, user))])
                 else s.(calls := s.calls[id := Refused(UniqueViolation)])
  {
    e := Begin(s, id, Register(user, profile, account, iban));
  }
}
