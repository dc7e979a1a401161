/** What the statements of the beneficiary and KYC calls leave alone. */
module Frames {
  import opened Text
  import opened Rows
  import opened Requests
  import opened Posting
  import opened Protocol

  predicate IsSideCall(c: Call) {
    c.Finding? || c.Reactivating? || c.Inserting? || c.Seeking? || c.Archiving? || c.Reviewing?
  }

  predicate IsSideAudit(c: Call) {
    c.Noting? ==>
      || c.audit.action.BeneficiaryCreated? || c.audit.action.BeneficiaryReactivated?
      || c.audit.action.BeneficiaryDeleted?
      || c.audit.action.CustomerVerified? || c.audit.action.CustomerRejected?
  }

  /** Only profiles, beneficiaries and the call itself may change, and the call becomes neither
      a payment nor a movement. */
  predicate SideFrame(s: System, id: nat, s': System) {
    && id in s'.calls && s'.calls == s.calls[id := s'.calls[id]]
    && s' == s.(db := s.db.(profiles := s'.db.profiles, beneficiaries := s'.db.beneficiaries), calls := s'.calls)
    && var c := s'.calls[id];
    && (c.Refused? || c.Noting? || c.Inserting? || c.Reactivating? || c.Archiving?) && IsSideAudit(c)
  }

  lemma SideCallFrame(s: System, id: nat, t: Turn)
    requires id in s.calls && IsSideCall(s.calls[id])
    ensures SideFrame(s, id, Resume(s, id, s.calls[id], t))
  {
    var c := s.calls[id];
    if c.Finding? {
      FindFrame(s, id, c.user, c.name, c.iban, c.alias, t.choice.scan);
    } else if c.Inserting? {
      InsertFrame(s, id, c, t.choice.newId);
    } else if c.Reactivating? {
      assert SideFrame(s, id, Reactivate(s, id, c.user, c.id, c.name, c.alias));
    } else if c.Archiving? {
      assert SideFrame(s, id, Archive(s, id, c.user, c.id, t.choice.now));
    }
  }

  lemma FindFrame(s: System, id: nat, user: UserId, name: string, iban: string, alias: Option<string>, scan: seq<Id>)
    requires id in s.calls
    ensures SideFrame(s, id, FindBeneficiary(s, id, user, name, iban, alias, scan))
  {
  }

  lemma InsertFrame(s: System, id: nat, c: Call, newId: Id)
    requires id in s.calls && c.Inserting?
    ensures SideFrame(s, id, Insert(s, id, c, newId))
  {
  }

  /** An arrival only adds its call, except that a registration opens a profile and an account. */
  lemma ArrivalFrame(s: System, id: nat, m: Message)
    ensures var s' := Begin(s, id, m);
            && id in s'.calls && s'.calls == s.calls[id := s'.calls[id]]
            && s'.history == s.history && s'.redis == s.redis
            && s'.db == s.db.(profiles := s'.db.profiles, accounts := s'.db.accounts)
    ensures m.Register? && Begin(s, id, m).calls[id].Noting? ==> Begin(s, id, m).calls[id].audit.action.UserRegistered?
  {
  }

  // ---- A call sees no other call ----

  /** Two results of resuming one call over different sets of other calls. */
  ghost predicate Alike(s: System, s': System, q: System, q': System, k: nat) {
    && k in s'.calls && s'.calls == s.calls[k := s'.calls[k]]
    && q' == s'.(calls := q.calls[k := s'.calls[k]])
  }

  lemma PaymentStepsAlike(s: System, q: System, k: nat, user: UserId, customer: Id, r: Request, key: string, o: Origin,
    t: Turn)
    requires q == s.(calls := q.calls)
    ensures Alike(s, ReadKyc(s, k, user, r, key, o), q, ReadKyc(q, k, user, r, key, o), k)
    ensures Alike(s, ReadKeyForRisk(s, k, user, customer, r, key), q, ReadKeyForRisk(q, k, user, customer, r, key), k)
    ensures Alike(s, SetChallenge(s, k, user, r, key, t), q, SetChallenge(q, k, user, r, key, t), k)
  {
  }

  lemma FetchAlike(s: System, q: System, k: nat, user: UserId, c: string, otp: string)
    requires q == s.(calls := q.calls)
    ensures Alike(s, FetchChallenge(s, k, user, c, otp), q, FetchChallenge(q, k, user, c, otp), k)
  {
    hide ParseChallenge, RedisKey;
  }

  lemma ConsumeAlike(s: System, q: System, k: nat, user: UserId, c: string, ch: Challenge)
    requires q == s.(calls := q.calls)
    ensures Alike(s, ConsumeChallenge(s, k, user, c, ch), q, ConsumeChallenge(q, k, user, c, ch), k)
  {
  }

  lemma AttemptAlike(s: System, q: System, k: nat, call: Call, t: Turn)
    requires q == s.(calls := q.calls) && call.Executing?
    ensures Alike(s, Attempt(s, k, call, t), q, Attempt(q, k, call, t), k)
  {
    hide PaymentTx, Commits;
  }

  lemma CreditAlike(s: System, q: System, k: nat, call: Call, t: Turn)
    requires q == s.(calls := q.calls) && call.Crediting?
    ensures Alike(s, ExecuteCredit(s, k, call, t), q, ExecuteCredit(q, k, call, t), k)
  {
    hide Apply;
  }

  lemma FindAlike(s: System, q: System, k: nat, user: UserId, name: string, iban: string, alias: Option<string>,
    scan: seq<Id>)
    requires q == s.(calls := q.calls)
    ensures Alike(s, FindBeneficiary(s, k, user, name, iban, alias, scan), q,
        FindBeneficiary(q, k, user, name, iban, alias, scan), k)
  {
    hide NormalIban, FindRow;
  }

  lemma ReactivateAlike(s: System, q: System, k: nat, user: UserId, row: Id, name: string, alias: Option<string>)
    requires q == s.(calls := q.calls)
    ensures Alike(s, Reactivate(s, k, user, row, name, alias), q, Reactivate(q, k, user, row, name, alias), k)
  {
  }

  lemma InsertAlike(s: System, q: System, k: nat, call: Call, newId: Id)
    requires q == s.(calls := q.calls) && call.Inserting?
    ensures Alike(s, Insert(s, k, call, newId), q, Insert(q, k, call, newId), k)
  {
    assert q.db == s.db;
  }

  lemma RemoveStepsAlike(s: System, q: System, k: nat, user: UserId, row: Id, now: Time)
    requires q == s.(calls := q.calls)
    ensures Alike(s, SeekBeneficiary(s, k, user, row), q, SeekBeneficiary(q, k, user, row), k)
    ensures Alike(s, Archive(s, k, user, row, now), q, Archive(q, k, user, row, now), k)
  {
  }

  lemma ReviewAlike(s: System, q: System, k: nat, admin: UserId, subject: UserId, status: Kyc)
    requires q == s.(calls := q.calls)
    ensures Alike(s, SetKyc(s, k, admin, subject, status), q, SetKyc(q, k, admin, subject, status), k)
  {
  }

  /** What a call does depends on its own locals, the tables and the challenges, never on the other calls. */
  lemma ResumeAlike(s: System, q: System, k: nat, t: Turn)
    requires q == s.(calls := q.calls) && k in s.calls && k in q.calls && s.calls[k] == q.calls[k]
    ensures Alike(s, Resume(s, k, s.calls[k], t), q, Resume(q, k, q.calls[k], t), k)
  {
    hide ReadKyc, ReadKeyForRisk, SetChallenge, Attempt, FetchChallenge, ConsumeChallenge, ExecuteCredit;
    hide FindBeneficiary, Reactivate, Insert, SeekBeneficiary, Archive, SetKyc;
    match s.calls[k]
    case Entering(user, r, key, o) => PaymentStepsAlike(s, q, k, user, user, r, key, o, t);
    case CheckingRisk(user, customer, r, key) => PaymentStepsAlike(s, q, k, user, customer, r, key, Direct, t);
    case Challenging(user, r, key) => PaymentStepsAlike(s, q, k, user, user, r, key, Direct, t);
    case Executing(_, _, _, _, _, _) => AttemptAlike(s, q, k, s.calls[k], t);
    case Fetching(user, c, otp) => FetchAlike(s, q, k, user, c, otp);
    case Consuming(user, c, ch) => ConsumeAlike(s, q, k, user, c, ch);
    case Finding(user, name, iban, alias) => FindAlike(s, q, k, user, name, iban, alias, t.choice.scan);
    case Reactivating(user, row, name, alias) => ReactivateAlike(s, q, k, user, row, name, alias);
    case Inserting(_, _, _, _, _) => InsertAlike(s, q, k, s.calls[k], t.choice.newId);
    case Seeking(user, row) => RemoveStepsAlike(s, q, k, user, row, t.choice.now);
    case Archiving(user, row) => RemoveStepsAlike(s, q, k, user, row, t.choice.now);
    case Reviewing(admin, subject, status) => ReviewAlike(s, q, k, admin, subject, status);
    case Crediting(_, _, _, _, _) => CreditAlike(s, q, k, s.calls[k], t);
    case _ =>
  }

  lemma ArrivalAlike(s: System, q: System, k: nat, m: Message)
    requires q == s.(calls := q.calls)
    ensures Alike(s, Begin(s, k, m), q, Begin(q, k, m), k)
  {
  }

  /** Resuming a call changes no other call. */
  lemma ResumeTouchesOneCall(s: System, id: nat, t: Turn)
    requires id in s.calls
    ensures var s' := Resume(s, id, s.calls[id], t); id in s'.calls && s'.calls == s.calls[id := s'.calls[id]]
  {
    hide Resume;
    ResumeAlike(s, s, id, t);
  }

  lemma OthersKeepCall(s: System, a: Action, id: nat)
    requires id in s.calls && !(a.Advance? && a.id == id)
    ensures id in Next(s, a).calls && Next(s, a).calls[id] == s.calls[id]
  {
    hide Resume;
    if a.Advance? && a.id in s.calls { ResumeTouchesOneCall(s, a.id, a.turn); }
  }

  lemma {:induction false} OthersKeepCallOverRun(s: System, run: seq<Action>, id: nat)
    requires id in s.calls
    requires forall a :: a in run ==> !(a.Advance? && a.id == id)
    ensures id in Exec(s, run).calls && Exec(s, run).calls[id] == s.calls[id]
    decreases |run|
  {
    if run != [] {
      OthersKeepCallOverRun(s, run[..|run| - 1], id);
      OthersKeepCall(Exec(s, run[..|run| - 1]), run[|run| - 1], id);
    }
  }

  lemma {:induction false} ExecAppend(s: System, run: seq<Action>, more: seq<Action>)
    ensures Exec(s, run + more) == Exec(Exec(s, run), more)
    decreases |more|
  {
    if more == [] {
      assert run + more == run;
    } else {
      var init := more[..|more| - 1];
      ExecAppend(s, run, init);
      assert (run + more)[..|run + more| - 1] == run + init;
    }
  }

  // ---- Single steps, without the rest of the system ----

  lemma ResumeStep(s: System, id: nat, t: Turn)
    requires id in s.calls
    ensures Next(s, Advance(id, t)) == Resume(s, id, s.calls[id], t)
  {
    hide Resume;
  }

  lemma PayArrives(s: System, id: nat, user: UserId, r: Request, key: string) returns (s': System)
    requires id !in s.calls && Trim(key) != ""
    ensures s' == Next(s, Arrive(id, Pay(user, r, key)))
        == s.(calls := s.calls[id := Entering(user, r, Trim(key), Direct)])
  {
    s' := Begin(s, id, Pay(user, r, key));
  }

  lemma EnterStep(s: System, id: nat, t: Turn) returns (s': System)
    requires id in s.calls && s.calls[id].Entering?
    ensures s' == Next(s, Advance(id, t))
    ensures var c := s.calls[id]; s' == ReadKyc(s, id, c.user, c.request, c.key, c.origin)
  {
    hide ReadKyc, ReadKeyForRisk, SetChallenge, Attempt, FetchChallenge, ConsumeChallenge, ExecuteCredit;
    hide FindBeneficiary, Reactivate, Insert, SeekBeneficiary, Archive, SetKyc;
    ResumeStep(s, id, t);
    s' := Resume(s, id, s.calls[id], t);
  }

  lemma RiskStep(s: System, id: nat, t: Turn) returns (s': System)
    requires id in s.calls && s.calls[id].CheckingRisk?
    ensures s' == Next(s, Advance(id, t))
    ensures var c := s.calls[id]; s' == ReadKeyForRisk(s, id, c.user, c.customer, c.request, c.key)
  {
    hide ReadKyc, ReadKeyForRisk, SetChallenge, Attempt, FetchChallenge, ConsumeChallenge, ExecuteCredit;
    hide FindBeneficiary, Reactivate, Insert, SeekBeneficiary, Archive, SetKyc;
    ResumeStep(s, id, t);
    s' := Resume(s, id, s.calls[id], t);
  }

  lemma CreditStep(s: System, id: nat, t: Turn) returns (s': System)
    requires id in s.calls && s.calls[id].Crediting?
    ensures s' == Next(s, Advance(id, t)) == ExecuteCredit(s, id, s.calls[id], t)
  {
    hide ReadKyc, ReadKeyForRisk, SetChallenge, Attempt, FetchChallenge, ConsumeChallenge, ExecuteCredit;
    hide FindBeneficiary, Reactivate, Insert, SeekBeneficiary, Archive, SetKyc;
    ResumeStep(s, id, t);
    s' := Resume(s, id, s.calls[id], t);
  }

  lemma AttemptStep(s: System, id: nat, t: Turn) returns (s': System)
    requires id in s.calls && s.calls[id].Executing?
    ensures s' == Next(s, Advance(id, t)) == Attempt(s, id, s.calls[id], t)
  {
    hide ReadKyc, ReadKeyForRisk, SetChallenge, Attempt, FetchChallenge, ConsumeChallenge, ExecuteCredit;
    hide FindBeneficiary, Reactivate, Insert, SeekBeneficiary, Archive, SetKyc;
    ResumeStep(s, id, t);
    s' := Resume(s, id, s.calls[id], t);
  }
}
