/** Every step keeps the invariant, so every reachable state satisfies it. */
module Preservation {
  import opened Text
  import opened Json
  import opened Rows
  import opened Requests
  import opened Posting
  import opened Protocol
  import opened Invariants
  import opened Frames

  // ---- The history grows by one event ----

  lemma {:induction false} MovedIsRecorded(h: seq<Event>, i: nat)
    requires i < |h| && h[i].Moved?
    ensures TxnOf(h[i].movement) in TxnsOf(h)
    ensures IsPayment(h[i]) ==> (h[i].movement.p.user, h[i].movement.p.key) in KeysOf(h)
    decreases |h|
  {
    if i < |h| - 1 {
      assert h[..|h| - 1][i] == h[i];
      MovedIsRecorded(h[..|h| - 1], i);
    }
  }

  lemma HistoryExtends(h: seq<Event>, e: Event)
    requires HistoryOk(h)
    requires ConfirmedOk(h + [e], |h|) && PaymentOk(h + [e], |h|)
    requires forall i :: 0 <= i < |h| ==> Apart(h[i], e)
    ensures HistoryOk(h + [e])
  {
    var g := h + [e];
    forall j | 0 <= j < |g| ensures ConfirmedOk(g, j) && PaymentOk(g, j) {
      if j < |h| {
        assert g[..j] == h[..j];
        assert ConfirmedOk(h, j) && PaymentOk(h, j);
      }
    }
    forall i, j | 0 <= i < j < |g| ensures Apart(g[i], g[j]) {
      if j < |h| { assert Apart(h[i], h[j]); }
    }
  }

  /** The part of the state that other calls rely on only grows. */
  ghost predicate Grown(s: System, s': System) {
    && s.history <= s'.history
    && forall k :: k in s.db.keys ==> k in s'.db.keys && s'.db.keys[k] == s.db.keys[k]
  }

  lemma CallStable(s: System, s': System, id: nat, call: Call)
    requires CallOk(s, id, call) && Grown(s, s')
    ensures CallOk(s', id, call)
  {
    assert forall e :: e in s.history ==> e in s'.history;
    if call.Paid? && call.result.Return? && call.result.httpStatus == 201 {
      var j :| 0 <= j < |s.history| && PostedBy(s.history[j], id, call.user, call.key);
      assert PostedBy(s'.history[j], id, call.user, call.key);
    }
  }

  /** The frame of one step: what is new is correct, and what is old is stable. */
  lemma StepFrame(s: System, s': System, id: nat, call: Call)
    requires Inv(s) && Grown(s, s')
    requires s'.calls == s.calls[id := call] && CallOk(s', id, call)
    requires TablesMatch(s'.db, s'.history) && HistoryOk(s'.history)
    requires forall j :: |s.history| <= j < |s'.history| ==> IssuedOk(s'.history[j])
    requires forall k :: k in s'.redis && (k !in s.redis || s'.redis[k] != s.redis[k]) ==>
        StoredOk(s'.history, k, s'.redis[k])
    ensures Inv(s')
  {
    forall i | i in s'.calls ensures CallOk(s', i, s'.calls[i]) {
      if i != id { CallStable(s, s', i, s.calls[i]); }
    }
    forall j | 0 <= j < |s'.history| ensures IssuedOk(s'.history[j]) {
      if j < |s.history| { assert s'.history[j] == s.history[j]; }
    }
    forall k | k in s'.redis ensures StoredOk(s'.history, k, s'.redis[k]) {
      if k in s.redis && s'.redis[k] == s.redis[k] { StoredStable(s.history, s'.history, k, s.redis[k]); }
    }
  }

  lemma StoredStable(h: seq<Event>, g: seq<Event>, k: string, text: string)
    requires StoredOk(h, k, text) && h <= g
    ensures StoredOk(g, k, text)
  {
    var user: UserId, c, ch :| Issued(user, c, ch) in h && k == RedisKey(user, c)
      && text == Stringify(ChallengeJson(ch));
    assert Issued(user, c, ch) in g;
  }

  /** A step that records no event and leaves keys, transactions, ledger and posting audits alone. */
  lemma QuietStep(s: System, s': System, id: nat, call: Call)
    requires Inv(s) && s'.history == s.history && s'.calls == s.calls[id := call] && CallOk(s', id, call)
    requires s'.db.keys == s.db.keys && s'.db.txns == s.db.txns && s'.db.ledger == s.db.ledger
    requires PostingAudits(s'.db.audits) == PostingAudits(s.db.audits)
    requires forall k :: k in s'.redis ==> k in s.redis && s'.redis[k] == s.redis[k]
    ensures Inv(s')
  {
    StepFrame(s, s', id, call);
  }

  /** A step that records an event which is not a movement. */
  lemma NoteStep(s: System, s': System, id: nat, call: Call, e: Event)
    requires Inv(s) && s'.history == s.history + [e] && !e.Moved?
    requires s'.calls == s.calls[id := call] && CallOk(s', id, call) && s'.db == s.db
    requires ConfirmedOk(s'.history, |s.history|) && IssuedOk(e)
    requires forall k :: k in s'.redis && (k !in s.redis || s'.redis[k] != s.redis[k]) ==>
        StoredOk(s'.history, k, s'.redis[k])
    ensures Inv(s')
  {
    FoldStep(s.history, e);
    HistoryExtends(s.history, e);
    StepFrame(s, s', id, call);
  }

  // ---- One lemma per kind of step ----

  lemma KycReadKeeps(s: System, id: nat)
    requires Inv(s) && id in s.calls && s.calls[id].Entering?
    ensures var c := s.calls[id]; Inv(ReadKyc(s, id, c.user, c.request, c.key, c.origin))
  {
    var Entering(user, r, key, o) := s.calls[id];
    var s' := ReadKyc(s, id, user, r, key, o);
    if user in s.db.profiles && s.db.profiles[user].kyc.Verified? {
      var e := Event.Verified(id, user);
      assert s'.history[|s.history|] == e;
      assert forall f :: f in s.history ==> f in s'.history;
      NoteStep(s, s', id, AfterKyc(user, s.db.profiles[user].id, r, key, o), e);
    } else {
      QuietStep(s, s', id, Refused(KycRequired));
    }
  }

  lemma ChallengeKeeps(s: System, id: nat, t: Turn)
    requires Inv(s) && id in s.calls && s.calls[id].Challenging?
    ensures var c := s.calls[id]; Inv(SetChallenge(s, id, c.user, c.request, c.key, t))
  {
    var Challenging(user, r, key) := s.calls[id];
    var s' := SetChallenge(s, id, user, r, key, t);
    var e := Issued(user, t.challengeId, Challenge(user, r, key, t.createdAt, t.otp));
    assert s'.history[|s.history|] == e;
    NoteStep(s, s', id, Refused(StepUpRequired(t.challengeId)), e);
  }

  lemma FetchKeeps(s: System, id: nat)
    requires Inv(s) && id in s.calls && s.calls[id].Fetching?
    ensures var c := s.calls[id]; Inv(FetchChallenge(s, id, c.user, c.challengeId, c.otp))
  {
    var Fetching(user, c, otp) := s.calls[id];
    var s', k := FetchChallenge(s, id, user, c, otp), RedisKey(user, c);
    if k in s.redis {
      var ch := StoredChallenge(s, user, c);
      if ch.otp == otp {
        var e := Confirmed(id, user, c, ch, otp);
        assert s'.history[..|s.history|] == s.history && s'.history[|s.history|] == e;
        NoteStep(s, s', id, Consuming(user, c, ch), e);
      } else {
        QuietStep(s, s', id, s'.calls[id]);
      }
    } else {
      QuietStep(s, s', id, s'.calls[id]);
    }
  }

  /** What `get` returns is a challenge issued to this very user under this very id. */
  lemma StoredChallenge(s: System, user: UserId, c: string) returns (ch: Challenge)
    requires Inv(s) && RedisKey(user, c) in s.redis
    ensures ParseChallenge(s.redis[RedisKey(user, c)]) == Some(ch)
    ensures Issued(user, c, ch) in s.history && Trim(ch.key) == ch.key && ch.user == user
  {
    var text := s.redis[RedisKey(user, c)];
    assert StoredOk(s.history, RedisKey(user, c), text);
    var v: UserId, d, stored :| Issued(v, d, stored) in s.history && RedisKey(user, c) == RedisKey(v, d)
      && text == Stringify(ChallengeJson(stored));
    ch := stored;
    RedisKeyInjective(user, c, v, d);
    ChallengeSurvivesStorage(ch);
    var j :| 0 <= j < |s.history| && s.history[j] == Issued(v, d, stored);
    assert IssuedOk(s.history[j]);
  }

  lemma RiskReadKeeps(s: System, id: nat)
    requires Inv(s) && id in s.calls && s.calls[id].CheckingRisk?
    ensures var c := s.calls[id]; Inv(ReadKeyForRisk(s, id, c.user, c.customer, c.request, c.key))
  {
    var CheckingRisk(user, customer, r, key) := s.calls[id];
    var s' := ReadKeyForRisk(s, id, user, customer, r, key);
    QuietStep(s, s', id, s'.calls[id]);
  }

  lemma ConsumeKeeps(s: System, id: nat)
    requires Inv(s) && id in s.calls && s.calls[id].Consuming?
    ensures var c := s.calls[id]; Inv(ConsumeChallenge(s, id, c.user, c.challengeId, c.challenge))
  {
    var Consuming(user, challengeId, ch) := s.calls[id];
    var s' := ConsumeChallenge(s, id, user, challengeId, ch);
    assert CallOk(s, id, s.calls[id]);
    assert CallOk(s', id, s'.calls[id]) by { TrimTwice(ch.key); }
    hide Inv, CallOk, Enter, RedisKey;
    QuietStep(s, s', id, s'.calls[id]);
  }

  lemma BodyKind(p: PaymentRecord)
    ensures (BodyOf(p).TransferBody? <==> p.request.TransferRequest?)
    ensures (BodyOf(p).BeneficiaryBody? <==> p.request.BeneficiaryRequest?)
  {
  }

  lemma {:induction false} KeyHasPayment(h: seq<Event>, k: KeyOf) returns (i: nat)
    requires k in KeysOf(h)
    ensures i < |h| && IsPayment(h[i]) && k == (h[i].movement.p.user, h[i].movement.p.key)
    ensures KeysOf(h)[k] == KeyRowOf(h[i].movement.p)
    decreases |h|
  {
    i := |h| - 1;
    if !(IsPayment(h[i]) && k == (h[i].movement.p.user, h[i].movement.p.key)) {
      i := KeyHasPayment(h[..|h| - 1], k);
    }
  }

  lemma CanonicalIsNotEmpty(r: Request)
    ensures Canonical(r) != ""
  {
    assert Canonical(r)[0] == '{';
  }

  /** Answering from a completed key: the stored body, or a conflict when the request differs. */
  lemma ReplayOfCompleted(s: System, user: UserId, key: string, r: Request) returns (i: nat)
    requires TablesMatch(s.db, s.history) && (user, key) in s.db.keys
    ensures i < |s.history| && IsPayment(s.history[i])
    ensures (user, key) == (s.history[i].movement.p.user, s.history[i].movement.p.key)
    ensures var p := s.history[i].movement.p;
            && s.db.keys[(user, key)] == KeyRowOf(p)
            && Replay(r, KeyRowOf(p)) ==
               if SameRequest(r, p.request) then Return(200, BodyOf(p)) else Throw(KeyReusedWithOtherBody)
  {
    i := KeyHasPayment(s.history, (user, key));
    var p := s.history[i].movement.p;
    CanonicalDeterminesRequest(r, p.request);
    CanonicalIsNotEmpty(p.request);
    BodyKind(p);
    ParsersInvertBodies(BodyOf(p), BodyJson(BodyOf(p)).fields);
    hide Canonical, BodyOf, ParseTransferBody, ParseBeneficiaryBody, ParseMerchantBody, SameRequest, TablesMatch;
  }

  lemma ConflictKeeps(s: System, id: nat, t: Turn)
    requires Inv(s) && id in s.calls && s.calls[id].Executing? && t.conflict
    ensures Inv(Attempt(s, id, s.calls[id], t))
  {
    assert CallOk(s, id, s.calls[id]);
    var s' := Attempt(s, id, s.calls[id], t);
    hide PaymentTx, Commits;
    assert CallOk(s', id, s'.calls[id]);
    hide Inv, CallOk;
    QuietStep(s, s', id, s'.calls[id]);
  }

  lemma ReplayIsPaid(s: System, id: nat, user: UserId, key: string, r: Request)
    requires TablesMatch(s.db, s.history) && (user, key) in s.db.keys
    ensures PaidOk(s, id, user, key, r, Replay(r, s.db.keys[(user, key)]))
  {
    var i := ReplayOfCompleted(s, user, key, r);
    CanonicalDeterminesRequest(r, s.history[i].movement.p.request);
    hide TablesMatch, Replay, Canonical, BodyOf, BodyJson, SameRequest, IsPayment;
  }

  lemma AttemptReplays(s: System, id: nat, t: Turn)
    requires id in s.calls && s.calls[id].Executing? && !t.conflict
    requires (s.calls[id].user, s.calls[id].key) in s.db.keys
    ensures var c := s.calls[id];
            Attempt(s, id, c, t)
              == s.(calls := s.calls[id := Paid(c.user, c.key, c.request,
                Replay(c.request, s.db.keys[(c.user, c.key)]))])
  {
    hide PaymentPlan, Replay;
  }

  lemma ReplayKeeps(s: System, id: nat, t: Turn)
    requires Inv(s) && id in s.calls && s.calls[id].Executing? && !t.conflict
    requires (s.calls[id].user, s.calls[id].key) in s.db.keys
    ensures Inv(Attempt(s, id, s.calls[id], t))
  {
    var c := s.calls[id];
    ReplayIsPaid(s, id, c.user, c.key, c.request);
    AttemptReplays(s, id, t);
    hide Inv, Attempt, Replay;
    var s' := Attempt(s, id, c, t);
    assert CallOk(s', id, s'.calls[id]);
    QuietStep(s, s', id, s'.calls[id]);
  }

  lemma RefusalKeeps(s: System, id: nat, t: Turn)
    requires Inv(s) && id in s.calls && s.calls[id].Executing? && !t.conflict
    requires var c := s.calls[id];
             && (c.user, c.key) !in s.db.keys
             && Commits(s.db, c.user, c.customer, c.request, c.key, t.choice).None?
    ensures Inv(Attempt(s, id, s.calls[id], t))
  {
    var s' := Attempt(s, id, s.calls[id], t);
    hide PaymentPlan, Apply, BodyOf, KeyIdTaken;
    assert CallOk(s', id, s'.calls[id]) && s'.db == s.db && s'.history == s.history;
    hide Inv, CallOk, Attempt;
    QuietStep(s, s', id, s'.calls[id]);
  }

  lemma AttemptKeeps(s: System, id: nat, t: Turn)
    requires Inv(s) && id in s.calls && s.calls[id].Executing?
    ensures Inv(Attempt(s, id, s.calls[id], t))
  {
    hide Inv, Attempt, Commits;
    var Executing(user, customer, r, key, o, attempt) := s.calls[id];
    if t.conflict {
      ConflictKeeps(s, id, t);
    } else if (user, key) in s.db.keys {
      ReplayKeeps(s, id, t);
    } else if Commits(s.db, user, customer, r, key, t.choice).Some? {
      PaymentKeeps(s, id, t);
    } else {
      RefusalKeeps(s, id, t);
    }
  }

  lemma MovementTables(db: Db, h: seq<Event>, e: Event)
    requires TablesMatch(db, h) && e.Moved?
    requires FromOf(e.movement) in db.accounts && ToOf(e.movement) in db.accounts
    ensures TablesMatch(Apply(db, e.movement), h + [e])
  {
    FoldStep(h, e);
    AuditStep(db.audits, AuditRow(e.movement));
  }

  lemma MovementHistory(db: Db, h: seq<Event>, e: Event)
    requires TablesMatch(db, h) && HistoryOk(h) && e.Moved?
    requires PaymentOk(h + [e], |h|)
    requires TxnOf(e.movement) !in db.txns
    requires IsPayment(e) ==> (e.movement.p.user, e.movement.p.key) !in db.keys
    ensures HistoryOk(h + [e])
  {
    forall i | 0 <= i < |h| ensures Apart(h[i], e) {
      if h[i].Moved? { MovedIsRecorded(h, i); }
    }
    HistoryExtends(h, e);
  }

  /** A step that commits a movement. */
  lemma MovementStep(s: System, s': System, id: nat, call: Call, e: Event)
    requires Inv(s) && e.Moved?
    requires FromOf(e.movement) in s.db.accounts && ToOf(e.movement) in s.db.accounts
    requires TxnOf(e.movement) !in s.db.txns
    requires IsPayment(e) ==> (e.movement.p.user, e.movement.p.key) !in s.db.keys
    requires s' == s.(db := Apply(s.db, e.movement), calls := s.calls[id := call], history := s.history + [e])
    requires PaymentOk(s'.history, |s.history|) && CallOk(s', id, call)
    ensures Inv(s')
  {
    MovementTables(s.db, s.history, e);
    MovementHistory(s.db, s.history, e);
    StepFrame(s, s', id, call);
  }

  lemma PaymentKeeps(s: System, id: nat, t: Turn)
    requires Inv(s) && id in s.calls && s.calls[id].Executing? && !t.conflict
    requires var c := s.calls[id]; Commits(s.db, c.user, c.customer, c.request, c.key, t.choice).Some?
    ensures Inv(Attempt(s, id, s.calls[id], t))
  {
    var call := s.calls[id];
    assert CallOk(s, id, call);
    var m := AcceptedPayment(s, call, t.choice);
    var s', e := Attempt(s, id, call, t), Moved(id, call.origin, m);
    assert s'.history[..|s.history|] == s.history && s'.history[|s.history|] == e;
    assert PostedBy(s'.history[|s.history|], id, call.user, call.key);
    MovementStep(s, s', id, s'.calls[id], e);
  }

  /** What an accepted payment looks like. */
  lemma AcceptedPayment(s: System, call: Call, c: Choice) returns (m: Movement)
    requires call.Executing?
    requires PaymentPlan(s.db, call.user, call.customer, call.request, call.key, c).Accept?
    ensures PaymentPlan(s.db, call.user, call.customer, call.request, call.key, c) == Accept(m)
    ensures m.Payment? && FromOf(m) in s.db.accounts && ToOf(m) in s.db.accounts
    ensures m.p.user == call.user && m.p.key == call.key && m.p.request == call.request
    ensures m.p.txn == c.newId && m.p.keyId == c.newKeyId
  {
    m := PaymentPlan(s.db, call.user, call.customer, call.request, call.key, c).movement;
  }

  lemma CreditIsFunding(db: Db, admin: UserId, target: Id, cents: nat, currency: string, note: Option<string>,
    c: Choice)
    requires CreditTx(db, admin, target, cents, currency, note, c).Accept?
    ensures var m := CreditTx(db, admin, target, cents, currency, note, c).movement;
            m.Funding? && FromOf(m) in db.accounts && ToOf(m) in db.accounts && TxnOf(m) !in db.txns
  {
  }

  lemma FundingKeeps(s: System, id: nat, m: Movement)
    requires Inv(s) && m.Funding? && FromOf(m) in s.db.accounts && ToOf(m) in s.db.accounts && TxnOf(m) !in s.db.txns
    ensures Inv(s.(db := Apply(s.db, m), calls := s.calls[id := Ended], history := s.history + [Moved(id, Direct, m)]))
  {
    var e := Moved(id, Direct, m);
    var s' := s.(db := Apply(s.db, m), calls := s.calls[id := Ended], history := s.history + [e]);
    assert s'.history[|s.history|] == e;
    hide Apply, Inv;
    MovementStep(s, s', id, Ended, e);
  }

  lemma CreditKeeps(s: System, id: nat, t: Turn)
    requires Inv(s) && id in s.calls && s.calls[id].Crediting?
    ensures Inv(ExecuteCredit(s, id, s.calls[id], t))
  {
    var Crediting(admin, target, cents, currency, note) := s.calls[id];
    var s' := ExecuteCredit(s, id, s.calls[id], t);
    var plan := CreditTx(s.db, admin, target, cents, currency, note, t.choice);
    if !t.conflict && plan.Accept? {
      CreditIsFunding(s.db, admin, target, cents, currency, note, t.choice);
      hide CreditTx, Apply, Inv;
      FundingKeeps(s, id, plan.movement);
    } else {
      hide CreditTx, Inv;
      QuietStep(s, s', id, s'.calls[id]);
    }
  }

  /** Beneficiary and KYC statements. */
  lemma SideCallKeeps(s: System, id: nat, t: Turn)
    requires Inv(s) && id in s.calls && IsSideCall(s.calls[id])
    ensures Inv(Resume(s, id, s.calls[id], t))
  {
    var s' := Resume(s, id, s.calls[id], t);
    SideCallFrame(s, id, t);
    QuietStep(s, s', id, s'.calls[id]);
  }

  lemma NotingKeeps(s: System, id: nat, t: Turn)
    requires Inv(s) && id in s.calls && s.calls[id].Noting?
    ensures Inv(Resume(s, id, s.calls[id], t))
  {
    var s' := Resume(s, id, s.calls[id], t);
    assert CallOk(s, id, s.calls[id]);
    AuditStep(s.db.audits, s.calls[id].audit);
    QuietStep(s, s', id, Ended);
  }

  lemma ArrivalCallOk(s: System, id: nat, m: Message)
    ensures var s' := Begin(s, id, m); id in s'.calls && CallOk(s', id, s'.calls[id])
  {
    if m.Pay? { TrimTwice(m.key); }
  }

  lemma ArrivalKeeps(s: System, id: nat, m: Message)
    requires Inv(s) && id !in s.calls
    ensures Inv(Begin(s, id, m))
  {
    hide Inv, CallOk, Begin;
    var s' := Begin(s, id, m);
    ArrivalFrame(s, id, m);
    ArrivalCallOk(s, id, m);
    QuietStep(s, s', id, s'.calls[id]);
  }

  lemma NextKeepsInv(s: System, a: Action)
    requires Inv(s)
    ensures Inv(Next(s, a))
  {
    match a
    case Arrive(id, m) => if id !in s.calls { ArrivalKeeps(s, id, m); }
    case Expire(k) => ExpiryKeeps(s, k);
    case Advance(id, t) =>
      if id in s.calls { ResumeKeepsInv(s, id, t); }
  }

  lemma ResumeKeepsInv(s: System, id: nat, t: Turn)
    requires Inv(s) && id in s.calls
    ensures Inv(Resume(s, id, s.calls[id], t))
  {
    hide Inv, ReadKyc, ReadKeyForRisk, SetChallenge, Attempt, FetchChallenge, ConsumeChallenge, ExecuteCredit;
    hide FindBeneficiary, Reactivate, Insert, SeekBeneficiary, Archive, SetKyc;
    match s.calls[id]
    case Entering(_, _, _, _) => KycReadKeeps(s, id);
    case CheckingRisk(_, _, _, _) => RiskReadKeeps(s, id);
    case Challenging(_, _, _) => ChallengeKeeps(s, id, t);
    case Executing(_, _, _, _, _, _) => AttemptKeeps(s, id, t);
    case Fetching(_, _, _) => FetchKeeps(s, id);
    case Consuming(_, _, _) => ConsumeKeeps(s, id);
    case Crediting(_, _, _, _, _) => CreditKeeps(s, id, t);
    case Noting(_) => NotingKeeps(s, id, t);
    case Paid(_, _, _, _) =>
    case Refused(_) =>
    case Ended =>
    case _ => SideCallKeeps(s, id, t);
  }

  lemma ExpiryKeeps(s: System, k: string)
    requires Inv(s)
    ensures Inv(Next(s, Expire(k)))
  {
    var s' := Next(s, Expire(k));
    forall id | id in s'.calls ensures CallOk(s', id, s'.calls[id]) { CallStable(s, s', id, s.calls[id]); }
  }

  /** The invariant holds in every reachable state. */
  lemma {:induction false} Reachable(s: System, run: seq<Action>)
    requires Initial(s)
    ensures Inv(Exec(s, run))
    decreases |run|
  {
    if run != [] {
      Reachable(s, run[..|run| - 1]);
      NextKeepsInv(Exec(s, run[..|run| - 1]), run[|run| - 1]);
    }
  }
}
