/** Whole payments from request to posting, with and without step-up. */
module Flows {
  import opened Text
  import opened Json
  import opened Rows
  import opened Requests
  import opened Posting
  import opened Protocol
  import opened Invariants
  import opened Frames
  import opened Conditions
  import opened Effects

  lemma ChallengeStep(s: System, id: nat, t: Turn) returns (s': System)
    requires id in s.calls && s.calls[id].Challenging?
    ensures s' == Next(s, Advance(id, t))
    ensures var c := s.calls[id]; s' == SetChallenge(s, id, c.user, c.request, c.key, t)
  {
    hide ReadKyc, ReadKeyForRisk, SetChallenge, Attempt, FetchChallenge, ConsumeChallenge, ExecuteCredit;
    hide FindBeneficiary, Reactivate, Insert, SeekBeneficiary, Archive, SetKyc;
    ResumeStep(s, id, t);
    s' := Resume(s, id, s.calls[id], t);
  }

  lemma ConfirmArrives(s: System, id: nat, user: UserId, challengeId: string, otp: string) returns (s': System)
    requires id !in s.calls
    ensures s' == Next(s, Arrive(id, Confirm(user, challengeId, otp)))
        == s.(calls := s.calls[id := Fetching(user, challengeId, otp)])
  {
    s' := Begin(s, id, Confirm(user, challengeId, otp));
  }

  lemma FetchStep(s: System, id: nat, t: Turn) returns (s': System)
    requires id in s.calls && s.calls[id].Fetching?
    ensures s' == Next(s, Advance(id, t))
    ensures var c := s.calls[id]; s' == FetchChallenge(s, id, c.user, c.challengeId, c.otp)
  {
    hide ReadKyc, ReadKeyForRisk, SetChallenge, Attempt, FetchChallenge, ConsumeChallenge, ExecuteCredit;
    hide FindBeneficiary, Reactivate, Insert, SeekBeneficiary, Archive, SetKyc;
    ResumeStep(s, id, t);
    s' := Resume(s, id, s.calls[id], t);
  }

  lemma ConsumeStep(s: System, id: nat, t: Turn) returns (s': System)
    requires id in s.calls && s.calls[id].Consuming?
    ensures s' == Next(s, Advance(id, t))
    ensures var c := s.calls[id]; s' == ConsumeChallenge(s, id, c.user, c.challengeId, c.challenge)
  {
    hide ReadKyc, ReadKeyForRisk, SetChallenge, Attempt, FetchChallenge, ConsumeChallenge, ExecuteCredit;
    hide FindBeneficiary, Reactivate, Insert, SeekBeneficiary, Archive, SetKyc;
    ResumeStep(s, id, t);
    s' := Resume(s, id, s.calls[id], t);
  }

  /** KYC is verified, the request passes the checks, and the tables let it be posted. */
  predicate Ready(db: Db, user: UserId, r: Request, key: string, c: Choice, p: PaymentRecord) {
    user in db.profiles && db.profiles[user].kyc.Verified? && PassesChecks(r) && CanPost(db, user, r, key, c, p)
  }

  /** The call is answered 201 with the payment's own response, and the tables hold its rows. */
  ghost predicate Posted(s: System, s': System, id: nat, r: Request, c: Choice, p: PaymentRecord) {
    && id in s'.calls && s'.calls[id].Paid?
    && var Paid(user, key, request, result) := s'.calls[id];
    && user == p.user && key == p.key && request == r && result.Return? && result.httpStatus == 201
    && Says(result.body, r, c.newId, p.iban, p.internal)
    && Writes(s.db, s'.db, p.user, p.key, p.customer, p.destination, r, result.body, c)
  }

  lemma CommitsMeansPosts(db: Db, user: UserId, customer: Id, r: Request, key: string, c: Choice, m: Movement)
    requires Commits(db, user, customer, r, key, c) == Some(m)
    ensures (user, key) !in db.keys && m.Payment? && FromOf(m) in db.accounts && ToOf(m) in db.accounts
    ensures PaymentTx(db, user, customer, r, key, c) == (Apply(db, m), Return(201, BodyOf(m.p)))
  {
    hide BodyOf, Apply;
  }

  lemma RecordIs(db: Db, user: UserId, r: Request, key: string, c: Choice, p: PaymentRecord)
    requires CanPost(db, user, r, key, c, p)
    ensures p.user == user && p.key == key && p.request == r
    ensures p.now == c.now && p.txn == c.newId && p.keyId == c.newKeyId
    ensures r.TransferRequest? ==> p.destination == r.destination
  {
    hide IsFirst, NoneOf, WithIban, Settlements;
  }

  /** The answer and the tables of a transaction that posts. */
  lemma TxPosts(db: Db, user: UserId, r: Request, key: string, c: Choice, p: PaymentRecord) returns (body: Body)
    requires user in db.profiles && PassesChecks(r) && CanPost(db, user, r, key, c, p)
    ensures var (db', result) := PaymentTx(db, user, db.profiles[user].id, r, key, c);
            && result == Return(201, body) && Says(body, r, c.newId, p.iban, p.internal)
            && Writes(db, db', p.user, p.key, p.customer, p.destination, r, body, c)
  {
    CommitsExactly(db, user, r, key, c, p);
    CommitsMeansPosts(db, user, db.profiles[user].id, r, key, c, Payment(p));
    RecordIs(db, user, r, key, c, p);
    hide CanPost, Commits, PaymentTx, Apply, BodyOf, Says, Writes;
    body := BodyOf(p);
    AnswerIsSpelled(p);
    RowsAreSpelled(db, p, c);
  }

  lemma AttemptPosts(s: System, id: nat, t: Turn, p: PaymentRecord) returns (s': System)
    requires id in s.calls && s.calls[id].Executing? && !t.conflict
    requires var c := s.calls[id];
             && c.user in s.db.profiles && c.customer == s.db.profiles[c.user].id && PassesChecks(c.request)
             && CanPost(s.db, c.user, c.request, c.key, t.choice, p)
    ensures s' == Next(s, Advance(id, t)) && s'.redis == s.redis
    ensures Posted(s, s', id, s.calls[id].request, t.choice, p)
  {
    var c := s.calls[id];
    var body := TxPosts(s.db, c.user, c.request, c.key, t.choice, p);
    RecordIs(s.db, c.user, c.request, c.key, t.choice, p);
    hide Next, CanPost, PaymentTx, Says, Writes, PassesChecks;
    s' := PlainAttempt(s, id, t);
  }

  lemma PlainAttempt(s: System, id: nat, t: Turn) returns (s': System)
    requires id in s.calls && s.calls[id].Executing? && !t.conflict
    ensures s' == Next(s, Advance(id, t)) && s'.redis == s.redis && id in s'.calls
    ensures var c := s.calls[id];
            var (db, result) := PaymentTx(s.db, c.user, c.customer, c.request, c.key, t.choice);
            s'.db == db && s'.calls[id] == Paid(c.user, c.key, c.request, result)
  {
    hide Next, PaymentTx, Commits;
    s' := AttemptStep(s, id, t);
  }

  /** Up to 1000 RON a payment that the tables allow is posted in two steps. */
  lemma SmallPaymentIsPosted(s: System, id: nat, user: UserId, r: Request, key: string, t: Turn, p: PaymentRecord)
    requires id !in s.calls && Trim(key) != "" && !t.conflict
    requires Ready(s.db, user, r, Trim(key), t.choice, p) && r.cents <= 100_000
    ensures var e := Next(Next(Next(s, Arrive(id, Pay(user, r, key))), Advance(id, t)), Advance(id, t));
            Posted(s, e, id, r, t.choice, p)
  {
    hide Next, CanPost, Posted;
    var e0 := PayArrives(s, id, user, r, key);
    var e1 := EnterStep(e0, id, t);
    assert e1.calls[id] == Executing(user, s.db.profiles[user].id, r, Trim(key), Direct, 1) && e1.db == s.db;
    var e2 := AttemptPosts(e1, id, t, p);
    SameStart(s, e1, e2, id, r, t.choice, p);
  }

  lemma SameStart(s: System, q: System, e: System, id: nat, r: Request, c: Choice, p: PaymentRecord)
    requires q.db == s.db && Posted(q, e, id, r, c, p)
    ensures Posted(s, e, id, r, c, p)
  {
    hide Says, Writes;
  }

  lemma LargeEnters(s: System, id: nat, user: UserId, r: Request, key: string, t: Turn) returns (e: System)
    requires id !in s.calls && Trim(key) != "" && PassesChecks(r) && r.cents > 100_000
    requires user in s.db.profiles && s.db.profiles[user].kyc.Verified?
    ensures e == Next(Next(s, Arrive(id, Pay(user, r, key))), Advance(id, t))
    ensures e.db == s.db && e.calls == s.calls[id := CheckingRisk(user, s.db.profiles[user].id, r, Trim(key))]
  {
    hide Next, Trim;
    var e0 := PayArrives(s, id, user, r, key);
    e := EnterStep(e0, id, t);
  }

  /** Above it a payment under a new key is answered with a challenge, without any change to the tables. */
  lemma LargePaymentIsChallenged(s: System, id: nat, user: UserId, r: Request, key: string, t: Turn) returns (e: System)
    requires id !in s.calls && Trim(key) != "" && PassesChecks(r) && r.cents > 100_000
    requires user in s.db.profiles && s.db.profiles[user].kyc.Verified? && (user, Trim(key)) !in s.db.keys
    ensures var e0 := Next(s, Arrive(id, Pay(user, r, key)));
            e == Next(Next(Next(e0, Advance(id, t)), Advance(id, t)), Advance(id, t))
    ensures e.db == s.db && e.calls == s.calls[id := Refused(StepUpRequired(t.challengeId))]
    ensures var k := RedisKey(user, t.challengeId);
            k in e.redis && e.redis[k] == Stringify(ChallengeJson(Challenge(user, r, Trim(key), t.createdAt, t.otp)))
  {
    hide Next, RedisKey, ChallengeJson, Trim, PassesChecks;
    var e1 := LargeEnters(s, id, user, r, key, t);
    e := RiskAsks(e1, id, t);
  }

  lemma RiskAsks(s: System, id: nat, t: Turn) returns (e: System)
    requires id in s.calls && s.calls[id].CheckingRisk? && (s.calls[id].user, s.calls[id].key) !in s.db.keys
    ensures e == Next(Next(s, Advance(id, t)), Advance(id, t))
    ensures e.db == s.db && e.calls == s.calls[id := Refused(StepUpRequired(t.challengeId))]
    ensures var c := s.calls[id];
            var k := RedisKey(c.user, t.challengeId);
            && k in e.redis
            && e.redis[k] == Stringify(ChallengeJson(Challenge(c.user, c.request, c.key, t.createdAt, t.otp)))
  {
    hide Next, RedisKey, ChallengeJson;
    var e1 := RiskStep(s, id, t);
    assert e1.calls[id] == Challenging(s.calls[id].user, s.calls[id].request, s.calls[id].key) && e1.db == s.db;
    e := ChallengeStep(e1, id, t);
  }

  /** Confirming a stored challenge with its OTP posts the very payment it was issued for, in four steps. */
  lemma ConfirmationPosts(s: System, id: nat, user: UserId, r: Request, key: string, challengeId: string,
    createdAt: string, otp: string, t: Turn, p: PaymentRecord)
    requires id !in s.calls && key != "" && Trim(key) == key && !t.conflict
    requires var k := RedisKey(user, challengeId);
             k in s.redis && s.redis[k] == Stringify(ChallengeJson(Challenge(user, r, key, createdAt, otp)))
    requires Ready(s.db, user, r, key, t.choice, p)
    ensures var e0 := Next(s, Arrive(id, Confirm(user, challengeId, otp)));
            var e2 := Next(Next(e0, Advance(id, t)), Advance(id, t));
            var e4 := Next(Next(e2, Advance(id, t)), Advance(id, t));
            Posted(s, e4, id, r, t.choice, p) && RedisKey(user, challengeId) !in e4.redis
  {
    var ch := Challenge(user, r, key, createdAt, otp);
    ChallengeSurvivesStorage(ch);
    hide Next, CanPost, Posted, ParseChallenge, RedisKey;
    var e0 := ConfirmArrives(s, id, user, challengeId, otp);
    var e1 := FetchStep(e0, id, t);
    assert e1.calls[id] == Consuming(user, challengeId, ch) && e1.db == s.db;
    var e2 := ConsumeStep(e1, id, t);
    assert e2.calls[id] == Entering(user, r, key, Stepped(challengeId, ch)) && e2.db == s.db;
    var e3 := EnterStep(e2, id, t);
    assert e3.calls[id] == Executing(user, s.db.profiles[user].id, r, key, Stepped(challengeId, ch), 1)
      && e3.db == s.db;
    var e4 := AttemptPosts(e3, id, t, p);
    SameStart(s, e3, e4, id, r, t.choice, p);
  }
}
