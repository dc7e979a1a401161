/** What the payment protocol promises, for every run from an initial state. */
module Theorems {
  import opened Text
  import opened Rows
  import opened Requests
  import opened Posting
  import opened Protocol
  import opened Invariants
  import opened Preservation
  import opened Frames
  import opened Ledger
  import opened Conditions
  import opened Routing

  // ---- Step-up ----

  lemma {:induction false} TxnHasMovement(h: seq<Event>, t: Id) returns (j: nat)
    requires t in TxnsOf(h)
    ensures j < |h| && h[j].Moved? && TxnOf(h[j].movement) == t && TxnsOf(h)[t] == TxnRow(h[j].movement)
    decreases |h|
  {
    j := |h| - 1;
    if !(h[j].Moved? && TxnOf(h[j].movement) == t) { j := TxnHasMovement(h[..|h| - 1], t); }
  }

  predicate IsCustomerTxn(x: Txn) { !x.kind.AdminCredit? }

  /** A customer transaction above 1000 RON was posted (event j) by a call that had read
      KYC as verified, had a challenge confirmed (event k) with the challenge's own OTP, and
      that challenge had been issued before (event i) to the same user for the same request,
      hence the same route, and the same key. */
  lemma StepUpEnforced(s: System, run: seq<Action>, t: Id) returns (i: nat, k: nat, j: nat)
    requires Initial(s)
    requires t in Exec(s, run).db.txns && IsCustomerTxn(Exec(s, run).db.txns[t])
    requires Exec(s, run).db.txns[t].amount > 10_000_000
    ensures var h, x := Exec(s, run).history, Exec(s, run).db.txns[t];
            && i < k < j < |h|
            && IsPayment(h[j]) && h[j].movement.p.txn == t && TxnRow(h[j].movement) == x
            && var p := h[j].movement.p;
            && Event.Verified(h[j].call, p.user) in h[..j]
            && h[k].Confirmed? && h[k].call == h[j].call && h[k].user == p.user && h[k].otp == h[k].challenge.otp
            && h[k].challenge.user == p.user && h[k].challenge.request == p.request && h[k].challenge.key == p.key
            && h[i] == Issued(p.user, h[k].challengeId, h[k].challenge)
  {
    Reachable(s, run);
    var h := Exec(s, run).history;
    j := TxnHasMovement(h, t);
    assert PaymentOk(h, j);
    var p, o := h[j].movement.p, h[j].origin;
    var confirmation := Event.Confirmed(h[j].call, p.user, o.challengeId, o.challenge, o.challenge.otp);
    k :| 0 <= k < j && h[..j][k] == confirmation;
    assert ConfirmedOk(h, k);
    i :| 0 <= i < k && h[..k][i] == Issued(p.user, o.challengeId, o.challenge);
    assert IssuedOk(h[i]);
  }

  // ---- Exactly once ----

  lemma SameMovement(h: seq<Event>, i: nat, j: nat)
    requires HistoryOk(h) && i < |h| && j < |h| && h[i].Moved? && h[j].Moved?
    ensures TxnOf(h[i].movement) == TxnOf(h[j].movement) <==> i == j
  {
    if i < j { assert Apart(h[i], h[j]); }
    if j < i { assert Apart(h[j], h[i]); }
  }

  /** No user and key post twice, on whatever routes. */
  lemma PostedAtMostOnce(s: System, run: seq<Action>, i: nat, j: nat)
    requires Initial(s)
    requires i < |Exec(s, run).history| && j < |Exec(s, run).history|
    requires IsPayment(Exec(s, run).history[i]) && IsPayment(Exec(s, run).history[j])
    ensures var p, q := Exec(s, run).history[i].movement.p, Exec(s, run).history[j].movement.p;
            (p.user == q.user && p.key == q.key) || p.txn == q.txn <==> i == j
  {
    Reachable(s, run);
    var h := Exec(s, run).history;
    if i < j { assert Apart(h[i], h[j]); }
    if j < i { assert Apart(h[j], h[i]); }
  }

  lemma BodyJsonInjective(b: Body, c: Body)
    requires BodyJson(b) == BodyJson(c)
    ensures b == c
  {
    ParsersInvertBodies(b, BodyJson(b).fields);
    ParsersInvertBodies(c, BodyJson(c).fields);
  }

  /** Two calls that succeed with one key, two confirmations of one challenge among them, answer
      with the same body, for the same request; and only one of them is the call that posted. */
  lemma SuccessesAgree(s: System, run: seq<Action>, id1: nat, id2: nat)
    requires Initial(s)
    requires id1 in Exec(s, run).calls && id2 in Exec(s, run).calls
    requires Exec(s, run).calls[id1].Paid? && Exec(s, run).calls[id2].Paid?
    requires Exec(s, run).calls[id1].result.Return? && Exec(s, run).calls[id2].result.Return?
    requires Exec(s, run).calls[id1].user == Exec(s, run).calls[id2].user
    requires Exec(s, run).calls[id1].key == Exec(s, run).calls[id2].key
    ensures var c, d := Exec(s, run).calls[id1], Exec(s, run).calls[id2];
            && c.result.body == d.result.body && SameRequest(c.request, d.request)
            && (c.result.httpStatus == 201 && d.result.httpStatus == 201 ==> id1 == id2)
  {
    Reachable(s, run);
    var e := Exec(s, run);
    var c, d := e.calls[id1], e.calls[id2];
    assert CallOk(e, id1, c) && CallOk(e, id2, d);
    BodyJsonInjective(c.result.body, d.result.body);
    CanonicalDeterminesRequest(c.request, d.request);
    if c.result.httpStatus == 201 && d.result.httpStatus == 201 {
      var i :| 0 <= i < |e.history| && PostedBy(e.history[i], id1, c.user, c.key);
      var j :| 0 <= j < |e.history| && PostedBy(e.history[j], id2, d.user, d.key);
      PostedAtMostOnce(s, run, i, j);
    }
  }

  // ---- Keys, transactions and audit rows ----

  /** The transaction id in a stored response. */
  function StoredTxn(row: KeyRow): Option<Id> {
    match row.payload
    case Some(Object(o)) => if HasText(o, "transactionId") then Some(TextAt(o, "transactionId")) else None
    case _ => None
  }

  lemma StoredTxnOf(p: PaymentRecord)
    ensures StoredTxn(KeyRowOf(p)) == Some(p.txn)
  {
    BodyCarries(BodyOf(p));
  }

  lemma MovementOfTable(s: System, run: seq<Action>, j: nat)
    requires Initial(s) && j < |Exec(s, run).history| && IsPayment(Exec(s, run).history[j])
    ensures var e := Exec(s, run); var p := e.history[j].movement.p;
            && (p.user, p.key) in e.db.keys && e.db.keys[(p.user, p.key)] == KeyRowOf(p)
            && p.txn in e.db.txns && e.db.txns[p.txn] == TxnRow(Payment(p))
  {
    Reachable(s, run);
    var e := Exec(s, run);
    MovedIsRecorded(e.history, j);
    var p := e.history[j].movement.p;
    var i := KeyHasPayment(e.history, (p.user, p.key));
    PostedAtMostOnce(s, run, i, j);
    var k := TxnHasMovement(e.history, p.txn);
    SameMovement(e.history, j, k);
  }

  /** Every committed key row is COMPLETED and answers with a posted customer transaction. */
  lemma KeyToTransaction(s: System, run: seq<Action>, k: KeyOf)
    requires Initial(s) && k in Exec(s, run).db.keys
    ensures var db := Exec(s, run).db; var row := db.keys[k];
            && row.status.Completed? && row.httpStatus == Some(201) && row.requestHash.Some?
            && StoredTxn(row).Some? && StoredTxn(row).value in db.txns
            && var x := db.txns[StoredTxn(row).value];
            && IsCustomerTxn(x) && x.status.TxnPosted?
            && (x.idempotencyKey.Some? ==> x.idempotencyKey.value == row.id)
            && (x.idempotencyKey.None? <==> x.kind.BeneficiaryTransfer?)
  {
    Reachable(s, run);
    var i := KeyHasPayment(Exec(s, run).history, k);
    StoredTxnOf(Exec(s, run).history[i].movement.p);
    MovementOfTable(s, run, i);
  }

  /** Every customer transaction is the answer of some key. */
  lemma TransactionToKey(s: System, run: seq<Action>, t: Id) returns (k: KeyOf)
    requires Initial(s) && t in Exec(s, run).db.txns && IsCustomerTxn(Exec(s, run).db.txns[t])
    ensures k in Exec(s, run).db.keys && StoredTxn(Exec(s, run).db.keys[k]) == Some(t)
  {
    Reachable(s, run);
    var j := TxnHasMovement(Exec(s, run).history, t);
    var p := Exec(s, run).history[j].movement.p;
    StoredTxnOf(p);
    MovementOfTable(s, run, j);
    k := (p.user, p.key);
  }

  /** Completed keys and posted customer transactions are in one-to-one correspondence. */
  lemma KeysAndTransactionsOneToOne(s: System, run: seq<Action>)
    requires Initial(s)
    ensures var db := Exec(s, run).db;
            && (forall k :: k in db.keys ==>
                  && StoredTxn(db.keys[k]).Some? && StoredTxn(db.keys[k]).value in db.txns
                  && IsCustomerTxn(db.txns[StoredTxn(db.keys[k]).value]))
            && (forall k, l :: k in db.keys && l in db.keys && k != l ==>
                StoredTxn(db.keys[k]) != StoredTxn(db.keys[l]))
            && (forall t :: t in db.txns && IsCustomerTxn(db.txns[t]) ==>
                  exists k :: k in db.keys && StoredTxn(db.keys[k]) == Some(t))
  {
    var db, h := Exec(s, run).db, Exec(s, run).history;
    Reachable(s, run);
    forall k | k in db.keys
      ensures StoredTxn(db.keys[k]).Some? && StoredTxn(db.keys[k]).value in db.txns
      ensures IsCustomerTxn(db.txns[StoredTxn(db.keys[k]).value])
    { KeyToTransaction(s, run, k); }
    forall k, l | k in db.keys && l in db.keys && k != l ensures StoredTxn(db.keys[k]) != StoredTxn(db.keys[l]) {
      var i := KeyHasPayment(h, k);
      var j := KeyHasPayment(h, l);
      StoredTxnOf(h[i].movement.p);
      StoredTxnOf(h[j].movement.p);
      PostedAtMostOnce(s, run, i, j);
    }
    forall t | t in db.txns && IsCustomerTxn(db.txns[t])
      ensures exists k :: k in db.keys && StoredTxn(db.keys[k]) == Some(t)
    { var k := TransactionToKey(s, run, t); }
  }

  predicate ActionFits(a: Audit, x: Txn) {
    match x.kind
    case InternalTransfer => a.action.PaymentTransferPosted?
    case BeneficiaryTransfer => a.action.BeneficiaryTransferPosted?
    case MerchantPayment => a.action.MerchantPaymentPosted?
    case AdminCredit => a.action.AccountCreditedByAdmin?
  }

  lemma {:induction false} AuditHasMovement(h: seq<Event>, n: nat) returns (j: nat)
    requires n < |PostingAuditsOf(h)|
    ensures j < |h| && h[j].Moved? && PostingAuditsOf(h)[n] == AuditRow(h[j].movement)
    ensures |PostingAuditsOf(h[..j])| == n
    decreases |h|
  {
    j := |h| - 1;
    var before := PostingAuditsOf(h[..j]);
    if n < |before| {
      j := AuditHasMovement(h[..|h| - 1], n);
      assert h[..|h| - 1][..j] == h[..j];
    }
  }

  lemma {:induction false} MovementHasAudit(h: seq<Event>, j: nat)
    requires j < |h| && h[j].Moved?
    ensures AuditRow(h[j].movement) in PostingAuditsOf(h)
    decreases |h|
  {
    if j < |h| - 1 { MovementHasAudit(h[..|h| - 1], j); }
  }

  /** Posting audit rows and transactions are in one-to-one correspondence, type by type. */
  lemma AuditsAndTransactionsOneToOne(s: System, run: seq<Action>)
    requires Initial(s)
    ensures var db, audits := Exec(s, run).db, PostingAudits(Exec(s, run).db.audits);
            && (forall n :: 0 <= n < |audits| ==>
                audits[n].resource in db.txns && ActionFits(audits[n], db.txns[audits[n].resource]))
            && (forall n, m :: 0 <= n < m < |audits| ==> audits[n].resource != audits[m].resource)
            && (forall t :: t in db.txns ==> exists n :: 0 <= n < |audits| && audits[n].resource == t)
  {
    Reachable(s, run);
    var db, h := Exec(s, run).db, Exec(s, run).history;
    var audits := PostingAudits(db.audits);
    forall n | 0 <= n < |audits|
      ensures audits[n].resource in db.txns && ActionFits(audits[n], db.txns[audits[n].resource])
    {
      var j := AuditHasMovement(h, n);
      AuditOfMovement(s, run, j);
    }
    forall n, m | 0 <= n < m < |audits| ensures audits[n].resource != audits[m].resource {
      var i := AuditHasMovement(h, n);
      var j := AuditHasMovement(h, m);
      SameMovement(h, i, j);
    }
    forall t | t in db.txns ensures exists n :: 0 <= n < |audits| && audits[n].resource == t {
      var j := TxnHasMovement(h, t);
      MovementHasAudit(h, j);
    }
  }

  lemma AuditOfMovement(s: System, run: seq<Action>, j: nat)
    requires Initial(s) && j < |Exec(s, run).history| && Exec(s, run).history[j].Moved?
    ensures var db, m := Exec(s, run).db, Exec(s, run).history[j].movement;
            TxnOf(m) in db.txns && ActionFits(AuditRow(m), db.txns[TxnOf(m)])
  {
    Reachable(s, run);
    var h := Exec(s, run).history;
    MovedIsRecorded(h, j);
    var k := TxnHasMovement(h, TxnOf(h[j].movement));
    SameMovement(h, j, k);
  }

  // ---- Outcomes of one transaction ----

  predicate IsAnswerTo(e: Event, user: UserId, key: string, r: Request) {
    IsPayment(e) && e.movement.p.user == user && e.movement.p.key == key && SameRequest(r, e.movement.p.request)
  }

  lemma KeyDecides(s: System, user: UserId, key: string, r: Request)
    requires Inv(s)
    ensures (user, key) in s.db.keys ==>
              var result := Replay(r, s.db.keys[(user, key)]);
              && (result.Return? <==> exists j :: 0 <= j < |s.history| && IsAnswerTo(s.history[j], user, key, r))
              && (result.Return? ==> result.httpStatus == 200)
              && (result.Throw? ==> result.error == KeyReusedWithOtherBody)
    ensures (user, key) !in s.db.keys ==> forall j :: 0 <= j < |s.history| ==> !IsAnswerTo(s.history[j], user, key, r)
  {
    if (user, key) in s.db.keys {
      var i := ReplayOfCompleted(s, user, key, r);
      forall j | 0 <= j < |s.history| && IsAnswerTo(s.history[j], user, key, r) ensures j == i {
        assert i < j ==> Apart(s.history[i], s.history[j]);
        assert j < i ==> Apart(s.history[j], s.history[i]);
      }
      assert SameRequest(r, s.history[i].movement.p.request) ==> IsAnswerTo(s.history[i], user, key, r);
    }
    forall j | 0 <= j < |s.history| && IsPayment(s.history[j])
      ensures (s.history[j].movement.p.user, s.history[j].movement.p.key) in s.db.keys
    { MovedIsRecorded(s.history, j); }
  }

  /** Exactly when a transaction posts, replays or throws, and what it leaves. A throw leaves
      every table alone, so a key whose attempts failed is still free. */
  lemma OutcomeOfAttempt(s: System, run: seq<Action>, id: nat, t: Turn)
    requires Initial(s) && id in Exec(s, run).calls && Exec(s, run).calls[id].Executing?
    requires !t.conflict
    ensures var e := Exec(s, run);
            var c := e.calls[id];
            var e' := Next(e, Advance(id, t));
            && id in e'.calls && e'.calls[id].Paid?
            && var result := e'.calls[id].result;
            var posted := result.Return? && result.httpStatus == 201;
            && (posted <==> exists p :: CanPost(e.db, c.user, c.request, c.key, t.choice, p))
            && (result.Return? && !posted
                <==> exists j :: 0 <= j < |e.history| && IsAnswerTo(e.history[j], c.user, c.key, c.request))
            && (!posted ==> e'.db == e.db && e'.history == e.history)
            && (result == Throw(KeyReusedWithOtherBody) <==> (c.user, c.key) in e.db.keys && !result.Return?)
  {
    Reachable(s, run);
    PaymentsAreRouted(s, run);
    var e := Exec(s, run);
    var c := e.calls[id];
    PostsExactly(e.db, c.user, c.customer, c.request, c.key, t.choice);
    hide CanPost;
    KeyDecides(e, c.user, c.key, c.request);
    PlanErrors(e.db, c.user, c.customer, c.request, c.key, t.choice);
  }

  lemma PostsExactly(db: Db, user: UserId, customer: Id, r: Request, key: string, c: Choice)
    requires user in db.profiles && db.profiles[user].id == customer
    ensures Commits(db, user, customer, r, key, c).Some? <==> exists p :: CanPost(db, user, r, key, c, p)
  {
    forall p ensures Commits(db, user, customer, r, key, c) == Some(Payment(p)) <==> CanPost(db, user, r, key, c, p) {
      CommitsExactly(db, user, r, key, c, p);
    }
    CommitsPayment(db, user, customer, r, key, c);
    hide Commits, CanPost;
  }

  lemma CommitsPayment(db: Db, user: UserId, customer: Id, r: Request, key: string, c: Choice)
    ensures var m := Commits(db, user, customer, r, key, c);
            m.Some? ==> m.value.Payment? && m == Some(Payment(m.value.p))
  {
  }

  lemma PlanErrors(db: Db, user: UserId, customer: Id, r: Request, key: string, c: Choice)
    ensures var plan := PaymentPlan(db, user, customer, r, key, c);
            plan.Reject? ==> plan.error != KeyReusedWithOtherBody
  {
  }

  // ---- Replays ----

  /** What a call that resubmits a posted request with its key can be doing. */
  predicate ReplayingCall(call: Call, p: PaymentRecord) {
    match call
    case Entering(user, r, key, o) => user == p.user && key == p.key && SameRequest(r, p.request)
    case CheckingRisk(user, _, r, key) => user == p.user && key == p.key && SameRequest(r, p.request)
    case Executing(user, _, r, key, _, _) => user == p.user && key == p.key && SameRequest(r, p.request)
    case Paid(user, key, r, result) =>
      user == p.user && key == p.key && (result == Return(200, BodyOf(p)) || result == Throw(SerializationFailure))
    case Refused(error) => error == KycRequired
    case _ => false
  }

  lemma {:induction false} KeyRowForever(s: System, run: seq<Action>, k: KeyOf)
    requires Inv(s) && k in s.db.keys
    ensures Inv(Exec(s, run)) && k in Exec(s, run).db.keys && Exec(s, run).db.keys[k] == s.db.keys[k]
    decreases |run|
  {
    if run != [] {
      KeyRowForever(s, run[..|run| - 1], k);
      var before, a := Exec(s, run[..|run| - 1]), run[|run| - 1];
      NextKeepsInv(before, a);
      KeyRowStays(before, a, k);
    }
  }

  lemma KeyRowStays(s: System, a: Action, k: KeyOf)
    requires k in s.db.keys
    ensures k in Next(s, a).db.keys && Next(s, a).db.keys[k] == s.db.keys[k]
  {
    var c := StepChange(s, a);
  }

  lemma ReplayStep(s: System, a: Action, id: nat, p: PaymentRecord)
    requires Inv(s) && id in s.calls && ReplayingCall(s.calls[id], p) && PassesChecks(p.request)
    requires (p.user, p.key) in s.db.keys && s.db.keys[(p.user, p.key)] == KeyRowOf(p)
    ensures id in Next(s, a).calls && ReplayingCall(Next(s, a).calls[id], p)
    ensures a.Advance? && a.id == id ==> Next(s, a).db == s.db
  {
    if !(a.Advance? && a.id == id) {
      OthersKeepCall(s, a, id);
    } else if s.calls[id].Executing? {
      ReplayAttempt(s, id, a.turn, p);
    } else {
      ReplayApproach(s, id, a.turn, p);
    }
  }

  lemma ReplayAttempt(s: System, id: nat, t: Turn, p: PaymentRecord)
    requires Inv(s) && id in s.calls && s.calls[id].Executing? && ReplayingCall(s.calls[id], p)
    requires (p.user, p.key) in s.db.keys && s.db.keys[(p.user, p.key)] == KeyRowOf(p)
    ensures var s' := Attempt(s, id, s.calls[id], t);
            id in s'.calls && ReplayingCall(s'.calls[id], p) && s'.db == s.db
  {
    ReplayAnswer(s, p, s.calls[id].request);
  }

  lemma ReplayApproach(s: System, id: nat, t: Turn, p: PaymentRecord)
    requires id in s.calls && !s.calls[id].Executing? && ReplayingCall(s.calls[id], p) && PassesChecks(p.request)
    requires (p.user, p.key) in s.db.keys && s.db.keys[(p.user, p.key)] == KeyRowOf(p)
    ensures var s' := Resume(s, id, s.calls[id], t);
            id in s'.calls && ReplayingCall(s'.calls[id], p) && s'.db == s.db
  {
    hide ReadKyc, ReadKeyForRisk;
    var c := s.calls[id];
    if c.Entering? {
      ReplayPassesKyc(s, id, c, p);
    } else if c.CheckingRisk? {
      ReplaySkipsChallenge(s, id, c, p);
    }
  }

  lemma ReplayPassesKyc(s: System, id: nat, c: Call, p: PaymentRecord)
    requires c.Entering? && ReplayingCall(c, p) && PassesChecks(p.request)
    ensures var s' := ReadKyc(s, id, c.user, c.request, c.key, c.origin);
            id in s'.calls && ReplayingCall(s'.calls[id], p) && s'.db == s.db
  {
    assert PassesChecks(c.request);
  }

  lemma ReplaySkipsChallenge(s: System, id: nat, c: Call, p: PaymentRecord)
    requires c.CheckingRisk? && ReplayingCall(c, p)
    requires (p.user, p.key) in s.db.keys && s.db.keys[(p.user, p.key)] == KeyRowOf(p)
    ensures var s' := ReadKeyForRisk(s, id, c.user, c.customer, c.request, c.key);
            id in s'.calls && ReplayingCall(s'.calls[id], p) && s'.db == s.db
  {
  }

  lemma ReplayAnswer(s: System, p: PaymentRecord, r: Request)
    requires Inv(s) && SameRequest(r, p.request)
    requires (p.user, p.key) in s.db.keys && s.db.keys[(p.user, p.key)] == KeyRowOf(p)
    ensures Replay(r, KeyRowOf(p)) == Return(200, BodyOf(p))
  {
    var i := ReplayOfCompleted(s, p.user, p.key, r);
    var q := s.history[i].movement.p;
    BodyJsonInjective(BodyOf(p), BodyOf(q));
    CanonicalDeterminesRequest(p.request, q.request);
  }

  lemma {:induction false} ReplayRun(s: System, rest: seq<Action>, id: nat, p: PaymentRecord)
    requires Inv(s) && id in s.calls && ReplayingCall(s.calls[id], p) && PassesChecks(p.request)
    requires (p.user, p.key) in s.db.keys && s.db.keys[(p.user, p.key)] == KeyRowOf(p)
    ensures id in Exec(s, rest).calls && ReplayingCall(Exec(s, rest).calls[id], p)
    decreases |rest|
  {
    if rest != [] {
      var init := rest[..|rest| - 1];
      ReplayRun(s, init, id, p);
      KeyRowForever(s, init, (p.user, p.key));
      ReplayStep(Exec(s, init), rest[|rest| - 1], id, p);
    }
  }

  /** None of the call's own steps changes a table. */
  ghost predicate OwnStepsQuiet(s: System, rest: seq<Action>, id: nat) {
    forall n :: 0 <= n < |rest| && rest[n].Advance? && rest[n].id == id ==>
      Next(Exec(s, rest[..n]), rest[n]).db == Exec(s, rest[..n]).db
  }

  lemma ReplayIsQuiet(s: System, rest: seq<Action>, id: nat, p: PaymentRecord)
    requires Inv(s) && id in s.calls && ReplayingCall(s.calls[id], p) && PassesChecks(p.request)
    requires (p.user, p.key) in s.db.keys && s.db.keys[(p.user, p.key)] == KeyRowOf(p)
    ensures OwnStepsQuiet(s, rest, id)
  {
    forall n | 0 <= n < |rest| && rest[n].Advance? && rest[n].id == id
      ensures Next(Exec(s, rest[..n]), rest[n]).db == Exec(s, rest[..n]).db
    {
      ReplayRun(s, rest[..n], id, p);
      KeyRowForever(s, rest[..n], (p.user, p.key));
      ReplayStep(Exec(s, rest[..n]), rest[n], id, p);
    }
  }

  /** Resubmitting a posted request with its key, on any interleaving with anything else: the
      call can only end with the first body, a KYC refusal or a serialization failure, and
      none of its own steps changes any table. */
  lemma ReplayReturnsFirstBody(s: System, run: seq<Action>, j: nat, id: nat, r: Request, key: string, rest: seq<Action>)
    requires Initial(s) && j < |Exec(s, run).history| && IsPayment(Exec(s, run).history[j])
    requires id !in Exec(s, run).calls
    requires SameRequest(r, Exec(s, run).history[j].movement.p.request)
    requires Trim(key) == Exec(s, run).history[j].movement.p.key && Trim(key) != ""
    ensures var p := Exec(s, run).history[j].movement.p;
            var begun := Next(Exec(s, run), Arrive(id, Pay(p.user, r, key)));
            && id in Exec(begun, rest).calls && ReplayingCall(Exec(begun, rest).calls[id], p)
            && OwnStepsQuiet(begun, rest, id)
  {
    Reachable(s, run);
    MovementOfTable(s, run, j);
    assert PaymentOk(Exec(s, run).history, j);
    var p := Exec(s, run).history[j].movement.p;
    var begun := Next(Exec(s, run), Arrive(id, Pay(p.user, r, key)));
    NextKeepsInv(Exec(s, run), Arrive(id, Pay(p.user, r, key)));
    ReplayRun(begun, rest, id, p);
    ReplayIsQuiet(begun, rest, id, p);
  }

  /** With KYC still verified and no conflict, the resubmission is answered with the first body
      in three or four steps, and no table has changed. */
  lemma ResubmissionIsAnswered(s: System, run: seq<Action>, j: nat, id: nat, r: Request, key: string, t: Turn)
    requires Initial(s) && j < |Exec(s, run).history| && IsPayment(Exec(s, run).history[j])
    requires id !in Exec(s, run).calls && !t.conflict
    requires SameRequest(r, Exec(s, run).history[j].movement.p.request)
    requires Trim(key) == Exec(s, run).history[j].movement.p.key && Trim(key) != ""
    requires var p := Exec(s, run).history[j].movement.p;
             p.user in Exec(s, run).db.profiles && Exec(s, run).db.profiles[p.user].kyc.Verified?
    ensures var p := Exec(s, run).history[j].movement.p;
            var e0 := Next(Exec(s, run), Arrive(id, Pay(p.user, r, key)));
            var e1 := Next(e0, Advance(id, t));
            var e2 := if r.cents > 100_000 then Next(e1, Advance(id, t)) else e1;
            var e3 := Next(e2, Advance(id, t));
            && id in e3.calls && e3.calls[id] == Paid(p.user, p.key, r, Return(200, BodyOf(p)))
            && e3.db == Exec(s, run).db
  {
    Reachable(s, run);
    MovementOfTable(s, run, j);
    assert PaymentOk(Exec(s, run).history, j);
    var p := Exec(s, run).history[j].movement.p;
    ReplayAnswer(Exec(s, run), p, r);
    AnswerSteps(Exec(s, run), id, p, r, key, t);
  }

  lemma AnswerSteps(e: System, id: nat, p: PaymentRecord, r: Request, key: string, t: Turn)
    requires (p.user, p.key) in e.db.keys && e.db.keys[(p.user, p.key)] == KeyRowOf(p)
    requires id !in e.calls && !t.conflict && Trim(key) == p.key && p.key != ""
    requires PassesChecks(r) && Replay(r, KeyRowOf(p)) == Return(200, BodyOf(p))
    requires p.user in e.db.profiles && e.db.profiles[p.user].kyc.Verified?
    ensures var e0 := Next(e, Arrive(id, Pay(p.user, r, key)));
            var e1 := Next(e0, Advance(id, t));
            var e2 := if r.cents > 100_000 then Next(e1, Advance(id, t)) else e1;
            var e3 := Next(e2, Advance(id, t));
            && id in e3.calls && e3.calls[id] == Paid(p.user, p.key, r, Return(200, BodyOf(p))) && e3.db == e.db
  {
    hide Next, Replay, PaymentPlan, BodyOf, BodyJson, Canonical;
    var customer := e.db.profiles[p.user].id;
    var e0 := PayArrives(e, id, p.user, r, key);
    var e1 := EnterStep(e0, id, t);
    assert e1.calls[id] == AfterKyc(p.user, customer, r, p.key, Direct) && e1.db == e.db;
    var e2 := e1;
    if r.cents > 100_000 { e2 := RiskStep(e1, id, t); }
    assert e2.calls[id] == Executing(p.user, customer, r, p.key, Direct, 1) && e2.db == e.db;
    var e3 := AttemptStep(e2, id, t);
  }
}
