/** What payment calls answer, in any reachable state and at every check on the way. */
module Answers {
  import opened Text
  import opened Json
  import opened Rows
  import opened Requests
  import opened Posting
  import opened Protocol
  import opened Invariants
  import opened Preservation
  import opened Frames
  import opened Effects
  import opened Routing
  import opened Theorems
  import opened Flows

  // ---- Success ----

  /** The two accounts of an answered payment, as the rows show them. */
  predicate Between(db: Db, b: Body, r: Request, x: Txn) {
    && x.from in db.accounts && x.to in db.accounts
    && db.accounts[x.from].customer == x.customer
    && match r
       case TransferRequest(_, destination, _, _, _) => x.to == destination && db.accounts[x.to].customer == x.customer
       case BeneficiaryRequest(_, row, _, _, _) =>
         && row in db.beneficiaries && b.BeneficiaryBody? && b.iban == db.beneficiaries[row].iban
         && db.beneficiaries[row].customer == x.customer
         && (b.internalBeneficiary <==> !db.accounts[x.to].isSystem)
         && (b.internalBeneficiary ==> db.accounts[x.to].iban == b.iban)
       case MerchantRequest(_, merchant, _, _, _) =>
         merchant in db.merchants && x.to == db.merchants[merchant].settlementAccount
  }

  lemma SaysTheSame(b: Body, r: Request, q: Request, t: Id, iban: string, internal: bool)
    requires Says(b, q, t, iban, internal) && SameRequest(r, q)
    ensures Says(b, r, t, iban, internal)
  {
    hide ParseCents, CurrencyOf;
  }

  lemma SameRow(x: Txn, r: Request, q: Request, customer: Id, to: Id, keyId: Id, now: Time)
    requires IsPaymentRow(x, q, customer, to, keyId, now) && SameRequest(r, q)
    ensures IsPaymentRow(x, r, customer, to, keyId, now)
  {
    hide CurrencyOf;
  }

  lemma BetweenIs(db: Db, p: PaymentRecord, b: Body, r: Request, x: Txn)
    requires RoutedOk(db, p) && SameRequest(r, p.request) && Says(b, r, p.txn, p.iban, p.internal)
    requires x.from == p.request.source && x.to == p.destination && x.customer == p.customer
    ensures Between(db, b, r, x)
  {
    hide ParseCents, CurrencyOf;
  }

  /** Every successful answer, first or repeated, is true of the committed rows: of the transaction it
      names, of the accounts that were debited and credited, and of the request it answers. */
  lemma AnswersAreTrue(s: System, run: seq<Action>, id: nat)
    requires Initial(s) && id in Exec(s, run).calls
    requires Exec(s, run).calls[id].Paid? && Exec(s, run).calls[id].result.Return?
    ensures var db, c := Exec(s, run).db, Exec(s, run).calls[id];
            var b := c.result.body;
            && b.txn in db.txns && (c.user, c.key) in db.keys && c.user in db.profiles
            && var x, k := db.txns[b.txn], db.keys[(c.user, c.key)];
            && k.completedAt.Some?
                && IsPaymentRow(x, c.request, db.profiles[c.user].id, x.to, k.id, k.completedAt.value)
            && (exists iban, internal :: Says(b, c.request, b.txn, iban, internal)) && Between(db, b, c.request, x)
  {
    hide Next;
    Reachable(s, run);
    PaymentsAreRouted(s, run);
    var e := Exec(s, run);
    var c := e.calls[id];
    assert CallOk(e, id, c);
    var i := KeyHasPayment(e.history, (c.user, c.key));
    MovementOfTable(s, run, i);
    assert PaymentOk(e.history, i);
    var p := e.history[i].movement.p;
    assert MovementOk(e.db, Payment(p));
    AnswerOf(e.db, p, c.user, c.key, c.request, c.result.body);
  }

  lemma AnswerOf(db: Db, p: PaymentRecord, user: UserId, key: string, r: Request, b: Body)
    requires RoutedOk(db, p) && PassesChecks(p.request) && (user, key) == (p.user, p.key)
    requires (user, key) in db.keys && db.keys[(user, key)] == KeyRowOf(p)
    requires p.txn in db.txns && db.txns[p.txn] == TxnRow(Payment(p))
    requires KeyRowOf(p).payload == Some(BodyJson(b)) && KeyRowOf(p).requestHash == Some(Canonical(r))
    ensures var x, k := TxnRow(Payment(p)), KeyRowOf(p);
            && b.txn == p.txn && user in db.profiles && k.completedAt.Some?
            && IsPaymentRow(x, r, db.profiles[user].id, x.to, k.id, k.completedAt.value)
            && Says(b, r, b.txn, p.iban, p.internal) && Between(db, b, r, x)
  {
    assert BodyJson(b) == BodyJson(BodyOf(p)) && Canonical(r) == Canonical(p.request);
    BodyJsonInjective(b, BodyOf(p));
    CanonicalDeterminesRequest(r, p.request);
    TxnRowIsSpelled(p);
    AnswerIsSpelled(p);
    TransferGoesAsAsked(db, p);
    SaysTheSame(b, r, p.request, p.txn, p.iban, p.internal);
    SameRow(TxnRow(Payment(p)), r, p.request, p.customer, p.destination, p.keyId, p.now);
    BetweenIs(db, p, b, r, TxnRow(Payment(p)));
    hide Says, IsPaymentRow, Between, BodyOf, BodyJson, Canonical, SameRequest, CurrencyOf;
  }

  lemma TransferGoesAsAsked(db: Db, p: PaymentRecord)
    requires RoutedOk(db, p)
    ensures p.request.TransferRequest? ==> p.destination == p.request.destination
    ensures p.user in db.profiles && db.profiles[p.user].id == p.customer
  {
  }

  // ---- Refusals before the transaction ----

  /** A blank key is refused on arrival. */
  lemma BlankKeyIsRefused(s: System, id: nat, user: UserId, r: Request, key: string)
    requires id !in s.calls
    ensures Next(s, Arrive(id, Pay(user, r, key))).calls[id] == Refused(KeyRequired) <==> Blank(key)
    ensures Next(s, Arrive(id, Pay(user, r, key))) == s.(calls := Next(s, Arrive(id, Pay(user, r, key))).calls)
  {
    var before, after := TrimSplits(key);
    if Blank(key) { BlankTrims(key); }
  }

  predicate KycVerified(db: Db, user: UserId) { user in db.profiles && db.profiles[user].kyc == Kyc.Verified }

  /** The first statement of a payment, and the checks after it, in their order: KYC, the two accounts of a
      transfer, the currency, a merchant payment of nothing; then step-up above 1000 RON. No table changes. */
  lemma EntryDecides(s: System, id: nat, user: UserId, r: Request, key: string, t: Turn)
    requires id !in s.calls && Trim(key) != ""
    ensures var e := Next(Next(s, Arrive(id, Pay(user, r, key))), Advance(id, t));
            var sameAccount := r.TransferRequest? && r.source == r.destination;
            var nothing := r.MerchantRequest? && r.cents == 0;
            var passes := KycVerified(s.db, user) && !sameAccount && CurrencyOf(r) == "RON" && !nothing;
            && e.db == s.db && e.redis == s.redis && id in e.calls && e.calls == s.calls[id := e.calls[id]]
            && (e.calls[id] == Refused(KycRequired) <==> !KycVerified(s.db, user))
            && (e.calls[id] == Refused(Error.SameAccount) <==> KycVerified(s.db, user) && sameAccount)
            && (e.calls[id] == Refused(UnsupportedCurrency) <==>
                  KycVerified(s.db, user) && !sameAccount && CurrencyOf(r) != "RON")
            && (e.calls[id] == Refused(AmountNotPositive) <==>
                  KycVerified(s.db, user) && !sameAccount && CurrencyOf(r) == "RON" && nothing)
            && (e.calls[id].CheckingRisk? <==> passes && r.cents > 100_000)
            && (e.calls[id].Executing? <==> passes && r.cents <= 100_000)
  {
    hide Next, Trim, CurrencyOf;
    var e0 := PayArrives(s, id, user, r, key);
    var e1 := EnterStep(e0, id, t);
  }

  /** The idempotency read before step-up goes on exactly when the key's row is COMPLETED, whatever rows the
      table holds, and no table changes. */
  lemma RiskDecides(s: System, id: nat, t: Turn)
    requires id in s.calls && s.calls[id].CheckingRisk?
    ensures var c, e := s.calls[id], Next(s, Advance(id, t));
            var completed := (c.user, c.key) in s.db.keys && s.db.keys[(c.user, c.key)].status == KeyStatus.Completed;
            e == s.(calls := s.calls[id := if completed then Executing(c.user, c.customer, c.request, c.key, Direct, 1)
                                           else Challenging(c.user, c.request, c.key)])
  {
    hide Next;
    var e := RiskStep(s, id, t);
  }

  /** What a key row answers on the internal transfer, whatever row it is: only a COMPLETED one answers at all;
      a different hash conflicts, and so does a body that cannot be read. */
  lemma TransferKeyDecides(r: Request, row: KeyRow)
    requires r.TransferRequest?
    ensures var result := Replay(r, row);
            var usable := row.status == KeyStatus.Completed;
            var other := row.requestHash.Some? && row.requestHash.value != "" && row.requestHash.value != Canonical(r);
            && (result == Throw(KeyNotAvailable) <==> !usable)
            && (result == Throw(KeyReusedWithOtherBody) <==> usable && other)
            && (result == Throw(StoredResponseInvalid) <==> usable && !other && ParseTransferBody(row.payload).None?)
            && (result.Return? ==> result.httpStatus == 200 && ParseTransferBody(row.payload) == Some(result.body))
  {
    hide Canonical, ParseTransferBody;
  }

  /** On the other two routes the hash is compared first, then a COMPLETED row with a readable body answers; any
      other row tells that the earlier attempt failed or is still going on. */
  lemma OtherKeyDecides(r: Request, row: KeyRow)
    requires !r.TransferRequest?
    ensures var result := Replay(r, row);
            var parsed := if r.BeneficiaryRequest? then ParseBeneficiaryBody(row.payload)
              else ParseMerchantBody(row.payload);
            var same := row.requestHash == Some(Canonical(r));
            var answers := same && row.status == KeyStatus.Completed && parsed.Some?;
            && (result == Throw(KeyReusedWithOtherBody) <==> !same)
            && (result.Return? <==> answers) && (answers ==> result == Return(200, parsed.value))
            && (result == Throw(PreviousAttemptFailed) <==> same && row.status == KeyStatus.Failed)
            && (result == Throw(KeyInProgress) <==> same && !answers && row.status != KeyStatus.Failed)
  {
    hide Canonical, ParseBeneficiaryBody, ParseMerchantBody;
  }

  /** A confirmation is refused when there is no such challenge of this user, or the OTP differs; then nothing
      changes. Otherwise exactly that challenge is deleted and its request enters without its fraud check. */
  lemma ConfirmationDecides(s: System, id: nat, user: UserId, challengeId: string, otp: string, t: Turn, ch: Challenge)
    requires id !in s.calls
    requires var k := RedisKey(user, challengeId); k in s.redis ==> s.redis[k] == Stringify(ChallengeJson(ch))
    ensures var k := RedisKey(user, challengeId);
            var e1 := Next(Next(s, Arrive(id, Confirm(user, challengeId, otp))), Advance(id, t));
            var e2 := Next(e1, Advance(id, t));
            && (k !in s.redis ==> e2 == s.(calls := s.calls[id := Refused(ChallengeNotFound)]))
            && (k in s.redis && ch.otp != otp ==> e2 == s.(calls := s.calls[id := Refused(InvalidOtp)]))
            && (k in s.redis && ch.otp == otp ==>
                  && e2.db == s.db && e2.redis == s.redis - {k}
                  && e2.calls == s.calls[id := Enter(user, ch.request, ch.key, Stepped(challengeId, ch))])
  {
    if RedisKey(user, challengeId) in s.redis { ChallengeSurvivesStorage(ch); }
    hide Next, ParseChallenge, RedisKey, Enter, ChallengeJson;
    var e0 := ConfirmArrives(s, id, user, challengeId, otp);
    var e1 := FetchStep(e0, id, t);
    if RedisKey(user, challengeId) in s.redis && ch.otp == otp {
      var e2 := ConsumeStep(e1, id, t);
    } else {
      RefusedStays(e1, id, t);
    }
  }

  /** A stored text that is no challenge is refused as it is, with nothing changed. No run stores one. */
  lemma UnreadableIsRefused(s: System, id: nat, user: UserId, challengeId: string, otp: string, t: Turn)
    requires id !in s.calls && RedisKey(user, challengeId) in s.redis
    requires ParseChallenge(s.redis[RedisKey(user, challengeId)]) == None
    ensures Next(Next(s, Arrive(id, Confirm(user, challengeId, otp))), Advance(id, t))
         == s.(calls := s.calls[id := Refused(UnreadableChallenge)])
  {
    hide Next, ParseChallenge, RedisKey;
    var e0 := ConfirmArrives(s, id, user, challengeId, otp);
    var e1 := FetchStep(e0, id, t);
  }

  lemma RefusedStays(s: System, id: nat, t: Turn)
    requires id in s.calls && s.calls[id].Refused?
    ensures Next(s, Advance(id, t)) == s
  {
  }

  /** A challenge expires alone: nothing else changes, in Redis or elsewhere. */
  lemma ExpiryRemovesOne(s: System, k: string)
    ensures var e := Next(s, Expire(k));
            && e == s.(redis := e.redis) && k !in e.redis
            && forall j :: j in s.redis && j != k ==> j in e.redis && e.redis[j] == s.redis[j]
  {
  }
}
