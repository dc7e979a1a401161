/** What every step of the payment protocol keeps. The tables are tied to the history of
    movements, and every call in flight to what it has already seen. */
module Invariants {
  import opened Text
  import opened Json
  import opened Rows
  import opened Requests
  import opened Posting
  import opened Protocol

  // ---- The tables as folds over the movements ----

  function KeysAfter(keys: map<KeyOf, KeyRow>, e: Event): map<KeyOf, KeyRow> {
    match e
    case Moved(_, _, Payment(p)) => keys[(p.user, p.key) := KeyRowOf(p)]
    case _ => keys
  }

  function KeysOf(h: seq<Event>): map<KeyOf, KeyRow> {
    if h == [] then map[] else KeysAfter(KeysOf(h[..|h| - 1]), h[|h| - 1])
  }

  function TxnsOf(h: seq<Event>): map<Id, Txn> {
    if h == [] then map[]
    else
      var before, e := TxnsOf(h[..|h| - 1]), h[|h| - 1];
      if e.Moved? then before[TxnOf(e.movement) := TxnRow(e.movement)] else before
  }

  function LedgerOf(h: seq<Event>): seq<Entry> {
    if h == [] then []
    else
      var before, e := LedgerOf(h[..|h| - 1]), h[|h| - 1];
      if e.Moved? then before + [DebitLeg(e.movement), CreditLeg(e.movement)] else before
  }

  /** The audit rows that movements write, in order. */
  function PostingAuditsOf(h: seq<Event>): seq<Audit> {
    if h == [] then []
    else
      var before, e := PostingAuditsOf(h[..|h| - 1]), h[|h| - 1];
      if e.Moved? then before + [AuditRow(e.movement)] else before
  }

  predicate IsPostingAction(a: AuditAction) {
    a.PaymentTransferPosted? || a.BeneficiaryTransferPosted? || a.MerchantPaymentPosted? || a.AccountCreditedByAdmin?
  }

  function PostingAudits(audits: seq<Audit>): seq<Audit> {
    if audits == [] then []
    else
      var before, a := PostingAudits(audits[..|audits| - 1]), audits[|audits| - 1];
      if IsPostingAction(a.action) then before + [a] else before
  }

  lemma FoldStep(h: seq<Event>, e: Event)
    ensures KeysOf(h + [e]) == KeysAfter(KeysOf(h), e)
    ensures TxnsOf(h + [e]) == if e.Moved? then TxnsOf(h)[TxnOf(e.movement) := TxnRow(e.movement)] else TxnsOf(h)
    ensures LedgerOf(h + [e]) == if e.Moved? then LedgerOf(h) + [DebitLeg(e.movement), CreditLeg(e.movement)]
        else LedgerOf(h)
    ensures PostingAuditsOf(h + [e]) == if e.Moved? then PostingAuditsOf(h) + [AuditRow(e.movement)]
        else PostingAuditsOf(h)
  {
    assert (h + [e])[..|h|] == h;
  }

  lemma AuditStep(audits: seq<Audit>, a: Audit)
    ensures PostingAudits(audits + [a]) == if IsPostingAction(a.action) then PostingAudits(audits) + [a]
        else PostingAudits(audits)
  {
    assert (audits + [a])[..|audits|] == audits;
  }

  predicate TablesMatch(db: Db, h: seq<Event>) {
    && db.keys == KeysOf(h) && db.txns == TxnsOf(h) && db.ledger == LedgerOf(h)
    && PostingAudits(db.audits) == PostingAuditsOf(h)
  }

  // ---- Order in the history ----

  predicate IsPayment(e: Event) { e.Moved? && e.movement.Payment? }

  /** A challenge that is confirmed was issued earlier, to that user, under that id and OTP. */
  predicate ConfirmedOk(h: seq<Event>, j: nat)
    requires j < |h|
  {
    h[j].Confirmed? ==>
      && Issued(h[j].user, h[j].challengeId, h[j].challenge) in h[..j]
      && h[j].otp == h[j].challenge.otp && Trim(h[j].challenge.key) == h[j].challenge.key
  }

  /** The origin of a call is what the history says about it. */
  predicate OriginOk(h: seq<Event>, id: nat, user: UserId, r: Request, key: string, o: Origin) {
    o.Stepped? ==>
      && Event.Confirmed(id, user, o.challengeId, o.challenge, o.challenge.otp) in h
      && o.challenge.request == r && o.challenge.key == key
  }

  /** The checks a request passes between the KYC read and the next await. */
  predicate PassesChecks(r: Request) {
    && !(r.TransferRequest? && r.source == r.destination)
    && CurrencyOf(r) == "RON"
    && !(r.MerchantRequest? && r.cents == 0)
  }

  /** A payment is posted by a call that read KYC as verified, and above the threshold only by
      a call that confirmed a challenge for this very request and key. */
  predicate PaymentOk(h: seq<Event>, j: nat)
    requires j < |h|
  {
    IsPayment(h[j]) ==>
      var p := h[j].movement.p;
      && Event.Verified(h[j].call, p.user) in h[..j]
      && OriginOk(h[..j], h[j].call, p.user, p.request, p.key, h[j].origin)
      && (p.request.cents > STEP_UP_THRESHOLD ==> h[j].origin.Stepped?)
      && PassesChecks(p.request)
  }

  /** Two movements never share a transaction, nor two payments a key. */
  predicate Apart(e: Event, f: Event) {
    && (e.Moved? && f.Moved? ==> TxnOf(e.movement) != TxnOf(f.movement))
    && (IsPayment(e) && IsPayment(f) ==>
          (e.movement.p.user, e.movement.p.key) != (f.movement.p.user, f.movement.p.key))
  }

  predicate HistoryOk(h: seq<Event>) {
    && (forall j :: 0 <= j < |h| ==> ConfirmedOk(h, j))
    && (forall j :: 0 <= j < |h| ==> PaymentOk(h, j))
    && (forall i, j :: 0 <= i < j < |h| ==> Apart(h[i], h[j]))
  }

  /** A stored challenge is the text of a challenge issued under that Redis key. */
  ghost predicate StoredOk(h: seq<Event>, k: string, text: string) {
    exists user: UserId, c, ch ::
      Issued(user, c, ch) in h && k == RedisKey(user, c) && text == Stringify(ChallengeJson(ch))
  }

  predicate IssuedOk(e: Event) {
    e.Issued? ==> Trim(e.challenge.key) == e.challenge.key && e.challenge.user == e.user
  }

  // ---- Calls in flight ----

  predicate PostedBy(e: Event, id: nat, user: UserId, key: string) {
    IsPayment(e) && e.call == id && e.movement.p.user == user && e.movement.p.key == key
  }

  predicate PaidOk(s: System, id: nat, user: UserId, key: string, r: Request, result: TxResult) {
    result.Return? ==>
      && (user, key) in s.db.keys
      && s.db.keys[(user, key)].payload == Some(BodyJson(result.body))
      && s.db.keys[(user, key)].requestHash == Some(Canonical(r))
      && (result.httpStatus == 201 || result.httpStatus == 200)
      && (result.httpStatus == 201 ==> exists j :: 0 <= j < |s.history| && PostedBy(s.history[j], id, user, key))
  }

  predicate CallOk(s: System, id: nat, call: Call) {
    match call
    case Entering(user, r, key, o) => Trim(key) == key && OriginOk(s.history, id, user, r, key, o)
    case CheckingRisk(user, customer, r, key) =>
      Trim(key) == key && Event.Verified(id, user) in s.history && PassesChecks(r)
    case Challenging(user, r, key) => Trim(key) == key
    case Executing(user, customer, r, key, o, attempt) =>
      && Trim(key) == key && 1 <= attempt <= SERIALIZABLE_RETRIES && PassesChecks(r)
      && OriginOk(s.history, id, user, r, key, o) && Event.Verified(id, user) in s.history
      && (r.cents > STEP_UP_THRESHOLD && o.Direct? ==> (user, key) in s.db.keys)
    case Consuming(user, c, ch) =>
      Trim(ch.key) == ch.key && Event.Confirmed(id, user, c, ch, ch.otp) in s.history
    case Paid(user, key, r, result) => PaidOk(s, id, user, key, r, result)
    case Noting(audit) => !IsPostingAction(audit.action)
    case _ => true
  }

  ghost predicate Inv(s: System) {
    && TablesMatch(s.db, s.history)
    && HistoryOk(s.history)
    && (forall j :: 0 <= j < |s.history| ==> IssuedOk(s.history[j]))
    && (forall k :: k in s.redis ==> StoredOk(s.history, k, s.redis[k]))
    && (forall id :: id in s.calls ==> CallOk(s, id, s.calls[id]))
  }
}
