/** Safety of the earlier transfer engine under any interleaving of its statements: the row and key
    locks make every run equal to a serial one, and serial runs are safe. */
module LegacyProofs {
  import opened Text
  import opened Totals
  import opened Legacy

  // ---- What a transaction relies on ----

  predicate HoldsSource(c: Call) { c.InTx? && !c.stage.LockSource? }

  predicate HoldsDestination(c: Call) {
    c.InTx? && c.destination.Some? && !c.stage.LockSource? && !c.stage.LockDestination?
  }

  predicate HoldsKey(c: Call) {
    c.InTx? && (c.stage.WriteLedger? || c.stage.DecrementSource? || c.stage.IncrementDestination? || c.stage.Commit?)
  }

  function Row(r: Request, status: Status): Txn {
    Txn(r.key, r.amount, status, r.Payment?)
  }

  function Legs(r: Request, destination: Option<Id>): seq<Entry> {
    match destination
    case Some(d) => [Entry(r.key, r.source, Debit, r.amount), Entry(r.key, d, Credit, r.amount)]
    case None => [Entry(r.key, r.source, Debit, r.amount)]
  }

  /** The source account is the requesting user's own and active. */
  predicate SourceOk(accounts: map<Id, Account>, r: Request) {
    r.source in accounts && accounts[r.source].user == r.user && accounts[r.source].isActive
  }

  /** A transfer goes to another account, the one with the requested IBAN; a merchant payment to none. */
  predicate RouteOk(accounts: map<Id, Account>, r: Request, destination: Option<Id>) {
    && SourceOk(accounts, r)
    && match destination
       case Some(d) => r.Transfer? && d in accounts && d != r.source && accounts[d].iban == r.iban
       case None => r.Payment?
  }

  predicate StatusOk(r: Request, status: Status) {
    status.Completed? || (status.Pending? && r.Transfer?)
  }

  /** The writes a transaction has made by each stage, in terms of committed balances. */
  predicate WritesOk(accounts: map<Id, Account>, c: Call)
    requires c.InTx? && RouteOk(accounts, c.r, c.destination)
  {
    var w, r := c.writes, c.r;
    var row := [Row(r, c.status)];
    var debited := map[r.source := accounts[r.source].balance - r.amount];
    match c.stage
    case LockSource => w == NOTHING
    case LockDestination => w == NOTHING
    case InsertTransaction => w == NOTHING
    case WriteLedger => w == Writes(row, [], map[])
    case DecrementSource => w == Writes(row, Legs(r, c.destination), map[])
    case IncrementDestination => w == Writes(row, Legs(r, c.destination), debited)
    case Commit =>
      w == Writes(row, Legs(r, c.destination),
                  match c.destination
                  case Some(d) => debited[d := accounts[d].balance + r.amount]
                  case None => debited)
  }

  predicate CallOk(s: Engine, id: nat, c: Call) {
    match c
    case FindingDestination(r) => r.Transfer? && SourceOk(s.accounts, r)
    case Scoring(r, d) => RouteOk(s.accounts, r, d)
    case Rejecting(r) => SourceOk(s.accounts, r)
    case InTx(r, d, status, stage, w) =>
      && RouteOk(s.accounts, r, d) && StatusOk(r, status)
      && (stage.LockDestination? || stage.IncrementDestination? ==> d.Some?)
      && (HoldsSource(c) ==> r.source in s.locks && s.locks[r.source] == id && s.accounts[r.source].balance >= r.amount)
      && (HoldsDestination(c) ==> d.value in s.locks && s.locks[d.value] == id)
      && (HoldsKey(c) ==> r.key in s.keyLocks && s.keyLocks[r.key] == id && !HasKey(s.txns, r.key))
      && WritesOk(s.accounts, c)
    case _ => true
  }

  predicate Inv(s: Engine) {
    && (forall a :: a in s.locks ==> a in s.accounts)
    && (forall id :: id in s.calls ==> CallOk(s, id, s.calls[id]))
  }

  predicate SameButBalance(accounts: map<Id, Account>, later: map<Id, Account>) {
    && later.Keys == accounts.Keys
    && forall a :: a in accounts ==> later[a] == accounts[a].(balance := later[a].balance)
  }

  /** A step of one call that leaves alone what others may hold: rows and keys it has no lock on. */
  predicate Respects(s: Engine, s': Engine, me: nat) {
    && SameButBalance(s.accounts, s'.accounts)
    && (forall a :: a in s.locks && s.locks[a] != me && a in s.accounts ==>
          a in s'.locks && s'.locks[a] == s.locks[a] && s'.accounts[a] == s.accounts[a])
    && (forall k :: k in s.keyLocks && s.keyLocks[k] != me ==>
          k in s'.keyLocks && s'.keyLocks[k] == s.keyLocks[k] && (HasKey(s'.txns, k) ==> HasKey(s.txns, k)))
  }

  lemma OtherCallStable(s: Engine, s': Engine, me: nat, id: nat, c: Call)
    requires CallOk(s, id, c) && id != me && Respects(s, s', me)
    ensures CallOk(s', id, c)
  {
    if c.InTx? {
      assert HoldsSource(c) ==> s'.accounts[c.r.source] == s.accounts[c.r.source];
      assert HoldsDestination(c) ==> s'.accounts[c.destination.value] == s.accounts[c.destination.value];
    }
  }

  // ---- A serial engine ----

  datatype Books = Books(accounts: map<Id, Account>, txns: seq<Txn>, ledger: seq<Entry>)

  datatype Job = Refuse(r: Request) | Post(r: Request, destination: Option<Id>, status: Status)

  function Paid(accounts: map<Id, Account>, r: Request, destination: Option<Id>): map<Id, Account>
    requires RouteOk(accounts, r, destination)
  {
    var source := accounts[r.source];
    var debited := accounts[r.source := source.(balance := source.balance - r.amount)];
    match destination
    case Some(d) => debited[d := accounts[d].(balance := accounts[d].balance + r.amount)]
    case None => debited
  }

  /** What a whole request may do when nothing runs beside it. */
  predicate Permitted(b: Books, j: Job) {
    match j
    case Refuse(r) => SourceOk(b.accounts, r) && !HasKey(b.txns, r.key)
    case Post(r, d, status) =>
      && RouteOk(b.accounts, r, d) && StatusOk(r, status) && !HasKey(b.txns, r.key)
      && b.accounts[r.source].balance >= r.amount
  }

  function Do(b: Books, j: Job): Books
    requires Permitted(b, j)
  {
    match j
    case Refuse(r) => b.(txns := b.txns + [Row(r, Rejected)])
    case Post(r, d, status) => Books(Paid(b.accounts, r, d), b.txns + [Row(r, status)], b.ledger + Legs(r, d))
  }

  /** The jobs run one after another; None when one is not permitted as its turn comes. */
  function Serial(b0: Books, jobs: seq<Job>): (r: Option<Books>)
    decreases |jobs|
  {
    if jobs == [] then Some(b0)
    else
      match Serial(b0, jobs[..|jobs| - 1])
      case None => None
      case Some(mid) => if Permitted(mid, jobs[|jobs| - 1]) then Some(Do(mid, jobs[|jobs| - 1])) else None
  }

  function Committed(s: Engine): Books { Books(s.accounts, s.txns, s.ledger) }

  /** A step either leaves the committed tables alone or does one whole job. */
  predicate Does(s: Engine, s': Engine, jobs: seq<Job>) {
    if jobs == [] then Committed(s') == Committed(s)
    else |jobs| == 1 && Permitted(Committed(s), jobs[0]) && Committed(s') == Do(Committed(s), jobs[0])
  }

  // ---- Each step keeps the invariant and does at most one job ----

  /** It is enough to look at the stepping call and at what it may touch. */
  lemma Local(s: Engine, s': Engine, me: nat, c: Call)
    requires Inv(s) && Respects(s, s', me) && s'.calls == s.calls[me := c] && CallOk(s', me, c)
    requires forall a :: a in s'.locks ==> a in s'.accounts
    ensures Inv(s')
  {
    forall id | id in s'.calls ensures CallOk(s', id, s'.calls[id]) {
      if id != me { OtherCallStable(s, s', me, id, s.calls[id]); }
    }
  }

  lemma RollKeeps(s: Engine, me: nat, r: Request, o: Outcome)
    requires Inv(s)
    ensures Inv(Roll(s, me, r, o)) && Does(s, Roll(s, me, r, o), [])
  {
    Local(s, Roll(s, me, r, o), me, Done(r, o));
  }

  lemma PublishIsPaid(s: Engine, me: nat, c: Call)
    requires CallOk(s, me, c) && c.InTx? && c.stage.Commit?
    ensures Publish(s.accounts, c.writes.balances) == Paid(s.accounts, c.r, c.destination)
    ensures Permitted(Committed(s), Post(c.r, c.destination, c.status))
    ensures c.writes.txns == [Row(c.r, c.status)] && c.writes.entries == Legs(c.r, c.destination)
  {
  }

  lemma CommitKeeps(s: Engine, me: nat, c: Call)
    requires Inv(s) && me in s.calls && s.calls[me] == c && c.InTx? && c.stage.Commit?
    ensures Inv(TxStep(s, me, c)) && Does(s, TxStep(s, me, c), [Post(c.r, c.destination, c.status)])
  {
    var s' := TxStep(s, me, c);
    assert CallOk(s, me, c);
    PublishIsPaid(s, me, c);
    HasKeyAppend(s.txns, Row(c.r, c.status));
    assert forall a :: a in s.locks ==> a in s.accounts;
    assert CallOk(s', me, Done(c.r, Processed));
    hide Inv, Publish, WritesOk, HasKey, CallOk;
    Local(s, s', me, Done(c.r, Processed));
  }

  lemma LockSourceKeeps(s: Engine, me: nat, c: Call)
    requires Inv(s) && me in s.calls && s.calls[me] == c && c.InTx? && c.stage.LockSource?
    ensures Inv(TxStep(s, me, c)) && Does(s, TxStep(s, me, c), [])
  {
    var s' := TxStep(s, me, c);
    assert CallOk(s, me, c);
    RollKeeps(s, me, c.r, InsufficientBalance);
    assert forall a :: a in s.locks ==> a in s.accounts;
    hide Inv, HasKey;
    if s' != s && s'.calls[me].InTx? {
      assert CallOk(s', me, s'.calls[me]);
      hide CallOk, Release;
      Local(s, s', me, s'.calls[me]);
    }
  }

  lemma LockDestinationKeeps(s: Engine, me: nat, c: Call)
    requires Inv(s) && me in s.calls && s.calls[me] == c && c.InTx? && c.stage.LockDestination?
    ensures Inv(TxStep(s, me, c)) && Does(s, TxStep(s, me, c), [])
  {
    var s' := TxStep(s, me, c);
    assert CallOk(s, me, c);
    assert forall a :: a in s.locks ==> a in s.accounts;
    hide Inv, HasKey;
    if s' != s { Local(s, s', me, s'.calls[me]); }
  }

  lemma InsertKeeps(s: Engine, me: nat, c: Call)
    requires Inv(s) && me in s.calls && s.calls[me] == c && c.InTx? && c.stage.InsertTransaction?
    ensures Inv(TxStep(s, me, c)) && Does(s, TxStep(s, me, c), [])
  {
    var s' := TxStep(s, me, c);
    assert CallOk(s, me, c);
    RollKeeps(s, me, c.r, DuplicateKey);
    assert forall a :: a in s.locks ==> a in s.accounts;
    hide Inv, HasKey;
    if s' != s && s'.calls[me].InTx? { Local(s, s', me, s'.calls[me]); }
  }

  lemma WriteKeeps(s: Engine, me: nat, c: Call)
    requires Inv(s) && me in s.calls && s.calls[me] == c && c.InTx?
    requires c.stage.WriteLedger? || c.stage.DecrementSource? || c.stage.IncrementDestination?
    ensures Inv(TxStep(s, me, c)) && Does(s, TxStep(s, me, c), [])
  {
    var s' := TxStep(s, me, c);
    assert CallOk(s, me, c);
    assert WritesOk(s.accounts, s'.calls[me]);
    assert forall a :: a in s.locks ==> a in s.accounts;
    hide Inv, HasKey;
    Local(s, s', me, s'.calls[me]);
  }

  lemma MoveOn(s: Engine, me: nat, c: Call)
    requires Inv(s) && CallOk(s, me, c)
    ensures Inv(Set(s, me, c)) && Does(s, Set(s, me, c), [])
  {
    Local(s, Set(s, me, c), me, c);
  }

  /** A statement before the transaction changes nothing but its own call. */
  predicate Walks(s: Engine, s': Engine, me: nat) {
    me in s'.calls && s' == Set(s, me, s'.calls[me]) && CallOk(s, me, s'.calls[me])
  }

  lemma LookWalks(s: Engine, me: nat, r: Request)
    ensures Walks(s, Look(s, me, r), me)
  {
    hide WritesOk;
  }

  lemma FindSourceWalks(s: Engine, me: nat, r: Request)
    ensures Walks(s, FindSource(s, me, r), me)
  {
    hide WritesOk;
  }

  lemma FindDestinationWalks(s: Engine, me: nat, r: Request, scan: seq<Id>)
    requires r.Transfer? && SourceOk(s.accounts, r)
    ensures Walks(s, FindDestination(s, me, r, scan), me)
  {
    hide WritesOk;
  }

  lemma ScoreWalks(s: Engine, me: nat, r: Request, d: Option<Id>, risk: Risk)
    requires RouteOk(s.accounts, r, d)
    ensures Walks(s, Score(s, me, r, d, risk), me)
  {
  }

  lemma BeforeTxKeeps(s: Engine, me: nat, c: Call, risk: Risk, scan: seq<Id>)
    requires Inv(s) && CallOk(s, me, c) && !c.InTx? && !c.Rejecting? && !c.Done?
    ensures Inv(Resume(s, me, c, risk, scan)) && Does(s, Resume(s, me, c, risk, scan), [])
  {
    hide Inv;
    hide Does;
    var s' := Resume(s, me, c, risk, scan);
    assert Walks(s, s', me) by {
      hide Walks;
      match c
      case Looking(r) => LookWalks(s, me, r);
      case FindingSource(r) => FindSourceWalks(s, me, r);
      case FindingDestination(r) => FindDestinationWalks(s, me, r, scan);
      case Scoring(r, d) => ScoreWalks(s, me, r, d, risk);
      case _ =>
    }
    MoveOn(s, me, s'.calls[me]);
  }

  /** The job a step does, if any. */
  function JobOf(s: Engine, a: Action): seq<Job> {
    if a.Advance? && a.id in s.calls then
      match s.calls[a.id]
      case Rejecting(r) => if FreeFor(s.keyLocks, r.key, a.id) && !HasKey(s.txns, r.key) then [Refuse(r)] else []
      case InTx(r, d, status, stage, _) => if stage.Commit? then [Post(r, d, status)] else []
      case _ => []
    else []
  }

  lemma RejectionKeeps(s: Engine, me: nat, r: Request)
    requires Inv(s) && SourceOk(s.accounts, r)
    ensures Inv(RecordRejection(s, me, r))
    ensures Does(s, RecordRejection(s, me, r),
                 if FreeFor(s.keyLocks, r.key, me) && !HasKey(s.txns, r.key) then [Refuse(r)] else [])
  {
    var s' := RecordRejection(s, me, r);
    HasKeyAppend(s.txns, Row(r, Rejected));
    assert forall a :: a in s.locks ==> a in s.accounts;
    hide WritesOk, Inv, HasKey, RouteOk, StatusOk;
    if s' != s {
      assert CallOk(s', me, s'.calls[me]);
      hide CallOk;
      Local(s, s', me, s'.calls[me]);
    }
  }

  lemma TxStepKeeps(s: Engine, me: nat, c: Call)
    requires Inv(s) && me in s.calls && s.calls[me] == c && c.InTx?
    ensures Inv(TxStep(s, me, c))
    ensures Does(s, TxStep(s, me, c), if c.stage.Commit? then [Post(c.r, c.destination, c.status)] else [])
  {
    match c.stage
    case LockSource => LockSourceKeeps(s, me, c);
    case LockDestination => LockDestinationKeeps(s, me, c);
    case InsertTransaction => InsertKeeps(s, me, c);
    case Commit => CommitKeeps(s, me, c);
    case _ => WriteKeeps(s, me, c);
  }

  lemma StepKeeps(s: Engine, a: Action)
    requires Inv(s)
    ensures Inv(Next(s, a)) && Does(s, Next(s, a), JobOf(s, a))
  {
    match a
    case Arrive(id, r) =>
      if id !in s.calls { Local(s, Next(s, a), id, Looking(r)); }
    case Abort(id) => if id in s.calls { RollKeeps(s, id, s.calls[id].r, Aborted); }
    case Advance(id, risk, scan) =>
      if id in s.calls {
        assert CallOk(s, id, s.calls[id]);
        match s.calls[id]
        case Rejecting(r) => RejectionKeeps(s, id, r);
        case InTx(_, _, _, _, _) => TxStepKeeps(s, id, s.calls[id]);
        case Done(_, _) =>
        case _ => BeforeTxKeeps(s, id, s.calls[id], risk, scan);
      }
  }

  // ---- Whose jobs they are ----

  /** The answers that stand for a committed row. */
  predicate Settled(c: Call) {
    c.Done? && (c.outcome.Processed? || c.outcome.HighRisk?)
  }

  /** The answer of the call that did a job. */
  function AnswerOf(j: Job): Call {
    Done(j.r, if j.Post? then Processed else HighRisk)
  }

  /** A step changes its own call only; it settles the call exactly when it does the call's job. */
  ghost predicate SettlesOwnCall(s: Engine, s': Engine, id: nat, jobs: seq<Job>) {
    && (forall k :: k != id ==> (k in s'.calls <==> k in s.calls) && (k in s.calls ==> s'.calls[k] == s.calls[k]))
    && (id in s.calls ==> id in s'.calls && s'.calls[id].r == s.calls[id].r)
    && (if jobs != [] then id in s.calls && !s.calls[id].Done? && id in s'.calls && s'.calls[id] == AnswerOf(jobs[0])
        else id in s'.calls && Settled(s'.calls[id]) ==> id in s.calls && s'.calls[id] == s.calls[id])
    && (id in s.calls && s.calls[id].Done? ==> s'.calls[id] == s.calls[id])
  }

  lemma RollSettles(s: Engine, q: Engine, id: nat, r: Request, o: Outcome, jobs: seq<Job>)
    requires id in s.calls && s.calls[id].r == r && !s.calls[id].Done? && q.calls == s.calls
    requires if jobs == [] then !o.Processed? && !o.HighRisk? else AnswerOf(jobs[0]) == Done(r, o)
    ensures SettlesOwnCall(s, Roll(q, id, r, o), id, jobs)
  {
    hide Release;
  }

  lemma MoveSettles(s: Engine, q: Engine, id: nat, c: Call)
    requires id in s.calls && s.calls[id].r == c.r && !s.calls[id].Done? && !Settled(c) && q.calls == s.calls
    ensures SettlesOwnCall(s, Set(q, id, c), id, [])
  {
  }

  lemma TxStepSettles(s: Engine, id: nat, c: Call)
    requires id in s.calls && s.calls[id] == c && c.InTx?
    ensures var jobs := if c.stage.Commit? then [Post(c.r, c.destination, c.status)] else [];
            SettlesOwnCall(s, TxStep(s, id, c), id, jobs)
  {
    hide SettlesOwnCall, Seen, Publish, HasKey, Release;
    var s' := TxStep(s, id, c);
    if c.stage.Commit? {
      var accounts := Publish(s.accounts, c.writes.balances);
      var q := s.(accounts := accounts, txns := s.txns + c.writes.txns, ledger := s.ledger + c.writes.entries);
      RollSettles(s, q, id, c.r, Processed, [Post(c.r, c.destination, c.status)]);
    } else {
      RollSettles(s, s, id, c.r, Aborted, []);
      RollSettles(s, s, id, c.r, InsufficientBalance, []);
      RollSettles(s, s, id, c.r, DuplicateKey, []);
      StayedSettles(s, id);
      if s'.calls[id].InTx? { MoveSettles(s, s'.(calls := s.calls), id, s'.calls[id]); }
    }
  }

  lemma StayedSettles(s: Engine, id: nat)
    requires id in s.calls
    ensures SettlesOwnCall(s, s, id, [])
  {
  }

  lemma SetSettles(s: Engine, id: nat, c: Call)
    requires id in s.calls && s.calls[id].r == c.r && !s.calls[id].Done? && !Settled(c)
    ensures SettlesOwnCall(s, Set(s, id, c), id, [])
  {
  }

  lemma LookSettles(s: Engine, id: nat, r: Request)
    requires id in s.calls && s.calls[id].r == r && !s.calls[id].Done?
    ensures SettlesOwnCall(s, Look(s, id, r), id, []) && SettlesOwnCall(s, FindSource(s, id, r), id, [])
  {
    hide SettlesOwnCall, HasKey;
    SetSettles(s, id, Look(s, id, r).calls[id]);
    SetSettles(s, id, FindSource(s, id, r).calls[id]);
  }

  lemma FindDestinationSettles(s: Engine, id: nat, r: Request, scan: seq<Id>)
    requires id in s.calls && s.calls[id].r == r && !s.calls[id].Done? && r.Transfer?
    ensures SettlesOwnCall(s, FindDestination(s, id, r, scan), id, [])
  {
    hide SettlesOwnCall, FindIban;
    SetSettles(s, id, FindDestination(s, id, r, scan).calls[id]);
  }

  lemma ScoreSettles(s: Engine, id: nat, r: Request, d: Option<Id>, risk: Risk)
    requires id in s.calls && s.calls[id].r == r && !s.calls[id].Done?
    ensures SettlesOwnCall(s, Score(s, id, r, d, risk), id, [])
  {
    hide SettlesOwnCall;
    SetSettles(s, id, Score(s, id, r, d, risk).calls[id]);
  }

  lemma StepSettles(s: Engine, a: Action)
    ensures SettlesOwnCall(s, Next(s, a), a.id, JobOf(s, a))
  {
    if a.Advance? && a.id in s.calls {
      hide TxStep, Look, FindSource, FindDestination, Score;
      var c := s.calls[a.id];
      match c
      case InTx(_, _, _, _, _) => TxStepSettles(s, a.id, c);
      case Rejecting(_) => hide HasKey;
      case Done(_, _) =>
      case Scoring(r, d) => ScoreSettles(s, a.id, r, d, a.risk);
      case FindingDestination(r) => if r.Transfer? { FindDestinationSettles(s, a.id, r, a.scan); }
      case _ => LookSettles(s, a.id, c.r);
    }
  }

  /** Each job belongs to one call of its own, which was answered accordingly; each call answered as
      processed or refused has its job. */
  ghost predicate JobsOfCalls(calls: map<nat, Call>, jobs: seq<Job>, callers: seq<nat>) {
    && |callers| == |jobs|
    && (forall i :: 0 <= i < |jobs| ==> callers[i] in calls && calls[callers[i]] == AnswerOf(jobs[i]))
    && (forall i, j :: 0 <= i < j < |jobs| ==> callers[i] != callers[j])
    && (forall id :: id in calls && Settled(calls[id]) ==> id in callers)
  }

  lemma JobsKept(s: Engine, s': Engine, id: nat, jobs: seq<Job>, callers: seq<nat>, done: seq<Job>)
    requires JobsOfCalls(s.calls, jobs, callers) && SettlesOwnCall(s, s', id, done) && |done| <= 1
    ensures JobsOfCalls(s'.calls, jobs + done, callers + if done == [] then [] else [id])
  {
    var all := callers + if done == [] then [] else [id];
    assert forall i :: 0 <= i < |callers| ==> all[i] == callers[i];
    assert done != [] ==> all[|callers|] == id;
    forall k | k in s'.calls && Settled(s'.calls[k]) ensures k in all {
      if !(k == id && done != []) {
        assert k in callers;
        var i :| 0 <= i < |callers| && callers[i] == k;
        assert all[i] == k;
      }
    }
  }

  /** A call's request is the one that arrived under its number. */
  lemma {:induction false} CallsArrived(s: Engine, run: seq<Action>, id: nat)
    requires Initial(s) && id in Exec(s, run).calls
    ensures Arrive(id, Exec(s, run).calls[id].r) in run
    decreases |run|
  {
    hide Next;
    if run != [] {
      var before, a := run[..|run| - 1], run[|run| - 1];
      StepSettles(Exec(s, before), a);
      if id in Exec(s, before).calls {
        CallsArrived(s, before, id);
      } else {
        NewCallsArrive(Exec(s, before), a, id);
      }
    }
  }

  lemma NewCallsArrive(s: Engine, a: Action, id: nat)
    requires id !in s.calls && id in Next(s, a).calls
    ensures a == Arrive(id, Next(s, a).calls[id].r)
  {
    StepSettles(s, a);
  }

  // ---- Main results ----

  /** However the statements interleave, the committed tables are those of whole requests of the run,
      one after another: each job is the request of a call of its own, which arrived and was answered
      accordingly, and each call answered as processed or refused for its risk has its job. */
  lemma {:induction false} EveryRunIsSerial(s: Engine, run: seq<Action>) returns (jobs: seq<Job>, callers: seq<nat>)
    requires Initial(s)
    ensures Inv(Exec(s, run)) && Serial(Committed(s), jobs) == Some(Committed(Exec(s, run)))
    ensures JobsOfCalls(Exec(s, run).calls, jobs, callers)
    ensures forall i :: 0 <= i < |jobs| ==> Arrive(callers[i], jobs[i].r) in run
    decreases |run|
  {
    if run == [] {
      jobs, callers := [], [];
    } else {
      var before, a := run[..|run| - 1], run[|run| - 1];
      var earlier, earlierCallers := EveryRunIsSerial(s, before);
      var done := JobOf(Exec(s, before), a);
      StepKeeps(Exec(s, before), a);
      StepSettles(Exec(s, before), a);
      jobs, callers := earlier + done, earlierCallers + if done == [] then [] else [a.id];
      JobsKept(Exec(s, before), Exec(s, run), a.id, earlier, earlierCallers, done);
      SerialExtends(Committed(s), earlier, Exec(s, before), Exec(s, run), done);
      forall i | 0 <= i < |jobs| ensures Arrive(callers[i], jobs[i].r) in run {
        CallsArrived(s, run, callers[i]);
      }
    }
  }

  lemma SerialExtends(b0: Books, earlier: seq<Job>, s: Engine, s': Engine, done: seq<Job>)
    requires Serial(b0, earlier) == Some(Committed(s)) && Does(s, s', done)
    ensures Serial(b0, earlier + done) == Some(Committed(s'))
  {
    var jobs := earlier + done;
    if done == [] {
      assert jobs == earlier;
    } else {
      assert jobs[..|jobs| - 1] == earlier && jobs[|jobs| - 1] == done[0];
    }
  }

  predicate NoneNegative(accounts: map<Id, Account>) {
    forall a :: a in accounts ==> accounts[a].balance >= 0
  }

  lemma {:induction false} SerialStaysSolvent(b0: Books, jobs: seq<Job>, b: Books)
    requires Serial(b0, jobs) == Some(b) && NoneNegative(b0.accounts)
    ensures NoneNegative(b.accounts)
    decreases |jobs|
  {
    if jobs != [] {
      var mid := Serial(b0, jobs[..|jobs| - 1]).value;
      SerialStaysSolvent(b0, jobs[..|jobs| - 1], mid);
    }
  }

  lemma StaysSolvent(s: Engine, run: seq<Action>)
    requires Initial(s) && NoneNegative(s.accounts)
    ensures NoneNegative(Exec(s, run).accounts)
  {
    var jobs, callers := EveryRunIsSerial(s, run);
    SerialStaysSolvent(Committed(s), jobs, Committed(Exec(s, run)));
  }

  // ---- One movement per key ----

  /** The ledger entries written under a key, in order. */
  function Under(ledger: seq<Entry>, key: string): seq<Entry> {
    if ledger == [] then []
    else
      var e := ledger[|ledger| - 1];
      Under(ledger[..|ledger| - 1], key) + if e.key == key then [e] else []
  }

  lemma {:induction false} UnderAppend(x: seq<Entry>, y: seq<Entry>, key: string)
    ensures Under(x + y, key) == Under(x, key) + Under(y, key)
    decreases |y|
  {
    if y == [] {
      assert x + y == x;
    } else {
      var e := y[|y| - 1];
      assert (x + y)[..|x + y| - 1] == x + y[..|y| - 1];
      UnderAppend(x, y[..|y| - 1], key);
    }
  }

  lemma UnderLegs(r: Request, d: Option<Id>, key: string)
    ensures Under(Legs(r, d), key) == if key == r.key then Legs(r, d) else []
  {
    var debit := Entry(r.key, r.source, Debit, r.amount);
    assert Under([debit], key) == if key == r.key then [debit] else [];
    if d.Some? {
      assert Legs(r, d)[..1] == [debit];
    }
  }

  /** The entries a committed row accounts for: none when it was refused, one debit for a merchant
      payment, a debit and an equal credit on another account for a transfer. */
  predicate Moves(t: Txn, entries: seq<Entry>) {
    if t.status.Rejected? then entries == []
    else if t.toMerchant then
      |entries| == 1 && entries == [Entry(t.key, entries[0].account, Debit, t.amount)]
    else
      && |entries| == 2 && entries[0].account != entries[1].account
      && entries[0] == Entry(t.key, entries[0].account, Debit, t.amount)
      && entries[1] == Entry(t.key, entries[1].account, Credit, t.amount)
  }

  ghost predicate OncePerKey(txns: seq<Txn>, ledger: seq<Entry>) {
    && (forall i, j :: 0 <= i < j < |txns| ==> txns[i].key != txns[j].key)
    && (forall i :: 0 <= i < |txns| ==> Moves(txns[i], Under(ledger, txns[i].key)))
    && (forall k :: !HasKey(txns, k) ==> Under(ledger, k) == [])
  }

  lemma HasKeyAppend(txns: seq<Txn>, t: Txn)
    ensures forall k :: HasKey(txns + [t], k) <==> HasKey(txns, k) || k == t.key
  {
    forall k ensures HasKey(txns + [t], k) <==> HasKey(txns, k) || k == t.key {
      if HasKey(txns, k) {
        var i :| 0 <= i < |txns| && txns[i].key == k;
        assert (txns + [t])[i].key == k;
      }
      assert (txns + [t])[|txns|].key == t.key;
    }
  }

  lemma OncePerKeyKept(b: Books, j: Job)
    requires OncePerKey(b.txns, b.ledger) && Permitted(b, j)
    ensures OncePerKey(Do(b, j).txns, Do(b, j).ledger)
  {
    hide Under, Paid;
    var b' := Do(b, j);
    var row := b'.txns[|b.txns|];
    var entries := if j.Refuse? then [] else Legs(j.r, j.destination);
    assert Under(b.ledger, row.key) == [];
    forall k ensures Under(b'.ledger, k) == Under(b.ledger, k) + if k == row.key then entries else [] {
      if j.Post? {
        UnderAppend(b.ledger, entries, k);
        UnderLegs(j.r, j.destination, k);
      }
    }
    assert Moves(row, Under(b'.ledger, row.key));
    forall i | 0 <= i < |b.txns| ensures b.txns[i].key != row.key && Moves(b.txns[i], Under(b'.ledger, b.txns[i].key)) {
      assert b.txns[i].key != row.key;
    }
    assert forall k :: HasKey(b.txns, k) ==> HasKey(b'.txns, k) by { HasKeyAppend(b.txns, row); }
  }

  lemma {:induction false} SerialOncePerKey(b0: Books, jobs: seq<Job>, b: Books)
    requires Serial(b0, jobs) == Some(b) && b0.txns == [] && b0.ledger == []
    ensures OncePerKey(b.txns, b.ledger)
    decreases |jobs|
  {
    if jobs != [] {
      var mid := Serial(b0, jobs[..|jobs| - 1]).value;
      SerialOncePerKey(b0, jobs[..|jobs| - 1], mid);
      OncePerKeyKept(mid, jobs[|jobs| - 1]);
    }
  }

  /** Each key has at most one row, and the ledger holds under it exactly that row's movement. */
  lemma EachKeyMovesOnce(s: Engine, run: seq<Action>)
    requires Initial(s)
    ensures OncePerKey(Exec(s, run).txns, Exec(s, run).ledger)
  {
    var jobs, callers := EveryRunIsSerial(s, run);
    SerialOncePerKey(Committed(s), jobs, Committed(Exec(s, run)));
  }

  // ---- Conservation ----

  function Balances(accounts: map<Id, Account>): map<Id, int> {
    map a | a in accounts :: accounts[a].balance
  }

  /** What left the bank through committed merchant payments. */
  function PaidOut(txns: seq<Txn>): nat {
    if txns == [] then 0
    else
      var t := txns[|txns| - 1];
      PaidOut(txns[..|txns| - 1]) + if t.toMerchant && !t.status.Rejected? then t.amount else 0
  }

  lemma PaidTotal(accounts: map<Id, Account>, r: Request, d: Option<Id>)
    requires RouteOk(accounts, r, d)
    ensures Total(Balances(Paid(accounts, r, d))) == Total(Balances(accounts)) - if d.None? then r.amount else 0
  {
    var m := Balances(accounts);
    var debited := m[r.source := m[r.source] - r.amount];
    TotalUpdate(m, r.source, m[r.source] - r.amount);
    if d.Some? {
      TotalUpdate(debited, d.value, m[d.value] + r.amount);
      assert Balances(Paid(accounts, r, d)) == debited[d.value := m[d.value] + r.amount];
    } else {
      assert Balances(Paid(accounts, r, d)) == debited;
    }
  }

  lemma {:induction false} SerialConserves(b0: Books, jobs: seq<Job>, b: Books)
    requires Serial(b0, jobs) == Some(b)
    ensures Total(Balances(b.accounts)) + PaidOut(b.txns) == Total(Balances(b0.accounts)) + PaidOut(b0.txns)
    decreases |jobs|
  {
    if jobs != [] {
      var j := jobs[|jobs| - 1];
      var mid := Serial(b0, jobs[..|jobs| - 1]).value;
      SerialConserves(b0, jobs[..|jobs| - 1], mid);
      assert b.txns[..|b.txns| - 1] == mid.txns;
      if j.Post? { PaidTotal(mid.accounts, j.r, j.destination); }
    }
  }

  /** Money leaves the accounts only through merchant payments. */
  lemma MoneyIsConserved(s: Engine, run: seq<Action>)
    requires Initial(s)
    ensures Total(Balances(Exec(s, run).accounts)) + PaidOut(Exec(s, run).txns) == Total(Balances(s.accounts))
  {
    var jobs, callers := EveryRunIsSerial(s, run);
    SerialConserves(Committed(s), jobs, Committed(Exec(s, run)));
  }

  // ---- Balance and ledger ----

  /** Credits minus debits of an account. */
  function Net(ledger: seq<Entry>, a: Id): int {
    if ledger == [] then 0
    else
      var e := ledger[|ledger| - 1];
      Net(ledger[..|ledger| - 1], a)
      + if e.account != a then 0 else if e.side.Credit? then e.amount as int else 0 - e.amount
  }

  lemma NetLegs(ledger: seq<Entry>, r: Request, d: Option<Id>, a: Id)
    ensures Net(ledger + Legs(r, d), a) == Net(ledger, a)
      - (if a == r.source then r.amount else 0) + if d == Some(a) then r.amount else 0
  {
    var debit := Entry(r.key, r.source, Debit, r.amount);
    assert (ledger + [debit])[..|ledger|] == ledger;
    if d.Some? {
      assert (ledger + Legs(r, d))[..|ledger| + 1] == ledger + [debit];
    }
  }

  predicate SameDrift(b0: Books, b: Books) {
    && b.accounts.Keys == b0.accounts.Keys
    && forall a :: a in b.accounts ==>
        b.accounts[a].balance - Net(b.ledger, a) == b0.accounts[a].balance - Net(b0.ledger, a)
  }

  lemma JobKeepsDrift(b: Books, j: Job)
    requires Permitted(b, j)
    ensures SameDrift(b, Do(b, j))
  {
    if j.Post? {
      forall a | a in b.accounts
        ensures Do(b, j).accounts[a].balance - Net(Do(b, j).ledger, a) == b.accounts[a].balance - Net(b.ledger, a)
      {
        NetLegs(b.ledger, j.r, j.destination, a);
        hide Net, HasKey;
      }
    }
  }

  lemma {:induction false} SerialBalances(b0: Books, jobs: seq<Job>, b: Books)
    requires Serial(b0, jobs) == Some(b)
    ensures SameDrift(b0, b)
    decreases |jobs|
  {
    hide Net;
    if jobs != [] {
      var mid := Serial(b0, jobs[..|jobs| - 1]).value;
      SerialBalances(b0, jobs[..|jobs| - 1], mid);
      JobKeepsDrift(mid, jobs[|jobs| - 1]);
      hide Permitted, Do;
    }
  }

  /** An account's balance is its opening balance plus its ledger credits minus its debits. */
  lemma BalanceIsOpeningPlusLedger(s: Engine, run: seq<Action>, a: Id)
    requires Initial(s) && a in s.accounts
    ensures a in Exec(s, run).accounts
    ensures Exec(s, run).accounts[a].balance == s.accounts[a].balance + Net(Exec(s, run).ledger, a)
  {
    var jobs, callers := EveryRunIsSerial(s, run);
    SerialBalances(Committed(s), jobs, Committed(Exec(s, run)));
  }
}
