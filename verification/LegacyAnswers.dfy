/** What the earlier engine tells its callers: answers agree with the committed tables, and a request
    that runs undisturbed is carried out in full. */
module LegacyAnswers {
  import opened Text
  import opened Legacy
  import opened LegacyProofs

  // ---- Answers are true ----

  predicate Posted(txns: seq<Txn>, r: Request) {
    Row(r, Completed) in txns || Row(r, Pending) in txns
  }

  predicate TrueAnswer(txns: seq<Txn>, r: Request, o: Outcome) {
    match o
    case Processed => Posted(txns, r)
    case HighRisk => Row(r, Rejected) in txns
    case AlreadyProcessed => HasKey(txns, r.key)
    case DuplicateKey => HasKey(txns, r.key)
    case _ => true
  }

  predicate TrueAnswers(s: Engine) {
    forall id :: id in s.calls && s.calls[id].Done? ==> TrueAnswer(s.txns, s.calls[id].r, s.calls[id].outcome)
  }

  lemma TrueAnswerStays(txns: seq<Txn>, more: seq<Txn>, r: Request, o: Outcome)
    requires TrueAnswer(txns, r, o)
    ensures TrueAnswer(txns + more, r, o)
  {
    if HasKey(txns, r.key) {
      var i :| 0 <= i < |txns| && txns[i].key == r.key;
      assert (txns + more)[i].key == r.key;
    }
  }

  /** What a step adds to the committed rows, and the only call it touches. */
  predicate Touches(s: Engine, s': Engine, id: nat) {
    && |s.txns| <= |s'.txns| && s'.txns[..|s.txns|] == s.txns
    && (forall k :: k in s'.calls && k != id ==> k in s.calls && s'.calls[k] == s.calls[k])
    && (id in s'.calls && s'.calls[id].Done? ==>
          || TrueAnswer(s'.txns, s'.calls[id].r, s'.calls[id].outcome)
          || (id in s.calls && s.calls[id] == s'.calls[id]))
  }

  lemma CommitTouches(s: Engine, id: nat, c: Call)
    requires c.InTx? && c.stage.Commit? && CallOk(s, id, c)
    ensures Touches(s, TxStep(s, id, c), id)
  {
    var s' := TxStep(s, id, c);
    assert s'.txns[|s.txns|] == Row(c.r, c.status);
  }

  lemma RejectionTouches(s: Engine, id: nat, r: Request)
    ensures Touches(s, RecordRejection(s, id, r), id) || RecordRejection(s, id, r) == s
  {
    var s' := RecordRejection(s, id, r);
    assert s'.txns == s.txns || s'.txns[|s.txns|] == Row(r, Rejected);
  }

  lemma StatementTouches(s: Engine, id: nat, c: Call)
    requires c.InTx? && !c.stage.Commit? && id in s.calls && s.calls[id] == c
    ensures Touches(s, TxStep(s, id, c), id)
  {
    hide Seen;
  }

  lemma WalkTouches(s: Engine, s': Engine, id: nat)
    requires Walks(s, s', id)
    requires s'.calls[id].Done? ==> TrueAnswer(s.txns, s'.calls[id].r, s'.calls[id].outcome)
    ensures Touches(s, s', id)
  {
    hide CallOk;
  }

  lemma EarlyTouches(s: Engine, id: nat, c: Call, risk: Risk, scan: seq<Id>)
    requires CallOk(s, id, c) && !c.InTx? && !c.Rejecting? && !c.Done?
    ensures Touches(s, Resume(s, id, c, risk, scan), id)
  {
    hide Walks;
    hide Touches;
    match c
    case Looking(r) => LookWalks(s, id, r); WalkTouches(s, Look(s, id, r), id);
    case FindingSource(r) => FindSourceWalks(s, id, r); WalkTouches(s, FindSource(s, id, r), id);
    case FindingDestination(r) =>
      FindDestinationWalks(s, id, r, scan);
      WalkTouches(s, FindDestination(s, id, r, scan), id);
    case Scoring(r, d) => ScoreWalks(s, id, r, d, risk); WalkTouches(s, Score(s, id, r, d, risk), id);
    case _ =>
  }

  lemma ResumeTouches(s: Engine, id: nat, c: Call, risk: Risk, scan: seq<Id>)
    requires CallOk(s, id, c) && id in s.calls && s.calls[id] == c
    ensures Touches(s, Resume(s, id, c, risk, scan), id)
  {
    match c
    case Rejecting(r) => RejectionTouches(s, id, r);
    case InTx(_, _, _, stage, _) => if stage.Commit? { CommitTouches(s, id, c); } else { StatementTouches(s, id, c); }
    case Done(_, _) =>
    case _ => EarlyTouches(s, id, c, risk, scan);
  }

  lemma StepTouches(s: Engine, a: Action)
    requires Inv(s)
    ensures Touches(s, Next(s, a), a.id)
  {
    if a.Advance? && a.id in s.calls {
      assert CallOk(s, a.id, s.calls[a.id]);
      hide Inv, CallOk, Resume, Touches;
      ResumeTouches(s, a.id, s.calls[a.id], a.risk, a.scan);
    }
  }

  lemma StepKeepsAnswers(s: Engine, a: Action)
    requires Inv(s) && TrueAnswers(s)
    ensures TrueAnswers(Next(s, a))
  {
    StepTouches(s, a);
    hide Next, Inv;
    var s' := Next(s, a);
    forall k | k in s'.calls && s'.calls[k].Done? ensures TrueAnswer(s'.txns, s'.calls[k].r, s'.calls[k].outcome) {
      if k in s.calls && s'.calls[k] == s.calls[k] {
        TrueAnswerStays(s.txns, s'.txns[|s.txns|..], s.calls[k].r, s.calls[k].outcome);
        assert s'.txns == s.txns + s'.txns[|s.txns|..];
      }
    }
  }

  /** "Completed", "pending", "rejected" and "already processed" are said only of rows that are there. */
  lemma {:induction false} AnswersAreTrue(s: Engine, run: seq<Action>)
    requires Initial(s)
    ensures TrueAnswers(Exec(s, run))
    decreases |run|
  {
    if run != [] {
      var before := run[..|run| - 1];
      AnswersAreTrue(s, before);
      var jobs, callers := EveryRunIsSerial(s, before);
      StepKeepsAnswers(Exec(s, before), run[|run| - 1]);
    }
  }

  // ---- A request that runs undisturbed ----

  predicate OnlyMine(s: Engine, id: nat) {
    && (forall a :: a in s.locks ==> s.locks[a] == id)
    && (forall k :: k in s.keyLocks ==> s.keyLocks[k] == id)
  }

  /** The call's statements in order, with nothing in between. */
  function Drive(s: Engine, id: nat, risk: Risk, scan: seq<Id>, n: nat): Engine
    decreases n
  {
    if n == 0 then s else Drive(Next(s, Advance(id, risk, scan)), id, risk, scan, n - 1)
  }

  /** What a whole request does to the books when it runs alone, and what it answers. */
  function Alone(b: Books, r: Request, risk: Risk, scan: seq<Id>): (Outcome, seq<Job>) {
    var destination := if r.Transfer? then FindIban(scan, b.accounts, r.iban) else None;
    if HasKey(b.txns, r.key) then (AlreadyProcessed, [])
    else if r.source !in b.accounts || b.accounts[r.source].user != r.user then
      (if r.Transfer? then SourceNotFound else InvalidSource, [])
    else if !b.accounts[r.source].isActive then (if r.Transfer? then SourceInactive else InvalidSource, [])
    else if r.Transfer? && destination.None? then (DestinationNotFound, [])
    else if destination == Some(r.source) then (SameAccount, [])
    else if risk.High? then (HighRisk, [Refuse(r)])
    else if b.accounts[r.source].balance < r.amount then (InsufficientBalance, [])
    else (Processed, [Post(r, destination, if risk.Medium? && r.Transfer? then Pending else Completed)])
  }

  function Left(c: Call): nat {
    match c
    case Done(_, _) => 0
    case Rejecting(_) => 7
    case Scoring(_, _) => 8
    case FindingDestination(_) => 9
    case FindingSource(_) => 10
    case Looking(_) => 11
    case InTx(_, _, _, stage, _) =>
      match stage
      case Commit => 1
      case IncrementDestination => 2
      case DecrementSource => 3
      case WriteLedger => 4
      case InsertTransaction => 5
      case LockDestination => 6
      case LockSource => 7
  }

  /** Where an undisturbed call can be, given what the books held when it began. */
  predicate Fits(b: Books, c: Call, risk: Risk, scan: seq<Id>) {
    match c
    case Looking(_) => true
    case FindingSource(r) => !HasKey(b.txns, r.key)
    case FindingDestination(r) => r.Transfer? && SourceFine(b, r)
    case Scoring(r, d) => SourceFine(b, r) && DestinationFine(b, r, d, scan)
    case Rejecting(r) =>
      && risk.High? && SourceFine(b, r)
      && DestinationFine(b, r, if r.Transfer? then FindIban(scan, b.accounts, r.iban) else None, scan)
    case InTx(r, d, status, stage, _) =>
      && !risk.High? && status == (if risk.Medium? && r.Transfer? then Pending else Completed)
      && SourceFine(b, r) && DestinationFine(b, r, d, scan)
      && (stage.LockSource? || b.accounts[r.source].balance >= r.amount)
    case Done(_, _) => false
  }

  predicate SourceFine(b: Books, r: Request) {
    !HasKey(b.txns, r.key) && SourceOk(b.accounts, r)
  }

  predicate DestinationFine(b: Books, r: Request, d: Option<Id>, scan: seq<Id>) {
    d != Some(r.source) && if r.Transfer? then d.Some? && d == FindIban(scan, b.accounts, r.iban) else d.None?
  }

  /** Nothing blocks a call whose locks are the only ones: each statement moves it on, and the last
      one answers as Alone says and has done just that. */
  predicate Progress(s: Engine, s': Engine, id: nat, risk: Risk, scan: seq<Id>)
    requires id in s.calls
  {
    var c := s.calls[id];
    var (o, jobs) := Alone(Committed(s), c.r, risk, scan);
    && id in s'.calls && s'.calls[id].r == c.r && OnlyMine(s', id)
    && if s'.calls[id].Done? then s'.calls[id].outcome == o && Does(s, s', jobs)
       else
         && Left(s'.calls[id]) < Left(c) && Committed(s') == Committed(s)
         && Fits(Committed(s), s'.calls[id], risk, scan)
  }

  lemma TxProgress(s: Engine, id: nat, c: Call, risk: Risk, scan: seq<Id>)
    requires id in s.calls && s.calls[id] == c && CallOk(s, id, c) && OnlyMine(s, id)
    requires c.InTx? && !c.stage.Commit? && Fits(Committed(s), c, risk, scan)
    ensures Progress(s, TxStep(s, id, c), id, risk, scan)
  {
    hide FindIban, HasKey, Publish, WritesOk;
  }

  lemma CommitProgress(s: Engine, id: nat, c: Call, risk: Risk, scan: seq<Id>)
    requires id in s.calls && s.calls[id] == c && Inv(s) && OnlyMine(s, id)
    requires c.InTx? && c.stage.Commit? && Fits(Committed(s), c, risk, scan)
    ensures Progress(s, TxStep(s, id, c), id, risk, scan)
  {
    CommitKeeps(s, id, c);
    hide Does;
  }

  lemma WalkProgress(s: Engine, s': Engine, id: nat, risk: Risk, scan: seq<Id>)
    requires id in s.calls && OnlyMine(s, id) && Walks(s, s', id) && s'.calls[id].r == s.calls[id].r
    requires var c' := s'.calls[id];
             if c'.Done? then Alone(Committed(s), c'.r, risk, scan) == (c'.outcome, [])
             else Left(c') < Left(s.calls[id]) && Fits(Committed(s), c', risk, scan)
    ensures Progress(s, s', id, risk, scan)
  {
    hide CallOk;
    hide Alone;
    hide Fits;
  }

  lemma SourceProgress(s: Engine, id: nat, r: Request, risk: Risk, scan: seq<Id>)
    requires id in s.calls && s.calls[id] == FindingSource(r) && OnlyMine(s, id) && !HasKey(s.txns, r.key)
    ensures Progress(s, FindSource(s, id, r), id, risk, scan)
  {
    FindSourceWalks(s, id, r);
    hide Walks;
    hide Progress;
    hide FindIban;
    hide HasKey;
    WalkProgress(s, FindSource(s, id, r), id, risk, scan);
  }

  lemma DestinationProgress(s: Engine, id: nat, r: Request, risk: Risk, scan: seq<Id>)
    requires id in s.calls && s.calls[id] == FindingDestination(r) && OnlyMine(s, id)
    requires r.Transfer? && SourceFine(Committed(s), r)
    ensures Progress(s, FindDestination(s, id, r, scan), id, risk, scan)
  {
    FindDestinationWalks(s, id, r, scan);
    hide Walks;
    hide Progress;
    hide FindIban;
    hide HasKey;
    WalkProgress(s, FindDestination(s, id, r, scan), id, risk, scan);
  }

  lemma EarlyProgress(s: Engine, id: nat, c: Call, risk: Risk, scan: seq<Id>)
    requires id in s.calls && s.calls[id] == c && CallOk(s, id, c) && OnlyMine(s, id)
    requires !c.InTx? && !c.Rejecting? && Fits(Committed(s), c, risk, scan)
    ensures Progress(s, Resume(s, id, c, risk, scan), id, risk, scan)
  {
    hide Walks;
    hide CallOk;
    hide Progress;
    match c
    case Looking(r) => LookWalks(s, id, r); WalkProgress(s, Look(s, id, r), id, risk, scan);
    case FindingSource(r) => SourceProgress(s, id, r, risk, scan);
    case FindingDestination(r) => DestinationProgress(s, id, r, risk, scan);
    case Scoring(r, d) => ScoreWalks(s, id, r, d, risk); WalkProgress(s, Score(s, id, r, d, risk), id, risk, scan);
    case _ =>
  }

  lemma RejectionProgress(s: Engine, id: nat, c: Call, risk: Risk, scan: seq<Id>)
    requires id in s.calls && s.calls[id] == c && OnlyMine(s, id)
    requires c.Rejecting? && Fits(Committed(s), c, risk, scan)
    ensures Progress(s, RecordRejection(s, id, c.r), id, risk, scan)
  {
  }

  lemma StepProgress(s: Engine, id: nat, risk: Risk, scan: seq<Id>)
    requires Inv(s) && OnlyMine(s, id) && id in s.calls && Fits(Committed(s), s.calls[id], risk, scan)
    ensures Progress(s, Next(s, Advance(id, risk, scan)), id, risk, scan)
  {
    var c := s.calls[id];
    assert CallOk(s, id, c);
    if c.Rejecting? {
      RejectionProgress(s, id, c, risk, scan);
    } else if !c.InTx? {
      EarlyProgress(s, id, c, risk, scan);
    } else if c.stage.Commit? {
      CommitProgress(s, id, c, risk, scan);
    } else {
      TxProgress(s, id, c, risk, scan);
    }
  }

  lemma {:induction false} DriveToTheEnd(s: Engine, id: nat, risk: Risk, scan: seq<Id>, n: nat)
    requires Inv(s) && OnlyMine(s, id) && id in s.calls && Fits(Committed(s), s.calls[id], risk, scan)
    requires n >= Left(s.calls[id])
    ensures var s' := Drive(s, id, risk, scan, n);
            var (o, jobs) := Alone(Committed(s), s.calls[id].r, risk, scan);
            id in s'.calls && s'.calls[id] == Done(s.calls[id].r, o) && Does(s, s', jobs)
    decreases n
  {
    hide Next;
    var s' := Next(s, Advance(id, risk, scan));
    StepProgress(s, id, risk, scan);
    StepKeeps(s, Advance(id, risk, scan));
    if !s'.calls[id].Done? {
      DriveToTheEnd(s', id, risk, scan, n - 1);
    } else {
      DoneStays(s', id, risk, scan, n - 1);
    }
  }

  lemma {:induction false} DoneStays(s: Engine, id: nat, risk: Risk, scan: seq<Id>, n: nat)
    requires id in s.calls && s.calls[id].Done?
    ensures Drive(s, id, risk, scan, n) == s
    decreases n
  {
    if n > 0 { DoneStays(s, id, risk, scan, n - 1); }
  }

  /** A request that arrives at an idle engine is answered within eleven statements, and its effect
      is the whole job its answer stands for. */
  lemma UndisturbedRequest(s: Engine, id: nat, r: Request, risk: Risk, scan: seq<Id>, n: nat)
    requires Inv(s) && OnlyMine(s, id) && id !in s.calls && n >= 11
    ensures var s' := Drive(Next(s, Arrive(id, r)), id, risk, scan, n);
            var (o, jobs) := Alone(Committed(s), r, risk, scan);
            id in s'.calls && s'.calls[id] == Done(r, o) && Does(s, s', jobs)
  {
    StepKeeps(s, Arrive(id, r));
    DriveToTheEnd(Next(s, Arrive(id, r)), id, risk, scan, n);
  }
}
