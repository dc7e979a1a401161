/** The earlier engine as it runs: tables, locks and open transactions changed in place, one
    statement at a time. */
module LegacyBank {
  import opened Text
  import opened Legacy
  import opened LegacyProofs

  class Server {
    var accounts: map<Id, Account>
    var txns: seq<Txn>
    var ledger: seq<Entry>
    var locks: map<Id, nat>
    var keyLocks: map<string, nat>
    var calls: map<nat, Call>

    function State(): Engine
      reads this
    {
      Engine(accounts, txns, ledger, locks, keyLocks, calls)
    }

    constructor (opening: map<Id, Account>)
      ensures Initial(State()) && accounts == opening
    {
      accounts, txns, ledger := opening, [], [];
      locks, keyLocks, calls := map[], map[], map[];
    }

    /** findUnique on the idempotency key. */
    method KeyTaken(key: string) returns (taken: bool)
      ensures taken <==> HasKey(txns, key)
    {
      taken := false;
      for i := 0 to |txns|
        invariant taken <==> exists j :: 0 <= j < i && txns[j].key == key
      {
        if txns[i].key == key { taken := true; }
      }
    }

    /** findUnique on the IBAN, rows visited in the order of the scan. */
    method FindByIban(scan: seq<Id>, iban: string) returns (found: Option<Id>)
      ensures found == FindIban(scan, accounts, iban)
    {
      var i := 0;
      while i < |scan|
        invariant 0 <= i <= |scan| && FindIban(scan, accounts, iban) == FindIban(scan[i..], accounts, iban)
      {
        if scan[i] in accounts && accounts[scan[i]].iban == iban { return Some(scan[i]); }
        i := i + 1;
      }
      found := None;
    }

    /** SELECT … FOR UPDATE: granted when no other transaction holds the row. */
    method LockRow(id: nat, a: Id) returns (granted: bool)
      modifies this`locks
      ensures granted == FreeFor(old(locks), a, id)
      ensures locks == if granted then old(locks)[a := id] else old(locks)
    {
      granted := a !in locks || locks[a] == id;
      if granted { locks := locks[a := id]; }
    }

    method Finish(id: nat, r: Request, outcome: Outcome)
      modifies this`locks, this`keyLocks, this`calls
      ensures State() == Roll(old(State()), id, r, outcome)
    {
      locks, keyLocks := Release(locks, id), Release(keyLocks, id);
      calls := calls[id := Done(r, outcome)];
    }

    // ---- Before the transaction ----

    method FindExisting(id: nat, r: Request)
      modifies this`calls
      ensures State() == Look(old(State()), id, r)
    {
      var taken := KeyTaken(r.key);
      calls := calls[id := if taken then Done(r, AlreadyProcessed) else FindingSource(r)];
    }

    method ValidateSource(id: nat, r: Request)
      modifies this`calls
      ensures State() == FindSource(old(State()), id, r)
    {
      if r.source !in accounts || accounts[r.source].user != r.user {
        calls := calls[id := Done(r, if r.Transfer? then SourceNotFound else InvalidSource)];
      } else if !accounts[r.source].isActive {
        calls := calls[id := Done(r, if r.Transfer? then SourceInactive else InvalidSource)];
      } else if r.Transfer? {
        calls := calls[id := FindingDestination(r)];
      } else {
        calls := calls[id := Scoring(r, None)];
      }
    }

    method ValidateDestination(id: nat, r: Request, scan: seq<Id>)
      requires r.Transfer?
      modifies this`calls
      ensures State() == FindDestination(old(State()), id, r, scan)
    {
      var found := FindByIban(scan, r.iban);
      if found.None? {
        calls := calls[id := Done(r, DestinationNotFound)];
      } else if found.value == r.source {
        calls := calls[id := Done(r, SameAccount)];
      } else {
        calls := calls[id := Scoring(r, found)];
      }
    }

    method CreateRejected(id: nat, r: Request)
      modifies this`txns, this`calls
      ensures State() == RecordRejection(old(State()), id, r)
    {
      if r.key in keyLocks && keyLocks[r.key] != id { return; }
      var taken := KeyTaken(r.key);
      if taken {
        calls := calls[id := Done(r, DuplicateKey)];
      } else {
        txns := txns + [Txn(r.key, r.amount, Rejected, r.Payment?)];
        calls := calls[id := Done(r, HighRisk)];
      }
    }

    // ---- Inside the transaction ----

    method LockSourceRow(id: nat, c: Call)
      requires c.InTx? && c.stage.LockSource?
      modifies this`locks, this`keyLocks, this`calls
      ensures State() == TxStep(old(State()), id, c)
    {
      if c.r.source !in accounts { Finish(id, c.r, Aborted); return; }
      var free := c.r.source !in locks || locks[c.r.source] == id;
      if !free { return; }
      if accounts[c.r.source].balance < c.r.amount {
        Finish(id, c.r, InsufficientBalance);
      } else {
        var _ := LockRow(id, c.r.source);
        calls := calls[id := c.(stage := if c.destination.Some? then LockDestination else InsertTransaction)];
      }
    }

    method LockDestinationRow(id: nat, c: Call)
      requires c.InTx? && c.stage.LockDestination?
      modifies this`locks, this`calls
      ensures State() == TxStep(old(State()), id, c)
    {
      if c.destination.None? { return; }
      var granted := LockRow(id, c.destination.value);
      if granted { calls := calls[id := c.(stage := InsertTransaction)]; }
    }

    method CreateTransaction(id: nat, c: Call)
      requires c.InTx? && c.stage.InsertTransaction?
      modifies this`locks, this`keyLocks, this`calls
      ensures State() == TxStep(old(State()), id, c)
    {
      if c.r.key in keyLocks && keyLocks[c.r.key] != id { return; }
      var taken := KeyTaken(c.r.key);
      if taken { Finish(id, c.r, DuplicateKey); return; }
      keyLocks := keyLocks[c.r.key := id];
      var row := Txn(c.r.key, c.r.amount, c.status, c.r.Payment?);
      calls := calls[id := c.(stage := WriteLedger, writes := c.writes.(txns := c.writes.txns + [row]))];
    }

    method CreateEntries(id: nat, c: Call)
      requires c.InTx? && c.stage.WriteLedger?
      modifies this`calls
      ensures State() == TxStep(old(State()), id, c)
    {
      var entries := [Entry(c.r.key, c.r.source, Debit, c.r.amount)];
      if c.destination.Some? {
        entries := entries + [Entry(c.r.key, c.destination.value, Credit, c.r.amount)];
      }
      assert entries == Legs(c.r, c.destination);
      calls := calls[id := c.(stage := DecrementSource, writes := c.writes.(entries := c.writes.entries + entries))];
    }

    method DecrementBalance(id: nat, c: Call)
      requires c.InTx? && c.stage.DecrementSource?
      modifies this`locks, this`keyLocks, this`calls
      ensures State() == TxStep(old(State()), id, c)
    {
      var a := c.r.source;
      if a !in accounts { Finish(id, c.r, Aborted); return; }
      var seen := if a in c.writes.balances then c.writes.balances[a] else accounts[a].balance;
      var next := if c.destination.Some? then IncrementDestination else Commit;
      calls := calls[id := c.(stage := next,
        writes := c.writes.(balances := c.writes.balances[a := seen - c.r.amount]))];
    }

    method IncrementBalance(id: nat, c: Call)
      requires c.InTx? && c.stage.IncrementDestination?
      modifies this`locks, this`keyLocks, this`calls
      ensures State() == TxStep(old(State()), id, c)
    {
      if c.destination.None? || c.destination.value !in accounts { Finish(id, c.r, Aborted); return; }
      var a := c.destination.value;
      var seen := if a in c.writes.balances then c.writes.balances[a] else accounts[a].balance;
      calls := calls[id := c.(stage := Commit,
        writes := c.writes.(balances := c.writes.balances[a := seen + c.r.amount]))];
    }

    method CommitWrites(id: nat, c: Call)
      requires c.InTx? && c.stage.Commit?
      modifies this
      ensures State() == TxStep(old(State()), id, c)
    {
      var w := c.writes;
      accounts := map a | a in accounts :: if a in w.balances then accounts[a].(balance := w.balances[a])
        else accounts[a];
      txns := txns + w.txns;
      ledger := ledger + w.entries;
      Finish(id, c.r, Processed);
    }

    method Transaction(id: nat, c: Call)
      requires c.InTx?
      modifies this
      ensures State() == TxStep(old(State()), id, c)
    {
      match c.stage
      case LockSource => LockSourceRow(id, c);
      case LockDestination => LockDestinationRow(id, c);
      case InsertTransaction => CreateTransaction(id, c);
      case WriteLedger => CreateEntries(id, c);
      case DecrementSource => DecrementBalance(id, c);
      case IncrementDestination => IncrementBalance(id, c);
      case Commit => CommitWrites(id, c);
    }

    // ---- The whole engine ----

    method Step(a: Action)
      modifies this
      ensures State() == Next(old(State()), a)
    {
      match a
      case Arrive(id, r) =>
        if id !in calls { calls := calls[id := Looking(r)]; }
      case Abort(id) =>
        if id in calls && calls[id].InTx? { Finish(id, calls[id].r, Aborted); }
      case Advance(id, risk, scan) =>
        if id in calls {
          match calls[id]
          case Looking(r) => FindExisting(id, r);
          case FindingSource(r) => ValidateSource(id, r);
          case FindingDestination(r) => if r.Transfer? { ValidateDestination(id, r, scan); }
          case Scoring(r, d) =>
            var status := if risk.Medium? && r.Transfer? then Pending else Completed;
            calls := calls[id := if risk.High? then Rejecting(r) else InTx(r, d, status, LockSource, NOTHING)];
          case Rejecting(r) => CreateRejected(id, r);
          case InTx(_, _, _, _, _) => Transaction(id, calls[id]);
          case Done(_, _) =>
        }
    }

    /** The engine under load: whatever the schedule, it ends where the step system does, with the
        books of a serial run. */
    method RunAll(run: seq<Action>) returns (ghost jobs: seq<Job>, ghost callers: seq<nat>)
      requires Initial(State())
      modifies this
      ensures State() == Exec(old(State()), run)
      ensures Serial(Committed(old(State())), jobs) == Some(Committed(State()))
      ensures JobsOfCalls(calls, jobs, callers) && forall i :: 0 <= i < |jobs| ==> Arrive(callers[i], jobs[i].r) in run
    {
      var i := 0;
      while i < |run|
        invariant 0 <= i <= |run| && State() == Exec(old(State()), run[..i])
      {
        assert run[..i + 1][..i] == run[..i];
        Step(run[i]);
        i := i + 1;
      }
      assert run[..i] == run;
      jobs, callers := EveryRunIsSerial(old(State()), run);
    }
  }
}
