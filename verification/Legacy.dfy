/** The earlier transfer engine, statement by statement: row locks, unique idempotency keys and
    uncommitted writes are explicit. */
module Legacy {
  import opened Text

  type Id = string

  datatype Account = Account(user: string, iban: string, isActive: bool, balance: int)

  datatype Status = Completed | Pending | Rejected
  datatype Txn = Txn(key: string, amount: nat, status: Status, toMerchant: bool)

  datatype Side = Debit | Credit
  datatype Entry = Entry(key: string, account: Id, side: Side, amount: nat)

  datatype Request =
    | Transfer(user: string, key: string, source: Id, iban: string, amount: nat)
    | Payment(user: string, key: string, source: Id, merchant: string, amount: nat)

  datatype Risk = Low | Medium | High

  datatype Outcome =
    | AlreadyProcessed | SourceNotFound | SourceInactive | InvalidSource | DestinationNotFound | SameAccount
    | HighRisk | InsufficientBalance | DuplicateKey | Aborted | Processed

  /** The statements of the database transaction, in order. */
  datatype Stage =
    | LockSource | LockDestination | InsertTransaction | WriteLedger
    | DecrementSource | IncrementDestination | Commit

  /** What a transaction has written and not yet committed. */
  datatype Writes = Writes(txns: seq<Txn>, entries: seq<Entry>, balances: map<Id, int>)

  const NOTHING := Writes([], [], map[])

  datatype Call =
    | Looking(r: Request)
    | FindingSource(r: Request)
    | FindingDestination(r: Request)
    | Scoring(r: Request, destination: Option<Id>)
    | Rejecting(r: Request)
    | InTx(r: Request, destination: Option<Id>, status: Status, stage: Stage, writes: Writes)
    | Done(r: Request, outcome: Outcome)

  /** Committed tables, locks and calls. A row lock or a key lock names the call that holds it. */
  datatype Engine = Engine(
    accounts: map<Id, Account>, txns: seq<Txn>, ledger: seq<Entry>,
    locks: map<Id, nat>, keyLocks: map<string, nat>, calls: map<nat, Call>)

  datatype Action =
    | Arrive(id: nat, r: Request)
    | Advance(id: nat, risk: Risk, scan: seq<Id>)
    | Abort(id: nat)

  predicate HasKey(txns: seq<Txn>, key: string) {
    exists i :: 0 <= i < |txns| && txns[i].key == key
  }

  function FindIban(scan: seq<Id>, accounts: map<Id, Account>, iban: string): (r: Option<Id>)
    ensures r.Some? ==> r.value in scan && r.value in accounts && accounts[r.value].iban == iban
    ensures r.None? ==> forall a :: a in scan && a in accounts ==> accounts[a].iban != iban
  {
    if scan == [] then None
    else if scan[0] in accounts && accounts[scan[0]].iban == iban then Some(scan[0])
    else FindIban(scan[1..], accounts, iban)
  }

  function Set(s: Engine, id: nat, c: Call): Engine {
    s.(calls := s.calls[id := c])
  }

  function Release<K(==)>(locks: map<K, nat>, id: nat): map<K, nat> {
    map k | k in locks && locks[k] != id :: locks[k]
  }

  /** Rollback: the writes are dropped and the locks are free again. */
  function Roll(s: Engine, id: nat, r: Request, outcome: Outcome): Engine {
    s.(locks := Release(s.locks, id), keyLocks := Release(s.keyLocks, id), calls := s.calls[id := Done(r, outcome)])
  }

  predicate FreeFor<K(==)>(locks: map<K, nat>, k: K, id: nat) {
    k in locks ==> locks[k] == id
  }

  // ---- Before the transaction ----

  function Look(s: Engine, id: nat, r: Request): Engine {
    if HasKey(s.txns, r.key) then Set(s, id, Done(r, AlreadyProcessed)) else Set(s, id, FindingSource(r))
  }

  function FindSource(s: Engine, id: nat, r: Request): Engine {
    if r.source !in s.accounts || s.accounts[r.source].user != r.user then
      Set(s, id, Done(r, if r.Transfer? then SourceNotFound else InvalidSource))
    else if !s.accounts[r.source].isActive then
      Set(s, id, Done(r, if r.Transfer? then SourceInactive else InvalidSource))
    else if r.Transfer? then Set(s, id, FindingDestination(r))
    else Set(s, id, Scoring(r, None))
  }

  function FindDestination(s: Engine, id: nat, r: Request, scan: seq<Id>): Engine
    requires r.Transfer?
  {
    match FindIban(scan, s.accounts, r.iban)
    case None => Set(s, id, Done(r, DestinationNotFound))
    case Some(d) => if d == r.source then Set(s, id, Done(r, SameAccount)) else Set(s, id, Scoring(r, Some(d)))
  }

  /** A medium risk is recorded as PENDING on transfers only; the money moves either way. */
  function Score(s: Engine, id: nat, r: Request, destination: Option<Id>, risk: Risk): Engine {
    if risk.High? then Set(s, id, Rejecting(r))
    else
      var status := if risk.Medium? && r.Transfer? then Pending else Completed;
      Set(s, id, InTx(r, destination, status, LockSource, NOTHING))
  }

  /** The REJECTED row is a statement of its own; the unique key makes it wait or fail. */
  function RecordRejection(s: Engine, id: nat, r: Request): Engine {
    if !FreeFor(s.keyLocks, r.key, id) then s
    else if HasKey(s.txns, r.key) then Set(s, id, Done(r, DuplicateKey))
    else Set(s.(txns := s.txns + [Txn(r.key, r.amount, Rejected, r.Payment?)]), id, Done(r, HighRisk))
  }

  // ---- Inside the transaction ----

  /** The balance as this transaction sees it: its own write, or the committed value. */
  function Seen(s: Engine, w: Writes, a: Id): int
    requires a in s.accounts
  {
    if a in w.balances then w.balances[a] else s.accounts[a].balance
  }

  function Publish(accounts: map<Id, Account>, balances: map<Id, int>): map<Id, Account> {
    map a | a in accounts :: if a in balances then accounts[a].(balance := balances[a]) else accounts[a]
  }

  function TxStep(s: Engine, id: nat, c: Call): Engine
    requires c.InTx?
  {
    var r, w := c.r, c.writes;
    match c.stage
    case LockSource =>
      if r.source !in s.accounts then Roll(s, id, r, Aborted)
      else if !FreeFor(s.locks, r.source, id) then s
      else if s.accounts[r.source].balance < r.amount then Roll(s, id, r, InsufficientBalance)
      else Set(s.(locks := s.locks[r.source := id]), id,
               c.(stage := if c.destination.Some? then LockDestination else InsertTransaction))
    case LockDestination =>
      if c.destination.None? || !FreeFor(s.locks, c.destination.value, id) then s
      else Set(s.(locks := s.locks[c.destination.value := id]), id, c.(stage := InsertTransaction))
    case InsertTransaction =>
      if !FreeFor(s.keyLocks, r.key, id) then s
      else if HasKey(s.txns, r.key) then Roll(s, id, r, DuplicateKey)
      else Set(s.(keyLocks := s.keyLocks[r.key := id]), id,
               c.(stage := WriteLedger, writes := w.(txns := w.txns + [Txn(r.key, r.amount, c.status, r.Payment?)])))
    case WriteLedger =>
      var debit := Entry(r.key, r.source, Debit, r.amount);
      var entries := match c.destination
                     case Some(d) => [debit, Entry(r.key, d, Credit, r.amount)]
                     case None => [debit];
      Set(s, id, c.(stage := DecrementSource, writes := w.(entries := w.entries + entries)))
    case DecrementSource =>
      if r.source !in s.accounts then Roll(s, id, r, Aborted)
      else Set(s, id, c.(stage := if c.destination.Some? then IncrementDestination else Commit,
                         writes := w.(balances := w.balances[r.source := Seen(s, w, r.source) - r.amount])))
    case IncrementDestination =>
      if c.destination.None? || c.destination.value !in s.accounts then Roll(s, id, r, Aborted)
      else
        var d := c.destination.value;
        Set(s, id, c.(stage := Commit, writes := w.(balances := w.balances[d := Seen(s, w, d) + r.amount])))
    case Commit =>
      var accounts := Publish(s.accounts, w.balances);
      Roll(s.(accounts := accounts, txns := s.txns + w.txns, ledger := s.ledger + w.entries), id, r, Processed)
  }

  function Resume(s: Engine, id: nat, c: Call, risk: Risk, scan: seq<Id>): Engine {
    match c
    case Looking(r) => Look(s, id, r)
    case FindingSource(r) => FindSource(s, id, r)
    case FindingDestination(r) => if r.Transfer? then FindDestination(s, id, r, scan) else s
    case Scoring(r, destination) => Score(s, id, r, destination, risk)
    case Rejecting(r) => RecordRejection(s, id, r)
    case InTx(_, _, _, _, _) => TxStep(s, id, c)
    case Done(_, _) => s
  }

  /** A waiting statement changes nothing; the database may abort any open transaction, as it
      does to break a deadlock. */
  function Next(s: Engine, a: Action): Engine {
    match a
    case Arrive(id, r) => if id in s.calls then s else Set(s, id, Looking(r))
    case Advance(id, risk, scan) => if id in s.calls then Resume(s, id, s.calls[id], risk, scan) else s
    case Abort(id) => if id in s.calls && s.calls[id].InTx? then Roll(s, id, s.calls[id].r, Aborted) else s
  }

  function Exec(s: Engine, run: seq<Action>): Engine
    decreases |run|
  {
    if run == [] then s else Next(Exec(s, run[..|run| - 1]), run[|run| - 1])
  }

  predicate Initial(s: Engine) {
    s.txns == [] && s.ledger == [] && s.locks == map[] && s.keyLocks == map[] && s.calls == map[]
  }
}
