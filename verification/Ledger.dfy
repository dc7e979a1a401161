/** The double-entry ledger behind the cached balances, over any run of the four posting routes. */
module Ledger {
  import opened Text
  import opened Rows
  import opened Requests
  import opened Posting
  import opened Protocol
  import opened Frames
  import opened Totals

  // ---- What one step does to the money ----

  datatype MoneyChange = Still | Opens(user: UserId, profile: Id, account: Id, iban: string) | Moves(m: Movement)

  /** The conditions under which the routes let a movement through. */
  predicate Allowed(db: Db, m: Movement) {
    && FromOf(m) in db.accounts && ToOf(m) in db.accounts && TxnOf(m) !in db.txns
    && (m.Payment? ==> db.accounts[FromOf(m)].balance >= AmountOf(m) && (m.p.user, m.p.key) !in db.keys)
    && (m.Funding? ==> db.accounts[FromOf(m)].isSystem && !db.accounts[ToOf(m)].isSystem)
  }

  predicate Changes(db: Db, db': Db, c: MoneyChange) {
    match c
    case Still => db'.accounts == db.accounts && db'.ledger == db.ledger && db'.txns == db.txns && db'.keys == db.keys
    case Opens(user, profile, account, iban) =>
      CanRegister(db, user, account, iban) && db' == OpenAccount(db, user, profile, account, iban)
    case Moves(m) => Allowed(db, m) && db' == Apply(db, m)
  }

  lemma CallChange(s: System, id: nat, t: Turn) returns (c: MoneyChange)
    requires id in s.calls
    ensures Changes(s.db, Resume(s, id, s.calls[id], t).db, c)
  {
    c := Still;
    var call := s.calls[id];
    if call.Executing? {
      if !t.conflict { c := PaymentChange(s.db, call.user, call.customer, call.request, call.key, t.choice); }
    } else if call.Crediting? {
      var plan := CreditTx(s.db, call.admin, call.target, call.cents, call.currency, call.note, t.choice);
      if !t.conflict && plan.Accept? { c := Moves(plan.movement); }
    } else {
      OtherCallsKeepMoney(s, id, t);
    }
  }

  lemma OtherCallsKeepMoney(s: System, id: nat, t: Turn)
    requires id in s.calls && !s.calls[id].Executing? && !s.calls[id].Crediting?
    ensures Changes(s.db, Resume(s, id, s.calls[id], t).db, Still)
  {
    if IsSideCall(s.calls[id]) { SideCallFrame(s, id, t); }
  }

  /** What the plan of a route has checked about the accounts. */
  lemma PlanIsCovered(db: Db, user: UserId, customer: Id, r: Request, key: string, c: Choice)
    requires PaymentPlan(db, user, customer, r, key, c).Accept?
    ensures var m := PaymentPlan(db, user, customer, r, key, c).movement;
            && m.Payment? && FromOf(m) in db.accounts && ToOf(m) in db.accounts
            && db.accounts[FromOf(m)].balance >= AmountOf(m)
            && m.p.user == user && m.p.key == key && m.p.txn == c.newId
  {
  }

  lemma TxApplies(db: Db, user: UserId, customer: Id, r: Request, key: string, c: Choice, m: Movement)
    requires Commits(db, user, customer, r, key, c) == Some(m)
    ensures Allowed(db, m) && PaymentTx(db, user, customer, r, key, c).0 == Apply(db, m)
  {
    PlanIsCovered(db, user, customer, r, key, c);
    hide PaymentPlan, Apply, KeyIdTaken, BodyOf;
  }

  lemma TxRefuses(db: Db, user: UserId, customer: Id, r: Request, key: string, c: Choice)
    requires Commits(db, user, customer, r, key, c) == None
    ensures PaymentTx(db, user, customer, r, key, c).0 == db
  {
    hide PaymentPlan, Replay, KeyIdTaken;
  }

  lemma PaymentChange(db: Db, user: UserId, customer: Id, r: Request, key: string, c: Choice)
    returns (change: MoneyChange)
    ensures Changes(db, PaymentTx(db, user, customer, r, key, c).0, change)
  {
    hide PaymentTx, Commits, Apply, Allowed;
    var committed := Commits(db, user, customer, r, key, c);
    if committed.Some? {
      TxApplies(db, user, customer, r, key, c, committed.value);
      change := Moves(committed.value);
    } else {
      TxRefuses(db, user, customer, r, key, c);
      change := Still;
    }
  }

  lemma StepChange(s: System, a: Action) returns (c: MoneyChange)
    ensures Changes(s.db, Next(s, a).db, c)
  {
    c := Still;
    match a
    case Arrive(id, m) =>
      if id !in s.calls && m.Register? && CanRegister(s.db, m.user, m.account, m.iban) {
        c := Opens(m.user, m.profile, m.account, m.iban);
      }
    case Advance(id, t) => if id in s.calls { c := CallChange(s, id, t); }
    case Expire(_) =>
  }

  // ---- Cached balance and ledger ----

  /** Credits minus debits of an account. */
  function Net(ledger: seq<Entry>, a: Id): int {
    if ledger == [] then 0
    else
      var e := ledger[|ledger| - 1];
      Net(ledger[..|ledger| - 1], a)
      + if e.account != a then 0 else if e.side.Credit? then e.amount as int else 0 - e.amount
  }

  lemma NetTwo(ledger: seq<Entry>, d: Entry, c: Entry, a: Id)
    ensures Net(ledger + [d, c], a) == Net(ledger, a) + Net([d], a) + Net([c], a)
  {
    var l1, l2 := ledger + [d], ledger + [d, c];
    assert l2[..|l2| - 1] == l1 && l1[..|l1| - 1] == ledger;
    assert [d][..0] == [] && [c][..0] == [];
  }

  /** What the ledger does not explain: the balance the account was created with. */
  function Unexplained(db: Db, a: Id): int
    requires a in db.accounts
  {
    db.accounts[a].balance - Net(db.ledger, a)
  }

  predicate LedgerClosed(db: Db) {
    forall i :: 0 <= i < |db.ledger| ==> db.ledger[i].account in db.accounts
  }

  lemma {:induction false} NetOfStranger(ledger: seq<Entry>, a: Id)
    requires forall i :: 0 <= i < |ledger| ==> ledger[i].account != a
    ensures Net(ledger, a) == 0
    decreases |ledger|
  {
    if ledger != [] { NetOfStranger(ledger[..|ledger| - 1], a); }
  }

  lemma MoveExplained(db: Db, m: Movement, a: Id)
    requires FromOf(m) in db.accounts && ToOf(m) in db.accounts && a in db.accounts
    ensures Unexplained(Apply(db, m), a) == Unexplained(db, a)
  {
    NetTwo(db.ledger, DebitLeg(m), CreditLeg(m), a);
    assert [DebitLeg(m)][..0] == [] && [CreditLeg(m)][..0] == [];
  }

  /** Accounts stay, and what the ledger does not explain about them stays too; a new account has nothing
      unexplained. */
  predicate SameUnexplained(db: Db, db': Db) {
    && LedgerClosed(db') && db.accounts.Keys <= db'.accounts.Keys
    && forall a :: a in db'.accounts ==>
         Unexplained(db', a) == if a in db.accounts then Unexplained(db, a) else 0
  }

  lemma MoveKeepsClosed(db: Db, m: Movement)
    requires LedgerClosed(db) && FromOf(m) in db.accounts && ToOf(m) in db.accounts
    ensures LedgerClosed(Apply(db, m)) && Apply(db, m).accounts.Keys == db.accounts.Keys
  {
  }

  lemma MoveIsExplained(db: Db, m: Movement)
    requires LedgerClosed(db) && Allowed(db, m)
    ensures SameUnexplained(db, Apply(db, m))
  {
    MoveKeepsClosed(db, m);
    hide Apply, LedgerClosed, Unexplained;
    forall a | a in db.accounts { MoveExplained(db, m, a); }
  }

  lemma ChangeIsExplained(db: Db, db': Db, c: MoneyChange)
    requires LedgerClosed(db) && Changes(db, db', c)
    ensures SameUnexplained(db, db')
  {
    if c.Moves? {
      hide SameUnexplained, Apply, Allowed;
      MoveIsExplained(db, c.m);
    } else if c.Opens? {
      NetOfStranger(db.ledger, c.account);
    }
  }

  /** For every account and every run of the four posting routes, the balance equals the one
      it was created with plus ledger credits minus ledger debits. An account opened during
      the run was created with zero. */
  lemma {:induction false} BalanceTracksLedger(s: System, run: seq<Action>)
    requires LedgerClosed(s.db)
    ensures LedgerClosed(Exec(s, run).db) && s.db.accounts.Keys <= Exec(s, run).db.accounts.Keys
    ensures forall a :: a in Exec(s, run).db.accounts ==>
              Unexplained(Exec(s, run).db, a) == if a in s.db.accounts then Unexplained(s.db, a) else 0
    decreases |run|
  {
    hide Next, Changes, Unexplained;
    if run != [] {
      var before, action := Exec(s, run[..|run| - 1]), run[|run| - 1];
      BalanceTracksLedger(s, run[..|run| - 1]);
      var c := StepChange(before, action);
      ChangeIsExplained(before.db, Next(before, action).db, c);
    }
  }

  // ---- Conservation ----

  ghost function Balances(accounts: map<Id, Account>): map<Id, int> {
    map a | a in accounts :: accounts[a].balance
  }

  lemma AddToTotal(accounts: map<Id, Account>, id: Id, delta: int)
    requires id in accounts
    ensures Total(Balances(AddTo(accounts, id, delta))) == Total(Balances(accounts)) + delta
  {
    var b := Balances(accounts);
    TotalUpdate(b, id, b[id] + delta);
    assert Balances(AddTo(accounts, id, delta)) == b[id := b[id] + delta];
  }

  lemma MoveTotal(accounts: map<Id, Account>, from: Id, to: Id, amount: nat)
    requires from in accounts && to in accounts
    ensures Total(Balances(Move(accounts, from, to, amount))) == Total(Balances(accounts))
  {
    AddToTotal(accounts, from, 0 - amount);
    AddToTotal(AddTo(accounts, from, 0 - amount), to, amount);
  }

  lemma MoveConserves(db: Db, m: Movement)
    requires FromOf(m) in db.accounts && ToOf(m) in db.accounts
    ensures Total(Balances(Apply(db, m).accounts)) == Total(Balances(db.accounts))
  {
    MoveTotal(db.accounts, FromOf(m), ToOf(m), AmountOf(m));
    assert Apply(db, m).accounts == Move(db.accounts, FromOf(m), ToOf(m), AmountOf(m));
  }

  lemma ChangeConserves(db: Db, db': Db, c: MoneyChange)
    requires Changes(db, db', c)
    ensures Total(Balances(db'.accounts)) == Total(Balances(db.accounts))
  {
    if c.Moves? {
      MoveConserves(db, c.m);
    } else if c.Opens? {
      TotalInsert(Balances(db.accounts), c.account, 0);
      assert Balances(db'.accounts) == Balances(db.accounts)[c.account := 0];
    }
  }

  /** No run creates or destroys money. */
  lemma {:induction false} TotalIsConstant(s: System, run: seq<Action>)
    ensures Total(Balances(Exec(s, run).db.accounts)) == Total(Balances(s.db.accounts))
    decreases |run|
  {
    hide Next, Changes;
    if run != [] {
      var before, action := Exec(s, run[..|run| - 1]), run[|run| - 1];
      TotalIsConstant(s, run[..|run| - 1]);
      var c := StepChange(before, action);
      ChangeConserves(before.db, Next(before, action).db, c);
    }
  }

  /** Customer accounts are not overdrawn. */
  predicate Solvent(db: Db) {
    forall a :: a in db.accounts && !db.accounts[a].isSystem ==> db.accounts[a].balance >= 0
  }

  lemma ChangeKeepsSolvent(db: Db, db': Db, c: MoneyChange)
    requires Solvent(db) && Changes(db, db', c)
    ensures Solvent(db')
  {
    if c.Moves? {
      var from, to := FromOf(c.m), ToOf(c.m);
      var debited := AddTo(db.accounts, from, 0 - AmountOf(c.m));
      assert debited[from].isSystem || debited[from].balance >= 0;
      assert forall a :: a in debited && !debited[a].isSystem ==> debited[a].balance >= 0;
    }
  }

  /** Customer accounts that start non-negative never go negative. */
  lemma {:induction false} CustomersStaySolvent(s: System, run: seq<Action>)
    requires Solvent(s.db)
    ensures Solvent(Exec(s, run).db)
    decreases |run|
  {
    if run != [] {
      CustomersStaySolvent(s, run[..|run| - 1]);
      var before := Exec(s, run[..|run| - 1]);
      var c := StepChange(before, run[|run| - 1]);
      ChangeKeepsSolvent(before.db, Next(before, run[|run| - 1]).db, c);
    }
  }

  // ---- Two legs ----

  function EntriesOf(ledger: seq<Entry>, t: Id): seq<Entry> {
    if ledger == [] then []
    else
      var before, e := EntriesOf(ledger[..|ledger| - 1], t), ledger[|ledger| - 1];
      if e.txn == t then before + [e] else before
  }

  lemma EntriesOfTwo(ledger: seq<Entry>, d: Entry, c: Entry, t: Id)
    requires d.txn == c.txn
    ensures EntriesOf(ledger + [d, c], t) == EntriesOf(ledger, t) + if d.txn == t then [d, c] else []
  {
    var l1, l2 := ledger + [d], ledger + [d, c];
    assert l2[..|l2| - 1] == l1 && l1[..|l1| - 1] == ledger;
  }

  /** A posted transaction has one debit on its from-account and one credit on its to-account,
      of its own amount and currency, and nothing else. */
  predicate HasTwoLegs(db: Db, t: Id)
    requires t in db.txns
  {
    var x, legs := db.txns[t], EntriesOf(db.ledger, t);
    && |legs| == 2 && x.status.TxnPosted?
    && legs[0].side.Debit? && legs[0].account == x.from && legs[0].amount == x.amount && legs[0].currency == x.currency
    && legs[1].side.Credit? && legs[1].account == x.to && legs[1].amount == x.amount && legs[1].currency == x.currency
  }

  ghost predicate Balanced(db: Db) {
    && (forall t :: t in db.txns ==> HasTwoLegs(db, t))
    && (forall t :: t !in db.txns ==> EntriesOf(db.ledger, t) == [])
  }

  lemma MoveKeepsBalanced(db: Db, m: Movement)
    requires Balanced(db) && Allowed(db, m)
    ensures Balanced(Apply(db, m))
  {
    var db' := Apply(db, m);
    forall t
      ensures EntriesOf(db'.ledger, t)
           == EntriesOf(db.ledger, t) + if TxnOf(m) == t then [DebitLeg(m), CreditLeg(m)] else []
    {
      EntriesOfTwo(db.ledger, DebitLeg(m), CreditLeg(m), t);
    }
    forall t | t in db'.txns ensures HasTwoLegs(db', t) {
      if t != TxnOf(m) { assert HasTwoLegs(db, t); }
    }
  }

  lemma {:induction false} EveryTransactionHasTwoLegs(s: System, run: seq<Action>)
    requires Initial(s)
    ensures Balanced(Exec(s, run).db)
    decreases |run|
  {
    if run != [] {
      EveryTransactionHasTwoLegs(s, run[..|run| - 1]);
      var before := Exec(s, run[..|run| - 1]);
      var c := StepChange(before, run[|run| - 1]);
      if c.Moves? {
        MoveKeepsBalanced(before.db, c.m);
      } else {
        var after := Next(before, run[|run| - 1]);
        forall t | t in after.db.txns ensures HasTwoLegs(after.db, t) { assert HasTwoLegs(before.db, t); }
      }
    }
  }
}
