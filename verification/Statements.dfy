/** Account statements: opening balance, period totals, closing balance and listing, all
    recomputed from the ledger by time windows. */
module Statements {
  import opened Text
  import opened Rows
  import opened Posting
  import opened Protocol
  import opened Frames
  import opened Ledger

  /** A JavaScript date: whole milliseconds since the epoch. Ledger times are finer. */
  type Date = int

  const DAY: int := 24 * 60 * 60 * 1000

  function At(d: Date): Time { 1000 * d }

  /** UTC midnight at or before a date. */
  function Midnight(d: Date): Date { d / DAY * DAY }

  /** `setUTCHours(23, 59, 59, 999)` */
  function EndOfDay(d: Date): Date { Midnight(d) + DAY - 1 }

  function NextDay(d: Date): Date { Midnight(d) + DAY }

  /** The two `createdAt` filters: `lt`, and `gte` with `lte`. */
  datatype Window = Before(limit: Time) | Within(first: Time, last: Time)

  predicate In(w: Window, t: Time) {
    match w
    case Before(limit) => t < limit
    case Within(first, last) => first <= t <= last
  }

  /** The account's entries in a window, in ledger order. */
  function Select(ledger: seq<Entry>, a: Id, w: Window): seq<Entry> {
    if ledger == [] then []
    else
      var before, e := Select(ledger[..|ledger| - 1], a, w), ledger[|ledger| - 1];
      if e.account == a && In(w, e.createdAt) then before + [e] else before
  }

  /** `aggregate({ _sum: { amount } })` over one side, with an absent sum read as zero. */
  function SumSide(entries: seq<Entry>, side: Side): nat {
    if entries == [] then 0
    else SumSide(entries[..|entries| - 1], side)
         + if entries[|entries| - 1].side == side then entries[|entries| - 1].amount else 0
  }

  function NetOf(entries: seq<Entry>): int {
    SumSide(entries, Credit) - SumSide(entries, Debit)
  }

  // ---- The listing, newest first ----

  function InsertDescending(e: Entry, list: seq<Entry>): (r: seq<Entry>)
    ensures multiset(r) == multiset(list) + multiset{e}
  {
    if list == [] || list[0].createdAt <= e.createdAt then [e] + list
    else
      assert list == [list[0]] + list[1..];
      [list[0]] + InsertDescending(e, list[1..])
  }

  /** `orderBy: { createdAt: 'desc' }` */
  function Listing(entries: seq<Entry>): seq<Entry> {
    if entries == [] then [] else InsertDescending(entries[|entries| - 1], Listing(entries[..|entries| - 1]))
  }

  predicate Descending(list: seq<Entry>) {
    forall i, j :: 0 <= i < j < |list| ==> list[i].createdAt >= list[j].createdAt
  }

  lemma {:induction false} InsertKeepsOrder(e: Entry, list: seq<Entry>)
    requires Descending(list)
    ensures Descending(InsertDescending(e, list))
    decreases |list|
  {
    if list != [] && list[0].createdAt > e.createdAt {
      var rest := InsertDescending(e, list[1..]);
      InsertKeepsOrder(e, list[1..]);
      forall j | 0 <= j < |rest| ensures rest[j].createdAt <= list[0].createdAt {
        assert rest[j] in multiset(rest);
        assert rest[j] in multiset(list[1..]) + multiset{e};
      }
    }
  }

  lemma {:induction false} InsertAddsAmount(e: Entry, list: seq<Entry>, side: Side)
    ensures SumSide(InsertDescending(e, list), side) == SumSide(list, side) + if e.side == side then e.amount else 0
    decreases |list|
  {
    if list == [] || list[0].createdAt <= e.createdAt {
      SumAppend([e], list, side);
    } else {
      InsertAddsAmount(e, list[1..], side);
      SumAppend([list[0]], InsertDescending(e, list[1..]), side);
      SumAppend([list[0]], list[1..], side);
      assert [list[0]] + list[1..] == list;
    }
    assert [e][..0] == [];
  }

  lemma {:induction false} SumAppend(a: seq<Entry>, b: seq<Entry>, side: Side)
    ensures SumSide(a + b, side) == SumSide(a, side) + SumSide(b, side)
    decreases |b|
  {
    if b == [] {
      assert a + b == a;
    } else {
      assert (a + b)[..|a + b| - 1] == a + b[..|b| - 1];
      SumAppend(a, b[..|b| - 1], side);
    }
  }

  lemma {:induction false} ListingAmounts(entries: seq<Entry>, side: Side)
    ensures SumSide(Listing(entries), side) == SumSide(entries, side)
    decreases |entries|
  {
    if entries != [] {
      ListingAmounts(entries[..|entries| - 1], side);
      InsertAddsAmount(entries[|entries| - 1], Listing(entries[..|entries| - 1]), side);
    }
  }

  lemma MultisetOfLast(entries: seq<Entry>)
    requires entries != []
    ensures multiset(entries) == multiset(entries[..|entries| - 1]) + multiset{entries[|entries| - 1]}
  {
    assert entries == entries[..|entries| - 1] + [entries[|entries| - 1]];
  }

  /** A listing holds exactly the selected entries, newest first. */
  lemma {:induction false} ListingIsFaithful(entries: seq<Entry>)
    ensures multiset(Listing(entries)) == multiset(entries) && Descending(Listing(entries))
    decreases |entries|
  {
    if entries != [] {
      hide InsertDescending, Descending;
      ListingIsFaithful(entries[..|entries| - 1]);
      MultisetOfLast(entries);
      InsertKeepsOrder(entries[|entries| - 1], Listing(entries[..|entries| - 1]));
    }
  }

  // ---- The statement ----

  datatype Line = Line(txn: Id, kind: TxnType, status: TxnStatus, side: Side, amount: nat,
                       currency: string, description: Option<string>, createdAt: Time)

  datatype Statement = Statement(account: Id, iban: string, accountType: string, currency: string,
                                 openingBalance: int, closingBalance: int, totalDebits: nat, totalCredits: nat,
                                 entries: seq<Line>)

  datatype StatementError = NoProfile | NoAccount | InvalidDate | FromAfterTo
  datatype StatementResult = Success(statement: Statement) | Failure(error: StatementError)

  /** The foreign key from ledger entries to transactions. */
  predicate EntriesHaveTxns(db: Db) {
    forall i :: 0 <= i < |db.ledger| ==> db.ledger[i].txn in db.txns
  }

  function LineOf(txns: map<Id, Txn>, e: Entry): Line
    requires e.txn in txns
  {
    var x := txns[e.txn];
    Line(e.txn, x.kind, x.status, e.side, e.amount, e.currency, x.description, e.createdAt)
  }

  lemma {:induction false} SelectedAreEntries(ledger: seq<Entry>, a: Id, w: Window)
    ensures forall e :: e in Select(ledger, a, w) <==> e in ledger && e.account == a && In(w, e.createdAt)
    decreases |ledger|
  {
    if ledger != [] {
      SelectedAreEntries(ledger[..|ledger| - 1], a, w);
      assert ledger == ledger[..|ledger| - 1] + [ledger[|ledger| - 1]];
    }
  }

  function LinesOf(txns: map<Id, Txn>, list: seq<Entry>): seq<Line>
    requires forall e :: e in list ==> e.txn in txns
  {
    seq(|list|, i requires 0 <= i < |list| => assert list[i] in list; LineOf(txns, list[i]))
  }

  /** Dates arrive parsed; None is an invalid date. */
  function GetStatement(db: Db, user: UserId, a: Id, from: Option<Date>, to: Option<Date>): StatementResult
    requires EntriesHaveTxns(db)
  {
    if user !in db.profiles then Failure(NoProfile)
    else if a !in db.accounts || db.accounts[a].customer != db.profiles[user].id || db.accounts[a].isSystem then
      Failure(NoAccount)
    else if from.None? || to.None? then Failure(InvalidDate)
    else if from.value > to.value then Failure(FromAfterTo)
    else
      var period := Select(db.ledger, a, Within(At(from.value), At(EndOfDay(to.value))));
      var previous := Select(db.ledger, a, Before(At(from.value)));
      var opening := SumSide(previous, Credit) - SumSide(previous, Debit);
      var credits, debits := SumSide(period, Credit), SumSide(period, Debit);
      var listing := Listing(period);
      ListingIsFaithful(period);
      SelectedAreEntries(db.ledger, a, Within(At(from.value), At(EndOfDay(to.value))));
      assert forall e :: e in listing ==> e in multiset(listing);
      Success(Statement(a, db.accounts[a].iban, db.accounts[a].accountType, db.accounts[a].currency,
                        opening, opening + credits - debits, debits, credits, LinesOf(db.txns, listing)))
  }

  /** A statement is given exactly of the user's own customer account for two valid dates in order; every
      other case has its own error, in this order. Its head shows the account's own columns. */
  lemma StatementDecides(db: Db, user: UserId, a: Id, from: Option<Date>, to: Option<Date>)
    requires EntriesHaveTxns(db)
    ensures var result := GetStatement(db, user, a, from, to);
            var own := user in db.profiles && a in db.accounts
                       && db.accounts[a].customer == db.profiles[user].id && !db.accounts[a].isSystem;
            var dated := from.Some? && to.Some?;
            && (result.Success? <==> own && dated && from.value <= to.value)
            && (result == Failure(NoProfile) <==> user !in db.profiles)
            && (result == Failure(NoAccount) <==> user in db.profiles && !own)
            && (result == Failure(InvalidDate) <==> own && !dated)
            && (result == Failure(FromAfterTo) <==> own && dated && from.value > to.value)
            && (result.Success? ==>
                  var st, row := result.statement, db.accounts[a];
                  && st.account == a && st.iban == row.iban
                  && st.accountType == row.accountType && st.currency == row.currency)
  {
    hide Listing, LinesOf, SumSide, Select, EndOfDay;
  }

  // ---- Windows ----

  /** What the account had received net before a time. */
  function NetBefore(ledger: seq<Entry>, a: Id, t: Time): int {
    NetOf(Select(ledger, a, Before(t)))
  }

  lemma {:induction false} WindowsAddUp(ledger: seq<Entry>, a: Id, first: Time, last: Time)
    requires first <= last + 1
    ensures NetOf(Select(ledger, a, Within(first, last)))
        == NetBefore(ledger, a, last + 1) - NetBefore(ledger, a, first)
    decreases |ledger|
  {
    if ledger != [] {
      var init, e := ledger[..|ledger| - 1], ledger[|ledger| - 1];
      WindowsAddUp(init, a, first, last);
      SumSelect(ledger, a, Within(first, last));
      SumSelect(ledger, a, Before(last + 1));
      SumSelect(ledger, a, Before(first));
    }
  }

  lemma SumSelect(ledger: seq<Entry>, a: Id, w: Window)
    requires ledger != []
    ensures var init, e := ledger[..|ledger| - 1], ledger[|ledger| - 1];
            var signed := if e.side.Credit? then e.amount as int else 0 - e.amount;
            NetOf(Select(ledger, a, w))
              == NetOf(Select(init, a, w)) + if e.account == a && In(w, e.createdAt) then signed else 0
  {
    var init, e := ledger[..|ledger| - 1], ledger[|ledger| - 1];
    assert (Select(init, a, w) + [e])[..|Select(init, a, w)|] == Select(init, a, w);
  }

  function Opening(ledger: seq<Entry>, a: Id, from: Date): int { NetBefore(ledger, a, At(from)) }

  function Period(ledger: seq<Entry>, a: Id, from: Date, to: Date): seq<Entry> {
    Select(ledger, a, Within(At(from), At(EndOfDay(to))))
  }

  function Closing(ledger: seq<Entry>, a: Id, from: Date, to: Date): int {
    Opening(ledger, a, from) + NetOf(Period(ledger, a, from, to))
  }

  lemma DayContains(d: Date)
    ensures Midnight(d) <= d <= EndOfDay(d) && EndOfDay(d) + 1 == NextDay(d) == Midnight(NextDay(d))
  {
  }

  /** A period runs from its first moment to 23:59:59.999 UTC of its last day, both included, whatever the
      time of day of its last date. */
  lemma PeriodHolds(ledger: seq<Entry>, a: Id, from: Date, to: Date)
    ensures forall e :: e in Period(ledger, a, from, to) <==>
              && e in ledger && e.account == a
              && 1000 * from <= e.createdAt <= 1000 * (to / 86_400_000 * 86_400_000 + 86_399_999)
    ensures forall e :: e in Select(ledger, a, Before(At(from))) <==>
              e in ledger && e.account == a && e.createdAt < 1000 * from
  {
    SelectedAreEntries(ledger, a, Within(At(from), At(EndOfDay(to))));
    SelectedAreEntries(ledger, a, Before(At(from)));
  }

  /** The closing balance depends on the last day only, wherever the period starts: it is what
      the account received net up to 23:59:59.999. */
  lemma ClosingIgnoresFrom(ledger: seq<Entry>, a: Id, from: Date, to: Date)
    requires from <= to
    ensures Closing(ledger, a, from, to) == NetBefore(ledger, a, At(EndOfDay(to)) + 1)
  {
    DayContains(to);
    WindowsAddUp(ledger, a, At(from), At(EndOfDay(to)));
  }

  /** What a successful statement prints: figures that add up from the ledger. */
  lemma StatementFigures(db: Db, user: UserId, a: Id, from: Date, to: Date)
    requires EntriesHaveTxns(db)
    requires GetStatement(db, user, a, Some(from), Some(to)).Success?
    ensures var st := GetStatement(db, user, a, Some(from), Some(to)).statement;
            && from <= to && st.openingBalance == Opening(db.ledger, a, from)
            && st.closingBalance == Closing(db.ledger, a, from, to) == NetBefore(db.ledger, a, At(EndOfDay(to)) + 1)
            && st.openingBalance + st.totalCredits - st.totalDebits == st.closingBalance
  {
    hide Listing, LinesOf, SumSide, Select, EndOfDay;
    ClosingIgnoresFrom(db.ledger, a, from, to);
  }

  /** A line shows its entry's side, amount, currency and time, and its transaction's type, status and
      description. */
  predicate Shows(line: Line, e: Entry, x: Txn) {
    && line.txn == e.txn && line.side == e.side && line.amount == e.amount && line.currency == e.currency
    && line.createdAt == e.createdAt
    && line.kind == x.kind && line.status == x.status && line.description == x.description
  }

  /** The lines of a statement are the period's entries, newest first, and their amounts add
      up to the printed totals. */
  lemma StatementLines(db: Db, user: UserId, a: Id, from: Date, to: Date)
    requires EntriesHaveTxns(db)
    requires GetStatement(db, user, a, Some(from), Some(to)).Success?
    ensures var st := GetStatement(db, user, a, Some(from), Some(to)).statement;
            var list := Listing(Period(db.ledger, a, from, to));
            && st.totalCredits == SumSide(list, Credit) && st.totalDebits == SumSide(list, Debit)
            && multiset(list) == multiset(Period(db.ledger, a, from, to)) && Descending(list)
            && |st.entries| == |list|
            && forall i :: 0 <= i < |list| ==>
                 list[i].txn in db.txns && Shows(st.entries[i], list[i], db.txns[list[i].txn])
  {
    var period := Period(db.ledger, a, from, to);
    var list := Listing(period);
    ListingIsFaithful(period);
    ListingAmounts(period, Credit);
    ListingAmounts(period, Debit);
    SelectedAreEntries(db.ledger, a, Within(At(from), At(EndOfDay(to))));
    forall i | 0 <= i < |list| ensures list[i].txn in db.txns {
      assert list[i] in multiset(list);
      assert list[i] in period;
    }
    hide Listing, SumSide, Select, EndOfDay;
  }

  // ---- Consecutive statements ----

  /** What falls between the last millisecond of a day and the next midnight. */
  function Gap(ledger: seq<Entry>, a: Id, to: Date): seq<Entry> {
    Select(ledger, a, Within(At(EndOfDay(to)) + 1, At(NextDay(to)) - 1))
  }

  /** The next day's opening balance is this period's closing balance plus whatever was
      recorded in the gap, so they agree exactly when the gap nets to zero. */
  lemma OpeningAfterClosing(ledger: seq<Entry>, a: Id, from: Date, to: Date)
    requires from <= to
    ensures Opening(ledger, a, NextDay(to)) == Closing(ledger, a, from, to) + NetOf(Gap(ledger, a, to))
    ensures Opening(ledger, a, NextDay(to)) == Closing(ledger, a, from, to) <==> NetOf(Gap(ledger, a, to)) == 0
  {
    DayContains(to);
    ClosingIgnoresFrom(ledger, a, from, to);
    WindowsAddUp(ledger, a, At(EndOfDay(to)) + 1, At(NextDay(to)) - 1);
  }

  /** Entry times are whole milliseconds. */
  predicate WholeMilliseconds(ledger: seq<Entry>) {
    forall i :: 0 <= i < |ledger| ==> ledger[i].createdAt % 1000 == 0
  }

  lemma {:induction false} NothingInGap(ledger: seq<Entry>, a: Id, to: Date)
    requires WholeMilliseconds(ledger)
    ensures Gap(ledger, a, to) == []
    decreases |ledger|
  {
    if ledger != [] {
      var init, e := ledger[..|ledger| - 1], ledger[|ledger| - 1];
      assert WholeMilliseconds(init) by { assert forall i :: 0 <= i < |init| ==> init[i] == ledger[i]; }
      NothingInGap(init, a, to);
      DayContains(to);
      assert e.createdAt % 1000 == 0;
      hide EndOfDay, NextDay, WholeMilliseconds;
      BetweenMilliseconds(EndOfDay(to), e.createdAt);
    }
  }

  lemma BetweenMilliseconds(d: Date, t: Time)
    requires t % 1000 == 0
    ensures !(At(d) + 1 <= t <= At(d + 1) - 1)
  {
    assert t == 1000 * (t / 1000);
  }

  /** The column is finer than a JavaScript date: an entry half a millisecond before midnight is
      in neither statement. */
  lemma GapCanHoldAnEntry(e: Entry)
    requires e.createdAt == At(DAY) - 500 && e.side.Credit? && e.amount > 0
    ensures Opening([e], e.account, NextDay(0)) != Closing([e], e.account, 0, 0)
    ensures Period([e], e.account, 0, 0) == [] && Period([e], e.account, NextDay(0), NextDay(0)) == []
  {
    assert Midnight(0) == 0 && Midnight(DAY) == DAY;
    OpeningAfterClosing([e], e.account, 0, 0);
    SelectOne(e, Within(At(EndOfDay(0)) + 1, At(NextDay(0)) - 1));
    SelectOne(e, Within(At(0), At(EndOfDay(0))));
    SelectOne(e, Within(At(NextDay(0)), At(EndOfDay(NextDay(0)))));
    assert NetOf([e]) == e.amount by { assert [e][..0] == []; }
  }

  lemma SelectOne(e: Entry, w: Window)
    ensures Select([e], e.account, w) == if In(w, e.createdAt) then [e] else []
  {
    assert [e][..0] == [];
  }

  /** Such an entry is reachable: an admin credit at that moment is in the target's ledger and
      balance, and in neither of the statements of the two days. */
  lemma MissedEntryIsReachable(s: System, system: Id, target: Id) returns (run: seq<Action>)
    requires Initial(s) && system in s.db.accounts && Matches(AnySystem("RON"), s.db.accounts[system])
    requires target in s.db.accounts && s.db.accounts[target].status.Active? && !s.db.accounts[target].isSystem
    ensures var db := Exec(s, run).db;
            && target in db.accounts && db.accounts[target].balance == s.db.accounts[target].balance + 100
            && |Select(db.ledger, target, Before(At(2 * DAY)))| == 1
            && Period(db.ledger, target, 0, 0) == [] && Period(db.ledger, target, NextDay(0), NextDay(0)) == []
            && Opening(db.ledger, target, NextDay(0)) != Closing(db.ledger, target, 0, 0)
  {
    var c := Choice("", "", At(DAY) - 500, [system]);
    var first := Arrive(0, CreditAccount("", target, 1, "RON", None));
    var second := Advance(0, Turn(false, c, "", "", ""));
    run := [first, second];
    var credit := OneCredit(s, system, target, c, run);
    hide Next, Exec, Select, Closing;
    var ledger := Exec(s, run).db.ledger;
    assert ledger == [ledger[0], credit];
    CreditFallsInGap(ledger[0], credit);
  }

  lemma OneCredit(s: System, system: Id, target: Id, c: Choice, run: seq<Action>) returns (credit: Entry)
    requires Initial(s) && system in s.db.accounts && Matches(AnySystem("RON"), s.db.accounts[system])
    requires target in s.db.accounts && s.db.accounts[target].status.Active? && !s.db.accounts[target].isSystem
    requires c.scan == [system]
    requires run == [Arrive(0, CreditAccount("", target, 1, "RON", None)), Advance(0, Turn(false, c, "", "", ""))]
    ensures var db := Exec(s, run).db;
            && target in db.accounts && db.accounts[target].balance == s.db.accounts[target].balance + 100
            && |db.ledger| == 2 && db.ledger[0].account != target && db.ledger[1] == credit
    ensures credit.account == target && credit.side.Credit? && credit.amount == 100 && credit.createdAt == c.now
  {
    credit := Entry(c.newId, target, Credit, 100, "RON", 0, c.now);
    var begun := Begin(s, 0, run[0].message);
    var call, t := begun.calls[0], run[1].turn;
    assert Exec(s, run[..1]) == begun by { assert run[..1] == [run[0]] && [run[0]][..0] == []; }
    assert FindFirst([system], begun.db.accounts, AnySystem("RON")) == Some(system);
    ExecutedCredit(begun, system, target, c, call, t);
    hide Next, ExecuteCredit;
    var after := CreditStep(begun, 0, t);
    assert Exec(s, run) == after;
  }

  lemma ExecutedCredit(s: System, system: Id, target: Id, c: Choice, call: Call, t: Turn)
    requires call == Crediting("", target, 1, "RON", None) && t == Turn(false, c, "", "", "")
    requires system != target && system in s.db.accounts && target in s.db.accounts && c.newId !in s.db.txns
    requires s.db.ledger == []
    requires FindFirst(c.scan, s.db.accounts, AnySystem("RON")) == Some(system)
    requires s.db.accounts[target].status.Active? && !s.db.accounts[target].isSystem
    ensures var db := ExecuteCredit(s, 0, call, t).db;
            && target in db.accounts && db.accounts[target].balance == s.db.accounts[target].balance + 100
            && |db.ledger| == 2 && db.ledger[0].account != target
            && db.ledger[1] == Entry(c.newId, target, Credit, 100, "RON", 0, c.now)
  {
    hide FindFirst, Matches;
  }

  lemma CreditFallsInGap(debit: Entry, credit: Entry)
    requires debit.account != credit.account && credit.createdAt == At(DAY) - 500 && credit.side.Credit?
    requires credit.amount > 0
    ensures var ledger, a := [debit, credit], credit.account;
            && |Select(ledger, a, Before(At(2 * DAY)))| == 1
            && Period(ledger, a, 0, 0) == [] && Period(ledger, a, NextDay(0), NextDay(0)) == []
            && Opening(ledger, a, NextDay(0)) != Closing(ledger, a, 0, 0)
  {
    var ledger, a := [debit, credit], credit.account;
    assert Midnight(0) == 0 && Midnight(DAY) == DAY;
    assert EndOfDay(0) == DAY - 1 && NextDay(0) == DAY && EndOfDay(DAY) == 2 * DAY - 1;
    SelectSecond(debit, credit, Before(At(2 * DAY)));
    SelectSecond(debit, credit, Within(At(0), At(DAY - 1)));
    SelectSecond(debit, credit, Within(At(DAY), At(2 * DAY - 1)));
    SelectSecond(debit, credit, Within(At(DAY - 1) + 1, At(DAY) - 1));
    OpeningAfterClosing(ledger, a, 0, 0);
    assert NetOf([credit]) == credit.amount by { assert [credit][..0] == []; }
    hide Select, NetOf, Midnight, EndOfDay, NextDay, Opening, Closing;
  }

  lemma SelectSecond(debit: Entry, credit: Entry, w: Window)
    requires debit.account != credit.account
    ensures Select([debit, credit], credit.account, w) == if In(w, credit.createdAt) then [credit] else []
  {
    assert [debit, credit][..1] == [debit] && [debit][..0] == [];
    assert Select([debit], credit.account, w) == [];
  }

  datatype Range = Range(from: Date, to: Date)

  /** Statements one after the other: each starts at the midnight after the last. */
  predicate Consecutive(chain: seq<Range>) {
    && (forall i :: 0 <= i < |chain| ==> chain[i].from <= chain[i].to)
    && (forall i :: 0 < i < |chain| ==> chain[i].from == NextDay(chain[i - 1].to))
  }

  function ChainNet(ledger: seq<Entry>, a: Id, chain: seq<Range>): int {
    if chain == [] then 0
    else
      var last := chain[|chain| - 1];
      ChainNet(ledger, a, chain[..|chain| - 1]) + NetOf(Period(ledger, a, last.from, last.to))
  }

  function ChainEntries(ledger: seq<Entry>, a: Id, chain: seq<Range>): multiset<Entry> {
    if chain == [] then multiset{}
    else ChainEntries(ledger, a, chain[..|chain| - 1])
         + multiset(Listing(Period(ledger, a, chain[|chain| - 1].from, chain[|chain| - 1].to)))
  }

  /** The entries in the gaps between the statements of a chain. */
  function ChainGaps(ledger: seq<Entry>, a: Id, chain: seq<Range>): multiset<Entry> {
    if |chain| <= 1 then multiset{}
    else ChainGaps(ledger, a, chain[..|chain| - 1]) + multiset(Gap(ledger, a, chain[|chain| - 2].to))
  }

  function ChainGapsNet(ledger: seq<Entry>, a: Id, chain: seq<Range>): int {
    if |chain| <= 1 then 0
    else ChainGapsNet(ledger, a, chain[..|chain| - 1]) + NetOf(Gap(ledger, a, chain[|chain| - 2].to))
  }

  /** A period up to a last day, what follows until the next midnight, and a period from there on. */
  lemma WindowsJoin(from: Date, mid: Date, to: Date, t: Time)
    requires from <= mid && NextDay(mid) <= to
    ensures var first := In(Within(At(from), At(EndOfDay(mid))), t);
            var gap := In(Within(At(EndOfDay(mid)) + 1, At(NextDay(mid)) - 1), t);
            var second := In(Within(At(NextDay(mid)), At(EndOfDay(to))), t);
            && (first || gap || second <==> In(Within(At(from), At(EndOfDay(to))), t))
            && !(first && gap) && !(first && second) && !(gap && second)
  {
    DayContains(mid);
    DayContains(to);
    hide EndOfDay, NextDay;
  }

  lemma {:induction false} PeriodsJoin(ledger: seq<Entry>, a: Id, from: Date, mid: Date, to: Date)
    requires from <= mid && NextDay(mid) <= to
    ensures var first, second := Period(ledger, a, from, mid), Period(ledger, a, NextDay(mid), to);
            multiset(first) + multiset(Gap(ledger, a, mid)) + multiset(second) == multiset(Period(ledger, a, from, to))
    decreases |ledger|
  {
    if ledger != [] {
      PeriodsJoin(ledger[..|ledger| - 1], a, from, mid, to);
      WindowsJoin(from, mid, to, ledger[|ledger| - 1].createdAt);
      SelectStep(ledger, a, Within(At(from), At(EndOfDay(mid))));
      SelectStep(ledger, a, Within(At(EndOfDay(mid)) + 1, At(NextDay(mid)) - 1));
      SelectStep(ledger, a, Within(At(NextDay(mid)), At(EndOfDay(to))));
      SelectStep(ledger, a, Within(At(from), At(EndOfDay(to))));
      hide Select, EndOfDay, NextDay, In, At;
    }
  }

  lemma SelectStep(ledger: seq<Entry>, a: Id, w: Window)
    requires ledger != []
    ensures var e := ledger[|ledger| - 1];
            multiset(Select(ledger, a, w)) == multiset(Select(ledger[..|ledger| - 1], a, w))
              + if e.account == a && In(w, e.createdAt) then multiset{e} else multiset{}
  {
  }

  lemma ConsecutivePrefix(chain: seq<Range>)
    requires |chain| > 1 && Consecutive(chain)
    ensures Consecutive(chain[..|chain| - 1])
  {
    var init := chain[..|chain| - 1];
    assert forall i :: 0 <= i < |init| ==> init[i] == chain[i];
  }

  /** Statement i of a chain opens with the closing balance of the one before. */
  predicate Meets(ledger: seq<Entry>, a: Id, chain: seq<Range>, i: nat)
    requires 0 < i < |chain|
  {
    Opening(ledger, a, chain[i].from) == Closing(ledger, a, chain[i - 1].from, chain[i - 1].to)
  }

  /** What falls between statement i and the one before nets to zero. */
  predicate QuietGap(ledger: seq<Entry>, a: Id, chain: seq<Range>, i: nat)
    requires 0 < i < |chain|
  {
    NetOf(Gap(ledger, a, chain[i - 1].to)) == 0
  }

  /** In a chain of consecutive statements each closing balance is the next opening balance exactly
      when the gap between them nets to zero. */
  lemma ChainAgrees(ledger: seq<Entry>, a: Id, chain: seq<Range>)
    requires Consecutive(chain)
    ensures forall i :: 0 < i < |chain| ==> (Meets(ledger, a, chain, i) <==> QuietGap(ledger, a, chain, i))
    ensures WholeMilliseconds(ledger) ==> forall i :: 0 < i < |chain| ==> Meets(ledger, a, chain, i)
  {
    forall i | 0 < i < |chain|
      ensures Meets(ledger, a, chain, i) <==> QuietGap(ledger, a, chain, i)
      ensures WholeMilliseconds(ledger) ==> QuietGap(ledger, a, chain, i)
    {
      OpeningAfterClosing(ledger, a, chain[i - 1].from, chain[i - 1].to);
      if WholeMilliseconds(ledger) { NothingInGap(ledger, a, chain[i - 1].to); }
      hide Opening, Closing, Gap, WholeMilliseconds;
    }
  }

  /** The net totals of a chain and of its gaps lead from its first opening to its last closing balance;
      the totals alone do so exactly when the gaps net to zero. */
  lemma {:induction false} ChainTelescopes(ledger: seq<Entry>, a: Id, chain: seq<Range>)
    requires chain != [] && Consecutive(chain)
    ensures var last := Closing(ledger, a, chain[|chain| - 1].from, chain[|chain| - 1].to);
            && Opening(ledger, a, chain[0].from) + ChainNet(ledger, a, chain) + ChainGapsNet(ledger, a, chain) == last
            && (Opening(ledger, a, chain[0].from) + ChainNet(ledger, a, chain) == last
                <==> ChainGapsNet(ledger, a, chain) == 0)
    decreases |chain|
  {
    var init := chain[..|chain| - 1];
    if |chain| == 1 {
      assert ChainNet(ledger, a, init) == 0;
    } else {
      ConsecutivePrefix(chain);
      ChainTelescopes(ledger, a, init);
      OpeningAfterClosing(ledger, a, chain[|chain| - 2].from, chain[|chain| - 2].to);
    }
  }

  lemma {:induction false} ChainIsOrdered(chain: seq<Range>)
    requires chain != [] && Consecutive(chain)
    ensures chain[0].from <= chain[|chain| - 1].from
    decreases |chain|
  {
    if |chain| > 1 {
      ConsecutivePrefix(chain);
      ChainIsOrdered(chain[..|chain| - 1]);
      DayContains(chain[|chain| - 2].to);
    }
  }

  /** The listings of a chain and its gaps hold every entry of the whole range exactly once; the
      listings alone do so exactly when the gaps are empty. */
  lemma {:induction false} ChainPartitions(ledger: seq<Entry>, a: Id, chain: seq<Range>)
    requires chain != [] && Consecutive(chain)
    ensures var all := multiset(Period(ledger, a, chain[0].from, chain[|chain| - 1].to));
            && ChainEntries(ledger, a, chain) + ChainGaps(ledger, a, chain) == all
            && (ChainEntries(ledger, a, chain) == all <==> ChainGaps(ledger, a, chain) == multiset{})
    decreases |chain|
  {
    var init, last := chain[..|chain| - 1], chain[|chain| - 1];
    ListingIsFaithful(Period(ledger, a, last.from, last.to));
    if |chain| == 1 {
      assert ChainEntries(ledger, a, init) == multiset{};
    } else {
      var prev := chain[|chain| - 2];
      ConsecutivePrefix(chain);
      ChainPartitions(ledger, a, init);
      ChainIsOrdered(init);
      PeriodsJoin(ledger, a, chain[0].from, prev.to, last.to);
    }
    NothingAdded(ChainEntries(ledger, a, chain), ChainGaps(ledger, a, chain));
  }

  lemma NothingAdded(x: multiset<Entry>, y: multiset<Entry>)
    ensures x == x + y <==> y == multiset{}
  {
    if x == x + y {
      forall e ensures y[e] == 0 { assert (x + y)[e] == x[e] + y[e]; }
    }
  }

  /** With whole-millisecond times the gaps of every chain are empty. */
  lemma {:induction false} WholeMillisecondsLeaveNoGaps(ledger: seq<Entry>, a: Id, chain: seq<Range>)
    requires WholeMilliseconds(ledger)
    ensures ChainGaps(ledger, a, chain) == multiset{} && ChainGapsNet(ledger, a, chain) == 0
    decreases |chain|
  {
    if |chain| > 1 {
      WholeMillisecondsLeaveNoGaps(ledger, a, chain[..|chain| - 1]);
      NothingInGap(ledger, a, chain[|chain| - 2].to);
    }
  }

  // ---- Statements and balances ----

  lemma {:induction false} AllBefore(ledger: seq<Entry>, a: Id, t: Time)
    requires forall i :: 0 <= i < |ledger| && ledger[i].account == a ==> ledger[i].createdAt < t
    ensures NetBefore(ledger, a, t) == Net(ledger, a)
    decreases |ledger|
  {
    if ledger != [] {
      AllBefore(ledger[..|ledger| - 1], a, t);
      SumSelect(ledger, a, Before(t));
    }
  }

  /** After any run, the closing balance of a statement that reaches past the account's last
      entry is the available balance minus the balance the account was created with; for an
      account opened by registration during the run it is exactly the available balance. */
  lemma ClosingIsAvailableBalance(s: System, run: seq<Action>, a: Id, from: Date, to: Date)
    requires Initial(s) && a in Exec(s, run).db.accounts && from <= to
    requires forall i :: 0 <= i < |Exec(s, run).db.ledger| && Exec(s, run).db.ledger[i].account == a ==>
               Exec(s, run).db.ledger[i].createdAt <= At(EndOfDay(to))
    ensures var db := Exec(s, run).db;
            var created := if a in s.db.accounts then s.db.accounts[a].balance else 0;
            Closing(db.ledger, a, from, to) == db.accounts[a].balance - created
  {
    BalanceTracksLedger(s, run);
    var db := Exec(s, run).db;
    ClosingIgnoresFrom(db.ledger, a, from, to);
    AllBefore(db.ledger, a, At(EndOfDay(to)) + 1);
    assert a in s.db.accounts ==> Unexplained(s.db, a) == s.db.accounts[a].balance;
  }

  /** The foreign key the statement relies on holds in every reachable state. */
  lemma {:induction false} EntriesAlwaysHaveTxns(s: System, run: seq<Action>)
    requires Initial(s)
    ensures EntriesHaveTxns(Exec(s, run).db)
    decreases |run|
  {
    if run != [] {
      EntriesAlwaysHaveTxns(s, run[..|run| - 1]);
      var c := StepChange(Exec(s, run[..|run| - 1]), run[|run| - 1]);
    }
  }
}
