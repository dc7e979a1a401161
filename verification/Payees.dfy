/** Saved beneficiaries over any run, and where a beneficiary transfer goes. */
module Payees {
  import opened Text
  import opened Rows
  import opened Requests
  import opened Posting
  import opened Protocol
  import opened Frames
  import opened Conditions

  // ---- Normal IBANs ----

  predicate IsNormal(iban: string) { NormalIban(iban) == iban }

  lemma {:induction false} TrimStartShape(s: string)
    ensures |TrimStart(s)| <= |s| && (s != [] && !IsSpace(s[0]) ==> TrimStart(s) == s)
    decreases |s|
  {
    if s != [] && IsSpace(s[0]) { TrimStartShape(s[1..]); }
  }

  lemma TrimmedIsFixed(s: string)
    requires Trimmed(s)
    ensures Trim(s) == s
  {
    TrimStartShape(s);
  }

  lemma NormalTwice(iban: string)
    ensures IsNormal(NormalIban(iban))
  {
    TrimTwice(iban);
    var t := Trim(iban);
    var u := Upper(t);
    assert forall i :: 0 <= i < |u| ==>
      u[i] == UpperChar(t[i]) && (IsSpace(u[i]) <==> IsSpace(t[i])) && UpperChar(u[i]) == u[i];
    TrimmedIsFixed(u);
    assert Upper(u) == u;
  }

  /** The normal IBAN is the given one without the white space around it, its small letters made capital. */
  lemma NormalIbanIs(iban: string) returns (before: string, core: string, after: string)
    ensures iban == before + core + after && Blank(before) && Blank(after) && Trimmed(core)
    ensures |NormalIban(iban)| == |core|
    ensures forall i :: 0 <= i < |core| ==>
              NormalIban(iban)[i] as int == core[i] as int - if 'a' <= core[i] <= 'z' then 32 else 0
  {
    before, after := TrimSplits(iban);
    core := Trim(iban);
  }

  // ---- What one step does to the rows ----

  datatype BookChange = Same | Updated(row: Id, b: Beneficiary) | Added(row: Id, b: Beneficiary)

  predicate BookChanges(db: Db, db': Db, c: BookChange) {
    match c
    case Same => db'.beneficiaries == db.beneficiaries
    case Updated(row, b) =>
      && row in db.beneficiaries && b.customer == db.beneficiaries[row].customer && b.iban == db.beneficiaries[row].iban
      && db'.beneficiaries == db.beneficiaries[row := b]
    case Added(row, b) =>
      && row !in db.beneficiaries && (forall r :: r in db.beneficiaries ==> !IsRowFor(db, r, b.customer, b.iban))
      && db'.beneficiaries == db.beneficiaries[row := b]
  }

  /** Merchants stay as they are, and nobody's profile is exchanged for another. */
  predicate SamePeople(db: Db, db': Db) {
    && db'.merchants == db.merchants
    && forall u :: u in db.profiles ==> u in db'.profiles && db'.profiles[u].id == db.profiles[u].id
  }

  /** The step is the write of a `create` that found this row archived. */
  predicate Reactivates(s: System, a: Action, row: Id) {
    a.Advance? && a.id in s.calls && s.calls[a.id].Reactivating? && s.calls[a.id].id == row
  }

  /** The change one step makes to the tables that payments only read. */
  lemma BookStep(s: System, a: Action) returns (c: BookChange)
    ensures BookChanges(s.db, Next(s, a).db, c) && SamePeople(s.db, Next(s, a).db)
    ensures c.Updated? ==> c.b.status.Archived? || Reactivates(s, a, c.row)
    ensures c.Added? ==> a.Advance? && a.id in s.calls && s.calls[a.id].Inserting? && s.calls[a.id].iban == c.b.iban
  {
    hide Resume, Begin;
    c := Same;
    match a
    case Arrive(id, m) => ArrivalKeepsBook(s, id, m);
    case Expire(_) =>
    case Advance(id, t) => if id in s.calls { c := BookResume(s, id, t); }
  }

  lemma ArrivalKeepsBook(s: System, id: nat, m: Message)
    ensures BookChanges(s.db, Begin(s, id, m).db, Same) && SamePeople(s.db, Begin(s, id, m).db)
  {
  }

  lemma BookResume(s: System, id: nat, t: Turn) returns (c: BookChange)
    requires id in s.calls
    ensures BookChanges(s.db, Resume(s, id, s.calls[id], t).db, c) && SamePeople(s.db, Resume(s, id, s.calls[id], t).db)
    ensures c.Added? ==> s.calls[id].Inserting? && s.calls[id].iban == c.b.iban
    ensures !s.calls[id].Reviewing? ==> Resume(s, id, s.calls[id], t).db.profiles == s.db.profiles
    ensures c.Updated? ==> c.b.status.Archived? || (s.calls[id].Reactivating? && s.calls[id].id == c.row)
  {
    c := Same;
    var call := s.calls[id];
    if call.Reactivating? && call.id in s.db.beneficiaries {
      c := Updated(call.id, Reactivate(s, id, call.user, call.id, call.name, call.alias).db.beneficiaries[call.id]);
    } else if call.Archiving? && call.id in s.db.beneficiaries {
      c := Updated(call.id, Archive(s, id, call.user, call.id, t.choice.now).db.beneficiaries[call.id]);
    } else if call.Inserting? {
      c := InsertChange(s, id, call, t.choice.newId);
    } else if call.Executing? {
      PaymentKeepsBook(s, id, call, t);
    } else {
      PlainStepsKeepBook(s, id, t);
    }
  }

  lemma PlainStepsKeepBook(s: System, id: nat, t: Turn)
    requires id in s.calls
    requires var c := s.calls[id];
             && !c.Inserting? && !c.Executing?
             && (c.Reactivating? || c.Archiving? ==> c.id !in s.db.beneficiaries)
    ensures Resume(s, id, s.calls[id], t).db.beneficiaries == s.db.beneficiaries
    ensures SamePeople(s.db, Resume(s, id, s.calls[id], t).db)
    ensures !s.calls[id].Reviewing? ==> Resume(s, id, s.calls[id], t).db.profiles == s.db.profiles
  {
    hide ReadKyc, ReadKeyForRisk, SetChallenge, Attempt, FetchChallenge, ConsumeChallenge, ExecuteCredit;
    hide FindBeneficiary, Reactivate, Insert, SeekBeneficiary, Archive, SetKyc;
    match s.calls[id]
    case Entering(user, r, key, o) => ReadsKeepDb(s, id, user, user, r, key, o, t);
    case CheckingRisk(user, customer, r, key) => ReadsKeepDb(s, id, user, customer, r, key, Direct, t);
    case Challenging(user, r, key) => ReadsKeepDb(s, id, user, user, r, key, Direct, t);
    case Fetching(user, c, otp) => FetchKeepsDb(s, id, user, c, otp);
    case Consuming(user, c, ch) => ConsumeKeepsDb(s, id, user, c, ch);
    case Crediting(_, _, _, _, _) => CreditKeepsBook(s, id, s.calls[id], t);
    case Finding(user, name, iban, alias) => FindKeepsDb(s, id, user, name, iban, alias, t.choice.scan);
    case Seeking(user, row) => RowStepsKeepBook(s, id, user, row, t.choice.now);
    case Archiving(user, row) => RowStepsKeepBook(s, id, user, row, t.choice.now);
    case Reactivating(user, row, name, alias) => MissingRow(s, id, user, row, name, alias);
    case Reviewing(admin, subject, status) => ReviewKeepsBook(s, id, admin, subject, status);
    case _ =>
  }

  lemma ReadsKeepDb(s: System, id: nat, user: UserId, customer: Id, r: Request, key: string, o: Origin, t: Turn)
    ensures ReadKyc(s, id, user, r, key, o).db == s.db
    ensures ReadKeyForRisk(s, id, user, customer, r, key).db == s.db && SetChallenge(s, id, user, r, key, t).db == s.db
  {
  }

  lemma FetchKeepsDb(s: System, id: nat, user: UserId, challengeId: string, otp: string)
    ensures FetchChallenge(s, id, user, challengeId, otp).db == s.db
  {
  }

  lemma ConsumeKeepsDb(s: System, id: nat, user: UserId, challengeId: string, ch: Challenge)
    ensures ConsumeChallenge(s, id, user, challengeId, ch).db == s.db
  {
  }

  lemma CreditKeepsBook(s: System, id: nat, call: Call, t: Turn)
    requires call.Crediting?
    ensures ExecuteCredit(s, id, call, t).db.beneficiaries == s.db.beneficiaries
    ensures SamePeople(s.db, ExecuteCredit(s, id, call, t).db)
    ensures ExecuteCredit(s, id, call, t).db.profiles == s.db.profiles
  {
    hide CreditTx, Move, TxnRow, AuditRow, DebitLeg, CreditLeg;
  }

  lemma FindKeepsDb(s: System, id: nat, user: UserId, name: string, iban: string, alias: Option<string>, scan: seq<Id>)
    ensures FindBeneficiary(s, id, user, name, iban, alias, scan).db == s.db
  {
  }

  lemma RowStepsKeepBook(s: System, id: nat, user: UserId, row: Id, now: Time)
    ensures SeekBeneficiary(s, id, user, row).db == s.db
    ensures row !in s.db.beneficiaries ==> Archive(s, id, user, row, now).db == s.db
  {
  }

  lemma MissingRow(s: System, id: nat, user: UserId, row: Id, name: string, alias: Option<string>)
    requires row !in s.db.beneficiaries
    ensures Reactivate(s, id, user, row, name, alias).db == s.db
  {
  }

  lemma ReviewKeepsBook(s: System, id: nat, admin: UserId, subject: UserId, status: Kyc)
    ensures SetKyc(s, id, admin, subject, status).db.beneficiaries == s.db.beneficiaries
    ensures SamePeople(s.db, SetKyc(s, id, admin, subject, status).db)
  {
  }

  lemma InsertChange(s: System, id: nat, call: Call, newId: Id) returns (c: BookChange)
    requires call.Inserting?
    ensures BookChanges(s.db, Insert(s, id, call, newId).db, c) && SamePeople(s.db, Insert(s, id, call, newId).db)
    ensures Insert(s, id, call, newId).db.profiles == s.db.profiles
    ensures !c.Updated? && (c.Added? ==> call.iban == c.b.iban)
  {
    c := Same;
    var taken := exists row :: row in s.db.beneficiaries && IsRowFor(s.db, row, call.customer, call.iban);
    if newId !in s.db.beneficiaries && !taken {
      c := Added(newId, Beneficiary(call.customer, call.iban, call.name, call.alias, Listed, None));
    }
  }

  lemma TxKeepsBook(db: Db, user: UserId, customer: Id, r: Request, key: string, c: Choice)
    ensures var db' := PaymentTx(db, user, customer, r, key, c).0;
            db'.beneficiaries == db.beneficiaries && db'.profiles == db.profiles && db'.merchants == db.merchants
  {
    hide PaymentPlan, Replay, KeyIdTaken;
  }

  lemma PaymentKeepsBook(s: System, id: nat, call: Call, t: Turn)
    requires call.Executing?
    ensures Attempt(s, id, call, t).db.beneficiaries == s.db.beneficiaries
    ensures SamePeople(s.db, Attempt(s, id, call, t).db) && Attempt(s, id, call, t).db.profiles == s.db.profiles
  {
    TxKeepsBook(s.db, call.user, call.customer, call.request, call.key, t.choice);
    hide PaymentTx, Commits;
  }

  /** One row per customer and normal IBAN. */
  predicate RowsOk(rows: map<Id, Beneficiary>) {
    && (forall r :: r in rows ==> IsNormal(rows[r].iban))
    && (forall r, q :: r in rows && q in rows && r != q ==>
          rows[r].customer != rows[q].customer || rows[r].iban != rows[q].iban)
  }

  /** Rows stay, with their customer and IBAN. */
  predicate RowsKept(rows: map<Id, Beneficiary>, later: map<Id, Beneficiary>) {
    forall r :: r in rows ==> r in later && later[r].iban == rows[r].iban && later[r].customer == rows[r].customer
  }

  predicate BookOk(s: System) {
    && RowsOk(s.db.beneficiaries)
    && (forall id :: id in s.calls && s.calls[id].Inserting? ==> IsNormal(s.calls[id].iban))
  }

  /** Only the lookup of `create` leads to an insertion. */
  lemma AdvanceToInserting(s: System, id: nat, t: Turn)
    requires id in s.calls && !s.calls[id].Finding?
    ensures var s' := Resume(s, id, s.calls[id], t); id in s'.calls && !s'.calls[id].Inserting?
  {
    hide PaymentTx, Commits, CreditTx, ParseChallenge, RedisKey;
    var call := s.calls[id];
    if call.Executing? {
      assert !Attempt(s, id, call, t).calls[id].Inserting?;
    } else if call.Crediting? {
      assert !ExecuteCredit(s, id, call, t).calls[id].Inserting?;
    }
  }

  lemma InsertingIsNormal(s: System, a: Action, id: nat)
    requires BookOk(s) && id in Next(s, a).calls && Next(s, a).calls[id].Inserting?
    ensures IsNormal(Next(s, a).calls[id].iban)
  {
    hide Next, IsNormal, NormalIban;
    if a.Advance? && a.id == id && id in s.calls {
      var c := s.calls[id];
      ResumeStep(s, id, a.turn);
      if c.Finding? {
        NormalTwice(c.iban);
        assert FindBeneficiary(s, id, c.user, c.name, c.iban, c.alias, a.turn.choice.scan).calls[id].Inserting? ==>
            FindBeneficiary(s, id, c.user, c.name, c.iban, c.alias, a.turn.choice.scan).calls[id].iban
              == NormalIban(c.iban);
      } else {
        hide Resume;
        AdvanceToInserting(s, id, a.turn);
      }
    } else if id in s.calls {
      OthersKeepCall(s, a, id);
    } else {
      ArrivalNotInserting(s, a, id);
    }
  }

  lemma ArrivalNotInserting(s: System, a: Action, id: nat)
    requires id !in s.calls && id in Next(s, a).calls
    ensures !Next(s, a).calls[id].Inserting?
  {
    if a.Advance? && a.id in s.calls { ResumeTouchesOneCall(s, a.id, a.turn); }
  }

  /** Over any run of `create`, `remove` and everything else: a row never disappears and never
      changes its customer or IBAN, IBANs stay normal, and no customer gets two rows for one. */
  lemma {:induction false} BookIsKept(s: System, run: seq<Action>)
    requires BookOk(s)
    ensures BookOk(Exec(s, run)) && RowsKept(s.db.beneficiaries, Exec(s, run).db.beneficiaries)
    decreases |run|
  {
    hide Next;
    if run != [] {
      BookIsKept(s, run[..|run| - 1]);
      BookStepKeeps(Exec(s, run[..|run| - 1]), run[|run| - 1]);
    }
  }

  lemma ChangeKeepsRows(db: Db, db': Db, c: BookChange)
    requires RowsOk(db.beneficiaries) && BookChanges(db, db', c) && (c.Added? ==> IsNormal(c.b.iban))
    ensures RowsOk(db'.beneficiaries) && RowsKept(db.beneficiaries, db'.beneficiaries)
  {
    hide IsNormal;
  }

  lemma BookStepKeeps(s: System, a: Action)
    requires BookOk(s)
    ensures BookOk(Next(s, a)) && RowsKept(s.db.beneficiaries, Next(s, a).db.beneficiaries)
  {
    hide Next, RowsOk, RowsKept, BookChanges, SamePeople;
    var c := BookStep(s, a);
    ChangeKeepsRows(s.db, Next(s, a).db, c);
    var s' := Next(s, a);
    forall id | id in s'.calls && s'.calls[id].Inserting? ensures IsNormal(s'.calls[id].iban) {
      InsertingIsNormal(s, a, id);
    }
  }

  // ---- `create` and `remove`, run to their end ----

  function AddRun(id: nat, user: UserId, name: string, iban: string, alias: Option<string>, t: Turn): seq<Action> {
    [Arrive(id, AddBeneficiary(user, name, iban, alias)), Advance(id, t), Advance(id, t), Advance(id, t)]
  }

  lemma ExecFour(s: System, a: Action, b: Action, c: Action, d: Action)
    ensures Exec(s, [a, b, c, d]) == Next(Next(Next(Next(s, a), b), c), d)
  {
    hide Next;
    assert [a][..0] == [] && Exec(s, [a]) == Next(s, a);
    assert [a, b][..1] == [a] && Exec(s, [a, b]) == Next(Exec(s, [a]), b);
    assert [a, b, c][..2] == [a, b] && Exec(s, [a, b, c]) == Next(Exec(s, [a, b]), c);
    assert [a, b, c, d][..3] == [a, b, c];
  }

  /** The state after `create`, by what `findFirst` finds. */
  function AfterAdding(s: System, user: UserId, name: string, iban: string, alias: Option<string>, newId: Id,
    found: Option<Id>): Db
    requires user in s.db.profiles && (found.Some? ==> found.value in s.db.beneficiaries)
  {
    match found
    case None =>
      var b := Beneficiary(s.db.profiles[user].id, NormalIban(iban), name, alias, Listed, None);
      s.db.(beneficiaries := s.db.beneficiaries[newId := b],
        audits := s.db.audits + [Audit(user, BeneficiaryCreated, newId)])
    case Some(row) =>
      if s.db.beneficiaries[row].status.Listed? then s.db
      else
        var b := s.db.beneficiaries[row].(displayName := name, alias := alias, status := Listed, archivedAt := None);
        s.db.(beneficiaries := s.db.beneficiaries[row := b],
          audits := s.db.audits + [Audit(user, BeneficiaryReactivated, row)])
  }

  /** `create` refuses a listed row, reactivates an archived row under its old id, and adds a row
      only when the customer has none with that normal IBAN. */
  lemma AddingBeneficiary(s: System, id: nat, user: UserId, name: string, iban: string, alias: Option<string>, t: Turn,
    found: Option<Id>)
    requires BookOk(s) && id !in s.calls && user in s.db.profiles
    requires (forall r :: r in s.db.beneficiaries ==> r in t.choice.scan) && t.choice.newId !in s.db.beneficiaries
    requires found.Some? ==> IsRowFor(s.db, found.value, s.db.profiles[user].id, NormalIban(iban))
    requires found.None? ==> forall r :: r in s.db.beneficiaries ==>
        !IsRowFor(s.db, r, s.db.profiles[user].id, NormalIban(iban))
    ensures var e := Exec(s, AddRun(id, user, name, iban, alias, t));
            && id in e.calls && e.db == AfterAdding(s, user, name, iban, alias, t.choice.newId, found)
            && (e.calls[id] == Refused(BeneficiaryExists)
                <==> found.Some? && s.db.beneficiaries[found.value].status.Listed?)
  {
    ExecFour(s, Arrive(id, AddBeneficiary(user, name, iban, alias)), Advance(id, t), Advance(id, t), Advance(id, t));
    hide Next, NormalIban;
    OneRow(s, s.db.profiles[user].id, NormalIban(iban), found);
    hide BookOk;
    var e := AddBegins(s, id, user, name, iban, alias, t, found);
    AddingRest(e, id, t);
  }

  /** The call of `create` after its lookup. */
  function AfterLookup(s: System, user: UserId, name: string, iban: string, alias: Option<string>,
    found: Option<Id>): Call
    requires user in s.db.profiles && (found.Some? ==> found.value in s.db.beneficiaries)
  {
    if found.None? then Inserting(user, s.db.profiles[user].id, name, NormalIban(iban), alias)
    else if s.db.beneficiaries[found.value].status.Listed? then Refused(BeneficiaryExists)
    else Reactivating(user, found.value, name, alias)
  }

  lemma AddBegins(s: System, id: nat, user: UserId, name: string, iban: string, alias: Option<string>, t: Turn,
    found: Option<Id>) returns (e: System)
    requires id !in s.calls && user in s.db.profiles && forall r :: r in s.db.beneficiaries ==> r in t.choice.scan
    requires found.Some? ==> IsRowFor(s.db, found.value, s.db.profiles[user].id, NormalIban(iban))
    requires forall r :: r in s.db.beneficiaries && Some(r) != found ==>
        !IsRowFor(s.db, r, s.db.profiles[user].id, NormalIban(iban))
    ensures e == Next(Next(s, Arrive(id, AddBeneficiary(user, name, iban, alias))), Advance(id, t))
    ensures e == s.(calls := s.calls[id := AfterLookup(s, user, name, iban, alias, found)])
  {
    hide Next, NormalIban;
    AddArrives(s, id, user, name, iban, alias);
    var e1 := s.(calls := s.calls[id := Finding(user, name, iban, alias)]);
    ResumeStep(e1, id, t);
    LookupFinds(e1, id, user, name, iban, alias, t.choice.scan, found);
    e := FindBeneficiary(e1, id, user, name, iban, alias, t.choice.scan);
  }

  lemma OneRow(s: System, customer: Id, iban: string, found: Option<Id>)
    requires BookOk(s)
    requires found.Some? ==> IsRowFor(s.db, found.value, customer, iban)
    requires found.None? ==> forall r :: r in s.db.beneficiaries ==> !IsRowFor(s.db, r, customer, iban)
    ensures forall r :: r in s.db.beneficiaries && Some(r) != found ==> !IsRowFor(s.db, r, customer, iban)
  {
  }

  /** The lookup of `create`, when the scan covers the table. */
  lemma LookupFinds(s: System, id: nat, user: UserId, name: string, iban: string, alias: Option<string>, scan: seq<Id>,
    found: Option<Id>)
    requires user in s.db.profiles && forall r :: r in s.db.beneficiaries ==> r in scan
    requires found.Some? ==> IsRowFor(s.db, found.value, s.db.profiles[user].id, NormalIban(iban))
    requires forall r :: r in s.db.beneficiaries && Some(r) != found ==>
        !IsRowFor(s.db, r, s.db.profiles[user].id, NormalIban(iban))
    ensures FindBeneficiary(s, id, user, name, iban, alias, scan)
        == s.(calls := s.calls[id := AfterLookup(s, user, name, iban, alias, found)])
  {
    hide NormalIban;
    assert FindRow(scan, s.db, s.db.profiles[user].id, NormalIban(iban)) == found;
  }

  /** Without a profile `create` is refused and nothing changes. */
  lemma AddingNeedsProfile(s: System, id: nat, user: UserId, name: string, iban: string, alias: Option<string>, t: Turn)
    requires id !in s.calls && user !in s.db.profiles
    ensures Next(Next(s, Arrive(id, AddBeneficiary(user, name, iban, alias))), Advance(id, t))
         == s.(calls := s.calls[id := Refused(ProfileNotFound)])
  {
    hide Next;
    AddArrives(s, id, user, name, iban, alias);
    ResumeStep(s.(calls := s.calls[id := Finding(user, name, iban, alias)]), id, t);
  }

  lemma AddArrives(s: System, id: nat, user: UserId, name: string, iban: string, alias: Option<string>)
    requires id !in s.calls
    ensures Next(s, Arrive(id, AddBeneficiary(user, name, iban, alias)))
        == s.(calls := s.calls[id := Finding(user, name, iban, alias)])
  {
  }

  /** The write and the audit row that follow the lookup. */
  lemma AddingRest(s: System, id: nat, t: Turn)
    requires id in s.calls && (s.calls[id].Refused? || s.calls[id].Inserting? || s.calls[id].Reactivating?)
    requires s.calls[id].Reactivating? ==> s.calls[id].id in s.db.beneficiaries
    requires s.calls[id].Inserting? ==>
               && t.choice.newId !in s.db.beneficiaries
               && forall r :: r in s.db.beneficiaries ==> !IsRowFor(s.db, r, s.calls[id].customer, s.calls[id].iban)
    ensures var c, e := s.calls[id], Next(Next(s, Advance(id, t)), Advance(id, t));
            && id in e.calls
            && (c.Refused? ==> e == s)
            && (c.Inserting? ==> e == s.(calls := s.calls[id := Ended], db := s.db.(
                  beneficiaries := s.db.beneficiaries[t.choice.newId :=
                    Beneficiary(c.customer, c.iban, c.name, c.alias, Listed, None)],
                  audits := s.db.audits + [Audit(c.user, BeneficiaryCreated, t.choice.newId)])))
            && (c.Reactivating? ==> e == s.(calls := s.calls[id := Ended], db := s.db.(
                  beneficiaries := s.db.beneficiaries[c.id := s.db.beneficiaries[c.id].(
                    displayName := c.name, alias := c.alias, status := Listed, archivedAt := None)],
                  audits := s.db.audits + [Audit(c.user, BeneficiaryReactivated, c.id)])))
  {
    hide Next;
    ResumeStep(s, id, t);
    var e := Resume(s, id, s.calls[id], t);
    ResumeStep(e, id, t);
  }

  // ---- `remove`, run to its end ----

  function RemoveRun(id: nat, user: UserId, row: Id, t: Turn): seq<Action> {
    [Arrive(id, RemoveBeneficiary(user, row)), Advance(id, t), Advance(id, t), Advance(id, t)]
  }

  /** The row is a listed beneficiary of the user. */
  predicate OwnListed(db: Db, user: UserId, row: Id) {
    && user in db.profiles && row in db.beneficiaries
    && db.beneficiaries[row].customer == db.profiles[user].id && db.beneficiaries[row].status == Listed
  }

  /** The beneficiaries and audit rows after a removal. */
  ghost predicate Removed(db: Db, db': Db, user: UserId, row: Id, now: Time)
    requires row in db.beneficiaries
  {
    && db' == db.(beneficiaries := db'.beneficiaries, audits := db'.audits)
    && db'.beneficiaries.Keys == db.beneficiaries.Keys
    && (forall r :: r in db.beneficiaries && r != row ==> db'.beneficiaries[r] == db.beneficiaries[r])
    && var b, b' := db.beneficiaries[row], db'.beneficiaries[row];
    && b'.status == Archived && b'.archivedAt == Some(now)
    && b'.customer == b.customer && b'.iban == b.iban && b'.displayName == b.displayName && b'.alias == b.alias
    && db'.audits == db.audits + [Audit(user, BeneficiaryDeleted, row)]
  }

  /** `remove` archives the user's own listed row, keeps its other columns and all other rows, and notes it;
      a missing, foreign or archived row is refused and no table changes. */
  lemma RemovingBeneficiary(s: System, id: nat, user: UserId, row: Id, t: Turn)
    requires id !in s.calls
    ensures var e := Exec(s, RemoveRun(id, user, row, t));
            && id in e.calls
            && (OwnListed(s.db, user, row) ==> e.calls[id] == Ended && Removed(s.db, e.db, user, row, t.choice.now))
            && (!OwnListed(s.db, user, row) ==>
                  && e.db == s.db
                  && e.calls[id] == Refused(if user in s.db.profiles then BeneficiaryNotFound else ProfileNotFound))
  {
    ExecFour(s, Arrive(id, RemoveBeneficiary(user, row)), Advance(id, t), Advance(id, t), Advance(id, t));
    hide Next;
    var e0 := RemoveArrives(s, id, user, row);
    RemovalFromSeeking(e0, id, user, row, t);
  }

  lemma RemoveArrives(s: System, id: nat, user: UserId, row: Id) returns (e: System)
    requires id !in s.calls
    ensures e == Next(s, Arrive(id, RemoveBeneficiary(user, row))) == s.(calls := s.calls[id := Seeking(user, row)])
  {
    e := Begin(s, id, RemoveBeneficiary(user, row));
  }

  lemma RemovalFromSeeking(s: System, id: nat, user: UserId, row: Id, t: Turn)
    requires id in s.calls && s.calls[id] == Seeking(user, row)
    ensures var e := Next(Next(Next(s, Advance(id, t)), Advance(id, t)), Advance(id, t));
            && id in e.calls
            && (OwnListed(s.db, user, row) ==> e.calls[id] == Ended && Removed(s.db, e.db, user, row, t.choice.now))
            && (!OwnListed(s.db, user, row) ==>
                  && e.db == s.db
                  && e.calls[id] == Refused(if user in s.db.profiles then BeneficiaryNotFound else ProfileNotFound))
  {
    hide Next;
    var e1 := SeekStep(s, id, t);
    ResumeStep(e1, id, t);
    if OwnListed(s.db, user, row) {
      var e2 := ArchiveStep(e1, id, t);
      ResumeStep(e2, id, t);
    }
  }

  lemma SeekStep(s: System, id: nat, t: Turn) returns (s': System)
    requires id in s.calls && s.calls[id].Seeking?
    ensures s' == Next(s, Advance(id, t)) == SeekBeneficiary(s, id, s.calls[id].user, s.calls[id].id)
  {
    hide ReadKyc, ReadKeyForRisk, SetChallenge, Attempt, FetchChallenge, ConsumeChallenge, ExecuteCredit;
    hide FindBeneficiary, Reactivate, Insert, SeekBeneficiary, Archive, SetKyc;
    ResumeStep(s, id, t);
    s' := Resume(s, id, s.calls[id], t);
  }

  lemma ArchiveStep(s: System, id: nat, t: Turn) returns (s': System)
    requires id in s.calls && s.calls[id].Archiving?
    ensures s' == Next(s, Advance(id, t)) == Archive(s, id, s.calls[id].user, s.calls[id].id, t.choice.now)
  {
    hide ReadKyc, ReadKeyForRisk, SetChallenge, Attempt, FetchChallenge, ConsumeChallenge, ExecuteCredit;
    hide FindBeneficiary, Reactivate, Insert, SeekBeneficiary, Archive, SetKyc;
    ResumeStep(s, id, t);
    s' := Resume(s, id, s.calls[id], t);
  }

  lemma ArchivedStaysOneStep(s: System, a: Action, row: Id)
    requires row in s.db.beneficiaries && s.db.beneficiaries[row].status.Archived? && !Reactivates(s, a, row)
    ensures row in Next(s, a).db.beneficiaries && Next(s, a).db.beneficiaries[row].status.Archived?
  {
    hide Next, Reactivates;
    var c := BookStep(s, a);
  }

  /** No request that names the row can be posted. */
  ghost predicate TakesNothing(db: Db, row: Id) {
    forall user: UserId, r: Request, key: string, c: Choice, p: PaymentRecord ::
      r.BeneficiaryRequest? && r.beneficiary == row ==> !CanPost(db, user, r, key, c, p)
  }

  /** A row that `remove` archived takes no payment in any later state, whatever else happens, until a
      `create` reactivates it. */
  lemma {:induction false} ArchivedTakesNothing(s: System, run: seq<Action>, row: Id)
    requires row in s.db.beneficiaries && s.db.beneficiaries[row].status.Archived?
    requires forall n :: 0 <= n < |run| ==> !Reactivates(Exec(s, run[..n]), run[n], row)
    ensures var db := Exec(s, run).db;
            row in db.beneficiaries && db.beneficiaries[row].status.Archived? && TakesNothing(db, row)
    decreases |run|
  {
    hide Next, Reactivates;
    if run != [] {
      var before := run[..|run| - 1];
      forall n | 0 <= n < |before| ensures !Reactivates(Exec(s, before[..n]), before[n], row) {
        assert before[..n] == run[..n] && before[n] == run[n];
      }
      ArchivedTakesNothing(s, before, row);
      ArchivedStaysOneStep(Exec(s, before), run[|run| - 1], row);
    }
    NoPaymentToArchived(Exec(s, run).db, row);
  }

  lemma NoPaymentToArchived(db: Db, row: Id)
    requires row in db.beneficiaries && db.beneficiaries[row].status.Archived?
    ensures TakesNothing(db, row)
  {
  }
}
