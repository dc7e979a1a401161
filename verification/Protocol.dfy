/** The payment protocol as a step system: any number of calls interleave over the tables and
    the Redis challenges, one awaited statement or one serializable transaction at a time. */
module Protocol {
  import opened Text
  import opened Json
  import opened Rows
  import opened Requests
  import opened Posting

  /** 1000 RON, in cents. */
  const STEP_UP_THRESHOLD: nat := 100000
  const SERIALIZABLE_RETRIES: nat := 5

  datatype Origin = Direct | Stepped(challengeId: string, challenge: Challenge)

  /** The statement a call is about to execute, with the locals it still needs. */
  datatype Call =
    | Entering(user: UserId, request: Request, key: string, origin: Origin)
    | CheckingRisk(user: UserId, customer: Id, request: Request, key: string)
    | Challenging(user: UserId, request: Request, key: string)
    | Executing(user: UserId, customer: Id, request: Request, key: string, origin: Origin, attempt: nat)
    | Fetching(user: UserId, challengeId: string, otp: string)
    | Consuming(user: UserId, challengeId: string, challenge: Challenge)
    | Paid(user: UserId, key: string, request: Request, result: TxResult)
    | Refused(error: Error)
    | Finding(user: UserId, name: string, iban: string, alias: Option<string>)
    | Reactivating(user: UserId, id: Id, name: string, alias: Option<string>)
    | Inserting(user: UserId, customer: Id, name: string, iban: string, alias: Option<string>)
    | Seeking(user: UserId, id: Id)
    | Archiving(user: UserId, id: Id)
    | Reviewing(admin: UserId, subject: UserId, status: Kyc)
    | Crediting(admin: UserId, target: Id, cents: nat, currency: string, note: Option<string>)
    | Noting(audit: Audit)
    | Ended

  datatype Message =
    | Pay(user: UserId, request: Request, key: string)
    | Confirm(user: UserId, challengeId: string, otp: string)
    | AddBeneficiary(user: UserId, name: string, iban: string, alias: Option<string>)
    | RemoveBeneficiary(user: UserId, id: Id)
    | UpdateKyc(admin: UserId, subject: UserId, status: Kyc)
    | CreditAccount(admin: UserId, target: Id, cents: nat, currency: string, note: Option<string>)
    | Register(user: UserId, profile: Id, account: Id, iban: string)

  /** What the environment decides for one step: whether a transaction fails with P2034, what
      the database generates, and the challenge id, OTP and date of a new challenge. */
  datatype Turn = Turn(conflict: bool, choice: Choice, challengeId: string, otp: string, createdAt: string)

  datatype Action =
    | Arrive(id: nat, message: Message)
    | Advance(id: nat, turn: Turn)
    | Expire(redisKey: string)

  /** What happened, in order. The history never influences a step. */
  datatype Event =
    | Issued(user: UserId, challengeId: string, challenge: Challenge)
    | Confirmed(call: nat, user: UserId, challengeId: string, challenge: Challenge, otp: string)
    | Verified(call: nat, user: UserId)
    | Moved(call: nat, origin: Origin, movement: Movement)

  datatype System = System(db: Db, redis: map<string, string>, calls: map<nat, Call>, history: seq<Event>)

  // ---- Arrivals ----

  /** A payment route before its first await: an empty key is refused. */
  function Enter(user: UserId, request: Request, key: string, origin: Origin): Call {
    if Trim(key) == "" then Refused(KeyRequired) else Entering(user, request, Trim(key), origin)
  }

  predicate CanRegister(db: Db, user: UserId, account: Id, iban: string) {
    && user !in db.profiles && account !in db.accounts
    && forall a :: a in db.accounts ==> db.accounts[a].iban != iban
  }

  function OpenAccount(db: Db, user: UserId, profile: Id, account: Id, iban: string): Db {
    db.(profiles := db.profiles[user := Profile(profile, Pending)],
        accounts := db.accounts[account := Account(profile, iban, "RON", 0, Active, "CHECKING", false)])
  }

  function Begin(s: System, id: nat, m: Message): System {
    match m
    case Pay(user, request, key) => s.(calls := s.calls[id := Enter(user, request, key, Direct)])
    case Confirm(user, challengeId, otp) => s.(calls := s.calls[id := Fetching(user, challengeId, otp)])
    case AddBeneficiary(user, name, iban, alias) => s.(calls := s.calls[id := Finding(user, name, iban, alias)])
    case RemoveBeneficiary(user, ben) => s.(calls := s.calls[id := Seeking(user, ben)])
    case UpdateKyc(admin, subject, status) => s.(calls := s.calls[id := Reviewing(admin, subject, status)])
    case CreditAccount(admin, target, cents, currency, note) =>
      s.(calls := s.calls[id := Crediting(admin, target, cents, currency, note)])
    case Register(user, profile, account, iban) =>
      if CanRegister(s.db, user, account, iban) then
        s.(db := OpenAccount(s.db, user, profile, account, iban),
           calls := s.calls[id := Noting(Audit(user, UserRegistered, user))])
      else s.(calls := s.calls[id := Refused(UniqueViolation)])
  }

  // ---- Payment calls ----

  /** Between the KYC read and the next await: the checks that need no table. */
  function AfterKyc(user: UserId, customer: Id, r: Request, key: string, origin: Origin): Call {
    if r.TransferRequest? && r.source == r.destination then Refused(SameAccount)
    else if CurrencyOf(r) != "RON" then Refused(UnsupportedCurrency)
    else if r.MerchantRequest? && r.cents == 0 then Refused(AmountNotPositive)
    else if origin.Direct? && r.cents > STEP_UP_THRESHOLD then CheckingRisk(user, customer, r, key)
    else Executing(user, customer, r, key, origin, 1)
  }

  function ReadKyc(s: System, id: nat, user: UserId, r: Request, key: string, origin: Origin): System {
    if user in s.db.profiles && s.db.profiles[user].kyc.Verified? then
      s.(calls := s.calls[id := AfterKyc(user, s.db.profiles[user].id, r, key, origin)],
         history := s.history + [Event.Verified(id, user)])
    else s.(calls := s.calls[id := Refused(KycRequired)])
  }

  predicate IsCompleted(db: Db, user: UserId, key: string) {
    (user, key) in db.keys && db.keys[(user, key)].status.Completed?
  }

  function ReadKeyForRisk(s: System, id: nat, user: UserId, customer: Id, r: Request, key: string): System {
    if IsCompleted(s.db, user, key) then s.(calls := s.calls[id := Executing(user, customer, r, key, Direct, 1)])
    else s.(calls := s.calls[id := Challenging(user, r, key)])
  }

  function SetChallenge(s: System, id: nat, user: UserId, r: Request, key: string, t: Turn): System {
    var ch := Challenge(user, r, key, t.createdAt, t.otp);
    s.(redis := s.redis[RedisKey(user, t.challengeId) := Stringify(ChallengeJson(ch))],
       calls := s.calls[id := Refused(StepUpRequired(t.challengeId))],
       history := s.history + [Issued(user, t.challengeId, ch)])
  }

  /** One pass of the retry loop: a serialization failure leaves the tables alone and retries
      until the fifth attempt; anything else ends the call. */
  function Attempt(s: System, id: nat, call: Call, t: Turn): System
    requires call.Executing?
  {
    var Executing(user, customer, r, key, origin, attempt) := call;
    if t.conflict then
      s.(calls := s.calls[id := if attempt < SERIALIZABLE_RETRIES then call.(attempt := attempt + 1)
                                else Paid(user, key, r, Throw(SerializationFailure))])
    else
      var (db, result) := PaymentTx(s.db, user, customer, r, key, t.choice);
      s.(db := db, calls := s.calls[id := Paid(user, key, r, result)],
         history := match Commits(s.db, user, customer, r, key, t.choice)
                    case Some(m) => s.history + [Moved(id, origin, m)]
                    case None => s.history)
  }

  function FetchChallenge(s: System, id: nat, user: UserId, challengeId: string, otp: string): System {
    var k := RedisKey(user, challengeId);
    if k !in s.redis then s.(calls := s.calls[id := Refused(ChallengeNotFound)])
    else
      match ParseChallenge(s.redis[k])
      case None => s.(calls := s.calls[id := Refused(UnreadableChallenge)])
      case Some(ch) =>
        if ch.otp != otp then s.(calls := s.calls[id := Refused(InvalidOtp)])
        else s.(calls := s.calls[id := Consuming(user, challengeId, ch)],
                history := s.history + [Confirmed(id, user, challengeId, ch, otp)])
  }

  /** `del`, and the call of the stored route up to its first await. */
  function ConsumeChallenge(s: System, id: nat, user: UserId, challengeId: string, ch: Challenge): System {
    s.(redis := s.redis - {RedisKey(user, challengeId)},
       calls := s.calls[id := Enter(user, ch.request, ch.key, Stepped(challengeId, ch))])
  }

  // ---- Beneficiaries ----

  /** `findFirst` on the unique pair of customer and IBAN. */
  predicate IsRowFor(db: Db, id: Id, customer: Id, iban: string) {
    id in db.beneficiaries && db.beneficiaries[id].customer == customer && db.beneficiaries[id].iban == iban
  }

  function FindRow(scan: seq<Id>, db: Db, customer: Id, iban: string): (r: Option<Id>)
    ensures r.Some? ==> IsRowFor(db, r.value, customer, iban)
    ensures r.None? ==> forall id :: id in scan ==> !IsRowFor(db, id, customer, iban)
  {
    if scan == [] then None
    else if IsRowFor(db, scan[0], customer, iban) then Some(scan[0])
    else FindRow(scan[1..], db, customer, iban)
  }

  function NormalIban(iban: string): string { Upper(Trim(iban)) }

  function FindBeneficiary(s: System, id: nat, user: UserId, name: string, iban: string, alias: Option<string>,
    scan: seq<Id>): System {
    if user !in s.db.profiles then s.(calls := s.calls[id := Refused(ProfileNotFound)])
    else
      var customer, norm := s.db.profiles[user].id, NormalIban(iban);
      match FindRow(scan, s.db, customer, norm)
      case None => s.(calls := s.calls[id := Inserting(user, customer, name, norm, alias)])
      case Some(row) =>
        if s.db.beneficiaries[row].status.Listed? then s.(calls := s.calls[id := Refused(BeneficiaryExists)])
        else s.(calls := s.calls[id := Reactivating(user, row, name, alias)])
  }

  function Reactivate(s: System, id: nat, user: UserId, row: Id, name: string, alias: Option<string>): System {
    if row !in s.db.beneficiaries then s.(calls := s.calls[id := Refused(BeneficiaryNotFound)])
    else
      var b := s.db.beneficiaries[row].(displayName := name, alias := alias, status := Listed, archivedAt := None);
      s.(db := s.db.(beneficiaries := s.db.beneficiaries[row := b]),
         calls := s.calls[id := Noting(Audit(user, BeneficiaryReactivated, row))])
  }

  /** The unique constraint on customer and IBAN refuses a second row. */
  function Insert(s: System, id: nat, call: Call, newId: Id): System
    requires call.Inserting?
  {
    var Inserting(user, customer, name, iban, alias) := call;
    var taken := exists row :: row in s.db.beneficiaries && IsRowFor(s.db, row, customer, iban);
    if newId in s.db.beneficiaries || taken then
      s.(calls := s.calls[id := Refused(UniqueViolation)])
    else
      var added := Beneficiary(customer, iban, name, alias, Listed, None);
      s.(db := s.db.(beneficiaries := s.db.beneficiaries[newId := added]),
         calls := s.calls[id := Noting(Audit(user, BeneficiaryCreated, newId))])
  }

  function SeekBeneficiary(s: System, id: nat, user: UserId, row: Id): System {
    if user !in s.db.profiles then s.(calls := s.calls[id := Refused(ProfileNotFound)])
    else if row in s.db.beneficiaries && s.db.beneficiaries[row].customer == s.db.profiles[user].id
            && s.db.beneficiaries[row].status.Listed? then
      s.(calls := s.calls[id := Archiving(user, row)])
    else s.(calls := s.calls[id := Refused(BeneficiaryNotFound)])
  }

  function Archive(s: System, id: nat, user: UserId, row: Id, now: Time): System {
    if row !in s.db.beneficiaries then s.(calls := s.calls[id := Refused(BeneficiaryNotFound)])
    else
      var b := s.db.beneficiaries[row].(status := Archived, archivedAt := Some(now));
      s.(db := s.db.(beneficiaries := s.db.beneficiaries[row := b]),
         calls := s.calls[id := Noting(Audit(user, BeneficiaryDeleted, row))])
  }

  // ---- Administration ----

  function SetKyc(s: System, id: nat, admin: UserId, subject: UserId, status: Kyc): System {
    if subject !in s.db.profiles then s.(calls := s.calls[id := Refused(ProfileNotFound)])
    else
      var action := if status.Verified? then CustomerVerified else CustomerRejected;
      s.(db := s.db.(profiles := s.db.profiles[subject := s.db.profiles[subject].(kyc := status)]),
         calls := s.calls[id := Noting(Audit(admin, action, s.db.profiles[subject].id))])
  }

  /** `creditAccount` is one serializable transaction without a retry loop. */
  function ExecuteCredit(s: System, id: nat, call: Call, t: Turn): System
    requires call.Crediting?
  {
    var Crediting(admin, target, cents, currency, note) := call;
    if t.conflict then s.(calls := s.calls[id := Refused(SerializationFailure)])
    else
      match CreditTx(s.db, admin, target, cents, currency, note, t.choice)
      case Reject(e) => s.(calls := s.calls[id := Refused(e)])
      case Accept(m) =>
        s.(db := Apply(s.db, m), calls := s.calls[id := Ended], history := s.history + [Moved(id, Direct, m)])
  }

  // ---- The system ----

  function Resume(s: System, id: nat, call: Call, t: Turn): System {
    match call
    case Entering(user, r, key, origin) => ReadKyc(s, id, user, r, key, origin)
    case CheckingRisk(user, customer, r, key) => ReadKeyForRisk(s, id, user, customer, r, key)
    case Challenging(user, r, key) => SetChallenge(s, id, user, r, key, t)
    case Executing(_, _, _, _, _, _) => Attempt(s, id, call, t)
    case Fetching(user, challengeId, otp) => FetchChallenge(s, id, user, challengeId, otp)
    case Consuming(user, challengeId, ch) => ConsumeChallenge(s, id, user, challengeId, ch)
    case Finding(user, name, iban, alias) => FindBeneficiary(s, id, user, name, iban, alias, t.choice.scan)
    case Reactivating(user, row, name, alias) => Reactivate(s, id, user, row, name, alias)
    case Inserting(_, _, _, _, _) => Insert(s, id, call, t.choice.newId)
    case Seeking(user, row) => SeekBeneficiary(s, id, user, row)
    case Archiving(user, row) => Archive(s, id, user, row, t.choice.now)
    case Reviewing(admin, subject, status) => SetKyc(s, id, admin, subject, status)
    case Crediting(_, _, _, _, _) => ExecuteCredit(s, id, call, t)
    case Noting(audit) => s.(db := s.db.(audits := s.db.audits + [audit]), calls := s.calls[id := Ended])
    case Paid(_, _, _, _) => s
    case Refused(_) => s
    case Ended => s
  }

  /** One step of the whole system. An action that is not enabled changes nothing. */
  function Next(s: System, a: Action): System {
    match a
    case Arrive(id, m) => if id in s.calls then s else Begin(s, id, m)
    case Advance(id, t) => if id in s.calls then Resume(s, id, s.calls[id], t) else s
    case Expire(k) => s.(redis := s.redis - {k})
  }

  /** A run: any finite sequence of actions. */
  function Exec(s: System, run: seq<Action>): System
    decreases |run|
  {
    if run == [] then s else Next(Exec(s, run[..|run| - 1]), run[|run| - 1])
  }

  /** Profiles, accounts, merchants and beneficiaries as seeded; nothing has been posted. */
  predicate Initial(s: System) {
    && s.db.txns == map[] && s.db.ledger == [] && s.db.keys == map[] && s.db.audits == []
    && s.redis == map[] && s.calls == map[] && s.history == []
  }
}
