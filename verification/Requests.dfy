/** Payment requests and their texts: the canonical string that is hashed, the JSON kept in a
    step-up challenge, and the JSON kept as the response of a completed key. */
module Requests {
  import opened Text
  import opened Json
  import opened Rows

  /** An optional DTO field: `undefined`, `null` or a string. */
  datatype OptionalText = Absent | NullText | Given(text: string)

  /** The three request bodies. Amounts are whole cents, as the DTO rules make them. */
  datatype Request =
    | TransferRequest(source: Id, destination: Id, cents: nat, currency: Option<string>, description: OptionalText)
    | BeneficiaryRequest(source: Id, beneficiary: Id, cents: nat, requestCurrency: string, description: OptionalText)
    | MerchantRequest(source: Id, merchant: Id, cents: nat, requestCurrency: string, description: OptionalText)

  /** `(dto.currency ?? 'RON').trim().toUpperCase()` */
  function CurrencyOf(r: Request): string {
    var raw := match r
      case TransferRequest(_, _, _, c, _) => (match c case Some(t) => t case None => "RON")
      case BeneficiaryRequest(_, _, _, c, _) => c
      case MerchantRequest(_, _, _, c, _) => c;
    Upper(Trim(raw))
  }

  /** A spelling of RON: any case, any white space around it. */
  predicate IsRon(raw: string) {
    && |Trim(raw)| == 3
    && (Trim(raw)[0] == 'R' || Trim(raw)[0] == 'r')
    && (Trim(raw)[1] == 'O' || Trim(raw)[1] == 'o')
    && (Trim(raw)[2] == 'N' || Trim(raw)[2] == 'n')
  }

  /** A request is in RON exactly when its currency is a spelling of RON, or absent on a transfer. */
  lemma CurrencyIsRon(r: Request)
    ensures CurrencyOf(r) == "RON" <==>
              match r
              case TransferRequest(_, _, _, None, _) => true
              case TransferRequest(_, _, _, Some(raw), _) => IsRon(raw)
              case BeneficiaryRequest(_, _, _, raw, _) => IsRon(raw)
              case MerchantRequest(_, _, _, raw, _) => IsRon(raw)
  {
    var raw := match r
      case TransferRequest(_, _, _, c, _) => (match c case Some(t) => t case None => "RON")
      case BeneficiaryRequest(_, _, _, c, _) => c
      case MerchantRequest(_, _, _, c, _) => c;
    TrimIs("", "RON", "");
    assert "" + "RON" + "" == "RON";
    UpperIsRon(Trim(raw));
  }

  lemma UpperIsRon(t: string)
    ensures Upper(t) == "RON" <==>
              && |t| == 3 && (t[0] == 'R' || t[0] == 'r') && (t[1] == 'O' || t[1] == 'o')
                  && (t[2] == 'N' || t[2] == 'n')
  {
    if |t| == 3 {
      assert Upper(t) == [UpperChar(t[0]), UpperChar(t[1]), UpperChar(t[2])];
    }
  }

  function TargetOf(r: Request): Id {
    match r
    case TransferRequest(_, d, _, _, _) => d
    case BeneficiaryRequest(_, b, _, _, _) => b
    case MerchantRequest(_, m, _, _, _) => m
  }

  function TargetName(r: Request): string {
    match r
    case TransferRequest(_, _, _, _, _) => "destinationAccountId"
    case BeneficiaryRequest(_, _, _, _, _) => "beneficiaryId"
    case MerchantRequest(_, _, _, _, _) => "merchantId"
  }

  /** `dto.description ?? null` */
  function DescriptionJson(d: OptionalText): Value {
    match d
    case Given(t) => Str(t)
    case _ => Null
  }

  // ---- The canonical string ----

  function CanonicalJson(r: Request): Value {
    var target := Put(TargetName(r), Str(TargetOf(r)), Put("sourceAccountId", Str(r.source), End));
    var description := Put("description", DescriptionJson(r.description), target);
    Object(Put("amount", Number(r.cents), Put("currency", Str(CurrencyOf(r)), description)))
  }

  /** The string that is hashed; SHA-256 is taken to be injective, so it stands for the hash. */
  function Canonical(r: Request): string {
    Stringify(CanonicalJson(r))
  }

  /** The same request up to currency spelling and an absent or null description. */
  predicate SameRequest(r: Request, q: Request) {
    && r.source == q.source && r.cents == q.cents && CurrencyOf(r) == CurrencyOf(q)
    && (r.description.Given? || q.description.Given? ==> r.description == q.description)
    && match r
       case TransferRequest(_, destination, _, _, _) => q.TransferRequest? && q.destination == destination
       case BeneficiaryRequest(_, row, _, _, _) => q.BeneficiaryRequest? && q.beneficiary == row
       case MerchantRequest(_, merchant, _, _, _) => q.MerchantRequest? && q.merchant == merchant
  }

  /** A canonical string determines its request and its route, and nothing else. */
  lemma CanonicalDeterminesRequest(r: Request, q: Request)
    ensures Canonical(r) == Canonical(q) <==> SameRequest(r, q)
  {
    StringifyInjective(CanonicalJson(r), CanonicalJson(q));
    hide Stringify, CurrencyOf;
    assert TargetName(r)[0] == TargetName(q)[0] ==> TargetName(r) == TargetName(q);
  }

  // ---- Responses ----

  datatype Body =
    | TransferBody(txn: Id, status: string, source: Id, destination: Id, amount: string, currency: string)
    | BeneficiaryBody(txn: Id, status: string, source: Id, beneficiary: Id, iban: string,
                      amount: string, currency: string, internalBeneficiary: bool)
    | MerchantBody(txn: Id, status: string, source: Id, merchant: Id, amount: string, currency: string)

  function AmountFields(amount: string, currency: string, rest: Fields): Fields {
    Put("amount", Str(amount), Put("currency", Str(currency), rest))
  }

  function HeadFields(txn: Id, status: string, source: Id, rest: Fields): Fields {
    var tail := Put("sourceAccountId", Str(source), rest);
    Put("transactionId", Str(txn), Put("status", Str(status), tail))
  }

  /** The members after the three that every response starts with. */
  function TailFields(b: Body): Fields {
    var balanced := Put("ledgerBalanced", Bool(true), End);
    match b
    case TransferBody(_, _, _, destination, amount, currency) =>
      Put("destinationAccountId", Str(destination), AmountFields(amount, currency, balanced))
    case BeneficiaryBody(_, _, _, beneficiary, iban, amount, currency, internal) =>
      var flags := Put("internalBeneficiary", Bool(internal), balanced);
      var who := Put("beneficiaryIban", Str(iban), AmountFields(amount, currency, flags));
      Put("beneficiaryId", Str(beneficiary), who)
    case MerchantBody(_, _, _, merchant, amount, currency) =>
      Put("merchantId", Str(merchant), AmountFields(amount, currency, balanced))
  }

  function BodyJson(b: Body): Value {
    Object(HeadFields(b.txn, b.status, b.source, TailFields(b)))
  }

  /** `typeof o.name === 'string'` */
  predicate HasText(o: Fields, name: string) {
    Get(o, name).Some? && Get(o, name).value.Str?
  }

  function TextAt(o: Fields, name: string): string
    requires HasText(o, name)
  {
    Get(o, name).value.s
  }

  /** The fields every response has. */
  predicate HasCommon(o: Fields) {
    && HasText(o, "transactionId") && HasText(o, "status") && HasText(o, "sourceAccountId")
    && HasText(o, "amount") && HasText(o, "currency")
    && Get(o, "ledgerBalanced") == Some(Bool(true))
  }

  function ParseTransferBody(raw: Option<Value>): Option<Body> {
    match raw
    case Some(Object(o)) =>
      if HasCommon(o) && HasText(o, "destinationAccountId") then
        Some(TransferBody(TextAt(o, "transactionId"), TextAt(o, "status"), TextAt(o, "sourceAccountId"),
                          TextAt(o, "destinationAccountId"), TextAt(o, "amount"), TextAt(o, "currency")))
      else None
    case _ => None
  }

  function ParseBeneficiaryBody(raw: Option<Value>): Option<Body> {
    match raw
    case Some(Object(o)) =>
      if HasCommon(o) && HasText(o, "beneficiaryId") && HasText(o, "beneficiaryIban")
         && Get(o, "internalBeneficiary").Some? && Get(o, "internalBeneficiary").value.Bool? then
        Some(BeneficiaryBody(TextAt(o, "transactionId"), TextAt(o, "status"), TextAt(o, "sourceAccountId"),
                             TextAt(o, "beneficiaryId"), TextAt(o, "beneficiaryIban"), TextAt(o, "amount"),
                             TextAt(o, "currency"), Get(o, "internalBeneficiary").value.b))
      else None
    case _ => None
  }

  function ParseMerchantBody(raw: Option<Value>): Option<Body> {
    match raw
    case Some(Object(o)) =>
      if HasCommon(o) && HasText(o, "merchantId") then
        Some(MerchantBody(TextAt(o, "transactionId"), TextAt(o, "status"), TextAt(o, "sourceAccountId"),
                          TextAt(o, "merchantId"), TextAt(o, "amount"), TextAt(o, "currency")))
      else None
    case _ => None
  }

  /** Stored as `jsonb`, an object may come back with its members in another order. */
  ghost predicate SameMembers(o: Fields, p: Fields) {
    forall name :: Get(o, name) == Get(p, name)
  }

  /** The object has exactly the members of that body that the parsers look at. */
  ghost predicate Carries(o: Fields, b: Body) {
    && HasCommon(o)
    && TextAt(o, "transactionId") == b.txn && TextAt(o, "status") == b.status
    && TextAt(o, "sourceAccountId") == b.source
    && TextAt(o, "amount") == b.amount && TextAt(o, "currency") == b.currency
    && CarriesOwn(o, b)
  }

  /** The members specific to a route. */
  ghost predicate CarriesOwn(o: Fields, b: Body) {
    && Get(o, "destinationAccountId") == (if b.TransferBody? then Some(Str(b.destination)) else None)
    && Get(o, "merchantId") == (if b.MerchantBody? then Some(Str(b.merchant)) else None)
    && Get(o, "beneficiaryId") == (if b.BeneficiaryBody? then Some(Str(b.beneficiary)) else None)
    && (b.BeneficiaryBody? ==>
          && Get(o, "beneficiaryIban") == Some(Str(b.iban))
          && Get(o, "internalBeneficiary") == Some(Bool(b.internalBeneficiary)))
  }

  lemma TailCarriesOwn(b: Body)
    ensures CarriesOwn(TailFields(b), b)
  {
  }

  lemma TailCarriesAmount(b: Body)
    ensures Get(TailFields(b), "amount") == Some(Str(b.amount))
    ensures Get(TailFields(b), "currency") == Some(Str(b.currency))
    ensures Get(TailFields(b), "ledgerBalanced") == Some(Bool(true))
  {
  }

  lemma HeadCarries(txn: Id, status: string, source: Id, rest: Fields, name: string)
    ensures Get(HeadFields(txn, status, source, rest), name) ==
            if name == "transactionId" then Some(Str(txn))
            else if name == "status" then Some(Str(status))
            else if name == "sourceAccountId" then Some(Str(source))
            else Get(rest, name)
  {
  }

  lemma HeadCarriesOwn(b: Body, rest: Fields)
    requires CarriesOwn(rest, b)
    ensures CarriesOwn(HeadFields(b.txn, b.status, b.source, rest), b)
  {
    forall name { HeadCarries(b.txn, b.status, b.source, rest, name); }
  }

  lemma HeadCarriesAmount(b: Body, rest: Fields)
    requires Get(rest, "ledgerBalanced") == Some(Bool(true))
    requires Get(rest, "amount") == Some(Str(b.amount)) && Get(rest, "currency") == Some(Str(b.currency))
    ensures var o := HeadFields(b.txn, b.status, b.source, rest);
            HasCommon(o) && TextAt(o, "amount") == b.amount && TextAt(o, "currency") == b.currency
  {
    forall name { HeadCarries(b.txn, b.status, b.source, rest, name); }
  }

  lemma BodyCarries(b: Body)
    ensures Carries(BodyJson(b).fields, b)
  {
    TailCarriesOwn(b);
    TailCarriesAmount(b);
    HeadCarriesOwn(b, TailFields(b));
    HeadCarriesAmount(b, TailFields(b));
    HeadCarries(b.txn, b.status, b.source, TailFields(b), "transactionId");
    HeadCarries(b.txn, b.status, b.source, TailFields(b), "status");
    HeadCarries(b.txn, b.status, b.source, TailFields(b), "sourceAccountId");
  }

  lemma ParsersReadCarried(o: Fields, b: Body)
    requires Carries(o, b)
    ensures ParseTransferBody(Some(Object(o))) == if b.TransferBody? then Some(b) else None
    ensures ParseBeneficiaryBody(Some(Object(o))) == if b.BeneficiaryBody? then Some(b) else None
    ensures ParseMerchantBody(Some(Object(o))) == if b.MerchantBody? then Some(b) else None
  {
  }

  /** The members every response has, spelled. */
  predicate HasHead(o: Fields, b: Body) {
    && Get(o, "transactionId") == Some(Str(b.txn)) && Get(o, "status") == Some(Str(b.status))
    && Get(o, "sourceAccountId") == Some(Str(b.source)) && Get(o, "amount") == Some(Str(b.amount))
    && Get(o, "currency") == Some(Str(b.currency)) && Get(o, "ledgerBalanced") == Some(Bool(true))
  }

  /** Each parser reads a body exactly from the objects that have its members, each in its place and of its
      type, whatever other members they have. */
  lemma ParsersReadExactly(o: Fields, b: Body)
    ensures ParseTransferBody(Some(Object(o))) == Some(b) <==>
              b.TransferBody? && HasHead(o, b) && Get(o, "destinationAccountId") == Some(Str(b.destination))
    ensures ParseBeneficiaryBody(Some(Object(o))) == Some(b) <==>
              && b.BeneficiaryBody? && HasHead(o, b) && Get(o, "beneficiaryId") == Some(Str(b.beneficiary))
              && Get(o, "beneficiaryIban") == Some(Str(b.iban))
              && Get(o, "internalBeneficiary") == Some(Bool(b.internalBeneficiary))
    ensures ParseMerchantBody(Some(Object(o))) == Some(b) <==>
              b.MerchantBody? && HasHead(o, b) && Get(o, "merchantId") == Some(Str(b.merchant))
  {
    hide Get;
  }

  /** Nothing but an object is read. */
  lemma OnlyObjectsAreRead(raw: Option<Value>)
    requires raw.Some? ==> !raw.value.Object?
    ensures ParseTransferBody(raw) == None && ParseBeneficiaryBody(raw) == None && ParseMerchantBody(raw) == None
  {
  }

  lemma SameMembersCarry(o: Fields, p: Fields, b: Body)
    requires SameMembers(o, p) && Carries(p, b)
    ensures Carries(o, b)
  {
    hide Get;
  }

  /** Each parser inverts the body its own route stores, whatever the member order,
      and rejects the bodies of the other two routes. */
  lemma ParsersInvertBodies(b: Body, stored: Fields)
    requires SameMembers(stored, BodyJson(b).fields)
    ensures ParseTransferBody(Some(Object(stored))) == if b.TransferBody? then Some(b) else None
    ensures ParseBeneficiaryBody(Some(Object(stored))) == if b.BeneficiaryBody? then Some(b) else None
    ensures ParseMerchantBody(Some(Object(stored))) == if b.MerchantBody? then Some(b) else None
  {
    BodyCarries(b);
    SameMembersCarry(stored, BodyJson(b).fields, b);
    ParsersReadCarried(stored, b);
  }

  // ---- Step-up challenges ----

  datatype Challenge = Challenge(user: UserId, request: Request, key: string, createdAt: string, otp: string)

  function KindText(r: Request): string {
    match r
    case TransferRequest(_, _, _, _, _) => "INTERNAL_TRANSFER"
    case BeneficiaryRequest(_, _, _, _, _) => "BENEFICIARY_TRANSFER"
    case MerchantRequest(_, _, _, _, _) => "MERCHANT_PAYMENT"
  }

  /** An `undefined` field is dropped by `JSON.stringify`. */
  function DescriptionFields(d: OptionalText): Fields {
    match d
    case Absent => End
    case NullText => Put("description", Null, End)
    case Given(t) => Put("description", Str(t), End)
  }

  function CurrencyFields(r: Request, rest: Fields): Fields {
    match r
    case TransferRequest(_, _, _, None, _) => rest
    case TransferRequest(_, _, _, Some(c), _) => Put("currency", Str(c), rest)
    case _ => Put("currency", Str(r.requestCurrency), rest)
  }

  function RequestJson(r: Request): Value {
    var rest := CurrencyFields(r, DescriptionFields(r.description));
    var target := Put(TargetName(r), Str(TargetOf(r)), Put("amount", Number(r.cents), rest));
    Object(Put("sourceAccountId", Str(r.source), target))
  }

  function PayloadFields(c: Challenge): Fields {
    var tail := Put("idempotencyKey", Str(c.key), Put("createdAt", Str(c.createdAt), End));
    var body := Put("requestBody", RequestJson(c.request), tail);
    Put("userId", Str(c.user), Put("type", Str(KindText(c.request)), body))
  }

  function ChallengeJson(c: Challenge): Value {
    Object(Put("payload", Object(PayloadFields(c)), Put("otp", Str(c.otp), End)))
  }

  function ReadDescription(o: Fields): Option<OptionalText> {
    match Get(o, "description")
    case None => Some(Absent)
    case Some(Null) => Some(NullText)
    case Some(Str(t)) => Some(Given(t))
    case _ => None
  }

  function ReadRequest(kind: string, v: Value): Option<Request> {
    if !v.Object? then None
    else
      var o := v.fields;
      match (Get(o, "amount"), ReadDescription(o))
      case (Some(Number(cents)), Some(description)) =>
        if !HasText(o, "sourceAccountId") then None
        else
          var source := TextAt(o, "sourceAccountId");
          if kind == "INTERNAL_TRANSFER" then
            if HasText(o, "destinationAccountId") && (Get(o, "currency").None? || HasText(o, "currency")) then
              Some(TransferRequest(source, TextAt(o, "destinationAccountId"), cents,
                   if HasText(o, "currency") then Some(TextAt(o, "currency")) else None, description))
            else None
          else if kind == "BENEFICIARY_TRANSFER" then
            if HasText(o, "beneficiaryId") && HasText(o, "currency") then
              Some(BeneficiaryRequest(source, TextAt(o, "beneficiaryId"), cents, TextAt(o, "currency"), description))
            else None
          else if kind == "MERCHANT_PAYMENT" then
            if HasText(o, "merchantId") && HasText(o, "currency") then
              Some(MerchantRequest(source, TextAt(o, "merchantId"), cents, TextAt(o, "currency"), description))
            else None
          else None
      case _ => None
  }

  function ReadChallenge(v: Value): Option<Challenge> {
    match v
    case Object(o) =>
      (match Get(o, "payload")
       case Some(Object(p)) =>
         if HasText(o, "otp") && HasText(p, "userId") && HasText(p, "type")
            && HasText(p, "idempotencyKey") && HasText(p, "createdAt") && Get(p, "requestBody").Some?
            && ':' !in TextAt(p, "userId") then
           (match ReadRequest(TextAt(p, "type"), Get(p, "requestBody").value)
            case Some(r) => Some(Challenge(TextAt(p, "userId"), r, TextAt(p, "idempotencyKey"),
                                           TextAt(p, "createdAt"), TextAt(o, "otp")))
            case None => None)
         else None
       case _ => None)
    case _ => None
  }

  /** `JSON.parse` of the text held in Redis, read as a challenge. */
  function ParseChallenge(text: string): Option<Challenge> {
    match Parse(text)
    case Some(v) => ReadChallenge(v)
    case None => None
  }

  lemma RequestSurvivesStorage(r: Request)
    ensures ReadRequest(KindText(r), RequestJson(r)) == Some(r)
  {
    var o := RequestJson(r).fields;
    var d := DescriptionFields(r.description);
    assert Get(o, "sourceAccountId") == Some(Str(r.source));
    assert Get(o, TargetName(r)) == Some(Str(TargetOf(r)));
    assert Get(o, "amount") == Some(Number(r.cents));
    assert Get(o, "description") == Get(d, "description");
    assert ReadDescription(o) == Some(r.description);
    assert Get(o, "currency") == Get(CurrencyFields(r, d), "currency");
  }

  /** A challenge read back from its stored text is the challenge that was issued: the same
      request, hence the same request hash, the same key and the same OTP. */
  lemma ChallengeSurvivesStorage(c: Challenge)
    ensures ParseChallenge(Stringify(ChallengeJson(c))) == Some(c)
  {
    RoundTrip(ChallengeJson(c));
    RequestSurvivesStorage(c.request);
    PayloadMembers(c);
  }

  lemma PayloadMembers(c: Challenge)
    ensures ReadChallenge(ChallengeJson(c)) ==
            match ReadRequest(KindText(c.request), RequestJson(c.request))
            case Some(r) => Some(c.(request := r))
            case None => None
  {
    var p := PayloadFields(c);
    var o := ChallengeJson(c).fields;
    assert Get(o, "payload") == Some(Object(p));
    assert Get(o, "otp") == Some(Str(c.otp));
    assert Get(p, "userId") == Some(Str(c.user));
    assert Get(p, "type") == Some(Str(KindText(c.request)));
    assert Get(p, "requestBody") == Some(RequestJson(c.request));
    assert Get(p, "idempotencyKey") == Some(Str(c.key));
    assert Get(p, "createdAt") == Some(Str(c.createdAt));
  }

  function RedisKey(user: UserId, challengeId: string): string {
    "stepup:transfer:" + user + ":" + challengeId
  }

  /** A Redis key belongs to one user and one challenge id, whatever id a client sends. */
  lemma RedisKeyInjective(u: UserId, c: string, v: UserId, d: string)
    ensures RedisKey(u, c) == RedisKey(v, d) <==> u == v && c == d
  {
    var n := |"stepup:transfer:"|;
    var t, s := RedisKey(u, c), RedisKey(v, d);
    assert t[n..n + |u|] == u && t[n + |u|] == ':' && t[n + |u| + 1..] == c;
    assert s[n..n + |v|] == v && s[n + |v|] == ':' && s[n + |v| + 1..] == d;
    assert |u| < |v| ==> s[n + |u|] == v[|u|];
    assert |v| < |u| ==> t[n + |v|] == u[|v|];
  }
}
