/** `JSON.stringify` and `JSON.parse` on the values the payment code stores and hashes:
    objects, strings, numbers that are amounts, booleans and null. Strings are quoted as
    in section 7 of RFC 8259. */
module Json {
  import opened Text

  /** A number is kept in hundredths: the only numbers in these objects are amounts. */
  datatype Value =
    | Null
    | Bool(b: bool)
    | Number(cents: nat)
    | Str(s: string)
    | Object(fields: Fields)

  /** The members of an object, in insertion order. */
  datatype Fields = End | Field(name: string, value: Value, rest: Fields)

  /** Property access on a parsed object; None stands for `undefined`. */
  function Get(fields: Fields, name: string): Option<Value> {
    match fields
    case End => None
    case Field(n, v, rest) => if n == name then Some(v) else Get(rest, name)
  }

  /** A member in front of others; a later lookup needs to look no deeper than this. */
  function Put(name: string, value: Value, rest: Fields): (o: Fields)
    ensures forall n :: Get(o, n) == if n == name then Some(value) else Get(rest, n)
  {
    Field(name, value, rest)
  }

  // ---- Printing ----

  function Hex(d: nat): (c: char)
    requires d < 16
  {
    if d < 10 then (d + '0' as int) as char else (d - 10 + 'a' as int) as char
  }

  function EscapeChar(c: char): (e: string)
    ensures e != []
  {
    if c == '\"' then "\\\""
    else if c == '\\' then "\\\\"
    else if c == '\U{8}' then "\\b"
    else if c == '\U{C}' then "\\f"
    else if c == '\n' then "\\n"
    else if c == '\r' then "\\r"
    else if c == '\t' then "\\t"
    else if c < ' ' then "\\u00" + [Hex(c as int / 16), Hex(c as int % 16)]
    else [c]
  }

  function Escape(s: string): string {
    if s == [] then [] else EscapeChar(s[0]) + Escape(s[1..])
  }

  function Quote(s: string): string {
    "\"" + Escape(s) + "\""
  }

  function Stringify(v: Value): string {
    match v
    case Null => "null"
    case Bool(b) => if b then "true" else "false"
    case Number(c) => NumberText(c)
    case Str(s) => Quote(s)
    case Object(End) => "{}"
    case Object(Field(n, w, rest)) => "{" + (Quote(n) + (":" + (Stringify(w) + Members(rest))))
  }

  /** What follows the value of a member: the remaining members and the closing brace. */
  function Members(fields: Fields): string {
    match fields
    case End => "}"
    case Field(n, w, rest) => "," + (Quote(n) + (":" + (Stringify(w) + Members(rest))))
  }

  // ---- Parsing ----

  function HexValue(c: char): Option<nat> {
    if '0' <= c <= '9' then Some(c as int - '0' as int)
    else if 'a' <= c <= 'f' then Some(c as int - 'a' as int + 10)
    else if 'A' <= c <= 'F' then Some(c as int - 'A' as int + 10)
    else None
  }

  function Hex4(t: string): Option<nat>
    requires |t| >= 4
  {
    match (HexValue(t[0]), HexValue(t[1]), HexValue(t[2]), HexValue(t[3]))
    case (Some(a), Some(b), Some(c), Some(d)) => Some(((a * 16 + b) * 16 + c) * 16 + d)
    case _ => None
  }

  function ShortEscape(c: char): Option<char> {
    if c == '\"' || c == '\\' || c == '/' then Some(c)
    else if c == 'b' then Some('\U{8}')
    else if c == 'f' then Some('\U{C}')
    else if c == 'n' then Some('\n')
    else if c == 'r' then Some('\r')
    else if c == 't' then Some('\t')
    else None
  }

  /** One character of a string body. Escaped surrogates are rejected: `char` has none. */
  function ParseChar(t: string): (r: Option<(char, string)>)
    ensures r.Some? ==> |r.value.1| < |t|
  {
    if t == [] || t[0] == '\"' || t[0] < ' ' then None
    else if t[0] != '\\' then Some((t[0], t[1..]))
    else if |t| < 2 then None
    else if t[1] != 'u' then
      match ShortEscape(t[1])
      case None => None
      case Some(c) => Some((c, t[2..]))
    else if |t| < 6 then None
    else
      match Hex4(t[2..])
      case None => None
      case Some(n) => if n < 0xD800 || 0xE000 <= n < 0x10000 then Some((n as char, t[6..])) else None
  }

  /** The rest of a string after its opening quote. */
  function ParseBody(t: string): (r: Option<(string, string)>)
    ensures r.Some? ==> |r.value.1| < |t|
    decreases |t|
  {
    if t != [] && t[0] == '\"' then Some(("", t[1..]))
    else
      match ParseChar(t)
      case None => None
      case Some((c, rest)) =>
        match ParseBody(rest)
        case None => None
        case Some((s, tail)) => Some(([c] + s, tail))
  }

  function ParseValue(t: string): (r: Option<(Value, string)>)
    ensures r.Some? ==> |r.value.1| < |t|
    decreases |t|
  {
    if t == [] then None
    else if t[0] == '\"' then
      match ParseBody(t[1..])
      case None => None
      case Some((s, rest)) => Some((Str(s), rest))
    else if t[0] == '{' then
      if |t| > 1 && t[1] == '}' then Some((Object(End), t[2..]))
      else
        match ParseMember(t[1..])
        case None => None
        case Some((fields, rest)) => Some((Object(fields), rest))
    else if |t| >= 4 && t[..4] == "null" then Some((Null, t[4..]))
    else if |t| >= 4 && t[..4] == "true" then Some((Bool(true), t[4..]))
    else if |t| >= 5 && t[..5] == "false" then Some((Bool(false), t[5..]))
    else
      match ParseCents(t)
      case None => None
      case Some((c, rest)) => if |rest| < |t| then Some((Number(c), rest)) else None
  }

  /** A member and everything after it, up to and including the closing brace. */
  function ParseMember(t: string): (r: Option<(Fields, string)>)
    ensures r.Some? ==> |r.value.1| < |t|
    decreases |t|
  {
    if t == [] || t[0] != '\"' then None
    else
      match ParseBody(t[1..])
      case None => None
      case Some((name, t1)) =>
        if t1 == [] || t1[0] != ':' then None
        else
          match ParseValue(t1[1..])
          case None => None
          case Some((v, t2)) =>
            if t2 == [] then None
            else if t2[0] == '}' then Some((Field(name, v, End), t2[1..]))
            else if t2[0] != ',' then None
            else
              match ParseMember(t2[1..])
              case None => None
              case Some((rest, t3)) => Some((Field(name, v, rest), t3))
  }

  function Parse(t: string): Option<Value> {
    match ParseValue(t)
    case Some((v, "")) => Some(v)
    case _ => None
  }

  // ---- Parsing inverts printing ----

  lemma ControlEscape(c: char, rest: string)
    requires c < ' '
    ensures var e := "\\u00" + [Hex(c as int / 16), Hex(c as int % 16)];
            ParseChar(e + rest) == Some((c, rest))
  {
    var hi, lo := c as int / 16, c as int % 16;
    var e := "\\u00" + [Hex(hi), Hex(lo)];
    var t := e + rest;
    assert t[2] == '0' && t[3] == '0' && t[4] == Hex(hi) && t[5] == Hex(lo);
    assert HexValue(Hex(hi)) == Some(hi) && HexValue(Hex(lo)) == Some(lo);
    assert Hex4(t[2..]) == Some(c as int);
    assert t[6..] == rest;
  }

  lemma CharRoundTrip(c: char, rest: string)
    ensures ParseChar(EscapeChar(c) + rest) == Some((c, rest))
    ensures (EscapeChar(c) + rest)[0] != '\"'
  {
    if c < ' ' && c != '\U{8}' && c != '\U{C}' && c != '\n' && c != '\r' && c != '\t' {
      ControlEscape(c, rest);
    } else {
      assert (EscapeChar(c) + rest)[|EscapeChar(c)|..] == rest;
    }
  }

  lemma {:induction false} StringRoundTrip(s: string, rest: string)
    ensures ParseBody(Escape(s) + ("\"" + rest)) == Some((s, rest))
    decreases |s|
  {
    var tail := "\"" + rest;
    if s == [] {
      assert Escape(s) + tail == tail;
    } else {
      var t := Escape(s[1..]) + tail;
      assert Escape(s) + tail == EscapeChar(s[0]) + t;
      CharRoundTrip(s[0], t);
      StringRoundTrip(s[1..], rest);
      assert [s[0]] + s[1..] == s;
    }
  }

  lemma QuoteRoundTrip(s: string, rest: string)
    ensures (Quote(s) + rest)[0] == '\"'
    ensures ParseBody((Quote(s) + rest)[1..]) == Some((s, rest))
  {
    assert Quote(s) + rest == "\"" + (Escape(s) + ("\"" + rest));
    StringRoundTrip(s, rest);
  }

  /** What may follow a value without changing how it is read. */
  predicate Follows(rest: string) {
    rest == [] || (!IsDigit(rest[0]) && rest[0] != '.')
  }

  lemma {:induction false} ValueRoundTrip(v: Value, rest: string)
    requires Follows(rest)
    ensures ParseValue(Stringify(v) + rest) == Some((v, rest))
    decreases v
  {
    match v
    case Null => assert ("null" + rest)[..4] == "null" && ("null" + rest)[4..] == rest;
    case Bool(b) => BoolRoundTrip(b, rest);
    case Number(c) => NumberRoundTrip(c, rest);
    case Str(s) => QuoteRoundTrip(s, rest);
    case Object(fields) => if fields.Field? { MemberRoundTrip(fields, rest); } ObjectText(fields, rest);
  }

  lemma BoolRoundTrip(b: bool, rest: string)
    ensures ParseValue(Stringify(Bool(b)) + rest) == Some((Bool(b), rest))
  {
    var t := Stringify(Bool(b)) + rest;
    if b {
      assert t[..4] == "true" && t[4..] == rest;
    } else {
      assert t[..5] == "false" && t[5..] == rest;
    }
  }

  lemma Reassociate(a: string, b: string, c: string, d: string, e: string)
    ensures (a + (b + (":" + (c + d)))) + e == a + (b + (":" + (c + (d + e))))
  {
  }

  /** An object is read by reading its first member, if it has one. */
  lemma ObjectText(fields: Fields, rest: string)
    requires fields.Field? ==> ParseMember(MemberText(fields, rest)) == Some((fields, rest))
    ensures ParseValue(Stringify(Object(fields)) + rest) == Some((Object(fields), rest))
  {
    var t := Stringify(Object(fields)) + rest;
    if fields.End? {
      assert t == "{}" + rest && t[2..] == rest;
    } else {
      var m := MemberText(fields, rest);
      Reassociate("{", Quote(fields.name), Stringify(fields.value), Members(fields.rest), rest);
      assert t == "{" + m;
      assert t[0] == '{' && t[1..] == m && t[1] == '\"';
    }
  }

  lemma NumberRoundTrip(c: nat, rest: string)
    requires Follows(rest)
    ensures ParseValue(NumberText(c) + rest) == Some((Number(c), rest))
  {
    hide ParseCents, SpanDigits;
    var t := NumberText(c) + rest;
    NumberTextParses(c, rest);
    assert NumberText(c) != [] && IsDigit(NumberText(c)[0]) by {
      assert Digits(c / 100)[0] == NumberText(c)[0];
    }
    assert t[0] == NumberText(c)[0];
  }

  function MemberText(fields: Fields, rest: string): string
    requires fields.Field?
  {
    Quote(fields.name) + (":" + (Stringify(fields.value) + (Members(fields.rest) + rest)))
  }

  /** One unfolding of `ParseMember`, given what its parts read. */
  lemma MemberStep(t: string, name: string, t1: string, v: Value, t2: string)
    requires t != [] && t[0] == '\"' && ParseBody(t[1..]) == Some((name, t1))
    requires t1 != [] && t1[0] == ':' && ParseValue(t1[1..]) == Some((v, t2))
    requires t2 != []
    ensures t2[0] == '}' ==> ParseMember(t) == Some((Field(name, v, End), t2[1..]))
    ensures t2[0] == ',' && ParseMember(t2[1..]).Some? ==>
              var (more, t3) := ParseMember(t2[1..]).value;
              ParseMember(t) == Some((Field(name, v, more), t3))
  {
  }

  lemma {:induction false} MemberRoundTrip(fields: Fields, rest: string)
    requires fields.Field?
    ensures ParseMember(MemberText(fields, rest)) == Some((fields, rest))
    decreases fields
  {
    var t2 := Members(fields.rest) + rest;
    var t1 := ":" + (Stringify(fields.value) + t2);
    var t := Quote(fields.name) + t1;
    assert t == MemberText(fields, rest);
    QuoteRoundTrip(fields.name, t1);
    assert t1[1..] == Stringify(fields.value) + t2;
    assert t2[0] == Members(fields.rest)[0];
    ValueRoundTrip(fields.value, t2);
    MemberStep(t, fields.name, t1, fields.value, t2);
    if fields.rest.End? {
      assert t2 == "}" + rest && t2[1..] == rest;
    } else {
      MembersText(fields.rest, rest);
      MemberRoundTrip(fields.rest, rest);
    }
  }

  lemma MembersText(fields: Fields, rest: string)
    requires fields.Field?
    ensures var t := Members(fields) + rest;
            t[0] == ',' && t[1..] == MemberText(fields, rest)
  {
    Reassociate(",", Quote(fields.name), Stringify(fields.value), Members(fields.rest), rest);
  }

  /** Reading back what was written gives the same value. */
  lemma RoundTrip(v: Value)
    ensures Parse(Stringify(v)) == Some(v)
  {
    ValueRoundTrip(v, "");
    assert Stringify(v) + "" == Stringify(v);
  }

  /** Two values with the same text are the same value. */
  lemma StringifyInjective(v: Value, w: Value)
    ensures Stringify(v) == Stringify(w) <==> v == w
  {
    RoundTrip(v);
    RoundTrip(w);
  }
}
