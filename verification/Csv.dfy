/** The CSV text of a statement: every field in quotes, no quote doubled. */
module Csv {
  import opened Text

  /** A statement line as the page holds it; the date is already in the reader's locale. */
  datatype Line = Line(
    date: string, transactionType: string, description: Option<string>, side: string,
    amount: string, currency: string, transactionId: string)

  const HEADERS: seq<string> := ["Date", "Type", "Description", "Side", "Amount", "Currency", "Transaction ID"]

  function Fields(l: Line): seq<string> {
    var description := if l.description.Some? then l.description.value else "";
    [l.date, l.transactionType, description, l.side, l.amount, l.currency, l.transactionId]
  }

  function Join(parts: seq<string>, separator: string): string {
    if parts == [] then ""
    else if |parts| == 1 then parts[0]
    else parts[0] + separator + Join(parts[1..], separator)
  }

  function Wrapped(field: string): string { "\"" + field + "\"" }

  function RecordText(fields: seq<string>): string {
    Join(seq(|fields|, i requires 0 <= i < |fields| => Wrapped(fields[i])), ",")
  }

  function TableText(records: seq<seq<string>>): string {
    Join(seq(|records|, i requires 0 <= i < |records| => RecordText(records[i])), "\n")
  }

  function Table(lines: seq<Line>): seq<seq<string>> {
    seq(|lines|, i requires 0 <= i < |lines| => Fields(lines[i]))
  }

  function Export(lines: seq<Line>): string {
    Join([Join(HEADERS, ",")] + seq(|lines|, i requires 0 <= i < |lines| => RecordText(Fields(lines[i]))), "\n")
  }

  // ---- Reading CSV: RFC 4180, section 2, with LF between records ----

  /** The rest of a quoted field, after its opening quote: its text and what follows. */
  function ReadQuoted(s: string): Option<(string, string)> {
    if s == [] then None
    else if s[0] == '"' && |s| > 1 && s[1] == '"' then
      match ReadQuoted(s[2..])
      case None => None
      case Some((f, rest)) => Some(("\"" + f, rest))
    else if s[0] == '"' then Some(("", s[1..]))
    else
      match ReadQuoted(s[1..])
      case None => None
      case Some((f, rest)) => Some(([s[0]] + f, rest))
  }

  predicate IsPlain(c: char) { c != '"' && c != ',' && c != '\n' && c != '\r' }

  function ReadPlain(s: string): (string, string) {
    if s == [] || !IsPlain(s[0]) then ("", s)
    else
      var (f, rest) := ReadPlain(s[1..]);
      ([s[0]] + f, rest)
  }

  function ReadField(s: string): (r: Option<(string, string)>)
    ensures r.Some? ==> |r.value.1| <= |s|
  {
    if s != [] && s[0] == '"' then
      QuotedShrinks(s[1..]);
      ReadQuoted(s[1..])
    else
      PlainShrinks(s);
      Some(ReadPlain(s))
  }

  lemma QuotedShrinks(s: string)
    ensures ReadQuoted(s).Some? ==> |ReadQuoted(s).value.1| < |s|
  {
  }

  lemma PlainShrinks(s: string)
    ensures |ReadPlain(s).1| <= |s|
  {
  }

  /** All records of a text; the last one may end with a line break. */
  function Read(s: string): (r: Option<seq<seq<string>>>)
    ensures r.Some? ==> r.value != [] && r.value[0] != []
    decreases |s|
  {
    match ReadField(s)
    case None => None
    case Some((f, rest)) =>
      if rest == [] || rest == "\n" then Some([[f]])
      else if rest[0] == ',' then
        match Read(rest[1..])
        case None => None
        case Some(records) => Some([[f] + records[0]] + records[1..])
      else if rest[0] == '\n' then
        match Read(rest[1..])
        case None => None
        case Some(records) => Some([[f]] + records)
      else None
  }

  // ---- One quoted field ----

  predicate Clean(field: string) { '"' !in field }

  function Doubled(field: string): string {
    if field == [] then ""
    else if field[0] == '"' then "\"\"" + Doubled(field[1..])
    else [field[0]] + Doubled(field[1..])
  }

  predicate Ends(rest: string) { rest == [] || rest[0] != '"' }

  /** The text before what follows is the field with its quotes doubled, and its closing quote. */
  predicate ReadsDoubled(s: string, r: Option<(string, string)>) {
    match r
    case None => true
    case Some((f, rest)) => s == Doubled(f) + "\"" + rest && Ends(rest)
  }

  lemma DoubledMore(head: string, f: string, s: string, rest: string)
    requires head != [] && s == Doubled(f) + "\"" + rest && Ends(rest)
    requires |head| == 1 || head == "\"\""
    requires |head| == 1 ==> head[0] != '"'
    ensures ReadsDoubled(head + s, Some(([head[0]] + f, rest)))
  {
    assert ([head[0]] + f)[1..] == f;
    assert Doubled([head[0]] + f) == head + Doubled(f);
  }

  /** A quoted field is read exactly where its quotes are doubled. */
  lemma {:induction false} ReadQuotedIs(s: string)
    ensures ReadsDoubled(s, ReadQuoted(s))
    decreases |s|
  {
    if |s| > 1 && s[0] == '"' && s[1] == '"' {
      ReadQuotedIs(s[2..]);
      assert s == "\"\"" + s[2..];
      if ReadQuoted(s[2..]).Some? {
        var (f, rest) := ReadQuoted(s[2..]).value;
        DoubledMore("\"\"", f, s[2..], rest);
      }
    } else if s != [] && s[0] != '"' {
      ReadQuotedIs(s[1..]);
      assert s == [s[0]] + s[1..];
      if ReadQuoted(s[1..]).Some? {
        var (f, rest) := ReadQuoted(s[1..]).value;
        DoubledMore([s[0]], f, s[1..], rest);
      }
    }
  }

  lemma {:induction false} ReadClean(field: string, rest: string)
    requires Clean(field) && Ends(rest)
    ensures ReadQuoted(field + "\"" + rest) == Some((field, rest))
    decreases |field|
  {
    var s := field + "\"" + rest;
    if field == [] {
      assert s[1..] == rest;
    } else {
      assert s[1..] == field[1..] + "\"" + rest;
      ReadClean(field[1..], rest);
      assert [field[0]] + field[1..] == field;
    }
  }

  function Quotes(n: nat): string { seq(n, _ => '"') }

  /** Doubling a quote pushes the closing quote ever further, so the two texts cannot meet. */
  lemma {:induction false} DoublingNeverMeets(n: nat, field: string, rest: string, other: string)
    requires n > 0 && Ends(rest) && Ends(other)
    ensures field + "\"" + rest != Quotes(n) + Doubled(field) + "\"" + other
    decreases |field|
  {
    var left, right := field + "\"" + rest, Quotes(n) + Doubled(field) + "\"" + other;
    assert right[0] == '"';
    if field == [] {
      assert right[1] == '"';
      assert left[1..] == rest;
    } else if left == right {
      assert field[0] == '"';
      assert left[1..] == field[1..] + "\"" + rest;
      assert right[1..] == Quotes(n + 1) + Doubled(field[1..]) + "\"" + other;
      DoublingNeverMeets(n + 1, field[1..], rest, other);
    }
  }

  lemma {:induction false} UncleanDiffers(field: string, rest: string, other: string)
    requires !Clean(field) && Ends(rest) && Ends(other)
    ensures field + "\"" + rest != Doubled(field) + "\"" + other
    decreases |field|
  {
    var left, right := field + "\"" + rest, Doubled(field) + "\"" + other;
    if left == right {
      assert left[1..] == field[1..] + "\"" + rest;
      if field[0] == '"' {
        assert right[1..] == Quotes(1) + Doubled(field[1..]) + "\"" + other;
        DoublingNeverMeets(1, field[1..], rest, other);
      } else {
        assert right[1..] == Doubled(field[1..]) + "\"" + other;
        UncleanDiffers(field[1..], rest, other);
      }
    }
  }

  /** A wrapped field is read back as itself exactly when it holds no quote. */
  lemma WrappedField(field: string, rest: string)
    requires Ends(rest)
    ensures (exists tail :: ReadField(Wrapped(field) + rest) == Some((field, tail))) <==> Clean(field)
    ensures Clean(field) ==> ReadField(Wrapped(field) + rest) == Some((field, rest))
  {
    var s := Wrapped(field) + rest;
    assert s[1..] == field + "\"" + rest;
    ReadQuotedIs(s[1..]);
    if Clean(field) {
      ReadClean(field, rest);
    } else if ReadField(s).Some? {
      UncleanDiffers(field, rest, ReadField(s).value.1);
    }
  }

  // ---- Whole tables ----

  predicate WellShaped(records: seq<seq<string>>) {
    records != [] && forall i :: 0 <= i < |records| ==> records[i] != []
  }

  predicate AllClean(records: seq<seq<string>>) {
    forall i :: 0 <= i < |records| ==> forall j :: 0 <= j < |records[i]| ==> Clean(records[i][j])
  }

  function Wraps(fields: seq<string>): seq<string> {
    seq(|fields|, i requires 0 <= i < |fields| => Wrapped(fields[i]))
  }

  /** The text of a table begins with its first field, then a separator, then a smaller table. */
  function After(records: seq<seq<string>>): string
    requires WellShaped(records)
  {
    if |records[0]| > 1 then "," + TableText([records[0][1..]] + records[1..])
    else if |records| > 1 then "\n" + TableText(records[1..])
    else ""
  }

  lemma PeelField(fields: seq<string>)
    requires fields != []
    ensures RecordText(fields) == Wrapped(fields[0]) + if |fields| > 1 then "," + RecordText(fields[1..]) else ""
  {
    hide Wrapped;
    assert Wraps(fields)[1..] == Wraps(fields[1..]);
    assert RecordText(fields) == Join(Wraps(fields), ",") && RecordText(fields[1..]) == Join(Wraps(fields[1..]), ",");
  }

  lemma PeelRecord(records: seq<seq<string>>)
    requires records != []
    ensures TableText(records) == RecordText(records[0]) + if |records| > 1 then "\n" + TableText(records[1..]) else ""
  {
    hide RecordText;
    var rest := records[1..];
    var texts := seq(|records|, i requires 0 <= i < |records| => RecordText(records[i]));
    var restTexts := seq(|rest|, i requires 0 <= i < |rest| => RecordText(rest[i]));
    assert texts[1..] == restTexts;
    assert TableText(records) == Join(texts, "\n") && TableText(rest) == Join(restTexts, "\n");
  }

  lemma Peel(records: seq<seq<string>>)
    requires WellShaped(records)
    ensures TableText(records) == Wrapped(records[0][0]) + After(records)
  {
    var first := records[0];
    PeelField(first);
    PeelRecord(records);
    var tail := if |records| > 1 then "\n" + TableText(records[1..]) else "";
    if |first| > 1 {
      var shorter := [first[1..]] + records[1..];
      PeelRecord(shorter);
      assert shorter[1..] == records[1..];
      hide RecordText, TableText, Wrapped;
      assert After(records) == "," + (RecordText(first[1..]) + tail);
      Append4(Wrapped(first[0]), ",", RecordText(first[1..]), tail);
    } else {
      hide RecordText, TableText, Wrapped;
      assert Wrapped(first[0]) + "" == Wrapped(first[0]);
    }
  }

  lemma Append4(a: string, b: string, c: string, d: string)
    ensures a + (b + c) + d == a + (b + (c + d))
  {
  }

  /** What a reader makes of one field and the table after it. */
  function Prepend(field: string, separator: char, table: Option<seq<seq<string>>>): Option<seq<seq<string>>>
    requires table.Some? ==> table.value != []
  {
    match table
    case None => None
    case Some(records) =>
      if separator == ',' then Some([[field] + records[0]] + records[1..]) else Some([[field]] + records)
  }

  lemma ReadStep(s: string, field: string, rest: string)
    requires ReadField(s) == Some((field, rest)) && |rest| > 1 && (rest[0] == ',' || rest[0] == '\n')
    ensures Read(s) == Prepend(field, rest[0], Read(rest[1..]))
  {
  }

  lemma PrependIs(field: string, separator: char, table: seq<seq<string>>, more: Option<seq<seq<string>>>)
    requires WellShaped(table) && (more.Some? ==> WellShaped(more.value))
    ensures Prepend(field, ',', more) == Some([[field] + table[0]] + table[1..]) <==> more == Some(table)
    ensures Prepend(field, '\n', more) == Some([[field]] + table) <==> more == Some(table)
  {
    if more.Some? {
      var records := more.value;
      assert ([[field] + records[0]] + records[1..])[1..] == records[1..];
      assert ([[field] + table[0]] + table[1..])[1..] == table[1..];
      assert ([field] + records[0])[1..] == records[0];
      assert ([field] + table[0])[1..] == table[0];
      assert records == [records[0]] + records[1..] && table == [table[0]] + table[1..];
      assert ([[field]] + records)[1..] == records && ([[field]] + table)[1..] == table;
    }
  }

  lemma {:induction false} ReadIsWellShaped(s: string)
    ensures Read(s).Some? ==> WellShaped(Read(s).value)
    decreases |s|
  {
    if ReadField(s).Some? && ReadField(s).value.1 != [] { ReadIsWellShaped(ReadField(s).value.1[1..]); }
  }

  /** The first field that comes back is the first field only when it holds no quote. */
  lemma FirstFieldClean(records: seq<seq<string>>)
    requires WellShaped(records) && Read(TableText(records)).Some?
    requires Read(TableText(records)).value[0][0] == records[0][0]
    ensures Clean(records[0][0])
  {
    Peel(records);
    WrappedField(records[0][0], After(records));
    var s := TableText(records);
    assert Read(s).value[0][0] == ReadField(s).value.0;
    assert ReadField(s) == Some((records[0][0], ReadField(s).value.1));
  }

  /** A table of quoted fields reads back as itself exactly when no field holds a quote. */
  lemma {:induction false} TableReadsBack(records: seq<seq<string>>)
    requires WellShaped(records)
    ensures Read(TableText(records)) == Some(records) <==> AllClean(records)
    decreases |records|, |records[0]|
  {
    var field, rest := records[0][0], After(records);
    var smaller := if |records[0]| > 1 then [records[0][1..]] + records[1..] else records[1..];
    CleanSplit(records);
    SplitFirst(records);
    if !Clean(field) {
      if Read(TableText(records)) == Some(records) { FirstFieldClean(records); }
    } else {
      Peel(records);
      WrappedField(field, rest);
      if smaller == [] {
        assert Read(TableText(records)) == Some([[field]]);
      } else {
        TableReadsBack(smaller);
        Peel(smaller);
        assert rest[1..] == TableText(smaller);
        ReadStep(TableText(records), field, rest);
        ReadIsWellShaped(TableText(smaller));
        PrependIs(field, rest[0], smaller, Read(TableText(smaller)));
      }
    }
  }

  lemma SplitFirst(records: seq<seq<string>>)
    requires WellShaped(records)
    ensures var first, others := records[0], records[1..];
            var smaller := if |first| > 1 then [first[1..]] + others else others;
            && (smaller == [] ==> records == [[first[0]]])
            && (smaller != [] && |first| > 1 ==> records == [[first[0]] + smaller[0]] + smaller[1..])
            && (smaller != [] && |first| == 1 ==> records == [[first[0]]] + smaller)
  {
    var first, others := records[0], records[1..];
    assert records == [first] + others;
    assert first == [first[0]] + first[1..];
    assert ([first[1..]] + others)[1..] == others;
    assert |first| == 1 ==> first == [first[0]];
  }

  lemma CleanSplit(records: seq<seq<string>>)
    requires WellShaped(records)
    ensures AllClean(records) <==>
              && Clean(records[0][0])
              && AllClean(if |records[0]| > 1 then [records[0][1..]] + records[1..] else records[1..])
  {
    var smaller := if |records[0]| > 1 then [records[0][1..]] + records[1..] else records[1..];
    if Clean(records[0][0]) && AllClean(smaller) {
      forall i, j | 0 <= i < |records| && 0 <= j < |records[i]| ensures Clean(records[i][j]) {
        if |records[0]| > 1 {
          assert i > 0 ==> records[i] == smaller[i];
          assert i == 0 && j > 0 ==> records[i][j] == smaller[0][j - 1];
        } else {
          assert i > 0 ==> records[i] == smaller[i - 1];
        }
      }
    }
    if AllClean(records) {
      forall i, j | 0 <= i < |smaller| && 0 <= j < |smaller[i]| ensures Clean(smaller[i][j]) {
        if |records[0]| > 1 {
          assert i > 0 ==> records[i] == smaller[i];
          assert i == 0 ==> records[0][j + 1] == smaller[0][j];
        } else {
          assert smaller[i] == records[i + 1];
        }
      }
    }
  }

  // ---- The exported file ----

  predicate Plain(field: string) {
    field != [] && forall i :: 0 <= i < |field| ==> IsPlain(field[i])
  }

  lemma {:induction false} ReadPlainField(field: string, rest: string)
    requires Plain(field) && (rest == [] || !IsPlain(rest[0]))
    ensures ReadPlain(field + rest) == (field, rest)
    decreases |field|
  {
    var s := field + rest;
    assert s[1..] == field[1..] + rest;
    assert [field[0]] + field[1..] == field;
    if |field| == 1 {
      assert s[1..] == rest;
    } else {
      ReadPlainField(field[1..], rest);
    }
  }

  lemma {:induction false} ReadPlainRecord(fields: seq<string>, rest: string)
    requires fields != [] && forall i :: 0 <= i < |fields| ==> Plain(fields[i])
    requires rest == [] || (rest[0] == '\n' && |rest| > 1)
    ensures Read(Join(fields, ",") + rest)
         == if rest == [] then Some([fields])
            else if Read(rest[1..]).Some? then Some([fields] + Read(rest[1..]).value) else None
    decreases |fields|
  {
    var s := Join(fields, ",") + rest;
    if |fields| == 1 {
      ReadPlainField(fields[0], rest);
      assert fields == [fields[0]];
      if rest != [] { ReadStep(s, fields[0], rest); }
    } else {
      var tail := "," + (Join(fields[1..], ",") + rest);
      assert s == fields[0] + tail;
      ReadPlainField(fields[0], tail);
      ReadPlainRecord(fields[1..], rest);
      JoinIsNotEmpty(fields[1..]);
      assert tail[1..] == Join(fields[1..], ",") + rest;
      hide Read;
      ReadStep(s, fields[0], tail);
      assert fields == [fields[0]] + fields[1..];
      if rest == [] {
        assert [fields] + [fields[1..]][1..] == [fields];
      } else if Read(rest[1..]).Some? {
        var more := [fields[1..]] + Read(rest[1..]).value;
        assert more[0] == fields[1..] && more[1..] == Read(rest[1..]).value;
      }
    }
  }

  lemma JoinIsNotEmpty(fields: seq<string>)
    requires fields != [] && Plain(fields[0])
    ensures Join(fields, ",") != []
  {
  }

  lemma FileReadsBack(headers: seq<string>, records: seq<seq<string>>)
    requires headers != [] && forall i :: 0 <= i < |headers| ==> Plain(headers[i])
    requires WellShaped(records)
    ensures Read(Join(headers, ",") + "\n" + TableText(records)) == Some([headers] + records) <==> AllClean(records)
  {
    var rest := "\n" + TableText(records);
    assert Join(headers, ",") + "\n" + TableText(records) == Join(headers, ",") + rest;
    Peel(records);
    ReadPlainRecord(headers, rest);
    assert rest[1..] == TableText(records);
    TableReadsBack(records);
    var got := Read(TableText(records));
    if got.Some? {
      assert ([headers] + got.value)[1..] == got.value && ([headers] + records)[1..] == records;
    }
  }

  lemma ExportIs(lines: seq<Line>)
    ensures Export(lines) == if lines == [] then Join(HEADERS, ",")
        else Join(HEADERS, ",") + "\n" + TableText(Table(lines))
  {
    var texts := seq(|lines|, i requires 0 <= i < |lines| => RecordText(Fields(lines[i])));
    var records := Table(lines);
    hide RecordText;
    assert texts == seq(|records|, i requires 0 <= i < |records| => RecordText(records[i]));
    assert ([Join(HEADERS, ",")] + texts)[1..] == texts;
  }

  lemma HeadersArePlain()
    ensures forall i :: 0 <= i < |HEADERS| ==> Plain(HEADERS[i])
  {
  }

  /** The exported file reads back as the headers and the statement's rows, commas and line breaks
      included, exactly when no field holds a quote. */
  lemma ExportReadsBack(lines: seq<Line>)
    ensures Read(Export(lines)) == Some([HEADERS] + Table(lines)) <==> AllClean(Table(lines))
  {
    HeadersArePlain();
    hide Plain, Join;
    ExportIs(lines);
    if lines == [] {
      assert Join(HEADERS, ",") + "" == Join(HEADERS, ",");
      ReadPlainRecord(HEADERS, "");
      assert [HEADERS] + Table(lines) == [HEADERS];
    } else {
      FileReadsBack(HEADERS, Table(lines));
    }
  }

  /** Each column of the file, by the name in its head: what a reader of a clean export finds under it. */
  lemma ExportColumns(lines: seq<Line>)
    requires AllClean(Table(lines))
    ensures var read := Read(Export(lines));
            && read.Some? && |read.value| == |lines| + 1
            && read.value[0] == ["Date", "Type", "Description", "Side", "Amount", "Currency", "Transaction ID"]
            && forall i :: 0 <= i < |lines| ==> HasColumns(read.value[i + 1], lines[i])
  {
    ExportReadsBack(lines);
    hide Read, Export, AllClean;
  }

  predicate HasColumns(record: seq<string>, l: Line) {
    && |record| == 7
    && record[0] == l.date && record[1] == l.transactionType
    && record[2] == (match l.description case Some(text) => text case None => "")
    && record[3] == l.side && record[4] == l.amount && record[5] == l.currency && record[6] == l.transactionId
  }

  /** Clean statements with the same file have the same rows. */
  lemma ExportDeterminesRows(a: seq<Line>, b: seq<Line>)
    requires AllClean(Table(a)) && AllClean(Table(b)) && Export(a) == Export(b)
    ensures Table(a) == Table(b)
  {
    ExportReadsBack(a);
    ExportReadsBack(b);
    assert ([HEADERS] + Table(a))[1..] == Table(a);
    assert ([HEADERS] + Table(b))[1..] == Table(b);
  }

  // ---- What a quote does ----

  function Opening(l: Line): string { Wrapped(l.date) + "," + Wrapped(l.transactionType) + ",\"" }

  function Ending(l: Line): string { "\"," + Join(Wraps(Fields(l)[3..]), ",") }

  lemma RecordParts(l: Line)
    ensures RecordText(Fields(l)) == Opening(l) + Fields(l)[2] + Ending(l)
  {
    var x := Wraps(Fields(l));
    assert x[1..][1..][1..] == Wraps(Fields(l)[3..]);
    var last := Join(x[3..], ",");
    assert RecordText(Fields(l)) == x[0] + "," + (x[1] + "," + (x[2] + "," + last)) by {
      assert Join(x[2..], ",") == x[2] + "," + Join(x[2..][1..], ",");
      assert Join(x[1..], ",") == x[1] + "," + Join(x[1..][1..], ",");
      assert x[1..][1..] == x[2..] && x[2..][1..] == x[3..];
    }
    assert x[2] + "," + last == "\"" + Fields(l)[2] + Ending(l);
  }

  lemma OneRecord(r: seq<string>)
    ensures TableText([r]) == RecordText(r)
  {
  }

  lemma TwoRecords(r: seq<string>, q: seq<string>)
    ensures TableText([r, q]) == RecordText(r) + "\n" + RecordText(q)
  {
    hide RecordText;
    var records := [r, q];
    var texts := seq(|records|, i requires 0 <= i < |records| => RecordText(records[i]));
    assert TableText(records) == Join(texts, "\n");
    assert texts[1..] == [RecordText(q)];
  }

  /** Any two lines come out as the same file as one line whose description holds quotes. */
  lemma QuotesMakeItAmbiguous(a: Line, b: Line) returns (both: Line)
    ensures Export([both]) == Export([a, b])
  {
    var text := Fields(a)[2] + Ending(a) + "\n" + Opening(b) + Fields(b)[2];
    both := b.(date := a.date, transactionType := a.transactionType, description := Some(text));
    RecordParts(a);
    RecordParts(b);
    RecordParts(both);
    assert Ending(both) == Ending(b) by {
      assert Fields(both)[3..] == Fields(b)[3..];
    }
    assert Opening(both) == Opening(a) && Fields(both)[2] == text;
    hide Opening, Ending, RecordText, TableText, Export;
    Joined(Opening(a), Fields(a)[2], Ending(a), Opening(b), Fields(b)[2], Ending(b));
    OneRecord(Fields(both));
    TwoRecords(Fields(a), Fields(b));
    ExportIs([both]);
    ExportIs([a, b]);
    assert Table([both]) == [Fields(both)] && Table([a, b]) == [Fields(a), Fields(b)];
  }

  lemma Joined(a: string, b: string, c: string, d: string, e: string, f: string)
    ensures a + (b + c + "\n" + d + e) + f == (a + b + c) + "\n" + (d + e + f)
  {
  }
}
