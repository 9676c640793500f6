/** The CSV export: a spreadsheet reading it back sees the guarded fields, and no formula. */
module Csv {
  import opened Common

  datatype Transaction = Transaction(date: string, kind: string, token: string, amount: string, hash: string)

  type Record = seq<string>

  // ---- Serialising ----

  const HEADERS: Record := ["date", "type", "token", "amount", "tx hash"]

  function Fields(tx: Transaction): Record { [tx.date, tx.kind, tx.token, tx.amount, tx.hash] }

  /** A spreadsheet would take a cell starting like this for a formula. */
  predicate FormulaLike(s: string) {
    s != "" && (s[0] == '=' || s[0] == '+' || s[0] == '-' || s[0] == '@' || s[0] == '\t' || s[0] == '\r')
  }

  function Guard(s: string): string { if FormulaLike(s) then "'" + s else s }

  predicate Special(c: char) { c == '"' || c == ',' || c == '\r' || c == '\n' }

  predicate NeedsQuotes(s: string) { exists k :: 0 <= k < |s| && Special(s[k]) }

  function Doubled(s: string): string {
    if s == "" then "" else (if s[0] == '"' then ['"', '"'] else [s[0]]) + Doubled(s[1..])
  }

  function Encode(s: string): string { if NeedsQuotes(s) then ['"'] + (Doubled(s) + ['"']) else s }

  function Mapped(f: string -> string, fields: Record): (r: Record)
    ensures |r| == |fields| && forall k :: 0 <= k < |fields| ==> r[k] == f(fields[k])
  {
    seq(|fields|, k requires 0 <= k < |fields| => f(fields[k]))
  }

  function Join(parts: seq<string>, separator: char): string {
    if parts == [] then ""
    else if |parts| == 1 then parts[0]
    else parts[0] + ([separator] + Join(parts[1..], separator))
  }

  function Line(fields: Record): string { Join(Mapped(Encode, fields), ',') }

  function Lines(records: seq<Record>): (lines: seq<string>)
    ensures |lines| == |records| && forall k :: 0 <= k < |records| ==> lines[k] == Line(records[k])
  {
    seq(|records|, k requires 0 <= k < |records| => Line(records[k]))
  }

  /** What a transaction's cells say once guarded. */
  function Guarded(tx: Transaction): Record { Mapped(Guard, Fields(tx)) }

  function Rows(txs: seq<Transaction>): (rows: seq<Record>)
    ensures |rows| == |txs| && forall k :: 0 <= k < |txs| ==> rows[k] == Guarded(txs[k])
  {
    seq(|txs|, k requires 0 <= k < |txs| => Guarded(txs[k]))
  }

  /** `serializeTransactionsToCSV`: the header cells are joined as they are. */
  function Serialize(txs: seq<Transaction>): string {
    Join([Join(HEADERS, ',')] + Lines(Rows(txs)), '\n')
  }

  // ---- Reading it back: RFC 4180, section 2, with LF between records ----

  datatype Read = Read(value: string, rest: string)

  /** After an opening quote: up to the closing one, a doubled quote standing for one (rules 6 and 7). */
  function ReadQuoted(s: string): (r: Option<Read>)
    ensures r.Some? ==> |r.value.rest| < |s|
  {
    if s == "" then None
    else if s[0] != '"' then Prepended(s[0], ReadQuoted(s[1..]))
    else if |s| > 1 && s[1] == '"' then Prepended('"', ReadQuoted(s[2..]))
    else Some(Read("", s[1..]))
  }

  function Prepended(c: char, r: Option<Read>): Option<Read> {
    if r.Some? then Some(Read([c] + r.value.value, r.value.rest)) else None
  }

  /** An unquoted field ends at the next comma, quote or line break (rule 5). */
  function ReadPlain(s: string): (r: Read)
    ensures |r.rest| <= |s|
  {
    if s == "" || Special(s[0]) then Read("", s)
    else var r := ReadPlain(s[1..]); Read([s[0]] + r.value, r.rest)
  }

  function ReadField(s: string): (r: Option<Read>)
    ensures r.Some? ==> |r.value.rest| <= |s|
  {
    if s != "" && s[0] == '"' then ReadQuoted(s[1..]) else Some(ReadPlain(s))
  }

  /** The records of a document; `None` when a quote is misplaced. The last line break is optional (rule 2). */
  function Parse(s: string): (r: Option<seq<Record>>)
    ensures r.Some? ==> r.value != [] && forall k :: 0 <= k < |r.value| ==> r.value[k] != []
    decreases |s|
  {
    var field := ReadField(s);
    if field.None? then None
    else
      var value, rest := field.value.value, field.value.rest;
      if |rest| == 0 || (|rest| == 1 && rest[0] == '\n') then Some([[value]])
      else if rest[0] == ',' then
        var more := Parse(rest[1..]);
        if more.None? then None else Some([[value] + more.value[0]] + more.value[1..])
      else if rest[0] == '\n' then
        var more := Parse(rest[1..]);
        if more.None? then None else Some([[value]] + more.value)
      else None
  }

  // ---- Round trip ----

  lemma {:induction false} QuotedRoundTrip(v: string, rest: string)
    requires rest == "" || rest[0] != '"'
    ensures ReadQuoted(Doubled(v) + (['"'] + rest)) == Some(Read(v, rest))
  {
    var s := Doubled(v) + (['"'] + rest);
    if v == "" {
      assert s == ['"'] + rest;
    } else {
      QuotedRoundTrip(v[1..], rest);
      var tail := Doubled(v[1..]) + (['"'] + rest);
      assert s == (if v[0] == '"' then ['"', '"'] else [v[0]]) + tail;
      assert v == [v[0]] + v[1..];
    }
  }

  lemma {:induction false} PlainRoundTrip(v: string, rest: string)
    requires !NeedsQuotes(v) && (rest == "" || Special(rest[0]))
    ensures ReadPlain(v + rest) == Read(v, rest)
  {
    if v == "" {
      assert v + rest == rest;
    } else {
      assert !Special(v[0]);
      forall k | 0 <= k < |v[1..]| ensures !Special(v[1..][k]) { assert v[1..][k] == v[k + 1]; }
      PlainRoundTrip(v[1..], rest);
      assert (v + rest)[1..] == v[1..] + rest;
    }
  }

  lemma QuotedFieldRoundTrip(v: string, rest: string)
    requires NeedsQuotes(v) && (rest == "" || rest[0] != '"')
    ensures ReadField(Encode(v) + rest) == Some(Read(v, rest))
  {
    QuotedRoundTrip(v, rest);
    hide ReadQuoted, ReadPlain, Doubled, NeedsQuotes;
    assert (Encode(v) + rest)[1..] == Doubled(v) + (['"'] + rest);
  }

  lemma PlainFieldRoundTrip(v: string, rest: string)
    requires !NeedsQuotes(v) && (rest == "" || rest[0] == ',' || rest[0] == '\n')
    ensures ReadField(Encode(v) + rest) == Some(Read(v, rest))
  {
    PlainRoundTrip(v, rest);
    assert v != "" ==> !Special(v[0]);
    hide ReadPlain, ReadQuoted, NeedsQuotes;
  }

  /** Whatever a field holds, reading its encoding gives it back and stops at the separator. */
  lemma FieldRoundTrip(v: string, rest: string)
    requires rest == "" || rest[0] == ',' || rest[0] == '\n'
    ensures ReadField(Encode(v) + rest) == Some(Read(v, rest))
  {
    hide Encode, ReadField, NeedsQuotes;
    if NeedsQuotes(v) { QuotedFieldRoundTrip(v, rest); } else { PlainFieldRoundTrip(v, rest); }
  }

  lemma ParseAtComma(s: string, value: string, more: string, fields: Record, others: seq<Record>)
    requires ReadField(s) == Some(Read(value, [','] + more)) && Parse(more) == Some([fields] + others)
    ensures Parse(s) == Some([[value] + fields] + others)
  {
    hide ReadField;
    assert ([fields] + others)[1..] == others;
    assert ([','] + more)[1..] == more;
  }

  lemma LineUnfolds(fields: Record)
    requires |fields| >= 2
    ensures Line(fields) == Encode(fields[0]) + ([','] + Line(fields[1..]))
  {
    hide Encode;
    assert Mapped(Encode, fields)[1..] == Mapped(Encode, fields[1..]);
  }

  /** Parsing a line, then whatever follows its line feed. */
  lemma {:induction false} LineRoundTrip(fields: Record, rest: string)
    requires fields != [] && (rest == "" || (|rest| > 1 && rest[0] == '\n'))
    ensures rest == "" ==> Parse(Line(fields) + rest) == Some([fields])
    ensures rest != "" && Parse(rest[1..]).Some? ==>
      Parse(Line(fields) + rest) == Some([fields] + Parse(rest[1..]).value)
  {
    hide Encode, ReadField;
    if |fields| == 1 {
      FieldRoundTrip(fields[0], rest);
      assert fields == [fields[0]];
    } else {
      hide Parse, Line;
      var more := Line(fields[1..]) + rest;
      LineRoundTrip(fields[1..], rest);
      FieldRoundTrip(fields[0], [','] + more);
      LineUnfolds(fields);
      assert Line(fields) + rest == Encode(fields[0]) + ([','] + more);
      assert [fields[0]] + fields[1..] == fields;
      if rest == "" {
        assert [fields[1..]] + [] == [fields[1..]] && [fields] + [] == [fields];
        ParseAtComma(Line(fields) + rest, fields[0], more, fields[1..], []);
      } else if Parse(rest[1..]).Some? {
        ParseAtComma(Line(fields) + rest, fields[0], more, fields[1..], Parse(rest[1..]).value);
      }
    }
  }

  /** Every document of records with at least two fields each parses back to them, whatever the fields hold. */
  lemma {:induction false} DocumentRoundTrip(records: seq<Record>)
    requires records != [] && forall k :: 0 <= k < |records| ==> |records[k]| >= 2
    ensures Parse(Join(Lines(records), '\n')) == Some(records) && |Join(Lines(records), '\n')| > 0
  {
    LineUnfolds(records[0]);
    hide Parse, Line;
    if |records| == 1 {
      LineRoundTrip(records[0], "");
      assert Line(records[0]) + "" == Line(records[0]);
      assert records == [records[0]];
    } else {
      DocumentRoundTrip(records[1..]);
      var rest := ['\n'] + Join(Lines(records[1..]), '\n');
      LineRoundTrip(records[0], rest);
      assert rest[1..] == Join(Lines(records[1..]), '\n');
      assert Lines(records)[1..] == Lines(records[1..]);
      assert records == [records[0]] + records[1..];
    }
  }

  /** The header cells would encode to themselves. */
  lemma HeaderNeedsNoQuotes()
    ensures Mapped(Encode, HEADERS) == HEADERS
  {
    assert !NeedsQuotes("date");
    assert !NeedsQuotes("type");
    assert !NeedsQuotes("token");
    assert !NeedsQuotes("amount");
    assert !NeedsQuotes("tx hash");
    hide NeedsQuotes;
  }

  /** A reader gets the header row and exactly the guarded fields of every transaction, in order. */
  lemma SerializeRoundTrip(txs: seq<Transaction>)
    ensures Parse(Serialize(txs)) == Some([HEADERS] + Rows(txs))
  {
    HeaderNeedsNoQuotes();
    hide Join, Parse, Mapped;
    var records := [HEADERS] + Rows(txs);
    DocumentRoundTrip(records);
    assert Lines(records) == [Line(HEADERS)] + Lines(Rows(txs));
  }

  /** No cell a reader gets would be taken for a formula. */
  lemma NoParsedCellIsAFormula(txs: seq<Transaction>, r: nat, c: nat)
    ensures Parse(Serialize(txs)).Some?
    ensures r < |Parse(Serialize(txs)).value| && c < |Parse(Serialize(txs)).value[r]| ==>
      var cell := Parse(Serialize(txs)).value[r][c];
      cell == "" || cell[0] !in {'=', '+', '-', '@', '\t', '\r'}
  {
    SerializeRoundTrip(txs);
    hide Parse, Serialize;
    if 0 < r <= |txs| && c < 5 { GuardedIsSafe(txs[r - 1], c); }
  }

  lemma GuardedIsSafe(tx: Transaction, c: nat)
    requires c < 5
    ensures !FormulaLike(Guarded(tx)[c])
  {
    var f := Fields(tx)[c];
    assert Guarded(tx)[c] == Guard(f);
  }

  /**
   * What a reader of the export gets, cell by cell: the five column names, then
   * for each transaction its five fields in that order, those that start like a
   * formula behind an apostrophe.
   */
  lemma CellsAsExported(txs: seq<Transaction>, k: nat, c: nat)
    requires k < |txs| && c < 5
    ensures Parse(Serialize(txs)).Some? && |Parse(Serialize(txs)).value| == |txs| + 1
    ensures Parse(Serialize(txs)).value[0] == ["date", "type", "token", "amount", "tx hash"]
    ensures |Parse(Serialize(txs)).value[k + 1]| == 5
    ensures var field, cell :=
        [txs[k].date, txs[k].kind, txs[k].token, txs[k].amount, txs[k].hash][c], Parse(Serialize(txs)).value[k + 1][c];
      cell == if field != "" && field[0] in {'=', '+', '-', '@', '\t', '\r'} then "'" + field else field
  {
    SerializeRoundTrip(txs);
    hide Parse, Serialize;
    assert Guarded(txs[k])[c] == Guard(Fields(txs[k])[c]);
  }

  /** A field is put between quotes exactly when it holds a quote, a comma or a line break. */
  lemma EncodedExactly(s: string)
    ensures (forall k :: 0 <= k < |s| ==> s[k] !in {'"', ',', '\r', '\n'}) ==> Encode(s) == s
    ensures (exists k :: 0 <= k < |s| && s[k] in {'"', ',', '\r', '\n'}) ==>
      |Encode(s)| >= |s| + 2 && Encode(s)[0] == Encode(s)[|Encode(s)| - 1] == '"'
  {
    DoubledLength(s);
    if k :| 0 <= k < |s| && s[k] in {'"', ',', '\r', '\n'} { assert Special(s[k]); }
    hide Doubled;
  }

  lemma {:induction false} DoubledLength(s: string)
    ensures |Doubled(s)| >= |s|
  {
    if s != "" { DoubledLength(s[1..]); }
  }

  /** Nothing in it needs quoting, and it does not start like a formula. */
  predicate PlainField(s: string) {
    && (forall k :: 0 <= k < |s| ==> s[k] !in {'"', ',', '\r', '\n'})
    && (s == "" || s[0] !in {'=', '+', '-', '@', '\t', '\r'})
  }

  lemma PlainIsItself(s: string)
    requires PlainField(s)
    ensures Guard(s) == s && Encode(s) == s
  {
    EncodedExactly(s);
    hide Encode;
  }

  /** A transaction with nothing to quote or guard is its five fields between commas, below the column names. */
  lemma PlainExport(tx: Transaction)
    requires PlainField(tx.date) && PlainField(tx.kind) && PlainField(tx.token)
    requires PlainField(tx.amount) && PlainField(tx.hash)
    ensures Serialize([tx]) == "date,type,token,amount,tx hash" +
      ("\n" + (tx.date + ("," + (tx.kind + ("," + (tx.token + ("," + (tx.amount + ("," + tx.hash)))))))))
  {
    hide Encode, Guard, PlainField, Join;
    PlainIsItself(tx.date);
    PlainIsItself(tx.kind);
    PlainIsItself(tx.token);
    PlainIsItself(tx.amount);
    PlainIsItself(tx.hash);
    var fields := Fields(tx);
    assert Mapped(Guard, fields) == fields;
    assert Mapped(Encode, fields) == fields;
    JoinFive(tx.date, tx.kind, tx.token, tx.amount, tx.hash);
    JoinFive("date", "type", "token", "amount", "tx hash");
    assert Join(HEADERS, ',') == "date,type,token,amount,tx hash";
    JoinTwo(Join(HEADERS, ','), Join(fields, ','));
    assert Lines(Rows([tx])) == [Join(fields, ',')];
    assert [Join(HEADERS, ',')] + Lines(Rows([tx])) == [Join(HEADERS, ','), Join(fields, ',')];
  }

  lemma JoinTwo(a: string, b: string)
    ensures Join([a, b], '\n') == a + ("\n" + b)
  {
    assert [a, b][1..] == [b];
  }

  lemma JoinNext(a: string, rest: seq<string>)
    requires rest != []
    ensures Join([a] + rest, ',') == a + ("," + Join(rest, ','))
  {
    assert ([a] + rest)[1..] == rest;
  }

  lemma JoinFive(a: string, b: string, c: string, d: string, e: string)
    ensures Join([a, b, c, d, e], ',') == a + ("," + (b + ("," + (c + ("," + (d + ("," + e)))))))
  {
    assert Join([e], ',') == e;
    hide Join;
    JoinNext(d, [e]);
    JoinNext(c, [d, e]);
    JoinNext(b, [c, d, e]);
    JoinNext(a, [b, c, d, e]);
    assert [d] + [e] == [d, e] && [c] + [d, e] == [c, d, e];
    assert [b] + [c, d, e] == [b, c, d, e] && [a] + [b, c, d, e] == [a, b, c, d, e];
  }

  /** The guard loses one thing: a formula and the same text already carrying an apostrophe look alike. */
  lemma GuardCollidesIff(a: string, b: string)
    ensures Guard(a) == Guard(b) <==>
      a == b || (FormulaLike(a) && b == "'" + a) || (FormulaLike(b) && a == "'" + b)
  {
    if FormulaLike(a) && FormulaLike(b) && Guard(a) == Guard(b) {
      assert a == Guard(a)[1..] && b == Guard(b)[1..];
    }
  }
}
