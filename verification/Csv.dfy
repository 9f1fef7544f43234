/** The CSV writer, after the quoting rules of section 2 of RFC 4180, and proof that its text is uniquely decodable. */
module Csv {
  import opened Common

  // ---- the writer ----------------------------------------------------------------------------------

  predicate NeedsQuotes(s: string) {
    '"' in s || ',' in s || '\n' in s
  }

  function Doubled(s: string): string {
    if s == [] then [] else (if s[0] == '"' then ['"', '"'] else [s[0]]) + Doubled(s[1..])
  }

  function CsvCell(s: string): string {
    if NeedsQuotes(s) then ['"'] + Doubled(s) + ['"'] else s
  }

  /** map(csvCell).join(','). */
  function Line(cells: seq<string>): string
    requires cells != []
  {
    if |cells| == 1 then CsvCell(cells[0]) else CsvCell(cells[0]) + [','] + Line(cells[1..])
  }

  predicate ProperGrid(rows: seq<seq<string>>) {
    forall i :: 0 <= i < |rows| ==> rows[i] != []
  }

  /** join('\n'). */
  function Lines(rows: seq<seq<string>>): string
    requires rows != [] && ProperGrid(rows)
  {
    if |rows| == 1 then Line(rows[0]) else Line(rows[0]) + ['\n'] + Lines(rows[1..])
  }

  function Export(header: string, rows: seq<seq<string>>): string
    requires ProperGrid(rows)
  {
    if rows == [] then header else header + ['\n'] + Lines(rows)
  }

  // ---- a reader --------------------------------------------------------------------------------------

  predicate Ends(rest: string) {
    rest == [] || rest[0] == ',' || rest[0] == '\n'
  }

  function ReadPlain(t: string): (r: (string, string))
    ensures |r.1| <= |t|
  {
    if Ends(t) then ([], t) else
      var (v, rest) := ReadPlain(t[1..]);
      ([t[0]] + v, rest)
  }

  /** After an opening quote. */
  function ReadQuoted(t: string): (r: (string, string))
    ensures |r.1| <= |t|
    decreases |t|
  {
    if t == [] then ([], [])
    else if t[0] != '"' then
      var (v, rest) := ReadQuoted(t[1..]);
      ([t[0]] + v, rest)
    else if |t| > 1 && t[1] == '"' then
      var (v, rest) := ReadQuoted(t[2..]);
      (['"'] + v, rest)
    else ([], t[1..])
  }

  function ReadCell(t: string): (r: (string, string))
    ensures |r.1| <= |t|
  {
    if t != [] && t[0] == '"' then ReadQuoted(t[1..]) else ReadPlain(t)
  }

  function ReadGrid(t: string): (rows: seq<seq<string>>)
    ensures rows != [] && ProperGrid(rows)
    decreases |t|
  {
    var (cell, rest) := ReadCell(t);
    if rest == [] then [[cell]] else
      var later := ReadGrid(rest[1..]);
      if rest[0] == ',' then [[cell] + later[0]] + later[1..] else [[cell]] + later
  }

  // ---- reading back what was written -------------------------------------------------------------------

  lemma {:induction false} PlainRoundTrip(s: string, rest: string)
    requires !NeedsQuotes(s) && Ends(rest)
    ensures ReadPlain(s + rest) == (s, rest)
  {
    if s == [] {
      assert s + rest == rest;
    } else {
      assert s == [s[0]] + s[1..] && s[0] in s;
      assert (s + rest)[1..] == s[1..] + rest;
      PlainRoundTrip(s[1..], rest);
    }
  }

  lemma QuotedStep(c: char, tail: string, v: string, rest: string)
    requires ReadQuoted(tail) == (v, rest)
    ensures c == '"' ==> ReadQuoted(['"', '"'] + tail) == (['"'] + v, rest)
    ensures c != '"' ==> ReadQuoted([c] + tail) == ([c] + v, rest)
  {
    assert (['"', '"'] + tail)[2..] == tail;
    assert ([c] + tail)[1..] == tail;
  }

  lemma Associative<T>(a: seq<T>, b: seq<T>, c: seq<T>, d: seq<T>)
    ensures a + b + c + d == a + (b + c + d) == a + (b + (c + d))
  {
  }

  lemma {:induction false} QuotedRoundTrip(s: string, rest: string)
    requires Ends(rest)
    ensures ReadQuoted(Doubled(s) + ['"'] + rest) == (s, rest)
  {
    if s == [] {
      assert Doubled(s) + ['"'] + rest == ['"'] + rest;
    } else {
      QuotedRoundTrip(s[1..], rest);
      QuotedStep(s[0], Doubled(s[1..]) + ['"'] + rest, s[1..], rest);
      Associative(if s[0] == '"' then ['"', '"'] else [s[0]], Doubled(s[1..]), ['"'], rest);
      assert s == [s[0]] + s[1..];
    }
  }

  lemma OpeningQuote(u: string)
    ensures ReadCell(['"'] + u) == ReadQuoted(u)
  {
    assert (['"'] + u)[1..] == u;
  }

  lemma QuotedCell(s: string, rest: string)
    requires NeedsQuotes(s) && Ends(rest)
    ensures ReadCell(CsvCell(s) + rest) == (s, rest)
  {
    var u := Doubled(s) + ['"'] + rest;
    assert CsvCell(s) + rest == ['"'] + u;
    QuotedRoundTrip(s, rest);
    OpeningQuote(u);
  }

  lemma PlainCell(s: string, rest: string)
    requires !NeedsQuotes(s) && Ends(rest)
    ensures ReadCell(CsvCell(s) + rest) == (s, rest)
  {
    if s != [] {
      assert s[0] in s;
    }
    PlainRoundTrip(s, rest);
  }

  /** Whatever quotes, commas and newlines a cell contains, it is read back exactly. */
  lemma CellRoundTrip(s: string, rest: string)
    requires Ends(rest)
    ensures ReadCell(CsvCell(s) + rest) == (s, rest)
  {
    if NeedsQuotes(s) {
      QuotedCell(s, rest);
    } else {
      PlainCell(s, rest);
    }
  }

  /** A cell is written as it is exactly if it has no quote, comma or newline; otherwise it is put in quotes. */
  lemma QuotedIff(s: string)
    ensures CsvCell(s) == s <==> forall i :: 0 <= i < |s| ==> s[i] != '"' && s[i] != ',' && s[i] != '\n'
    ensures CsvCell(s) != s ==> |CsvCell(s)| >= 2 && CsvCell(s)[0] == '"' == CsvCell(s)[|CsvCell(s)| - 1]
  {
    DoubledLonger(s);
  }

  lemma {:induction false} DoubledLonger(s: string)
    ensures |Doubled(s)| >= |s|
  {
    if s == [] {
    } else {
      DoubledLonger(s[1..]);
    }
  }

  /** A line whose first cell has been read. */
  lemma FirstCell(t: string, cell: string, more: string)
    requires ReadCell(t) == (cell, more) && more != [] && more[0] == ','
    ensures var later := ReadGrid(more[1..]);
            ReadGrid(t) == [[cell] + later[0]] + later[1..]
  {
  }

  lemma LastCell(t: string, cell: string, rest: string)
    requires ReadCell(t) == (cell, rest) && (rest == [] || rest[0] == '\n')
    ensures ReadGrid(t) == [[cell]] + if rest == [] then [] else ReadGrid(rest[1..])
  {
  }

  /** What follows a line: nothing, or a newline and more lines. */
  function Following(rest: string): seq<seq<string>> {
    if rest == [] then [] else ReadGrid(rest[1..])
  }

  lemma LineStep(first: string, others: seq<string>, tail: string, after: seq<seq<string>>)
    requires ReadGrid(tail) == [others] + after
    ensures ReadGrid(CsvCell(first) + ([','] + tail)) == [[first] + others] + after
  {
    var more := [','] + tail;
    assert more[1..] == tail;
    CellRoundTrip(first, more);
    FirstCell(CsvCell(first) + more, first, more);
  }

  lemma LineUnfolds(cells: seq<string>, rest: string)
    requires |cells| > 1
    ensures Line(cells) + rest == CsvCell(cells[0]) + ([','] + (Line(cells[1..]) + rest))
  {
    Associative(CsvCell(cells[0]), [','], Line(cells[1..]), rest);
  }

  lemma {:induction false} LineRoundTrip(cells: seq<string>, rest: string)
    requires cells != [] && (rest == [] || rest[0] == '\n')
    ensures ReadGrid(Line(cells) + rest) == [cells] + Following(rest)
  {
    assert cells == [cells[0]] + cells[1..];
    if |cells| == 1 {
      assert cells == [cells[0]];
      CellRoundTrip(cells[0], rest);
      LastCell(CsvCell(cells[0]) + rest, cells[0], rest);
    } else {
      LineRoundTrip(cells[1..], rest);
      LineStep(cells[0], cells[1..], Line(cells[1..]) + rest, Following(rest));
      LineUnfolds(cells, rest);
    }
  }

  /** Reading the written text gives back the grid, of any shape. */
  lemma {:induction false} GridRoundTrip(rows: seq<seq<string>>)
    requires rows != [] && ProperGrid(rows)
    ensures ReadGrid(Lines(rows)) == rows
  {
    if |rows| == 1 {
      LineRoundTrip(rows[0], []);
      assert Line(rows[0]) + [] == Line(rows[0]);
      assert [rows[0]] + [] == rows;
    } else {
      var rest := ['\n'] + Lines(rows[1..]);
      assert Line(rows[0]) + ['\n'] + Lines(rows[1..]) == Line(rows[0]) + rest;
      assert rest[1..] == Lines(rows[1..]);
      LineRoundTrip(rows[0], rest);
      GridRoundTrip(rows[1..]);
      assert [rows[0]] + rows[1..] == rows;
    }
  }

  /** Two grids under the same header that export to the same text are equal. */
  lemma ExportDetermines(header: string, g: seq<seq<string>>, h: seq<seq<string>>)
    requires ProperGrid(g) && ProperGrid(h)
    ensures Export(header, g) == Export(header, h) <==> g == h
  {
    if Export(header, g) == Export(header, h) && g != [] && h != [] {
      var n := |header| + 1;
      assert Lines(g) == Export(header, g)[n..] && Lines(h) == Export(header, h)[n..];
      GridRoundTrip(g);
      GridRoundTrip(h);
    }
  }

  // ---- the customer export --------------------------------------------------------------------------------

  datatype Customer = Customer(number: int, fullName: string, phone: Option<string>, email: Option<string>,
                               status: string, money: Option<int>, time: Option<int>)

  const CUSTOMER_HEADER := "customerNumber,fullName,phone,email,status,moneyMinor,timeSecondsRemaining"

  function NatText(n: nat): (s: string)
    ensures s != [] && forall i :: 0 <= i < |s| ==> '0' <= s[i] <= '9'
  {
    if n < 10 then ['0' + n as char] else NatText(n / 10) + ['0' + (n % 10) as char]
  }

  function IntText(n: int): string {
    if n < 0 then ['-'] + NatText(-n) else NatText(n)
  }

  function NatValue(s: string): int {
    if s == [] then 0 else 10 * NatValue(s[..|s| - 1]) + (s[|s| - 1] as int - '0' as int)
  }

  lemma {:induction false} NatTextValue(n: nat)
    ensures NatValue(NatText(n)) == n
  {
    if n < 10 {
      assert NatText(n)[..0] == [];
    } else {
      NatTextValue(n / 10);
      assert NatText(n)[..|NatText(n)| - 1] == NatText(n / 10);
    }
  }

  lemma IntTextDetermines(n: int, m: int)
    ensures IntText(n) == IntText(m) <==> n == m
  {
    if IntText(n) == IntText(m) {
      NatTextValue(Abs(n));
      NatTextValue(Abs(m));
      assert n < 0 <==> IntText(n)[0] == '-';
      assert m < 0 <==> IntText(m)[0] == '-';
      if n < 0 {
        assert IntText(n)[1..] == NatText(-n) && IntText(m)[1..] == NatText(-m);
      }
    }
  }

  /** Missing phones and e-mails print as empty, missing balances as 0. */
  function OrEmpty(s: Option<string>): string {
    if s.Some? then s.value else []
  }

  function OrZero(n: Option<int>): int {
    if n.Some? then n.value else 0
  }

  function CustomerCells(c: Customer): (cells: seq<string>)
    ensures |cells| == 7
  {
    [IntText(c.number), c.fullName, OrEmpty(c.phone), OrEmpty(c.email), c.status, IntText(OrZero(c.money)),
     IntText(OrZero(c.time))]
  }

  function CustomerGrid(cs: seq<Customer>): (rows: seq<seq<string>>)
    ensures |rows| == |cs| && ProperGrid(rows)
    ensures forall i :: 0 <= i < |cs| ==> rows[i] == CustomerCells(cs[i])
  {
    seq(|cs|, i requires 0 <= i < |cs| => CustomerCells(cs[i]))
  }

  function ExportCustomers(cs: seq<Customer>): string {
    Export(CUSTOMER_HEADER, CustomerGrid(cs))
  }

  const CUSTOMER_COLUMNS :=
    ["customerNumber", "fullName", "phone", "email", "status", "moneyMinor", "timeSecondsRemaining"]

  /** What the file shows of a customer under a column's name. */
  function Shows(c: Customer, column: string): string {
    if column == "customerNumber" then IntText(c.number)
    else if column == "fullName" then c.fullName
    else if column == "phone" then (match c.phone case Some(p) => p case None => "")
    else if column == "email" then (match c.email case Some(e) => e case None => "")
    else if column == "status" then c.status
    else if column == "moneyMinor" then (match c.money case Some(n) => IntText(n) case None => "0")
    else match c.time case Some(n) => IntText(n) case None => "0"
  }

  /** Every cell stands under the name of its column. */
  lemma CellsUnderColumns(c: Customer, j: nat)
    requires j < 7
    ensures CustomerCells(c)[j] == Shows(c, CUSTOMER_COLUMNS[j])
  {
  }

  /** The customer as the file shows it. */
  function Shown(c: Customer): Customer {
    c.(phone := Some(OrEmpty(c.phone)), email := Some(OrEmpty(c.email)), money := Some(OrZero(c.money)),
       time := Some(OrZero(c.time)))
  }

  lemma CellsDetermine(c: Customer, d: Customer)
    ensures CustomerCells(c) == CustomerCells(d) <==> Shown(c) == Shown(d)
  {
    IntTextDetermines(c.number, d.number);
    IntTextDetermines(OrZero(c.money), OrZero(d.money));
    IntTextDetermines(OrZero(c.time), OrZero(d.time));
    if CustomerCells(c) == CustomerCells(d) {
      var x, y := CustomerCells(c), CustomerCells(d);
      assert x[0] == y[0] && x[1] == y[1] && x[2] == y[2] && x[3] == y[3] && x[4] == y[4] && x[5] == y[5];
      assert x[6] == y[6];
    }
  }

  /** Equal customer files mean equal customer lists, up to how missing values print. */
  lemma CustomerExportDetermines(cs: seq<Customer>, ds: seq<Customer>)
    ensures ExportCustomers(cs) == ExportCustomers(ds)
            <==> |cs| == |ds| && forall i :: 0 <= i < |cs| ==> Shown(cs[i]) == Shown(ds[i])
  {
    var g, h := CustomerGrid(cs), CustomerGrid(ds);
    ExportDetermines(CUSTOMER_HEADER, g, h);
    forall i | 0 <= i < |cs| && i < |ds|
      ensures g[i] == h[i] <==> Shown(cs[i]) == Shown(ds[i])
    {
      CellsDetermine(cs[i], ds[i]);
    }
  }
}
