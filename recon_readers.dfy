/**
  Row conversion for the reconciliation agent (`_read_ledger`, `_read_payments`). Opening
  and parsing the CSV files is outside the model: a file arrives as its list of rows, and
  float() on a cell is the parser passed in.
*/
module ReconReaders {
  import opened Wrappers
  import opened Text
  import opened Rounding
  import opened ReconTypes

  /** A csv.DictReader row: a missing column is a missing key (r.get gives None). */
  type Row = map<string, string>

  /** float() on cell text: None where float() raises. */
  type Parser = string -> Option<real>

  /** `r.get(k)` under `or`: None and "" are both falsy, so both read as "". */
  function Cell(r: Row, k: string): string {
    if k in r then r[k] else ""
  }

  /** `r.get(a) or r.get(b)`, read as text. */
  function FirstCell(r: Row, a: string, b: string): (s: string)
    ensures s == "" <==> Cell(r, a) == "" && Cell(r, b) == ""
  {
    if Cell(r, a) != "" then Cell(r, a) else Cell(r, b)
  }

  /** `x or None` for text. */
  function NonEmpty(s: string): (r: Option<string>)
    ensures r.None? <==> s == ""
  {
    if s == "" then None else Some(s)
  }

  /** `float(text or fallback)`, falling back to `onError` when float() raises. */
  function FloatOr(text: string, fallback: real, onError: real, parse: Parser): real {
    if text == "" then fallback
    else match parse(text)
      case Some(v) => v
      case None => onError
  }

  /** qty: the qty cell, 1 when it is blank, missing or not a number. */
  function LedgerQty(r: Row, parse: Parser): real {
    FloatOr(Cell(r, "qty"), 1.0, 1.0, parse)
  }

  /** unit: unit_price, else invoice_value, else 0; 0 when the chosen cell is not a number. */
  function LedgerUnit(r: Row, parse: Parser): real {
    FloatOr(FirstCell(r, "unit_price", "invoice_value"), 0.0, 0.0, parse)
  }

  /** One ledger row as an invoice record. */
  function ToInvoice(r: Row, parse: Parser): (inv: Invoice)
    ensures inv.invoiceNo.None? <==> Strip(FirstCell(r, "invoice_no", "inv_no")) == ""
    ensures inv.invoiceNo.Some? ==> inv.invoiceNo.value != "" && !IsSpace(inv.invoiceNo.value[0])
    ensures inv.date.Some? ==> inv.date.value != ""
    ensures inv.total == Round2(LedgerQty(r, parse) * LedgerUnit(r, parse))
  {
    Invoice(
      NonEmpty(Strip(FirstCell(r, "invoice_no", "inv_no"))),
      NonEmpty(FirstCell(r, "invoice_date", "date")),
      Strip(FirstCell(r, "details", "item_name")),
      Round2(LedgerQty(r, parse) * LedgerUnit(r, parse)))
  }

  /** `f` applied to each element of `s`, in order. */
  function MapSeq<A, B>(f: A -> B, s: seq<A>): (r: seq<B>)
    ensures |r| == |s| && forall i :: 0 <= i < |s| ==> r[i] == f(s[i])
  {
    if s == [] then [] else MapSeq(f, s[..|s| - 1]) + [f(s[|s| - 1])]
  }

  /** The ledger: no rows when the file is missing, otherwise one invoice per row, in order. */
  function Ledger(file: Option<seq<Row>>, parse: Parser): (invs: seq<Invoice>)
    ensures file.None? ==> invs == []
    ensures file.Some? ==> |invs| == |file.value| && forall i :: 0 <= i < |invs| ==> invs[i] == ToInvoice(file.value[i], parse)
  {
    match file
    case None => []
    case Some(rows) => MapSeq((r: Row) => ToInvoice(r, parse), rows)
  }

  /** The loop of `_read_ledger`. */
  method ReadLedger(file: Option<seq<Row>>, parse: Parser) returns (invoices: seq<Invoice>)
    ensures invoices == Ledger(file, parse)
  {
    invoices := [];
    if file.None? {
      return;
    }
    var rows := file.value;
    var convert := (r: Row) => ToInvoice(r, parse);
    for i := 0 to |rows|
      invariant invoices == MapSeq(convert, rows[..i])
    {
      MapSeqSnoc(convert, rows, i);
      invoices := invoices + [convert(rows[i])];
    }
    assert rows[..|rows|] == rows;
    MapSeqSame(convert, (r: Row) => ToInvoice(r, parse), rows);
  }

  /** Mapping one more element appends its image. */
  lemma MapSeqSnoc<A, B>(f: A -> B, s: seq<A>, i: int)
    requires 0 <= i < |s|
    ensures MapSeq(f, s[..i + 1]) == MapSeq(f, s[..i]) + [f(s[i])]
  {
    assert s[..i + 1][..i] == s[..i];
  }

  /** Two functions that agree on every element map a sequence alike. */
  lemma MapSeqSame<A, B>(f: A -> B, g: A -> B, s: seq<A>)
    requires forall x :: f(x) == g(x)
    ensures MapSeq(f, s) == MapSeq(g, s)
  {
  }

  /** A payment row from the payments CSV file. */
  function FilePayment(r: Row, parse: Parser): (p: Payment)
    ensures FirstCell(r, "amount", "amt") == "" ==> p.amount == 0.0
    ensures p.reference == FirstCell(r, "reference", "details")
  {
    Payment(
      FloatOr(FirstCell(r, "amount", "amt"), 0.0, 0.0, parse),
      if "date" in r then Text(r["date"]) else Null,
      FirstCell(r, "reference", "details"))
  }

  /** Python truthiness of an inline value. */
  predicate Truthy(v: Value) {
    match v
    case Null => false
    case Text(s) => s != ""
    case Number(n) => n != 0.0
  }

  /** `d.get(k)`. */
  function Field(d: map<string, Value>, k: string): Value {
    if k in d then d[k] else Null
  }

  /** `d.get(a) or d.get(b)`: the first truthy one, or Null when both are falsy. */
  function FirstTruthy(d: map<string, Value>, a: string, b: string): (v: Value)
    ensures v == Null || Truthy(v)
  {
    if Truthy(Field(d, a)) then Field(d, a)
    else if Truthy(Field(d, b)) then Field(d, b)
    else Null
  }

  /** The `payments` parameter: a list of dicts, or anything else (ignored). */
  datatype PaymentsArg = NotAList | InlineList(items: seq<map<string, Value>>)

  /** A payment dict from the inline list. */
  function InlinePayment(d: map<string, Value>, parse: Parser): (p: Payment)
    ensures !Truthy(Field(d, "amount")) && !Truthy(Field(d, "amt")) ==> p.amount == 0.0
  {
    var amount :=
      match FirstTruthy(d, "amount", "amt")
      case Null => 0.0
      case Number(n) => n
      case Text(s) => FloatOr(s, 0.0, 0.0, parse);
    var reference :=
      match FirstTruthy(d, "reference", "details")
      case Text(s) => s
      case _ => "";
    Payment(amount, Field(d, "date"), reference)
  }

  /** The payment rows: a readable file wins over the inline list; anything else gives none. */
  function Payments(file: Option<seq<Row>>, inline: PaymentsArg, parse: Parser): (ps: seq<Payment>)
    ensures file.Some? ==> |ps| == |file.value| && forall i :: 0 <= i < |ps| ==> ps[i] == FilePayment(file.value[i], parse)
    ensures file.None? && inline.InlineList? ==> |ps| == |inline.items| && forall i :: 0 <= i < |ps| ==> ps[i] == InlinePayment(inline.items[i], parse)
    ensures file.None? && inline.NotAList? ==> ps == []
  {
    if file.Some? then seq(|file.value|, i requires 0 <= i < |file.value| => FilePayment(file.value[i], parse))
    else if inline.InlineList? then seq(|inline.items|, i requires 0 <= i < |inline.items| => InlinePayment(inline.items[i], parse))
    else []
  }

  /** The two loops of `_read_payments`. */
  method ReadPayments(file: Option<seq<Row>>, inline: PaymentsArg, parse: Parser) returns (rows: seq<Payment>)
    ensures rows == Payments(file, inline, parse)
  {
    rows := [];
    if file.Some? {
      var lines := file.value;
      for i := 0 to |lines|
        invariant rows == Payments(Some(lines[..i]), inline, parse)
      {
        rows := rows + [FilePayment(lines[i], parse)];
      }
      assert lines[..|lines|] == lines;
    } else if inline.InlineList? {
      var items := inline.items;
      for i := 0 to |items|
        invariant rows == Payments(None, InlineList(items[..i]), parse)
      {
        rows := rows + [InlinePayment(items[i], parse)];
      }
      assert items[..|items|] == items;
    }
  }
}
