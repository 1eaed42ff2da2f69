/**
  The bookkeeping agent's rules: keyword categorisation of ledger rows, the tax split and
  journal entries of `_journalize`, and the sign rule of the profit-and-loss summary.
*/
module BookBot {
  import opened Wrappers
  import opened Text
  import opened Rounding

  /** A categorisation rule. Its pattern is an alternation of literal keywords. */
  datatype Rule = Rule(keywords: seq<string>, category: string, side: string)

  const DefaultRules: seq<Rule> := [
    Rule(["salary", "payroll", "wages"], "Payroll", "expense"),
    Rule(["freight", "courier", "shipping"], "Freight & Shipping", "expense"),
    Rule(["rent", "lease"], "Rent", "expense"),
    Rule(["electric", "power", "utility", "internet", "wifi", "broadband"], "Utilities", "expense"),
    Rule(["consult", "service", "fee"], "Professional Fees", "expense"),
    Rule(["repair", "maintenance"], "Repairs & Maintenance", "expense"),
    Rule(["advert", "marketing", "ads"], "Advertising & Marketing", "expense"),
    Rule(["software", "saas", "subscription", "license"], "Software Subscriptions", "expense"),
    Rule(["interest", "bank charge", "fee"], "Finance Charges", "expense"),
    Rule(["sale", "invoice", "billed"], "Sales", "income")]

  /** The agent's rules: the given ones, or the defaults when none or an empty list is given. */
  function ActiveRules(rules: Option<seq<Rule>>): (r: seq<Rule>)
    ensures r != []
    ensures rules.Some? && rules.value != [] ==> r == rules.value
  {
    if rules.Some? && rules.value != [] then rules.value else DefaultRules
  }

  /** `re.search` of an alternation of literals: some keyword occurs in the text. */
  predicate Matches(rule: Rule, text: string) {
    exists k :: k in rule.keywords && Contains(text, k)
  }

  /** The text a row is categorised on: item name and details, lower-cased. */
  function RowText(itemName: string, details: string): string {
    Lower(itemName + " " + details)
  }

  /** The position of the first rule that matches, if any. */
  function FirstMatch(rules: seq<Rule>, text: string): (r: Option<nat>)
    ensures r.Some? ==> r.value < |rules| && Matches(rules[r.value], text)
    ensures r.Some? ==> forall i :: 0 <= i < r.value ==> !Matches(rules[i], text)
    ensures r.None? ==> forall i :: 0 <= i < |rules| ==> !Matches(rules[i], text)
  {
    if rules == [] then None
    else if Matches(rules[0], text) then Some(0)
    else match FirstMatch(rules[1..], text)
      case None => None
      case Some(k) => Some(k + 1)
  }

  /** The category of the first matching rule, or "Other" (the model-free path). */
  function Category(rules: seq<Rule>, text: string): string {
    match FirstMatch(rules, text)
    case Some(i) => rules[i].category
    case None => "Other"
  }

  /** The keyword test of one rule, scanning its keywords. */
  method RuleMatches(rule: Rule, text: string) returns (hit: bool)
    ensures hit == Matches(rule, text)
  {
    hit := false;
    var j := 0;
    while j < |rule.keywords|
      invariant 0 <= j <= |rule.keywords|
      invariant forall t :: 0 <= t < j ==> !Contains(text, rule.keywords[t])
    {
      if Contains(text, rule.keywords[j]) {
        hit := true;
        return;
      }
      j := j + 1;
    }
  }

  /** `_categorize_row` without a language model: the first matching rule decides. */
  method CategorizeRow(rules: seq<Rule>, itemName: string, details: string) returns (category: string)
    ensures category == Category(rules, RowText(itemName, details))
  {
    var name := RowText(itemName, details);
    var i := 0;
    while i < |rules|
      invariant 0 <= i <= |rules|
      invariant forall t :: 0 <= t < i ==> !Matches(rules[t], name)
    {
      var hit := RuleMatches(rules[i], name);
      if hit {
        FirstMatchAt(rules, name, i);
        return rules[i].category;
      }
      i := i + 1;
    }
    return "Other";
  }

  lemma {:induction false} FirstMatchAt(rules: seq<Rule>, text: string, i: nat)
    requires i < |rules| && Matches(rules[i], text)
    requires forall t :: 0 <= t < i ==> !Matches(rules[t], text)
    ensures FirstMatch(rules, text) == Some(i)
  {
    if i > 0 {
      FirstMatchAt(rules[1..], text, i - 1);
    }
  }

  /** A text that no rule matches is "Other"; one that some rule matches gets that rule's or an earlier rule's category. */
  lemma CategorySpec(rules: seq<Rule>, text: string)
    ensures (forall i :: 0 <= i < |rules| ==> !Matches(rules[i], text)) ==> Category(rules, text) == "Other"
    ensures forall i :: 0 <= i < |rules| && Matches(rules[i], text) ==>
      exists j :: 0 <= j <= i && Category(rules, text) == rules[j].category
  {
    forall i | 0 <= i < |rules| && Matches(rules[i], text)
      ensures exists j :: 0 <= j <= i && Category(rules, text) == rules[j].category
    {
      var m := FirstMatch(rules, text);
      assert m.Some?;
    }
  }

  /**
    "fee" belongs to both the professional-fees rule and the finance-charges rule; the
    earlier rule wins, so a text with "fee" and no keyword of the four rules before it is
    Professional Fees.
  */
  lemma FeeIsProfessionalFees(text: string)
    requires Contains(text, "fee")
    requires forall i :: 0 <= i < 4 ==> !Matches(DefaultRules[i], text)
    ensures Category(DefaultRules, text) == "Professional Fees"
  {
    assert "fee" in DefaultRules[4].keywords;
    FirstMatchAt(DefaultRules, text, 4);
  }

  /** A ledger row as `_journalize` reads it. */
  datatype BookRow = BookRow(
    invoiceNo: string, qty: real, unitPrice: real, discount: real,
    shippingCharges: real, otherCharges: real, gstRate: real, isInterstate: bool)

  /** The row's taxable value: price less discount plus charges, clipped at zero. */
  function RowTaxable(r: BookRow): (tv: real)
    ensures tv >= 0.0
  {
    var v := r.qty * r.unitPrice - r.discount + r.shippingCharges + r.otherCharges;
    if v < 0.0 then 0.0 else v
  }

  datatype Split = Split(igst: real, cgst: real, sgst: real)

  /** The tax split: all IGST for an interstate row, otherwise CGST and SGST at half the rate each. */
  function TaxSplit(r: BookRow): (s: Split)
    ensures r.isInterstate ==> s.cgst == 0.0 && s.sgst == 0.0 && s.igst == RowTaxable(r) * (r.gstRate / 100.0)
    ensures !r.isInterstate ==> s.igst == 0.0 && s.cgst == s.sgst && s.cgst + s.sgst == RowTaxable(r) * (r.gstRate / 100.0)
  {
    var rate := r.gstRate / 100.0;
    if r.isInterstate then Split(RowTaxable(r) * rate, 0.0, 0.0)
    else
      var h := rate / 2.0;
      Split(0.0, RowTaxable(r) * h, RowTaxable(r) * h)
  }

  datatype JournalLine = JournalLine(account: string, dr: real, cr: real)
  datatype Journal = Journal(invoiceNo: string, entry: seq<JournalLine>)

  /** `{...} if amount else None`. */
  function IfNonZero(amount: real, line: JournalLine): Option<JournalLine> {
    if amount != 0.0 then Some(line) else None
  }

  /** The entry as first built, with None in place of the zero tax lines. */
  function RawEntry(r: BookRow, sales: bool): seq<Option<JournalLine>> {
    var tx := RowTaxable(r);
    var s := TaxSplit(r);
    var gross := Round2(tx + s.igst + s.cgst + s.sgst);
    if sales then [
      Some(JournalLine("Debtors/Bank", gross, 0.0)),
      Some(JournalLine("Sales", 0.0, Round2(tx))),
      IfNonZero(s.igst, JournalLine("Output IGST", 0.0, Round2(s.igst))),
      IfNonZero(s.cgst, JournalLine("Output CGST", 0.0, Round2(s.cgst))),
      IfNonZero(s.sgst, JournalLine("Output SGST", 0.0, Round2(s.sgst)))]
    else [
      Some(JournalLine("Purchases/Expense", Round2(tx), 0.0)),
      IfNonZero(s.igst, JournalLine("Input IGST", Round2(s.igst), 0.0)),
      IfNonZero(s.cgst, JournalLine("Input CGST", Round2(s.cgst), 0.0)),
      IfNonZero(s.sgst, JournalLine("Input SGST", Round2(s.sgst), 0.0)),
      Some(JournalLine("Creditors/Bank", 0.0, gross))]
  }

  /** The lines that are present, in order. */
  function Present(lines: seq<Option<JournalLine>>): (r: seq<JournalLine>)
    ensures |r| <= |lines|
    ensures forall l :: l in r <==> Some(l) in lines
  {
    if lines == [] then []
    else
      var rest := Present(lines[..|lines| - 1]);
      var last := lines[|lines| - 1];
      assert forall x :: x in lines <==> x in lines[..|lines| - 1] || x == last;
      match last
      case Some(l) => rest + [l]
      case None => rest
  }

  const JournalCap: nat := 200

  /** The journals `_journalize` returns: one per row, in row order, at most 200. */
  function Journals(rows: seq<BookRow>, kind: string): (js: seq<Journal>)
    ensures |js| == if |rows| < JournalCap then |rows| else JournalCap
    ensures forall i :: 0 <= i < |js| ==> js[i] == Journal(rows[i].invoiceNo, Present(RawEntry(rows[i], kind == "sales")))
  {
    var n := if |rows| < JournalCap then |rows| else JournalCap;
    seq(n, i requires 0 <= i < n => Journal(rows[i].invoiceNo, Present(RawEntry(rows[i], kind == "sales"))))
  }

  /** The filtering pass: keeps the lines that are not None. */
  method DropNone(lines: seq<Option<JournalLine>>) returns (kept: seq<JournalLine>)
    ensures kept == Present(lines)
  {
    kept := [];
    for i := 0 to |lines|
      invariant kept == Present(lines[..i])
    {
      assert lines[..i + 1][..i] == lines[..i];
      if lines[i].Some? {
        kept := kept + [lines[i].value];
      }
    }
    assert lines[..|lines|] == lines;
  }

  /** The error `_journalize` raises for a ledger without rows: the row-wise tax split of an
      empty frame yields no (igst, cgst, sgst) triples to unpack. */
  const EmptyLedgerError := "ValueError"

  /** `_journalize` after loading: an empty ledger raises; otherwise build every entry, filter
      each one in place, then cap. */
  method Journalize(rows: seq<BookRow>, kind: string) returns (result: Result<seq<Journal>, string>)
    ensures result.Err? <==> rows == []
    ensures result.Err? ==> result.error == EmptyLedgerError
    ensures result.Ok? ==> result.value == Journals(rows, kind)
  {
    if rows == [] {
      return Err(EmptyLedgerError);
    }
    var raw: seq<seq<Option<JournalLine>>> := [];
    var journals: seq<Journal> := [];
    for i := 0 to |rows|
      invariant |journals| == |raw| == i
      invariant forall t :: 0 <= t < i ==> raw[t] == RawEntry(rows[t], kind == "sales") && journals[t].invoiceNo == rows[t].invoiceNo
    {
      raw := raw + [RawEntry(rows[i], kind == "sales")];
      journals := journals + [Journal(rows[i].invoiceNo, [])];
    }
    for j := 0 to |journals|
      invariant |journals| == |rows|
      invariant forall t :: 0 <= t < |rows| ==> journals[t].invoiceNo == rows[t].invoiceNo
      invariant forall t :: 0 <= t < j ==> journals[t].entry == Present(raw[t])
    {
      var kept := DropNone(raw[j]);
      journals := journals[j := journals[j].(entry := kept)];
    }
    result := Ok(if |journals| <= JournalCap then journals else journals[..JournalCap]);
  }

  /** A sales entry opens with the Debtors/Bank debit of the rounded gross and the Sales credit of the rounded taxable value. */
  lemma SalesEntryHead(r: BookRow)
    ensures var e := Present(RawEntry(r, true)); var s := TaxSplit(r);
      && |e| >= 2
      && e[0] == JournalLine("Debtors/Bank", Round2(RowTaxable(r) + s.igst + s.cgst + s.sgst), 0.0)
      && e[1] == JournalLine("Sales", 0.0, Round2(RowTaxable(r)))
  {
    var raw := RawEntry(r, true);
    assert raw == [raw[0], raw[1]] + raw[2..];
    PresentTwoSome(raw[0].value, raw[1].value, raw[2..]);
  }

  /** Two present lines in front stay in front, in order. */
  lemma PresentTwoSome(x: JournalLine, y: JournalLine, rest: seq<Option<JournalLine>>)
    ensures var e := Present([Some(x), Some(y)] + rest); |e| >= 2 && e[0] == x && e[1] == y
  {
    PresentAppend([Some(x), Some(y)], rest);
    assert [Some(x), Some(y)][..1] == [Some(x)];
    assert [Some(x)][..0] == [];
  }

  /** A sales tax line appears exactly when its amount is non-zero. */
  lemma SalesTaxLines(r: BookRow)
    ensures var e := Present(RawEntry(r, true)); var s := TaxSplit(r);
      && (JournalLine("Output IGST", 0.0, Round2(s.igst)) in e <==> s.igst != 0.0)
      && (JournalLine("Output CGST", 0.0, Round2(s.cgst)) in e <==> s.cgst != 0.0)
      && (JournalLine("Output SGST", 0.0, Round2(s.sgst)) in e <==> s.sgst != 0.0)
  {
  }

  /** A purchase entry ends with the Creditors/Bank credit of the rounded gross. */
  lemma PurchaseEntryTail(r: BookRow)
    ensures var e := Present(RawEntry(r, false)); var s := TaxSplit(r);
      |e| >= 2 && e[|e| - 1] == JournalLine("Creditors/Bank", 0.0, Round2(RowTaxable(r) + s.igst + s.cgst + s.sgst))
  {
    var raw := RawEntry(r, false);
    assert raw == [raw[0]] + raw[1..4] + [raw[4]];
    PresentFirstLast(raw[0].value, raw[1..4], raw[4].value);
  }

  /** A present last line ends the entry, and a present first line makes it at least two long. */
  lemma PresentFirstLast(x: JournalLine, mid: seq<Option<JournalLine>>, z: JournalLine)
    ensures var e := Present([Some(x)] + mid + [Some(z)]); |e| >= 2 && e[|e| - 1] == z
  {
    var init := [Some(x)] + mid;
    assert (init + [Some(z)])[..|init|] == init;
    PresentAppend([Some(x)], mid);
    assert [Some(x)][..0] == [];
  }

  /** An interstate row's entry never carries CGST or SGST lines. */
  lemma InterstateNoHalves(r: BookRow, sales: bool)
    requires r.isInterstate
    ensures forall l :: l in Present(RawEntry(r, sales)) ==>
      l.account != "Output CGST" && l.account != "Output SGST" && l.account != "Input CGST" && l.account != "Input SGST"
  {
  }

  lemma {:induction false} PresentAppend(a: seq<Option<JournalLine>>, b: seq<Option<JournalLine>>)
    ensures Present(a + b) == Present(a) + Present(b)
  {
    if b == [] {
      assert a + b == a;
    } else {
      var n := |b| - 1;
      assert (a + b)[..|a| + n] == a + b[..n];
      PresentAppend(a, b[..n]);
    }
  }


  /** The profit-and-loss amount of a row: its taxable value for Sales, minus it otherwise. */
  function PnlAmount(category: string, r: BookRow): (a: real)
    ensures category == "Sales" ==> a >= 0.0
    ensures category != "Sales" ==> a <= 0.0
  {
    var tv := RowTaxable(r);
    if category == "Sales" then tv else -(if tv >= 0.0 then tv else -tv)
  }

  function SumPnl(cats: seq<string>, rows: seq<BookRow>): real
    requires |cats| == |rows|
  {
    if rows == [] then 0.0
    else SumPnl(cats[..|cats| - 1], rows[..|rows| - 1]) + PnlAmount(cats[|cats| - 1], rows[|rows| - 1])
  }

  function SalesTotal(cats: seq<string>, rows: seq<BookRow>): real
    requires |cats| == |rows|
  {
    if rows == [] then 0.0
    else
      var own := if cats[|cats| - 1] == "Sales" then RowTaxable(rows[|rows| - 1]) else 0.0;
      SalesTotal(cats[..|cats| - 1], rows[..|rows| - 1]) + own
  }

  /** The net profit: the rounded sum of the row amounts, never above the rounded sales total. */
  function NetProfit(cats: seq<string>, rows: seq<BookRow>): (r: real)
    requires |cats| == |rows|
    ensures r <= Round2(SalesTotal(cats, rows))
    ensures (forall i :: 0 <= i < |cats| ==> cats[i] != "Sales") ==> r <= 0.0
  {
    NetProfitAtMostSales(cats, rows);
    Round2Mono(SumPnl(cats, rows), SalesTotal(cats, rows));
    if SumPnl(cats, rows) <= 0.0 then
      Round2Mono(SumPnl(cats, rows), 0.0);
      Round2(SumPnl(cats, rows))
    else
      Round2(SumPnl(cats, rows))
  }

  /** The unrounded sum of row amounts is sales less the other rows' taxable values. */
  lemma {:induction false} NetProfitAtMostSales(cats: seq<string>, rows: seq<BookRow>)
    requires |cats| == |rows|
    ensures SumPnl(cats, rows) <= SalesTotal(cats, rows)
    ensures (forall i :: 0 <= i < |cats| ==> cats[i] != "Sales") ==> SumPnl(cats, rows) <= 0.0
  {
    if rows != [] {
      var n := |rows| - 1;
      NetProfitAtMostSales(cats[..n], rows[..n]);
      assert forall i :: 0 <= i < n ==> cats[..n][i] == cats[i];
    }
  }
}
