/**
  The rule-based ledger checks of `ComplianceCheckAgent`: per-row GSTIN, state-code, rate,
  period, HSN and interstate rules, the duplicate-invoice rule, and the severity-ordered
  merge of all findings. Ledger files arrive as tables of cells; date and float parsing
  are oracles.
*/
module Compliance {
  import opened Wrappers
  import opened Text
  import Gst
  import StableSort

  /** A table cell as pandas hands it over: text, a number with its str() form, a bool, or NaN. */
  datatype Cell = Str(s: string) | Num(x: real, shown: string) | Flag(b: bool) | Nan

  type Row = map<string, Cell>

  /** A loaded ledger: its column names and its rows. */
  datatype Table = Table(columns: set<string>, rows: seq<Row>)

  /** A parsed float: a real or NaN. */
  datatype Rate = Finite(v: real) | NotANumber

  datatype Date = Date(year: int, month: int, day: int)

  /** The parsers the rules use: float(), str() of a float, and parse_date_any. */
  datatype Oracles = Oracles(
    parseFloat: string -> Option<Rate>,
    showFloat: real -> string,
    parseDate: string -> Option<Date>)

  datatype Finding = Finding(
    ledger: string,
    invoiceNo: Option<Cell>,
    invoiceDate: string,
    issue: string,
    severity: string,
    hint: Option<string>)

  // ---------------- cells ----------------

  /** Python truthiness: an empty string, zero and False are falsy; NaN is truthy. */
  predicate Truthy(c: Cell) {
    match c
    case Str(s) => s != ""
    case Num(x, _) => x != 0.0
    case Flag(b) => b
    case Nan => true
  }

  /** str() of a cell. */
  function Show(c: Cell): string {
    match c
    case Str(s) => s
    case Num(_, shown) => shown
    case Flag(b) => if b then "True" else "False"
    case Nan => "nan"
  }

  /** `str(r.get(col, "") or "")`. */
  function CellText(r: Row, col: string): (t: string)
    ensures col !in r ==> t == ""
    ensures col in r && r[col] == Nan ==> t == "nan"
  {
    if col in r && Truthy(r[col]) then Show(r[col]) else ""
  }

  /** `str(r.get(col))`: "None" for a missing column. */
  function Repr(r: Row, col: string): string {
    if col in r then Show(r[col]) else "None"
  }

  /** Python's str.zfill(2): left-pads with '0' to two characters, after a leading sign. */
  function ZFill2(s: string): (z: string)
    ensures |z| >= 2
    ensures |s| >= 2 ==> z == s
    ensures s == "" ==> z == "00"
  {
    if |s| >= 2 then s
    else if |s| == 1 && (s[0] == '+' || s[0] == '-') then [s[0], '0']
    else if |s| == 1 then ['0'] + s
    else "00"
  }

  /** A single digit gains one leading zero. */
  lemma ZFill2Digit(c: char)
    requires IsDigit(c)
    ensures ZFill2([c]) == ['0', c]
  {
  }

  // ---------------- findings ----------------

  /** `_finding`: the hint key is present exactly when the hint is non-empty. */
  function MakeFinding(ledger: string, r: Row, issue: string, severity: string, hint: Option<string>): (f: Finding)
    ensures f.hint.Some? <==> hint.Some? && hint.value != ""
    ensures f.hint.Some? ==> f.hint == hint
    ensures f.ledger == ledger && f.issue == issue && f.severity == severity
  {
    Finding(
      ledger,
      if "invoice_no" in r then Some(r["invoice_no"]) else None,
      Repr(r, "invoice_date"),
      issue,
      severity,
      if hint.Some? && hint.value != "" then hint else None)
  }

  /** The findings of `check` over `rows`, in row order. */
  function Collect(rows: seq<Row>, check: Row -> Option<Finding>): (fs: seq<Finding>)
    ensures |fs| <= |rows|
  {
    if rows == [] then []
    else
      var prev := Collect(rows[..|rows| - 1], check);
      match check(rows[|rows| - 1])
      case Some(f) => prev + [f]
      case None => prev
  }

  /** A finding is collected exactly when some row's check produces it. */
  lemma {:induction false} CollectMembers(rows: seq<Row>, check: Row -> Option<Finding>, f: Finding)
    ensures f in Collect(rows, check) <==> exists i :: 0 <= i < |rows| && check(rows[i]) == Some(f)
  {
    if rows != [] {
      var front := rows[..|rows| - 1];
      CollectMembers(front, check, f);
      if exists i :: 0 <= i < |front| && check(front[i]) == Some(f) {
        var i :| 0 <= i < |front| && check(front[i]) == Some(f);
        assert rows[i] == front[i];
      }
      if exists i :: 0 <= i < |rows| && check(rows[i]) == Some(f) {
        var i :| 0 <= i < |rows| && check(rows[i]) == Some(f);
        if i < |front| {
          assert front[i] == rows[i];
        }
      }
    }
  }

  /** Findings come out in row order: the findings of a concatenation are concatenated. */
  lemma {:induction false} CollectAppend(a: seq<Row>, b: seq<Row>, check: Row -> Option<Finding>)
    ensures Collect(a + b, check) == Collect(a, check) + Collect(b, check)
  {
    if b != [] {
      var b' := b[..|b| - 1];
      assert (a + b)[..|a + b| - 1] == a + b';
      assert (a + b)[|a + b| - 1] == b[|b| - 1];
      CollectAppend(a, b', check);
    } else {
      assert a + b == a;
    }
  }

  /** The loop shared by the row rules: walk the rows, appending each row's finding. */
  method Scan(rows: seq<Row>, check: Row -> Option<Finding>) returns (fs: seq<Finding>)
    ensures fs == Collect(rows, check)
  {
    fs := [];
    for i := 0 to |rows|
      invariant fs == Collect(rows[..i], check)
    {
      assert rows[..i + 1][..i] == rows[..i];
      match check(rows[i]) {
        case Some(f) => fs := fs + [f];
        case None =>
      }
    }
    assert rows[..|rows|] == rows;
  }

  // ---------------- GSTIN rule ----------------

  const GstinHint := "Check transposed characters or missing Z at pos 14 (\U{2026}Z\U{2026})"

  /** `_check_gstin_format` on one row: a non-empty GSTIN that fails validation is HIGH. */
  function GstinCheck(ledger: string, col: string, r: Row): (f: Option<Finding>)
    ensures f.Some? <==> CellText(r, col) != "" && !Gst.ValidateGstin(Some(CellText(r, col)))
    ensures f.Some? ==> f.value.severity == "HIGH" && f.value.hint == Some(GstinHint)
  {
    var g := CellText(r, col);
    if g != "" && !Gst.ValidateGstin(Some(g)) then
      Some(MakeFinding(ledger, r, "Invalid GSTIN format", "HIGH", Some(GstinHint)))
    else None
  }

  /** A blank or missing GSTIN is never flagged; a NaN cell reads as "nan" and is. */
  lemma GstinBlankAndNan(ledger: string, col: string, r: Row)
    ensures (col !in r || r[col] == Str("")) ==> GstinCheck(ledger, col, r).None?
    ensures col in r && r[col] == Nan ==> GstinCheck(ledger, col, r).Some?
  {
    if col in r && r[col] == Nan {
      NanNotGstin();
    }
  }

  /** The text "nan" is no GSTIN. */
  lemma NanNotGstin()
    ensures !Gst.ValidateGstin(Some("nan"))
  {
    StripUnchanged("nan");
  }

  // ---------------- state-code rule ----------------

  /** `_check_state_codes` on one row: the zero-padded code must be a known state code. */
  function StateCheck(ledger: string, col: string, r: Row): (f: Option<Finding>)
    ensures f.Some? <==> ZFill2(CellText(r, col)) !in Gst.StateCodes
    ensures f.Some? ==> f.value.severity == "HIGH" && f.value.hint.None?
  {
    var code := ZFill2(CellText(r, col));
    if code !in Gst.StateCodes then
      Some(MakeFinding(ledger, r, "Invalid Place of Supply state code '" + code + "'", "HIGH", None))
    else None
  }

  /** A blank or missing code pads to "00", which is no state code, so it is flagged. */
  lemma StateBlankFlagged(ledger: string, col: string, r: Row)
    requires col !in r || !Truthy(r[col])
    ensures StateCheck(ledger, col, r).Some?
    ensures StateCheck(ledger, col, r).value.issue == "Invalid Place of Supply state code '00'"
  {
    assert ZFill2(CellText(r, col)) == "00";
  }

  /** A single-digit code is padded before lookup: "7" passes as "07". */
  lemma StatePadded(ledger: string, col: string, r: Row)
    requires col in r && r[col] == Str("7")
    ensures StateCheck(ledger, col, r).None?
  {
    ZFill2Digit('7');
  }

  // ---------------- rate rule ----------------

  const AllowedRates: set<real> := {0.0, 5.0, 12.0, 18.0, 28.0}
  const RateHint := "Allowed set: [0, 5, 12, 18, 28]"

  /** `float(r.get("gst_rate", 0) or 0)`; None where float() raises ValueError. */
  function RateValue(r: Row, o: Oracles): (v: Option<Rate>)
    ensures "gst_rate" !in r ==> v == Some(Finite(0.0))
  {
    if "gst_rate" in r && Truthy(r["gst_rate"]) then
      match r["gst_rate"]
      case Str(s) => o.parseFloat(s)
      case Num(x, _) => Some(Finite(x))
      case Flag(_) => Some(Finite(1.0))
      case Nan => Some(NotANumber)
    else Some(Finite(0.0))
  }

  function ShowRate(v: Rate, o: Oracles): string {
    match v
    case Finite(x) => o.showFloat(x)
    case NotANumber => "nan"
  }

  /** `_check_rate_values` on one row whose rate parsed: MEDIUM outside the standard rates. */
  function RateCheck(ledger: string, r: Row, v: Rate, o: Oracles): (f: Option<Finding>)
    ensures f.Some? <==> !(v.Finite? && v.v in AllowedRates)
    ensures f.Some? ==> f.value.severity == "MEDIUM" && f.value.hint == Some(RateHint)
  {
    if v.Finite? && v.v in AllowedRates then None
    else Some(MakeFinding(ledger, r, "Non-standard GST rate " + ShowRate(v, o) + "%", "MEDIUM", Some(RateHint)))
  }

  /** The rate rule over a ledger: an unparseable rate raises ValueError for the whole run. */
  function RateFindings(ledger: string, rows: seq<Row>, o: Oracles): (res: Result<seq<Finding>, string>)
    ensures res.Err? <==> exists i :: 0 <= i < |rows| && RateValue(rows[i], o).None?
    ensures res.Err? ==> res.error == "ValueError"
    ensures res.Ok? ==> |res.value| <= |rows|
  {
    if rows == [] then Ok([])
    else
      var front := rows[..|rows| - 1];
      var last := rows[|rows| - 1];
      assert forall i :: 0 <= i < |front| ==> front[i] == rows[i];
      var prev :- RateFindings(ledger, front, o);
      match RateValue(last, o)
      case None => Err("ValueError")
      case Some(v) => Ok(prev + (match RateCheck(ledger, last, v, o) case Some(f) => [f] case None => []))
  }

  /** The rate loop: stops at the first rate float() refuses. */
  method ScanRates(ledger: string, rows: seq<Row>, o: Oracles) returns (res: Result<seq<Finding>, string>)
    ensures res == RateFindings(ledger, rows, o)
  {
    var fs: seq<Finding> := [];
    for i := 0 to |rows|
      invariant RateFindings(ledger, rows[..i], o) == Ok(fs)
    {
      assert rows[..i + 1][..i] == rows[..i];
      var v := RateValue(rows[i], o);
      if v.None? {
        assert RateFindings(ledger, rows[..i + 1], o).Err?;
        PrefixErr(ledger, rows, i + 1, o);
        return Err("ValueError");
      }
      var found := RateCheck(ledger, rows[i], v.value, o);
      fs := fs + (match found case Some(f) => [f] case None => []);
    }
    assert rows[..|rows|] == rows;
    res := Ok(fs);
  }

  /** An error on a prefix of the rows is an error on all of them. */
  lemma PrefixErr(ledger: string, rows: seq<Row>, n: nat, o: Oracles)
    requires n <= |rows|
    requires RateFindings(ledger, rows[..n], o).Err?
    ensures RateFindings(ledger, rows, o) == Err("ValueError")
  {
    var i :| 0 <= i < |rows[..n]| && RateValue(rows[..n][i], o).None?;
    assert rows[i] == rows[..n][i];
  }

  /** A NaN rate is always flagged; a missing or zero rate never is. */
  lemma RateNanAndZero(ledger: string, r: Row, o: Oracles)
    ensures RateCheck(ledger, r, NotANumber, o).Some?
    ensures RateCheck(ledger, r, Finite(0.0), o).None?
  {
  }

  // ---------------- HSN rule ----------------

  /** `_check_hsn_present` on one row: MEDIUM when the stripped HSN is empty. */
  function HsnCheck(ledger: string, r: Row): (f: Option<Finding>)
    ensures f.Some? <==> Strip(CellText(r, "hsn")) == ""
    ensures f.Some? ==> f.value.severity == "MEDIUM" && f.value.issue == "Missing HSN code"
  {
    if Strip(CellText(r, "hsn")) == "" then Some(MakeFinding(ledger, r, "Missing HSN code", "MEDIUM", None))
    else None
  }

  // ---------------- interstate rule ----------------

  /** `bool(r.get("is_interstate", False))`. */
  predicate InterstateFlag(r: Row) {
    "is_interstate" in r && Truthy(r["is_interstate"])
  }

  /** `_check_interstate_consistency` on one row: for a valid party GSTIN, LOW when the flag
      disagrees with "party state differs from place of supply". */
  function InterstateCheck(ledger: string, partyCol: string, r: Row): (f: Option<Finding>)
    ensures f.Some? ==> Gst.ValidateGstin(Some(CellText(r, partyCol)))
    ensures f.Some? ==> f.value.severity == "LOW" && f.value.hint.Some?
  {
    var gstin := CellText(r, partyCol);
    if Gst.ValidateGstin(Some(gstin)) then
      InterstateVerdict(ledger, r, PartyState(gstin), ZFill2(CellText(r, "place_of_supply_state_code")), InterstateFlag(r))
    else None
  }

  /** The LOW finding for a row whose flag disagrees with "party state differs from place of
      supply", and None when they agree. */
  function InterstateVerdict(ledger: string, r: Row, partyState: string, pos: string, interstate: bool): (f: Option<Finding>)
    ensures f.Some? <==> (partyState != pos) != interstate
    ensures f.Some? ==> f.value.severity == "LOW" && f.value.hint.Some?
  {
    if (partyState != pos) != interstate then
      Some(MakeFinding(ledger, r, "Interstate flag inconsistent with PoS vs GSTIN state", "LOW",
        Some(InterstateHint(partyState, pos, interstate))))
    else None
  }

  /** The hint of an interstate finding: the party state, the place of supply and the flag. */
  function InterstateHint(partyState: string, pos: string, interstate: bool): (h: string)
    ensures |h| >= |"Party state="|
  {
    "Party state=" + partyState + ", PoS=" + pos + ", is_interstate=" + (if interstate then "True" else "False")
  }

  /** `gstin[:2]`. */
  function PartyState(gstin: string): (s: string)
    ensures |gstin| >= 2 ==> s == gstin[..2]
  {
    if |gstin| >= 2 then gstin[..2] else gstin
  }

  /** For a valid GSTIN the rule flags exactly when (state prefix differs from the padded
      place of supply) disagrees with the interstate flag. */
  lemma InterstateRule(ledger: string, partyCol: string, r: Row)
    requires Gst.ValidateGstin(Some(CellText(r, partyCol)))
    ensures var g := CellText(r, partyCol);
      InterstateCheck(ledger, partyCol, r).Some?
      <==> (g[..2] != ZFill2(CellText(r, "place_of_supply_state_code"))) != InterstateFlag(r)
  {
    var g := CellText(r, partyCol);
    assert |Strip(g)| == 15;
    assert |g| >= 2;
  }

  /** An invalid GSTIN is never checked for consistency. */
  lemma InterstateNeedsValidGstin(ledger: string, partyCol: string, r: Row)
    requires !Gst.ValidateGstin(Some(CellText(r, partyCol)))
    ensures InterstateCheck(ledger, partyCol, r).None?
  {
  }

  // ---------------- period rule ----------------

  predicate LeapYear(y: int) {
    y % 4 == 0 && (y % 100 != 0 || y % 400 == 0)
  }

  function DaysIn(y: int, m: int): (n: int)
    ensures 28 <= n <= 31
  {
    if m == 2 then (if LeapYear(y) then 29 else 28)
    else if m == 4 || m == 6 || m == 9 || m == 11 then 30
    else 31
  }

  /** A date `datetime.date` accepts. */
  predicate ValidDate(d: Date) {
    1 <= d.year <= 9999 && 1 <= d.month <= 12 && 1 <= d.day <= DaysIn(d.year, d.month)
  }

  /** Calendar order. */
  predicate AtMost(a: Date, b: Date) {
    a.year < b.year || (a.year == b.year && (a.month < b.month || (a.month == b.month && a.day <= b.day)))
  }

  /** `d - timedelta(days=1)`. */
  function PrevDay(d: Date): Date {
    if d.day > 1 then Date(d.year, d.month, d.day - 1)
    else if d.month > 1 then Date(d.year, d.month - 1, DaysIn(d.year, d.month - 1))
    else Date(d.year - 1, 12, 31)
  }

  /** Python's str.split(sep) with a one-character separator. */
  function Split(s: string, sep: char): (parts: seq<string>)
    ensures |parts| >= 1
    ensures forall i :: 0 <= i < |parts| ==> sep !in parts[i]
  {
    if s == [] then [""]
    else
      var rest := Split(s[1..], sep);
      if s[0] == sep then [""] + rest
      else [[s[0]] + rest[0]] + rest[1..]
  }

  /** Joining the parts with the separator gives back the string. */
  function Join(parts: seq<string>, sep: char): string
    requires |parts| >= 1
  {
    if |parts| == 1 then parts[0] else parts[0] + [sep] + Join(parts[1..], sep)
  }

  lemma {:induction false} SplitJoin(s: string, sep: char)
    ensures Join(Split(s, sep), sep) == s
  {
    if s != [] {
      SplitJoin(s[1..], sep);
      var rest := Split(s[1..], sep);
      if s[0] != sep {
        var parts := Split(s, sep);
        if |rest| == 1 {
          assert parts == [[s[0]] + rest[0]];
        } else {
          assert parts[1..] == rest[1..];
          assert Join(rest, sep) == rest[0] + [sep] + Join(rest[1..], sep);
        }
      }
    }
  }

  /** The bounds `_check_period_dates` computes from the parsed year and month; the December
      branch is chosen by the month TEXT being "12", the other branch asks for month m + 1. */
  function MonthBounds(y: int, m: int, decemberText: bool): (res: Result<(Date, Date), string>)
    ensures res.Err? ==> res.error == "ValueError"
  {
    if !(1 <= y <= 9999 && 1 <= m <= 12) then Err("ValueError")
    else if decemberText then
      if y + 1 > 9999 then Err("ValueError") else Ok((Date(y, m, 1), PrevDay(Date(y + 1, 1, 1))))
    else if m + 1 > 12 then Err("ValueError")
    else Ok((Date(y, m, 1), PrevDay(Date(y, m + 1, 1))))
  }

  /** The first and last day of the "YYYY-MM" period. Errors are Python's ValueError. */
  function PeriodBounds(period: string): (res: Result<(Date, Date), string>)
    ensures res.Err? ==> res.error == "ValueError"
  {
    var parts := Split(period, '-');
    if |parts| != 2 then Err("ValueError")
    else
      match (ParseInt(parts[0]), ParseInt(parts[1]))
      case (Some(y), Some(m)) => MonthBounds(y, m, parts[1] == "12")
      case _ => Err("ValueError")
  }

  /** Bounds that are computed span one whole calendar month, provided the December branch
      is taken only for month 12. */
  lemma MonthIsMonth(y: int, m: int, decemberText: bool)
    requires MonthBounds(y, m, decemberText).Ok?
    requires decemberText ==> m == 12
    ensures var (start, end) := MonthBounds(y, m, decemberText).value;
      && ValidDate(start) && ValidDate(end) && start == Date(y, m, 1)
      && end == Date(y, m, DaysIn(y, m))
  {
  }

  lemma ParseTwelve()
    ensures ParseInt("12") == Some(12)
  {
    TwelveText();
    ParseIntOfNat(12);
  }

  lemma TwelveText()
    ensures NatToString(12) == "12"
  {
    assert NatToString(12) == NatToString(1) + "2";
  }

  /** A period that parses spans one whole calendar month: from its 1st to its last day. */
  lemma PeriodIsMonth(period: string)
    requires PeriodBounds(period).Ok?
    ensures var (start, end) := PeriodBounds(period).value;
      && ValidDate(start) && ValidDate(end) && start.day == 1
      && end == Date(start.year, start.month, DaysIn(start.year, start.month))
  {
    var parts := Split(period, '-');
    var y := ParseInt(parts[0]).value;
    var m := ParseInt(parts[1]).value;
    assert PeriodBounds(period) == MonthBounds(y, m, parts[1] == "12");
    if parts[1] == "12" {
      ParseTwelve();
    }
    MonthIsMonth(y, m, parts[1] == "12");
  }

  /** As written, a zero-padded December ("2024-012") takes the ordinary branch, asks for
      month 13 and raises, while "2024-12" succeeds. */
  lemma PaddedDecemberRaises(y: int)
    requires 1 <= y < 9999
    ensures MonthBounds(y, 12, false).Err?
    ensures MonthBounds(y, 12, true) == Ok((Date(y, 12, 1), Date(y, 12, 31)))
  {
  }

  /** A valid date lies between the bounds exactly when it falls in the period's month. */
  lemma InPeriodIffSameMonth(period: string, d: Date)
    requires PeriodBounds(period).Ok?
    requires ValidDate(d)
    ensures var (start, end) := PeriodBounds(period).value;
      AtMost(start, d) && AtMost(d, end) <==> d.year == start.year && d.month == start.month
  {
    PeriodIsMonth(period);
  }

  /** `_check_period_dates` on one row: MEDIUM when the date does not parse or falls outside. */
  function PeriodCheck(ledger: string, period: string, start: Date, end: Date, r: Row, o: Oracles): (f: Option<Finding>)
    ensures f.Some? <==> var d := o.parseDate(Repr(r, "invoice_date")); d.None? || !(AtMost(start, d.value) && AtMost(d.value, end))
    ensures f.Some? ==> f.value.severity == "MEDIUM"
  {
    var text := Repr(r, "invoice_date");
    var d := o.parseDate(text);
    if d.None? || !(AtMost(start, d.value) && AtMost(d.value, end)) then
      Some(MakeFinding(ledger, r, "Invoice date " + text + " outside period " + period, "MEDIUM", None))
    else None
  }

  /** With a valid parsed date, a row is flagged exactly when its date lies outside the period's month. */
  lemma PeriodRule(ledger: string, period: string, r: Row, o: Oracles)
    requires PeriodBounds(period).Ok?
    requires o.parseDate(Repr(r, "invoice_date")).Some? && ValidDate(o.parseDate(Repr(r, "invoice_date")).value)
    ensures var (start, end) := PeriodBounds(period).value; var d := o.parseDate(Repr(r, "invoice_date")).value;
      PeriodCheck(ledger, period, start, end, r, o).Some? <==> !(d.year == start.year && d.month == start.month)
  {
    InPeriodIffSameMonth(period, o.parseDate(Repr(r, "invoice_date")).value);
  }

  // ---------------- duplicate rule ----------------

  type Key = (Cell, Cell)

  /** The (invoice_no, invoice_date) group of a row; rows with a NaN key are dropped by groupby. */
  function KeyOf(r: Row): Option<Key> {
    if "invoice_no" in r && "invoice_date" in r && r["invoice_no"] != Nan && r["invoice_date"] != Nan then
      Some((r["invoice_no"], r["invoice_date"]))
    else None
  }

  /** The distinct group keys, in first-seen order. */
  function GroupKeys(rows: seq<Row>): (ks: seq<Key>)
    ensures forall i, j :: 0 <= i < j < |ks| ==> ks[i] != ks[j]
    ensures forall k :: k in ks <==> exists i :: 0 <= i < |rows| && KeyOf(rows[i]) == Some(k)
  {
    if rows == [] then []
    else
      var front := rows[..|rows| - 1];
      var prev := GroupKeys(front);
      var last := rows[|rows| - 1];
      assert forall i :: 0 <= i < |front| ==> front[i] == rows[i];
      assert forall i :: 0 <= i < |rows| ==> i < |front| || rows[i] == last;
      match KeyOf(last)
      case Some(k) => if k in prev then prev else prev + [k]
      case None => prev
  }

  /** The number of rows in group `k`. */
  function GroupSize(rows: seq<Row>, k: Key): nat {
    if rows == [] then 0
    else GroupSize(rows[..|rows| - 1], k) + (if KeyOf(rows[|rows| - 1]) == Some(k) then 1 else 0)
  }

  const DuplicateHint := "Verify line consolidation or consider collapsing rows by HSN/rate."

  function DuplicateFinding(ledger: string, k: Key, count: nat): Finding {
    Finding(ledger, Some(k.0), Show(k.1),
      "Duplicate invoice lines detected (count=" + NatToString(count) + ")", "LOW", Some(DuplicateHint))
  }

  /** One LOW finding per key of `ks` whose group has more than one row. */
  function DuplicatesOf(ledger: string, rows: seq<Row>, ks: seq<Key>): (fs: seq<Finding>)
    ensures |fs| <= |ks|
  {
    if ks == [] then []
    else
      var n := GroupSize(rows, ks[0]);
      (if n > 1 then [DuplicateFinding(ledger, ks[0], n)] else []) + DuplicatesOf(ledger, rows, ks[1..])
  }

  /** The duplicate rule: groupby raises KeyError when a key column is missing. */
  function DuplicateFindings(ledger: string, t: Table): (res: Result<seq<Finding>, string>)
    ensures res.Err? <==> "invoice_no" !in t.columns || "invoice_date" !in t.columns
  {
    if "invoice_no" !in t.columns || "invoice_date" !in t.columns then Err("KeyError")
    else Ok(DuplicatesOf(ledger, t.rows, GroupKeys(t.rows)))
  }

  /** `f` is the report of group `k`, which has more than one row. */
  predicate Reports(ledger: string, rows: seq<Row>, k: Key, f: Finding) {
    GroupSize(rows, k) > 1 && f == DuplicateFinding(ledger, k, GroupSize(rows, k))
  }

  /** Each reported group has more than one row and reports its size; each such group is reported. */
  lemma {:induction false} DuplicatesOfSpec(ledger: string, rows: seq<Row>, ks: seq<Key>)
    ensures forall f :: f in DuplicatesOf(ledger, rows, ks) <==> exists k :: k in ks && Reports(ledger, rows, k, f)
  {
    if ks != [] {
      DuplicatesOfSpec(ledger, rows, ks[1..]);
      var n := GroupSize(rows, ks[0]);
      var head := if n > 1 then [DuplicateFinding(ledger, ks[0], n)] else [];
      assert DuplicatesOf(ledger, rows, ks) == head + DuplicatesOf(ledger, rows, ks[1..]);
      forall f
        ensures f in DuplicatesOf(ledger, rows, ks) <==> exists k :: k in ks && Reports(ledger, rows, k, f)
      {
        if f in head {
          assert Reports(ledger, rows, ks[0], f);
        }
        if exists k :: k in ks && Reports(ledger, rows, k, f) {
          var k :| k in ks && Reports(ledger, rows, k, f);
          if k != ks[0] {
            assert k in ks[1..];
          }
        }
      }
    }
  }

  /** The rule reports exactly the groups of more than one row that occur in the ledger, each with its size. */
  lemma DuplicateRule(ledger: string, t: Table)
    requires DuplicateFindings(ledger, t).Ok?
    ensures forall f :: f in DuplicateFindings(ledger, t).value <==>
      exists i :: 0 <= i < |t.rows| && KeyOf(t.rows[i]).Some? && Reports(ledger, t.rows, KeyOf(t.rows[i]).value, f)
  {
    var ks := GroupKeys(t.rows);
    DuplicatesOfSpec(ledger, t.rows, ks);
    forall f, k | k in ks && Reports(ledger, t.rows, k, f)
      ensures exists i :: 0 <= i < |t.rows| && KeyOf(t.rows[i]).Some? && Reports(ledger, t.rows, KeyOf(t.rows[i]).value, f)
    {
      var i :| 0 <= i < |t.rows| && KeyOf(t.rows[i]) == Some(k);
    }
    forall f, i | 0 <= i < |t.rows| && KeyOf(t.rows[i]).Some? && Reports(ledger, t.rows, KeyOf(t.rows[i]).value, f)
      ensures exists k :: k in ks && Reports(ledger, t.rows, k, f)
    {
      assert KeyOf(t.rows[i]).value in ks;
    }
  }

  /** A key that never occurs has an empty group. */
  lemma {:induction false} ZeroSize(rows: seq<Row>, k: Key)
    requires k !in GroupKeys(rows)
    ensures GroupSize(rows, k) == 0
  {
    if rows != [] {
      var front := rows[..|rows| - 1];
      assert forall i :: 0 <= i < |front| ==> front[i] == rows[i];
      ZeroSize(front, k);
    }
  }

  /** `keys` are the group keys of `rows` in first-seen order and `sizes` maps each to its size. */
  ghost predicate Counted(rows: seq<Row>, keys: seq<Key>, sizes: map<Key, nat>) {
    && keys == GroupKeys(rows)
    && (forall k :: k in sizes <==> k in keys)
    && (forall k :: k in sizes ==> sizes[k] == GroupSize(rows, k))
  }

  /** One pass of the counting loop: a row with a key adds one to its group, opening it when new. */
  function CountRow(keys: seq<Key>, sizes: map<Key, nat>, r: Row): (seq<Key>, map<Key, nat>) {
    match KeyOf(r)
    case None => (keys, sizes)
    case Some(k) => if k in sizes then (keys, sizes[k := sizes[k] + 1]) else (keys + [k], sizes[k := 1])
  }

  /** The group keys and sizes the counting loop holds after `rows`. */
  function Count(rows: seq<Row>): (seq<Key>, map<Key, nat>) {
    if rows == [] then ([], map[])
    else
      var (keys, sizes) := Count(rows[..|rows| - 1]);
      CountRow(keys, sizes, rows[|rows| - 1])
  }

  lemma SnocRows(rows: seq<Row>, r: Row)
    ensures (rows + [r])[..|rows|] == rows && (rows + [r])[|rows|] == r
  {
  }

  /** Counting one more row keeps the keys and sizes those of the longer ledger. */
  lemma CountStep(rows: seq<Row>, r: Row, keys: seq<Key>, sizes: map<Key, nat>)
    requires Counted(rows, keys, sizes)
    ensures Counted(rows + [r], CountRow(keys, sizes, r).0, CountRow(keys, sizes, r).1)
  {
    var next := rows + [r];
    SnocRows(rows, r);
    if KeyOf(r).Some? && KeyOf(r).value !in sizes {
      ZeroSize(rows, KeyOf(r).value);
    }
    var sizes' := CountRow(keys, sizes, r).1;
    forall k | k in sizes'
      ensures sizes'[k] == GroupSize(next, k)
    {
      if KeyOf(r) != Some(k) {
        assert k in keys;
      }
    }
  }

  /** The counting loop's state is the group keys and sizes. */
  lemma {:induction false} CountCounted(rows: seq<Row>)
    ensures Counted(rows, Count(rows).0, Count(rows).1)
  {
    if rows != [] {
      var front := rows[..|rows| - 1];
      var last := rows[|rows| - 1];
      assert front + [last] == rows;
      CountCounted(front);
      var (keys, sizes) := Count(front);
      CountStep(front, last, keys, sizes);
    }
  }

  /** The counting loop of the duplicate rule, over an insertion-ordered dictionary. */
  method CountGroups(rows: seq<Row>) returns (keys: seq<Key>, sizes: map<Key, nat>)
    ensures (keys, sizes) == Count(rows)
  {
    keys := [];
    sizes := map[];
    for i := 0 to |rows|
      invariant (keys, sizes) == Count(rows[..i])
    {
      assert rows[..i + 1][..i] == rows[..i];
      var key := KeyOf(rows[i]);
      if key.Some? {
        var k := key.value;
        if k !in sizes {
          keys := keys + [k];
          sizes := sizes[k := 1];
        } else {
          sizes := sizes[k := sizes[k] + 1];
        }
      }
    }
    assert rows[..|rows|] == rows;
  }

  /** The duplicate loop: count rows per group in first-seen order, then report groups above one. */
  method ScanDuplicates(ledger: string, t: Table) returns (res: Result<seq<Finding>, string>)
    ensures res == DuplicateFindings(ledger, t)
  {
    if "invoice_no" !in t.columns || "invoice_date" !in t.columns {
      return Err("KeyError");
    }
    var rows := t.rows;
    var keys, sizes := CountGroups(rows);
    CountCounted(rows);
    var fs: seq<Finding> := [];
    var j := |keys|;
    while j > 0
      invariant 0 <= j <= |keys|
      invariant fs == DuplicatesOf(ledger, rows, keys[j..])
    {
      j := j - 1;
      assert keys[j..][1..] == keys[j + 1..];
      var n := sizes[keys[j]];
      if n > 1 {
        fs := [DuplicateFinding(ledger, keys[j], n)] + fs;
      }
    }
    res := Ok(fs);
  }

  // ---------------- the run ----------------

  /** The severity sort key: HIGH 3, MEDIUM 2, anything else 1. */
  function Rank(f: Finding): (k: real)
    ensures 1.0 <= k <= 3.0
    ensures k == 3.0 <==> f.severity == "HIGH"
    ensures k == 2.0 <==> f.severity == "MEDIUM"
  {
    if f.severity == "HIGH" then 3.0 else if f.severity == "MEDIUM" then 2.0 else 1.0
  }

  /** The GSTIN and state-code rules on both ledgers. */
  function FormatFindings(sales: Table, purchases: Table): seq<Finding> {
    Collect(sales.rows, r => GstinCheck("sales", "buyer_gstin", r))
      + Collect(purchases.rows, r => GstinCheck("purchases", "supplier_gstin", r))
      + Collect(sales.rows, r => StateCheck("sales", "place_of_supply_state_code", r))
      + Collect(purchases.rows, r => StateCheck("purchases", "place_of_supply_state_code", r))
  }

  /** The rate and duplicate rules on both ledgers, the first error ending the run. */
  function CountFindings(sales: Table, purchases: Table, o: Oracles): Result<seq<Finding>, string> {
    var salesRates :- RateFindings("sales", sales.rows, o);
    var purchaseRates :- RateFindings("purchases", purchases.rows, o);
    var salesDups :- DuplicateFindings("sales", sales);
    var purchaseDups :- DuplicateFindings("purchases", purchases);
    Ok(salesRates + purchaseRates + salesDups + purchaseDups)
  }

  /** The period rule on both ledgers, run only for a non-empty period; a malformed period raises. */
  function PeriodPart(sales: Table, purchases: Table, period: Option<string>, o: Oracles): (res: Result<seq<Finding>, string>)
    ensures res.Err? <==> period.Some? && period.value != "" && PeriodBounds(period.value).Err?
  {
    match period
    case Some(p) =>
      if p == "" then Ok([])
      else
        var (start, end) :- PeriodBounds(p);
        Ok(Collect(sales.rows, r => PeriodCheck("sales", p, start, end, r, o))
          + Collect(purchases.rows, r => PeriodCheck("purchases", p, start, end, r, o)))
    case None => Ok([])
  }

  /** The HSN and interstate rules on both ledgers. */
  function TailFindings(sales: Table, purchases: Table): seq<Finding> {
    Collect(sales.rows, r => HsnCheck("sales", r)) + Collect(purchases.rows, r => HsnCheck("purchases", r))
      + Collect(sales.rows, r => InterstateCheck("sales", "buyer_gstin", r))
      + Collect(purchases.rows, r => InterstateCheck("purchases", "supplier_gstin", r))
  }

  /** All findings of `_run_checks` before sorting, in rule order; `review` stands for the
      language-model review's findings. The first error raised ends the run. */
  function RawFindings(sales: Table, purchases: Table, period: Option<string>, review: seq<Finding>, o: Oracles): Result<seq<Finding>, string>
  {
    var counted :- CountFindings(sales, purchases, o);
    var dated :- PeriodPart(sales, purchases, period, o);
    Ok(FormatFindings(sales, purchases) + counted + dated + TailFindings(sales, purchases) + review)
  }

  /** `_run_checks`: all findings, stable-sorted by severity, highest first. */
  function Checks(sales: Table, purchases: Table, period: Option<string>, review: seq<Finding>, o: Oracles): Result<seq<Finding>, string>
  {
    var raw :- RawFindings(sales, purchases, period, review, o);
    Ok(StableSort.SortDesc(raw, Rank))
  }

  /** The findings come out HIGH before MEDIUM before the rest, as a permutation of what the
      rules produced, with each severity keeping rule order. */
  lemma ChecksOrdered(sales: Table, purchases: Table, period: Option<string>, review: seq<Finding>, o: Oracles)
    requires Checks(sales, purchases, period, review, o).Ok?
    ensures var out := Checks(sales, purchases, period, review, o).value;
      var raw := RawFindings(sales, purchases, period, review, o).value;
      && multiset(out) == multiset(raw)
      && (forall i, j :: 0 <= i < j < |out| ==> Rank(out[i]) >= Rank(out[j]))
      && (forall k :: StableSort.WithKey(out, Rank, k) == StableSort.WithKey(raw, Rank, k))
  {
    var raw := RawFindings(sales, purchases, period, review, o).value;
    StableSort.SortDescPerm(raw, Rank);
    StableSort.SortDescSorted(raw, Rank);
    forall k
      ensures StableSort.WithKey(StableSort.SortDesc(raw, Rank), Rank, k) == StableSort.WithKey(raw, Rank, k)
    {
      StableSort.SortDescStable(raw, Rank, k);
    }
  }

  /** A HIGH finding never comes after a finding of another severity. */
  lemma HighFirst(sales: Table, purchases: Table, period: Option<string>, review: seq<Finding>, o: Oracles, i: nat, j: nat)
    requires Checks(sales, purchases, period, review, o).Ok?
    requires var out := Checks(sales, purchases, period, review, o).value;
      i < j < |out| && out[j].severity == "HIGH"
    ensures Checks(sales, purchases, period, review, o).value[i].severity == "HIGH"
  {
    ChecksOrdered(sales, purchases, period, review, o);
  }

  method ScanFormats(sales: Table, purchases: Table) returns (fs: seq<Finding>)
    ensures fs == FormatFindings(sales, purchases)
  {
    fs := Scan(sales.rows, r => GstinCheck("sales", "buyer_gstin", r));
    var part := Scan(purchases.rows, r => GstinCheck("purchases", "supplier_gstin", r));
    fs := fs + part;
    part := Scan(sales.rows, r => StateCheck("sales", "place_of_supply_state_code", r));
    fs := fs + part;
    part := Scan(purchases.rows, r => StateCheck("purchases", "place_of_supply_state_code", r));
    fs := fs + part;
  }

  method ScanCounts(sales: Table, purchases: Table, o: Oracles) returns (res: Result<seq<Finding>, string>)
    ensures res == CountFindings(sales, purchases, o)
  {
    var salesRates := ScanRates("sales", sales.rows, o);
    if salesRates.Err? { return Err(salesRates.error); }
    var purchaseRates := ScanRates("purchases", purchases.rows, o);
    if purchaseRates.Err? { return Err(purchaseRates.error); }
    var salesDups := ScanDuplicates("sales", sales);
    if salesDups.Err? { return Err(salesDups.error); }
    var purchaseDups := ScanDuplicates("purchases", purchases);
    if purchaseDups.Err? { return Err(purchaseDups.error); }
    res := Ok(salesRates.value + purchaseRates.value + salesDups.value + purchaseDups.value);
  }

  method ScanPeriod(sales: Table, purchases: Table, period: Option<string>, o: Oracles) returns (res: Result<seq<Finding>, string>)
    ensures res == PeriodPart(sales, purchases, period, o)
  {
    if period.None? || period.value == "" {
      return Ok([]);
    }
    var p := period.value;
    var bounds := PeriodBounds(p);
    if bounds.Err? {
      return Err(bounds.error);
    }
    var (start, end) := bounds.value;
    var salesPeriod := Scan(sales.rows, r => PeriodCheck("sales", p, start, end, r, o));
    var purchasePeriod := Scan(purchases.rows, r => PeriodCheck("purchases", p, start, end, r, o));
    res := Ok(salesPeriod + purchasePeriod);
  }

  method ScanTail(sales: Table, purchases: Table) returns (fs: seq<Finding>)
    ensures fs == TailFindings(sales, purchases)
  {
    fs := Scan(sales.rows, r => HsnCheck("sales", r));
    var part := Scan(purchases.rows, r => HsnCheck("purchases", r));
    fs := fs + part;
    part := Scan(sales.rows, r => InterstateCheck("sales", "buyer_gstin", r));
    fs := fs + part;
    part := Scan(purchases.rows, r => InterstateCheck("purchases", "supplier_gstin", r));
    fs := fs + part;
  }

  /** The run as the agent performs it: the rules in order, each result appended, then one sort. */
  method RunChecks(sales: Table, purchases: Table, period: Option<string>, review: seq<Finding>, o: Oracles)
    returns (res: Result<seq<Finding>, string>)
    ensures res == Checks(sales, purchases, period, review, o)
  {
    var findings := ScanFormats(sales, purchases);
    var counted := ScanCounts(sales, purchases, o);
    if counted.Err? { return Err(counted.error); }
    findings := findings + counted.value;
    var dated := ScanPeriod(sales, purchases, period, o);
    if dated.Err? { return Err(dated.error); }
    findings := findings + dated.value;
    var tail := ScanTail(sales, purchases);
    findings := findings + tail + review;
    res := Ok(StableSort.SortDesc(findings, Rank));
  }

  /** The agent's reply: success with the findings, or an error message for an unknown action. */
  datatype Reply = Success(findings: seq<Finding>) | Failure(message: string)

  /** `execute`: "run_checks" runs the checks (exceptions propagate); any other action is refused. */
  function Execute(action: Option<string>, sales: Table, purchases: Table, period: Option<string>, review: seq<Finding>, o: Oracles): (res: Result<Reply, string>)
    ensures action != Some("run_checks") ==> res.Ok? && res.value.Failure?
    ensures action == Some("run_checks") ==> (res.Ok? <==> Checks(sales, purchases, period, review, o).Ok?)
    ensures action == Some("run_checks") && res.Ok? ==> res.value == Success(Checks(sales, purchases, period, review, o).value)
  {
    if action == Some("run_checks") then
      var fs :- Checks(sales, purchases, period, review, o);
      Ok(Success(fs))
    else
      Ok(Failure("Unknown action '" + (if action.Some? then action.value else "None") + "' for ComplianceCheckAgent"))
  }
}
