/**
  The rule parts of the GST agent: GSTIN validation, invoice-number normalisation, the
  taxable value of a line, invoice totals split into IGST or CGST/SGST, organisation
  loading and the action router.
*/
module Gst {
  import opened Wrappers
  import opened Text
  import opened Rounding

  /** The state codes the agent knows. */
  const StateCodes: set<string> := {"07", "19", "27", "29", "33", "36", "32", "37"}

  predicate IsAlnumUpper(c: char) { IsDigit(c) || IsUpper(c) }

  /**
    The GSTIN pattern, position by position: two digits, five letters, four digits, a
    letter, a digit 1-9 or letter, a literal 'Z', a digit or letter.
  */
  predicate IsGstin(s: string) {
    && |s| == 15
    && (forall i :: 0 <= i < 2 ==> IsDigit(s[i]))
    && (forall i :: 2 <= i < 7 ==> IsUpper(s[i]))
    && (forall i :: 7 <= i < 11 ==> IsDigit(s[i]))
    && IsUpper(s[11])
    && (('1' <= s[12] <= '9') || IsUpper(s[12]))
    && s[13] == 'Z'
    && IsAlnumUpper(s[14])
  }

  /** `validate_gstin`: None and "" count as "", surrounding whitespace is ignored. */
  function ValidateGstin(gstin: Option<string>): (ok: bool)
    ensures gstin.None? ==> !ok
    ensures ok ==> |Strip(gstin.value)| == 15 && IsDigit(Strip(gstin.value)[0]) && IsDigit(Strip(gstin.value)[1])
  {
    IsGstin(Strip(gstin.GetOr("")))
  }

  /** The demonstration GSTIN is valid. */
  lemma GstinAccepted()
    ensures ValidateGstin(Some("29ABCDE1234F2Z5"))
  {
    StripUnchanged("29ABCDE1234F2Z5");
    DemoIsGstin();
  }

  lemma DemoIsGstin()
    ensures IsGstin("29ABCDE1234F2Z5")
  {
  }

  lemma LowerCaseNotGstin()
    ensures !IsGstin("29abcde1234F2Z5")
  {
    var s := "29abcde1234F2Z5";
    assert s[2] == 'a';
  }

  /** Lower-case letters are refused. */
  lemma GstinRefusesLowerCase()
    ensures !ValidateGstin(Some("29abcde1234F2Z5"))
  {
    StripUnchanged("29abcde1234F2Z5");
    LowerCaseNotGstin();
  }

  lemma ZeroEntityNotGstin()
    ensures !IsGstin("29ABCDE1234F0Z5")
  {
    var s := "29ABCDE1234F0Z5";
    assert s[12] == '0';
  }

  /** A 0 where the thirteenth character must be 1-9 or a letter is refused. */
  lemma GstinRefusesZeroEntity()
    ensures !ValidateGstin(Some("29ABCDE1234F0Z5"))
  {
    StripUnchanged("29ABCDE1234F0Z5");
    ZeroEntityNotGstin();
  }

  /** `norm_inv_no`: upper-case, then keep only the ASCII letters and digits. */
  function NormInvNo(inv: Option<string>): (r: string)
    ensures forall c :: c in r ==> IsAlnumUpper(c)
    ensures inv.None? ==> r == ""
  {
    KeepAlnum(Upper(inv.GetOr("")))
  }

  /** The characters of s that are A-Z, a-z or 0-9, in order. */
  function KeepAlnum(s: string): (r: string)
    ensures |r| <= |s|
    ensures forall c :: c in r ==> c in s && (IsAlnumUpper(c) || IsLower(c))
  {
    if s == [] then []
    else
      var rest := KeepAlnum(s[1..]);
      if IsAlnumUpper(s[0]) || IsLower(s[0]) then [s[0]] + rest else rest
  }

  /** A string already made only of upper-case letters and digits is its own normal form. */
  lemma KeepAlnumFixed(s: string)
    requires forall c :: c in s ==> IsAlnumUpper(c)
    ensures KeepAlnum(Upper(s)) == s
  {
    UpperFixed(s);
    KeepAllAlnum(s);
  }

  /** Upper-casing leaves a string without lower-case letters alone. */
  lemma UpperFixed(s: string)
    requires forall c :: c in s ==> IsAlnumUpper(c)
    ensures Upper(s) == s
  {
    forall i | 0 <= i < |s|
      ensures Upper(s)[i] == s[i]
    {
      assert s[i] in s;
    }
  }

  /** Keeping the letters and digits of a string made only of them keeps all of it. */
  lemma {:induction false} KeepAllAlnum(s: string)
    requires forall c :: c in s ==> IsAlnumUpper(c)
    ensures KeepAlnum(s) == s
  {
    if s != [] {
      assert forall c :: c in s[1..] ==> c in s;
      KeepAllAlnum(s[1..]);
      assert s[0] in s;
    }
  }

  /** Normalising twice gives the same as normalising once. */
  lemma NormInvNoIdempotent(inv: Option<string>)
    ensures NormInvNo(Some(NormInvNo(inv))) == NormInvNo(inv)
  {
    KeepAlnumFixed(NormInvNo(inv));
  }

  lemma {:induction false} KeepAlnumAppend(a: string, b: string)
    ensures KeepAlnum(a + b) == KeepAlnum(a) + KeepAlnum(b)
  {
    if a == [] {
      assert a + b == b;
    } else {
      var ab := a + b;
      assert ab[0] == a[0] && ab[1..] == a[1..] + b;
      KeepAlnumAppend(a[1..], b);
      var head := if IsAlnumUpper(a[0]) || IsLower(a[0]) then [a[0]] else [];
      assert KeepAlnum(ab) == head + KeepAlnum(ab[1..]);
      assert KeepAlnum(a) == head + KeepAlnum(a[1..]);
    }
  }


  /** A separator (any character other than a letter or digit) does not matter. */
  lemma NormInvNoIgnoresSeparator(a: string, c: char, b: string)
    requires !IsAlnumUpper(c) && !IsLower(c)
    ensures NormInvNo(Some(a + [c] + b)) == NormInvNo(Some(a + b))
  {
    assert Upper(a + [c] + b) == Upper(a) + [c] + Upper(b);
    assert Upper(a + b) == Upper(a) + Upper(b);
    KeepAlnumAppend(Upper(a) + [c], Upper(b));
    KeepAlnumAppend(Upper(a), [c]);
    KeepAlnumAppend(Upper(a), Upper(b));
  }

  /** Letter case does not matter. */
  lemma NormInvNoIgnoresCase(s: string)
    ensures NormInvNo(Some(Lower(s))) == NormInvNo(Some(s))
  {
    assert Upper(Lower(s)) == Upper(s);
  }

  datatype LineItem = LineItem(
    itemName: string, hsn: string, qty: real, unitPrice: real, discount: real,
    gstRate: real, shippingCharges: real, otherCharges: real)

  function Max(a: real, b: real): real { if a >= b then a else b }

  /** `LineItem.taxable_value`: the discounted price, never below zero, plus charges. */
  function TaxableValue(li: LineItem): real {
    Round2(Max(li.qty * li.unitPrice - li.discount, 0.0) + li.shippingCharges + li.otherCharges)
  }

  /** With non-negative charges the taxable value is non-negative; a discount beyond the price leaves only the charges. */
  lemma TaxableValueBounds(li: LineItem)
    ensures li.shippingCharges >= 0.0 && li.otherCharges >= 0.0 ==> TaxableValue(li) >= 0.0
    ensures li.discount >= li.qty * li.unitPrice ==> TaxableValue(li) == Round2(li.shippingCharges + li.otherCharges)
  {
    if li.shippingCharges >= 0.0 && li.otherCharges >= 0.0 {
      Round2NonNegative(Max(li.qty * li.unitPrice - li.discount, 0.0) + li.shippingCharges + li.otherCharges);
    }
  }

  datatype Invoice = Invoice(
    invoiceNo: string, counterpartyGstin: string, isInterstate: bool,
    placeOfSupply: string, lines: seq<LineItem>)

  datatype Totals = Totals(taxableValue: real, igst: real, cgst: real, sgst: real, totalInvoiceValue: real)

  function SumTaxable(lines: seq<LineItem>): real {
    if lines == [] then 0.0 else SumTaxable(lines[..|lines| - 1]) + TaxableValue(lines[|lines| - 1])
  }

  /** The distinct GST rates of the lines, in the order each first appears. */
  function Rates(lines: seq<LineItem>): (ks: seq<real>)
    ensures forall i, j :: 0 <= i < j < |ks| ==> ks[i] != ks[j]
  {
    if lines == [] then []
    else
      var prev := Rates(lines[..|lines| - 1]);
      var last := lines[|lines| - 1];
      if last.gstRate in prev then prev else prev + [last.gstRate]
  }

  /** The rate groups are exactly the rates that occur on some line. */
  lemma {:induction false} RatesMembers(lines: seq<LineItem>)
    ensures forall k :: k in Rates(lines) <==> exists li :: li in lines && li.gstRate == k
  {
    if lines != [] {
      var prev := lines[..|lines| - 1];
      RatesMembers(prev);
      assert forall li :: li in lines <==> li in prev || li == lines[|lines| - 1];
    }
  }

  /** The taxable value of the lines taxed at `rate`. */
  function RateBase(lines: seq<LineItem>, rate: real): real {
    if lines == [] then 0.0
    else
      var last := lines[|lines| - 1];
      RateBase(lines[..|lines| - 1], rate) + (if last.gstRate == rate then TaxableValue(last) else 0.0)
  }

  /** The tax of the rate groups `ks`: each group's base times its rate. */
  function GroupTax(ks: seq<real>, lines: seq<LineItem>): real {
    if ks == [] then 0.0 else GroupTax(ks[..|ks| - 1], lines) + Share(lines, ks[|ks| - 1])
  }

  /** The tax of one rate group: its base times its rate. */
  function Share(lines: seq<LineItem>, rate: real): real {
    RateBase(lines, rate) * (rate / 100.0)
  }

  /** A line's own tax: its taxable value times its rate. */
  function OwnTax(x: LineItem): real {
    TaxableValue(x) * (x.gstRate / 100.0)
  }

  /** The reference: every line's taxable value times its own rate. */
  function LineTax(lines: seq<LineItem>): real {
    if lines == [] then 0.0
    else LineTax(lines[..|lines| - 1]) + OwnTax(lines[|lines| - 1])
  }

  /** `Invoice.totals`. */
  function InvoiceTotals(inv: Invoice): Totals {
    var tv := SumTaxable(inv.lines);
    var tax := GroupTax(Rates(inv.lines), inv.lines);
    var igst := if inv.isInterstate then tax else 0.0;
    var half := if inv.isInterstate then 0.0 else tax / 2.0;
    Totals(Round2(tv), Round2(igst), Round2(half), Round2(half), Round2(tv + igst + half + half))
  }

  lemma RateBaseStep(lines: seq<LineItem>, x: LineItem, k: real)
    ensures RateBase(lines + [x], k) == RateBase(lines, k) + (if x.gstRate == k then TaxableValue(x) else 0.0)
  {
    assert (lines + [x])[..|lines|] == lines;
  }

  /** Adding a line adds its own tax to the group of its rate, when that group is among ks. */
  lemma {:induction false} GroupTaxStep(ks: seq<real>, lines: seq<LineItem>, x: LineItem)
    requires forall i, j :: 0 <= i < j < |ks| ==> ks[i] != ks[j]
    ensures GroupTax(ks, lines + [x]) == GroupTax(ks, lines) + (if x.gstRate in ks then OwnTax(x) else 0.0)
  {
    if ks != [] {
      var n := |ks| - 1;
      var k := ks[n];
      var front := ks[..n];
      var next := lines + [x];
      DistinctFront(ks);
      GroupTaxStep(front, lines, x);
      ShareStep(lines, x, k);
      assert GroupTax(ks, next) == GroupTax(front, next) + Share(next, k);
      assert GroupTax(ks, lines) == GroupTax(front, lines) + Share(lines, k);
      InFrontOrLast(ks, x.gstRate);
    }
  }

  lemma DistinctFront(ks: seq<real>)
    requires ks != [] && forall i, j :: 0 <= i < j < |ks| ==> ks[i] != ks[j]
    ensures var front := ks[..|ks| - 1]; forall i, j :: 0 <= i < j < |front| ==> front[i] != front[j]
    ensures ks[|ks| - 1] !in ks[..|ks| - 1]
  {
  }

  lemma InFrontOrLast(ks: seq<real>, r: real)
    requires ks != []
    ensures r in ks <==> r in ks[..|ks| - 1] || r == ks[|ks| - 1]
  {
    assert ks == ks[..|ks| - 1] + [ks[|ks| - 1]];
  }

  /** Adding a line adds its own tax to the share of its rate's group, and nothing to the others. */
  lemma ShareStep(lines: seq<LineItem>, x: LineItem, k: real)
    ensures Share(lines + [x], k) == Share(lines, k) + (if x.gstRate == k then OwnTax(x) else 0.0)
  {
    RateBaseStep(lines, x, k);
    var b := RateBase(lines, k);
    assert (b + TaxableValue(x)) * (k / 100.0) == b * (k / 100.0) + TaxableValue(x) * (k / 100.0);
  }

  lemma {:induction false} RateBaseAbsent(lines: seq<LineItem>, k: real)
    requires k !in Rates(lines)
    ensures RateBase(lines, k) == 0.0
  {
    if lines != [] {
      var prev := lines[..|lines| - 1];
      assert forall li :: li in prev ==> li in lines;
      RateBaseAbsent(prev, k);
      assert lines[|lines| - 1] in lines;
    }
  }

  /** Grouping by rate does not change the tax: it is the sum of every line's own tax. */
  lemma GroupTaxAppend(ks: seq<real>, k: real, lines: seq<LineItem>)
    ensures GroupTax(ks + [k], lines) == GroupTax(ks, lines) + Share(lines, k)
  {
    assert (ks + [k])[..|ks|] == ks;
  }

  /** A line with a new rate opens its own group, holding just that line's value. */
  lemma NewRateGroup(prev: seq<LineItem>, x: LineItem)
    requires x.gstRate !in Rates(prev)
    ensures GroupTax(Rates(prev) + [x.gstRate], prev + [x])
         == GroupTax(Rates(prev), prev + [x]) + OwnTax(x)
  {
    var lines := prev + [x];
    var r := x.gstRate;
    NewRateShare(prev, x);
    GroupTaxAppend(Rates(prev), r, lines);
  }

  lemma NewRateShare(prev: seq<LineItem>, x: LineItem)
    requires x.gstRate !in Rates(prev)
    ensures Share(prev + [x], x.gstRate) == OwnTax(x)
  {
    RateBaseAbsent(prev, x.gstRate);
    RateBaseStep(prev, x, x.gstRate);
  }

  lemma {:induction false} GroupedTaxIsLineTax(lines: seq<LineItem>)
    ensures GroupTax(Rates(lines), lines) == LineTax(lines)
  {
    if lines != [] {
      var n := |lines| - 1;
      var prev := lines[..n];
      var x := lines[n];
      var ks := Rates(prev);
      var own := OwnTax(x);
      assert LineTax(lines) == LineTax(prev) + own;
      GroupedTaxIsLineTax(prev);
      assert GroupTax(ks, lines) == GroupTax(ks, prev) + (if x.gstRate in ks then own else 0.0) by {
        assert lines == prev + [x];
        GroupTaxStep(ks, prev, x);
      }
      if x.gstRate !in ks {
        assert GroupTax(ks + [x.gstRate], lines) == GroupTax(ks, lines) + own by {
          assert lines == prev + [x];
          NewRateGroup(prev, x);
        }
      }
    }
  }




  /**
    An interstate invoice carries only IGST, an intra-state one only CGST and SGST in equal
    halves; the total is the taxable value plus every line's own tax.
  */
  lemma TotalsSplit(inv: Invoice)
    ensures var t := InvoiceTotals(inv);
      && (inv.isInterstate ==> t.cgst == 0.0 && t.sgst == 0.0 && t.igst == Round2(LineTax(inv.lines)))
      && (!inv.isInterstate ==> t.igst == 0.0 && t.cgst == t.sgst && t.cgst == Round2(LineTax(inv.lines) / 2.0))
      && t.taxableValue == Round2(SumTaxable(inv.lines))
      && t.totalInvoiceValue == Round2(SumTaxable(inv.lines) + LineTax(inv.lines))
  {
    GroupedTaxIsLineTax(inv.lines);
    RoundByGrid(0, 100.0);
  }

  /** The rate-group loop of `Invoice.totals`, over an insertion-ordered dictionary. */
  method GroupByRate(lines: seq<LineItem>) returns (keys: seq<real>, groups: map<real, real>)
    ensures keys == Rates(lines)
    ensures forall k :: k in groups <==> k in keys
    ensures forall k :: k in groups ==> groups[k] == RateBase(lines, k)
  {
    keys := [];
    groups := map[];
    for i := 0 to |lines|
      invariant keys == Rates(lines[..i])
      invariant forall k :: k in groups <==> k in keys
      invariant forall k :: k in groups ==> groups[k] == RateBase(lines[..i], k)
    {
      var li := lines[i];
      assert lines[..i + 1][..i] == lines[..i];
      var current := if li.gstRate in groups then groups[li.gstRate] else 0.0;
      if li.gstRate !in groups {
        RateBaseAbsent(lines[..i], li.gstRate);
        keys := keys + [li.gstRate];
      }
      groups := groups[li.gstRate := current + TaxableValue(li)];
      forall k | k in groups
        ensures groups[k] == RateBase(lines[..i + 1], k)
      {
        if k != li.gstRate {
          assert k in keys;
        }
      }
    }
    assert lines[..|lines|] == lines;
  }

  /** The taxable-value sum of `Invoice.totals`. */
  method SumLines(lines: seq<LineItem>) returns (tv: real)
    ensures tv == SumTaxable(lines)
  {
    tv := 0.0;
    for i := 0 to |lines|
      invariant tv == SumTaxable(lines[..i])
    {
      assert lines[..i + 1][..i] == lines[..i];
      tv := tv + TaxableValue(lines[i]);
    }
    assert lines[..|lines|] == lines;
  }

  /** The tax loop of `Invoice.totals` over the rate groups: IGST, or CGST and SGST at half the rate each. */
  method SplitTax(keys: seq<real>, groups: map<real, real>, lines: seq<LineItem>, interstate: bool)
    returns (igst: real, cgst: real, sgst: real)
    requires forall k :: k in keys ==> k in groups && groups[k] == RateBase(lines, k)
    ensures interstate ==> igst == GroupTax(keys, lines) && cgst == 0.0 && sgst == 0.0
    ensures !interstate ==> igst == 0.0 && cgst == GroupTax(keys, lines) / 2.0 && sgst == cgst
  {
    igst, cgst, sgst := 0.0, 0.0, 0.0;
    for j := 0 to |keys|
      invariant interstate ==> igst == GroupTax(keys[..j], lines) && cgst == 0.0 && sgst == 0.0
      invariant !interstate ==> igst == 0.0 && cgst == GroupTax(keys[..j], lines) / 2.0 && sgst == cgst
    {
      var rate := keys[j];
      assert rate in keys;
      var base := groups[rate];
      assert keys[..j + 1][..j] == keys[..j];
      if interstate {
        igst := igst + base * (rate / 100.0);
      } else {
        var half := (rate / 100.0) / 2.0;
        HalfShare(base, rate);
        cgst := cgst + base * half;
        sgst := sgst + base * half;
      }
    }
    assert keys[..|keys|] == keys;
  }

  lemma HalfShare(base: real, rate: real)
    ensures base * ((rate / 100.0) / 2.0) == (base * (rate / 100.0)) / 2.0
  {
  }

  /** `Invoice.totals`: the taxable sum, the rate groups, then the tax split. */
  method ComputeTotals(inv: Invoice) returns (t: Totals)
    ensures t == InvoiceTotals(inv)
  {
    var tv := SumLines(inv.lines);
    var keys, groups := GroupByRate(inv.lines);
    var igst, cgst, sgst := SplitTax(keys, groups, inv.lines, inv.isInterstate);
    t := Totals(Round2(tv), Round2(igst), Round2(cgst), Round2(sgst), Round2(tv + igst + cgst + sgst));
  }

  datatype OrgInfo = OrgInfo(legalName: string, gstin: string, stateCode: string, filingFrequency: string)

  /** Why loading an organisation fails: a missing key, a bad GSTIN or an unknown state code. */
  datatype OrgError = MissingKey(key: string) | InvalidGstin | InvalidStateCode

  /** `OrgInfo.from_json` on the decoded JSON object (string values only). */
  function OrgFromJson(data: map<string, string>): Result<OrgInfo, OrgError> {
    if "legal_name" !in data then Err(MissingKey("legal_name"))
    else if "gstin" !in data then Err(MissingKey("gstin"))
    else if "state_code" !in data then Err(MissingKey("state_code"))
    else
      var freq := Lower(if "filing_frequency" in data then data["filing_frequency"] else "monthly");
      var org := OrgInfo(data["legal_name"], data["gstin"], data["state_code"], freq);
      if !ValidateGstin(Some(org.gstin)) then Err(InvalidGstin)
      else if org.stateCode !in StateCodes then Err(InvalidStateCode)
      else Ok(org)
  }

  /**
    An organisation loads exactly when the three keys are present, the GSTIN is valid and
    the state code is known; its frequency is the given one lower-cased, "monthly" by default.
  */
  lemma OrgFromJsonSpec(data: map<string, string>)
    ensures var r := OrgFromJson(data);
      && (r.Ok? <==> "legal_name" in data && "gstin" in data && "state_code" in data
                     && ValidateGstin(Some(data["gstin"])) && data["state_code"] in StateCodes)
      && (r.Ok? ==> r.value.gstin == data["gstin"] && r.value.stateCode == data["state_code"]
                    && r.value.filingFrequency == Lower(if "filing_frequency" in data then data["filing_frequency"] else "monthly"))
      && (r == Err(InvalidStateCode) ==> ValidateGstin(Some(data["gstin"])))
  {
  }

  /** A loaded organisation's filing frequency has no upper-case letter. */
  lemma OrgFrequencyLower(data: map<string, string>)
    requires OrgFromJson(data).Ok?
    ensures forall c :: c in OrgFromJson(data).value.filingFrequency ==> !IsUpper(c)
  {
  }

  /** What `GSTAgent.execute` hands on to: a handler with its parameters, or an error message. */
  datatype GstDispatch =
    | DetectAnomalies(ledger: string)
    | Summarize(context: string, data: Option<string>)
    | Query(ledger: string, query: string)
    | Error(message: string)

  /** `str(KeyError(k))`: the key in single quotes. */
  function KeyErrorText(k: string): string { "'" + k + "'" }

  /** The router of `GSTAgent.execute`; a missing required parameter becomes an error message. */
  function Execute(action: Option<string>, params: map<string, string>): (d: GstDispatch)
    ensures action != Some("detect_anomalies") && action != Some("summarize") && action != Some("query") ==> d.Error?
    ensures d.DetectAnomalies? ==> "ledger" in params && d.ledger == params["ledger"]
  {
    if action == Some("detect_anomalies") then
      if "ledger" in params then DetectAnomalies(params["ledger"]) else Error(KeyErrorText("ledger"))
    else if action == Some("summarize") then
      Summarize(if "context" in params then params["context"] else "", if "data" in params then Some(params["data"]) else None)
    else if action == Some("query") then
      if "ledger" !in params then Error(KeyErrorText("ledger"))
      else if "query" !in params then Error(KeyErrorText("query"))
      else Query(params["ledger"], params["query"])
    else Error("Unknown action " + action.GetOr("None"))
  }

  /** An unknown action names itself in the error; summarize never fails for missing parameters. */
  lemma ExecuteErrors(action: string, params: map<string, string>)
    ensures action !in {"detect_anomalies", "summarize", "query"} ==> Execute(Some(action), params) == Error("Unknown action " + action)
    ensures Execute(None, params) == Error("Unknown action None")
    ensures !Execute(Some("summarize"), params).Error?
    ensures Execute(Some("query"), params).Error? <==> "ledger" !in params || "query" !in params
  {
  }
}
