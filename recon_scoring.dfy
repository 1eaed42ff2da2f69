/** Scoring one invoice against one payment (`_amount_score`, `_make_candidate`). */
module ReconScoring {
  import opened Wrappers
  import opened Text
  import opened Rounding
  import opened ReconTypes

  const InvoiceNoWeight: real := 0.45
  const AmountWeight: real := 0.40
  const DetailsWeight: real := 0.15

  function Abs(x: real): real { if x < 0.0 then -x else x }

  function Max(a: real, b: real): real { if a >= b then a else b }

  /** Closeness of two amounts: 1 for equal positive amounts, falling to 0 with distance. */
  function AmountScore(invAmount: real, payAmount: real): (r: real)
    ensures 0.0 <= r <= 1.0
    ensures invAmount <= 0.0 && payAmount <= 0.0 ==> r == 0.0
  {
    if invAmount <= 0.0 && payAmount <= 0.0 then 0.0
    else
      var diff := Abs(invAmount - payAmount);
      var denom := Max(Max(invAmount, payAmount), 1.0);
      assert diff / denom >= 0.0;
      Max(0.0, 1.0 - diff / denom)
  }

  lemma AmountScoreSymmetric(x: real, y: real)
    ensures AmountScore(x, y) == AmountScore(y, x)
  {
    assert Abs(x - y) == Abs(y - x);
    assert Max(Max(x, y), 1.0) == Max(Max(y, x), 1.0);
  }

  /** The score is 1 exactly for equal positive amounts. */
  lemma AmountScoreOne(x: real, y: real)
    ensures AmountScore(x, y) == 1.0 <==> x == y && x > 0.0
  {
    if !(x <= 0.0 && y <= 0.0) {
      var diff := Abs(x - y);
      var denom := Max(Max(x, y), 1.0);
      assert diff == diff / denom * denom;
    }
  }

  /** The invoice number is set, non-empty and occurs in the payment reference. */
  predicate NumberHit(invoiceNo: Option<string>, reference: string) {
    invoiceNo.Some? && invoiceNo.value != "" && Contains(reference, invoiceNo.value)
  }

  /** token_sort_ratio / 100, or 0 when either text is empty. */
  function DetailsScore(reference: string, details: string, ratio: Ratio): (r: real)
    ensures 0.0 <= r <= 1.0
    ensures reference == "" || details == "" ==> r == 0.0
  {
    if reference != "" && details != "" then ratio(reference, details) / 100.0 else 0.0
  }

  /** The weighted score before rounding. */
  function RawScore(hit: bool, amount: real, details: real): real {
    (if hit then 1.0 else 0.0) * InvoiceNoWeight + amount * AmountWeight + details * DetailsWeight
  }

  /** Scores an invoice against a payment. */
  function MakeCandidate(p: Payment, inv: Invoice, ratio: Ratio): (c: Candidate)
    ensures c.invoice == inv
    ensures 0.0 <= c.score <= 1.0
    ensures c.reasons.invoiceNoMatch == (if NumberHit(inv.invoiceNo, p.reference) then 1.0 else 0.0)
    ensures 0.0 <= c.reasons.amountScore <= 1.0 && 0.0 <= c.reasons.detailsScore <= 1.0
  {
    var hit := NumberHit(inv.invoiceNo, p.reference);
    var amount := AmountScore(inv.total, p.amount);
    var details := DetailsScore(p.reference, inv.details, ratio);
    var raw := RawScore(hit, amount, details);
    Round3Unit(raw);
    Round3Unit(amount);
    Round3Unit(details);
    Candidate(inv, Round3(raw), Reasons(if hit then 1.0 else 0.0, Round3(amount), Round3(details)))
  }

  /**
    An invoice whose number occurs in the reference and whose total equals a positive
    payment amount scores at least 0.85.
  */
  lemma HitAndAmountScore(p: Payment, inv: Invoice, ratio: Ratio)
    requires NumberHit(inv.invoiceNo, p.reference)
    requires inv.total == p.amount && p.amount > 0.0
    ensures MakeCandidate(p, inv, ratio).score >= 0.85
  {
    AmountScoreOne(inv.total, p.amount);
    var raw := RawScore(true, 1.0, DetailsScore(p.reference, inv.details, ratio));
    assert raw >= 850 as real / 1000.0;
    Round3AtLeast(raw, 850);
  }

  /** Without an invoice-number hit a candidate scores at most 0.55. */
  lemma NoHitScore(p: Payment, inv: Invoice, ratio: Ratio)
    requires !NumberHit(inv.invoiceNo, p.reference)
    ensures MakeCandidate(p, inv, ratio).score <= 0.55
  {
    var raw := RawScore(false, AmountScore(inv.total, p.amount), DetailsScore(p.reference, inv.details, ratio));
    assert raw <= 550 as real / 1000.0;
    Round3AtMost(raw, 550);
  }

  /** So a candidate at the 0.78 auto-accept threshold always has an invoice-number hit. */
  lemma AutoAcceptNeedsHit(p: Payment, inv: Invoice, ratio: Ratio)
    requires MakeCandidate(p, inv, ratio).score >= 0.78
    ensures NumberHit(inv.invoiceNo, p.reference)
  {
    if !NumberHit(inv.invoiceNo, p.reference) {
      NoHitScore(p, inv, ratio);
    }
  }
}
