/**
  The records the reconciliation agent works on: ledger invoices, bank payments, scored
  candidates and the proposals it returns.
*/
module ReconTypes {
  import opened Wrappers

  /**
    rapidfuzz's token_sort_ratio: some similarity of two strings, always in [0, 100].
    Nothing else about it is assumed.
  */
  type Ratio = f: (string, string) -> real | forall a: string, b: string :: 0.0 <= f(a, b) <= 100.0
    witness (a: string, b: string) => 0.0

  /** A value of an inline payment dict: None, a string or a number. */
  datatype Value = Null | Text(text: string) | Number(number: real)

  /** One ledger row after conversion (the `raw` row is not kept). */
  datatype Invoice = Invoice(invoiceNo: Option<string>, date: Option<string>, details: string, total: real)

  /** One payment row after conversion. */
  datatype Payment = Payment(amount: real, date: Value, reference: string)

  datatype Reasons = Reasons(invoiceNoMatch: real, amountScore: real, detailsScore: real)

  /** An invoice scored against one payment. */
  datatype Candidate = Candidate(invoice: Invoice, score: real, reasons: Reasons)

  /** A candidate together with its ledger index (the `_idx` key). */
  datatype Ranked = Ranked(cand: Candidate, idx: nat)

  datatype Allocation = Allocation(invoice: Invoice, allocatedAmount: real)

  /** The three match types a payment can receive. */
  datatype Proposal =
    | Single(payment: Payment, invoice: Invoice, score: real, reasons: Reasons)
    | Combined(payment: Payment, allocations: seq<Allocation>, score: real)
    | Candidates(payment: Payment, candidates: seq<Candidate>)

  /** The two success shapes of match_payments. */
  datatype MatchResult =
    | NothingToReconcile(invoicesCount: nat, invoices: seq<Invoice>)
    | Reconciled(proposals: seq<Proposal>, unmatched: seq<Payment>)
}
