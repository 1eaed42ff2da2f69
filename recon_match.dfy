/**
  `_match_payments`: payments are taken in order; each is scored against every invoice
  not used yet, the candidates are ranked, and a four-step ladder decides between a
  single match, a combined match and a list of candidates for review.
*/
module ReconMatch {
  import opened Wrappers
  import opened Text
  import opened Rounding
  import opened StableSort
  import opened ReconTypes
  import opened ReconScoring
  import opened ReconCombination
  import opened ReconReaders

  const AutoAccept: real := 0.78
  const NumberFallback: real := 0.5
  const CombinedAccept: real := 0.65
  const TopK: nat := 5

  /** The invoices among the first k that are not in `used`, scored against p, in ledger order. */
  function CandidatesUpTo(p: Payment, invoices: seq<Invoice>, used: set<nat>, ratio: Ratio, k: nat): (cs: seq<Ranked>)
    requires k <= |invoices|
    ensures forall j :: 0 <= j < |cs| ==> cs[j].idx < k && cs[j].idx !in used
    ensures forall j :: 0 <= j < |cs| ==> cs[j].cand == MakeCandidate(p, invoices[cs[j].idx], ratio)
    ensures forall i, j :: 0 <= i < j < |cs| ==> cs[i].idx < cs[j].idx
  {
    if k == 0 then []
    else
      var prev := CandidatesUpTo(p, invoices, used, ratio, k - 1);
      if k - 1 in used then prev else prev + [Ranked(MakeCandidate(p, invoices[k - 1], ratio), k - 1)]
  }

  /** Every unused invoice among the first k is a candidate. */
  lemma {:induction false} CandidatesComplete(p: Payment, invoices: seq<Invoice>, used: set<nat>, ratio: Ratio, k: nat, i: nat)
    requires k <= |invoices| && i < k && i !in used
    ensures exists j :: 0 <= j < |CandidatesUpTo(p, invoices, used, ratio, k)| && CandidatesUpTo(p, invoices, used, ratio, k)[j].idx == i
  {
    var cs := CandidatesUpTo(p, invoices, used, ratio, k);
    if i == k - 1 {
      assert cs[|cs| - 1].idx == i;
    } else {
      CandidatesComplete(p, invoices, used, ratio, k - 1, i);
      var prev := CandidatesUpTo(p, invoices, used, ratio, k - 1);
      var j :| 0 <= j < |prev| && prev[j].idx == i;
      assert cs[j] == prev[j];
    }
  }

  /** The candidate list for a payment, before sorting. */
  function CandidatesFor(p: Payment, invoices: seq<Invoice>, used: set<nat>, ratio: Ratio): seq<Ranked> {
    CandidatesUpTo(p, invoices, used, ratio, |invoices|)
  }

  /** The candidate-building loop. */
  method BuildCandidates(p: Payment, invoices: seq<Invoice>, used: set<nat>, ratio: Ratio) returns (candidates: seq<Ranked>)
    ensures candidates == CandidatesFor(p, invoices, used, ratio)
  {
    candidates := [];
    for idx := 0 to |invoices|
      invariant candidates == CandidatesUpTo(p, invoices, used, ratio, idx)
    {
      if idx in used {
        continue;
      }
      var cand := MakeCandidate(p, invoices[idx], ratio);
      candidates := candidates + [Ranked(cand, idx)];
    }
  }

  function Score(r: Ranked): real { r.cand.score }

  /** The candidates sorted by score, highest first, stably. */
  function Rank(p: Payment, invoices: seq<Invoice>, used: set<nat>, ratio: Ratio): seq<Ranked> {
    SortDesc(CandidatesFor(p, invoices, used, ratio), Score)
  }

  /** a ranks before b: a higher score, or the same score and an earlier ledger row. */
  predicate Before(a: Ranked, b: Ranked) {
    Score(a) > Score(b) || (Score(a) == Score(b) && a.idx < b.idx)
  }

  /** Higher scores first; equal scores in ledger order. */
  predicate RankedOrder(s: seq<Ranked>) {
    forall i, j :: 0 <= i < j < |s| ==> Before(s[i], s[j])
  }

  lemma ConsRanked(y: Ranked, t: seq<Ranked>)
    requires RankedOrder(t) && forall z :: z in t ==> Before(y, z)
    ensures RankedOrder([y] + t)
  {
    var u := [y] + t;
    forall i, j | 0 <= i < j < |u|
      ensures Before(u[i], u[j])
    {
      assert u[j] == t[j - 1];
      if i > 0 {
        assert u[i] == t[i - 1];
      }
    }
  }

  lemma {:induction false} InsertRanked(x: Ranked, s: seq<Ranked>)
    requires RankedOrder(s) && forall y :: y in s ==> x.idx < y.idx
    ensures RankedOrder(Insert(x, s, Score))
  {
    if s != [] && Score(s[0]) > Score(x) {
      assert RankedOrder(s[1..]);
      InsertRanked(x, s[1..]);
      var t := Insert(x, s[1..], Score);
      InsertMembers(x, s[1..], Score);
      forall z | z in t
        ensures Before(s[0], z)
      {
        if z != x {
          var k :| 0 <= k < |s[1..]| && s[1..][k] == z;
          assert s[k + 1] == z;
        }
      }
      ConsRanked(s[0], t);
    } else {
      forall z | z in s
        ensures Before(x, z)
      {
        var k :| 0 <= k < |s| && s[k] == z;
        if k > 0 {
          assert Before(s[0], s[k]);
        }
      }
      ConsRanked(x, s);
    }
  }

  /** Sorting candidates listed in ledger order ranks them by score, ties in ledger order. */
  lemma {:induction false} SortRanked(s: seq<Ranked>)
    requires forall i, j :: 0 <= i < j < |s| ==> s[i].idx < s[j].idx
    ensures RankedOrder(SortDesc(s, Score))
  {
    if s != [] {
      SortRanked(s[1..]);
      SortDescMembers(s[1..], Score);
      forall y | y in SortDesc(s[1..], Score)
        ensures s[0].idx < y.idx
      {
        var k :| 0 <= k < |s[1..]| && s[1..][k] == y;
        assert s[k + 1] == y;
      }
      InsertRanked(s[0], SortDesc(s[1..], Score));
    }
  }

  /**
    The ranking holds exactly the unused invoices, each with its own score, ordered by
    score with ties in ledger order.
  */
  lemma RankSpec(p: Payment, invoices: seq<Invoice>, used: set<nat>, ratio: Ratio)
    ensures var ranked := Rank(p, invoices, used, ratio);
      && RankedOrder(ranked)
      && (forall r :: r in ranked ==> r.idx < |invoices| && r.idx !in used && r.cand == MakeCandidate(p, invoices[r.idx], ratio))
      && (forall i :: 0 <= i < |invoices| && i !in used ==> exists r :: r in ranked && r.idx == i)
  {
    var cs := CandidatesFor(p, invoices, used, ratio);
    SortRanked(cs);
    SortDescMembers(cs, Score);
    forall i | 0 <= i < |invoices| && i !in used
      ensures exists r :: r in Rank(p, invoices, used, ratio) && r.idx == i
    {
      CandidatesComplete(p, invoices, used, ratio, |invoices|, i);
      var j :| 0 <= j < |cs| && cs[j].idx == i;
      assert cs[j] in cs;
    }
  }

  /** The top of the ranking has the highest score, and the lowest ledger index among equals. */
  lemma RankTop(p: Payment, invoices: seq<Invoice>, used: set<nat>, ratio: Ratio)
    requires |Rank(p, invoices, used, ratio)| > 0
    ensures var ranked := Rank(p, invoices, used, ratio);
      forall r :: r in ranked ==> Score(r) < Score(ranked[0]) || (Score(r) == Score(ranked[0]) && ranked[0].idx <= r.idx)
  {
    RankSpec(p, invoices, used, ratio);
  }

  /** The position of the highest-ranked candidate whose invoice number occurs in the reference. */
  function FirstNumberHit(ranked: seq<Ranked>, reference: string): (r: Option<nat>)
    ensures r.Some? ==> r.value < |ranked| && NumberHit(ranked[r.value].cand.invoice.invoiceNo, reference)
    ensures r.Some? ==> forall i :: 0 <= i < r.value ==> !NumberHit(ranked[i].cand.invoice.invoiceNo, reference)
    ensures r.None? ==> forall i :: 0 <= i < |ranked| ==> !NumberHit(ranked[i].cand.invoice.invoiceNo, reference)
  {
    if ranked == [] then None
    else if NumberHit(ranked[0].cand.invoice.invoiceNo, reference) then Some(0)
    else match FirstNumberHit(ranked[1..], reference)
      case None => None
      case Some(k) => Some(k + 1)
  }

  /** The invoice-number search loop, which stops at the first hit. */
  method FindNumberHit(candidates: seq<Ranked>, reference: string) returns (hit: Option<nat>)
    ensures hit == FirstNumberHit(candidates, reference)
  {
    hit := None;
    var i := 0;
    while i < |candidates|
      invariant 0 <= i <= |candidates|
      invariant forall k :: 0 <= k < i ==> !NumberHit(candidates[k].cand.invoice.invoiceNo, reference)
    {
      var no := candidates[i].cand.invoice.invoiceNo;
      if no.Some? && no.value != "" && Contains(reference, no.value) {
        hit := Some(i);
        break;
      }
      i := i + 1;
    }
  }

  /** `{"invoice": ..., "allocated": total}` for each picked candidate. */
  function Allocations(picked: seq<Ranked>): (r: seq<Allocation>)
    ensures |r| == |picked|
    ensures forall i :: 0 <= i < |r| ==> r[i].invoice == picked[i].cand.invoice && r[i].allocatedAmount == r[i].invoice.total
  {
    seq(|picked|, i requires 0 <= i < |picked| => Allocation(picked[i].cand.invoice, picked[i].cand.invoice.total))
  }

  /** The ledger indices of the picked candidates. */
  function Indices(picked: seq<Ranked>): set<nat> {
    set r | r in picked :: r.idx
  }

  /** Two invoices with the same invoice number and total. */
  predicate SameKey(a: Invoice, b: Invoice) {
    a.invoiceNo == b.invoiceNo && a.total == b.total
  }

  /** The first ledger index whose invoice has the same number and total as inv. */
  function LookupIndex(invoices: seq<Invoice>, inv: Invoice): (r: Option<nat>)
    ensures r.Some? ==> r.value < |invoices| && SameKey(invoices[r.value], inv)
    ensures r.Some? ==> forall i :: 0 <= i < r.value ==> !SameKey(invoices[i], inv)
    ensures r.None? ==> forall i :: 0 <= i < |invoices| ==> !SameKey(invoices[i], inv)
  {
    if invoices == [] then None
    else if SameKey(invoices[0], inv) then Some(0)
    else match LookupIndex(invoices[1..], inv)
      case None => None
      case Some(k) => Some(k + 1)
  }

  /** `used` after marking, for each allocation, the index LookupIndex finds for it. */
  function MarkLookedUp(invoices: seq<Invoice>, used: set<nat>, allocs: seq<Allocation>): (u: set<nat>)
    ensures used <= u
  {
    if allocs == [] then used
    else
      var prev := MarkLookedUp(invoices, used, allocs[..|allocs| - 1]);
      match LookupIndex(invoices, allocs[|allocs| - 1].invoice)
      case Some(i) => prev + {i}
      case None => prev
  }

  /** The marking loop for a combined match: for each allocation, the first ledger row with the same key. */
  method MarkCombined(invoices: seq<Invoice>, used: set<nat>, allocs: seq<Allocation>) returns (u: set<nat>)
    ensures u == MarkLookedUp(invoices, used, allocs)
  {
    u := used;
    for a := 0 to |allocs|
      invariant u == MarkLookedUp(invoices, used, allocs[..a])
    {
      var inv := allocs[a].invoice;
      var idx := 0;
      while idx < |invoices|
        invariant 0 <= idx <= |invoices|
        invariant forall i :: 0 <= i < idx ==> !SameKey(invoices[i], inv)
      {
        if invoices[idx].invoiceNo == inv.invoiceNo && invoices[idx].total == inv.total {
          break;
        }
        idx := idx + 1;
      }
      assert allocs[..a + 1][..a] == allocs[..a];
      if idx < |invoices| {
        assert LookupIndex(invoices, inv) == Some(idx);
        u := u + {idx};
      } else {
        assert LookupIndex(invoices, inv) == None;
      }
    }
    assert allocs[..|allocs|] == allocs;
  }

  /** How a combined match marks invoices used: as written (key lookup) or by the candidates' own indices. */
  datatype Marking = AsWritten | OwnIndex

  /** The decision for one payment: the proposal, the ledger indices it commits, and the new used set. */
  datatype Step = Step(proposal: Proposal, accepted: set<nat>, used: set<nat>)

  function CandidateList(ranked: seq<Ranked>): (cs: seq<Candidate>)
    ensures |cs| == |ranked| && forall i :: 0 <= i < |cs| ==> cs[i] == ranked[i].cand
  {
    seq(|ranked|, i requires 0 <= i < |ranked| => ranked[i].cand)
  }

  /** The decision ladder for one payment. */
  function Decide(invoices: seq<Invoice>, used: set<nat>, p: Payment, ratio: Ratio, marking: Marking): (s: Step)
    ensures s.proposal.payment == p
  {
    DecideRanked(invoices, used, p, marking, Rank(p, invoices, used, ratio))
  }

  /** The ladder on a given ranking: auto-accept the top candidate, else the lower rungs. */
  function DecideRanked(invoices: seq<Invoice>, used: set<nat>, p: Payment, marking: Marking, ranked: seq<Ranked>): (s: Step)
    ensures s.proposal.payment == p
  {
    if |ranked| > 0 && ranked[0].cand.score >= AutoAccept then
      var top := ranked[0];
      Step(Single(p, top.cand.invoice, top.cand.score, top.cand.reasons), {top.idx}, used + {top.idx})
    else
      NumberOrCombo(invoices, used, p, marking, ranked)
  }

  /** Second rung: the highest-ranked invoice-number hit, if it scores at least 0.5. */
  function NumberOrCombo(invoices: seq<Invoice>, used: set<nat>, p: Payment, marking: Marking, ranked: seq<Ranked>): (s: Step)
    ensures s.proposal.payment == p
  {
    var hit := FirstNumberHit(ranked, p.reference);
    if hit.Some? && ranked[hit.value].cand.score >= NumberFallback then
      var h := ranked[hit.value];
      Step(Single(p, h.cand.invoice, h.cand.score, h.cand.reasons), {h.idx}, used + {h.idx})
    else
      ComboOrList(invoices, used, p, marking, ranked)
  }

  /** Last two rungs: a combination scoring at least 0.65, else the top five candidates. */
  function ComboOrList(invoices: seq<Invoice>, used: set<nat>, p: Payment, marking: Marking, ranked: seq<Ranked>): (s: Step)
    ensures s.proposal.payment == p
  {
    var combo := FindCombination(p.amount, ranked);
    if combo.picked != [] && combo.score >= CombinedAccept then
      CombinedStepOf(invoices, used, p, marking, combo)
    else
      Step(Candidates(p, CandidateList(ranked[..Min(|ranked|, TopK)])), {}, used)
  }

  /** A combined match: each picked invoice allocated its total, and the indices `marking` marks used. */
  function CombinedStepOf(invoices: seq<Invoice>, used: set<nat>, p: Payment, marking: Marking, combo: ComboResult): (s: Step)
    ensures s.proposal.payment == p
  {
    var allocs := Allocations(combo.picked);
    Step(Combined(p, allocs, combo.score), Indices(combo.picked),
         if marking == AsWritten then MarkLookedUp(invoices, used, allocs) else used + Indices(combo.picked))
  }

  /** The proposals so far, the indices each one committed, and the used set. */
  datatype RunState = RunState(proposals: seq<Proposal>, accepted: seq<set<nat>>, used: set<nat>)

  /** The payments loop: each payment decided against the used set its predecessors left. */
  function Run(invoices: seq<Invoice>, payments: seq<Payment>, ratio: Ratio, marking: Marking): (st: RunState)
    ensures |st.proposals| == |payments| && |st.accepted| == |payments|
    ensures forall i :: 0 <= i < |payments| ==> st.proposals[i].payment == payments[i]
  {
    if payments == [] then RunState([], [], {})
    else
      var prev := Run(invoices, payments[..|payments| - 1], ratio, marking);
      var step := Decide(invoices, prev.used, payments[|payments| - 1], ratio, marking);
      RunState(prev.proposals + [step.proposal], prev.accepted + [step.accepted], step.used)
  }

  /** The payments whose proposal is a candidates list, in order. */
  function UnmatchedOf(proposals: seq<Proposal>): (r: seq<Payment>)
    ensures |r| <= |proposals|
    ensures forall x :: x in r <==> exists i :: 0 <= i < |proposals| && proposals[i].Candidates? && proposals[i].payment == x
  {
    if proposals == [] then []
    else
      var rest := UnmatchedOf(proposals[..|proposals| - 1]);
      var last := proposals[|proposals| - 1];
      assert forall i :: 0 <= i < |proposals| - 1 ==> proposals[..|proposals| - 1][i] == proposals[i];
      if last.Candidates? then rest + [last.payment] else rest
  }

  /** The result of `_match_payments` on converted rows; `marking` chooses between the source's
      marking of combined matches and the corrected one. */
  function MatchSpec(invoices: seq<Invoice>, payments: seq<Payment>, ratio: Ratio, marking: Marking): (r: MatchResult)
    ensures r.NothingToReconcile? <==> payments == []
    ensures r.NothingToReconcile? ==> r.invoicesCount == |invoices| && r.invoices == invoices
    ensures r.Reconciled? ==> |r.proposals| == |payments| && forall i :: 0 <= i < |payments| ==> r.proposals[i].payment == payments[i]
    ensures r.Reconciled? ==> r.unmatched == UnmatchedOf(r.proposals)
  {
    if payments == [] then NothingToReconcile(|invoices|, invoices)
    else
      var st := Run(invoices, payments, ratio, marking);
      Reconciled(st.proposals, UnmatchedOf(st.proposals))
  }

  /** The body of the payments loop for one payment. */
  method Propose(invoices: seq<Invoice>, used: set<nat>, p: Payment, ratio: Ratio, marking: Marking) returns (proposal: Proposal, newUsed: set<nat>)
    ensures var s := Decide(invoices, used, p, ratio, marking); proposal == s.proposal && newUsed == s.used
  {
    var candidates := BuildCandidates(p, invoices, used, ratio);
    candidates := SortDesc(candidates, Score);
    assert Decide(invoices, used, p, ratio, marking) == DecideRanked(invoices, used, p, marking, candidates);
    if |candidates| > 0 && candidates[0].cand.score >= AutoAccept {
      var top := candidates[0];
      return Single(p, top.cand.invoice, top.cand.score, top.cand.reasons), used + {top.idx};
    }
    assert DecideRanked(invoices, used, p, marking, candidates) == NumberOrCombo(invoices, used, p, marking, candidates);
    var hit := FindNumberHit(candidates, p.reference);
    if hit.Some? && candidates[hit.value].cand.score >= NumberFallback {
      var h := candidates[hit.value];
      return Single(p, h.cand.invoice, h.cand.score, h.cand.reasons), used + {h.idx};
    }
    assert NumberOrCombo(invoices, used, p, marking, candidates) == ComboOrList(invoices, used, p, marking, candidates);
    var combo := FindCombinationMatch(p.amount, candidates);
    if combo.picked != [] && combo.score >= CombinedAccept {
      var allocs := Allocations(combo.picked);
      if marking == AsWritten {
        newUsed := MarkCombined(invoices, used, allocs);
      } else {
        newUsed := used + Indices(combo.picked);
      }
      return Combined(p, allocs, combo.score), newUsed;
    }
    var topk := candidates[..Min(|candidates|, TopK)];
    return Candidates(p, CandidateList(topk)), used;
  }

  /** The closing loop collecting unmatched payments. */
  method CollectUnmatched(proposals: seq<Proposal>) returns (unmatched: seq<Payment>)
    ensures unmatched == UnmatchedOf(proposals)
  {
    unmatched := [];
    for i := 0 to |proposals|
      invariant unmatched == UnmatchedOf(proposals[..i])
    {
      assert proposals[..i + 1][..i] == proposals[..i];
      if proposals[i].Candidates? {
        unmatched := unmatched + [proposals[i].payment];
      }
    }
    assert proposals[..|proposals|] == proposals;
  }

  /** The payments loop of `_match_payments`, threading the used set from payment to payment. */
  method ProposeAll(invoices: seq<Invoice>, payments: seq<Payment>, ratio: Ratio, marking: Marking)
    returns (proposals: seq<Proposal>, invoicesUsed: set<nat>)
    ensures var st := Run(invoices, payments, ratio, marking); proposals == st.proposals && invoicesUsed == st.used
  {
    proposals := [];
    ghost var accepted: seq<set<nat>> := [];
    invoicesUsed := {};
    for i := 0 to |payments|
      invariant Run(invoices, payments[..i], ratio, marking) == RunState(proposals, accepted, invoicesUsed)
    {
      var p := payments[i];
      assert payments[..i + 1][..i] == payments[..i];
      ghost var step := Decide(invoices, invoicesUsed, p, ratio, marking);
      var proposal;
      proposal, invoicesUsed := Propose(invoices, invoicesUsed, p, ratio, marking);
      proposals := proposals + [proposal];
      accepted := accepted + [step.accepted];
    }
    assert payments[..|payments|] == payments;
  }

  /** `_match_payments` on the rows of the ledger and payments inputs. */
  method MatchPayments(ledger: Option<seq<Row>>, paymentsFile: Option<seq<Row>>, payments: PaymentsArg, parse: Parser, ratio: Ratio, marking: Marking)
    returns (res: MatchResult)
    ensures res == MatchSpec(Ledger(ledger, parse), Payments(paymentsFile, payments, parse), ratio, marking)
  {
    var invoices := ReadLedger(ledger, parse);
    var paymentRows := ReadPayments(paymentsFile, payments, parse);
    if |paymentRows| == 0 {
      return NothingToReconcile(|invoices|, invoices);
    }
    var proposals, _ := ProposeAll(invoices, paymentRows, ratio, marking);
    var unmatched := CollectUnmatched(proposals);
    return Reconciled(proposals, unmatched);
  }
}
