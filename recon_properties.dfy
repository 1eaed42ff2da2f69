/**
  What the matcher promises across payments: the thresholds of the ladder, what each
  proposal commits, and when an invoice can be committed twice.
*/
module ReconProperties {
  import opened Wrappers
  import opened Rounding
  import opened StableSort
  import opened ReconTypes
  import opened ReconScoring
  import opened ReconCombination
  import opened ReconMatch

  /** A ranking without repeats: RankedOrder is strict. */
  lemma RankedDistinct(s: seq<Ranked>)
    requires RankedOrder(s)
    ensures forall i, j :: 0 <= i < j < |s| ==> s[i] != s[j]
  {
    forall i, j | 0 <= i < j < |s|
      ensures s[i] != s[j]
    {
      assert Before(s[i], s[j]);
    }
  }

  lemma SumScoresBound(ps: seq<Ranked>)
    requires forall x :: x in ps ==> 0.0 <= Score(x) <= 1.0
    ensures 0.0 <= SumScores(ps) <= |ps| as real
  {
    if ps != [] {
      assert forall x :: x in ps[..|ps| - 1] ==> x in ps;
      SumScoresBound(ps[..|ps| - 1]);
      assert ps[|ps| - 1] in ps;
    }
  }

  /** The score of any combination of candidates is at most 1. */
  lemma ComboScoreAtMostOne(ps: seq<Ranked>, amount: real)
    requires |ps| > 0 && forall x :: x in ps ==> 0.0 <= Score(x) <= 1.0
    ensures Round3(Mean(ps)) <= 1.0 && Round3(ApproxScore(ps, amount)) <= 1.0
  {
    SumScoresBound(ps);
    var n := |ps| as real;
    assert SumScores(ps) / n <= 1.0 by {
      assert SumScores(ps) <= n;
    }
    var s := SumTotals(ps);
    var frac := Abs(s - amount) / Max(Max(amount, s), 1.0);
    assert frac >= 0.0;
    assert Mean(ps) <= 1.0;
    assert ApproxScore(ps, amount) <= 1.0;
    Round3AtMost(Mean(ps), 1000);
    Round3AtMost(ApproxScore(ps, amount), 1000);
  }

  /** A combination drawn from a ranking: different candidates, two or three of them, scoring at most 1. */
  lemma ComboFromRanking(amount: real, ranked: seq<Ranked>)
    requires RankedOrder(ranked)
    requires forall r :: r in ranked ==> 0.0 <= Score(r) <= 1.0
    ensures var c := FindCombination(amount, ranked);
      && (c.picked == [] ==> c.score == 0.0)
      && (c.picked != [] ==> 2 <= |c.picked| <= 3 && c.score <= 1.0)
      && (forall x :: x in c.picked ==> x in ranked)
  {
    var c := FindCombination(amount, ranked);
    RankedDistinct(ranked);
    FindCombinationShape(amount, ranked);
    forall x | x in c.picked
      ensures x in ranked
    {
      var m := Min(|ranked|, PoolLimit);
      assert x in ranked[..m];
    }
    if c.picked != [] {
      ComboScoreAtMostOne(c.picked, amount);
      ComboScoreIsMeanOrApprox(amount, ranked);
    }
  }

  /** What one step commits, whatever the proposal. */
  predicate Commits(invoices: seq<Invoice>, used: set<nat>, s: Step, marking: Marking) {
    && (forall k :: k in s.accepted ==> k < |invoices| && k !in used)
    && used <= s.used
    && (marking == OwnIndex ==> s.used == used + s.accepted)
  }

  /** The meaning of each kind of proposal. */
  ghost predicate ProposalBounds(invoices: seq<Invoice>, used: set<nat>, s: Step) {
    && (s.proposal.Single? ==>
          && NumberFallback <= s.proposal.score <= 1.0
          && (exists k :: 0 <= k < |invoices| && s.accepted == {k} && s.proposal.invoice == invoices[k])
          && s.used == used + s.accepted)
    && (s.proposal.Combined? ==>
          && CombinedAccept <= s.proposal.score <= 1.0
          && 2 <= |s.proposal.allocations| <= 3
          && (forall a :: a in s.proposal.allocations ==> a.allocatedAmount == a.invoice.total))
    && (s.proposal.Candidates? ==> |s.proposal.candidates| <= TopK && s.accepted == {} && s.used == used)
  }

  /**
    One decision: a single match scores at least 0.5 and commits one unused invoice, a
    combined one scores at least 0.65 and allocates each invoice's total, a candidates
    list has at most five entries and commits nothing.
  */
  lemma DecideSpec(invoices: seq<Invoice>, used: set<nat>, p: Payment, ratio: Ratio, marking: Marking)
    ensures Commits(invoices, used, Decide(invoices, used, p, ratio, marking), marking)
    ensures ProposalBounds(invoices, used, Decide(invoices, used, p, ratio, marking))
  {
    var ranked := Rank(p, invoices, used, ratio);
    RankSpec(p, invoices, used, ratio);
    assert Decide(invoices, used, p, ratio, marking) == DecideRanked(invoices, used, p, marking, ranked);
    if |ranked| > 0 && ranked[0].cand.score >= AutoAccept {
      assert ranked[0] in ranked;
    } else {
      var hit := FirstNumberHit(ranked, p.reference);
      assert DecideRanked(invoices, used, p, marking, ranked) == NumberOrCombo(invoices, used, p, marking, ranked);
      if hit.Some? && ranked[hit.value].cand.score >= NumberFallback {
        assert ranked[hit.value] in ranked;
      } else {
        assert forall r :: r in ranked ==> 0.0 <= Score(r) <= 1.0;
        DecideRest(invoices, used, p, marking, ranked);
      }
    }
  }

  /** The combined and candidates rungs of the ladder, on a ranking of unused invoices. */
  lemma DecideRest(invoices: seq<Invoice>, used: set<nat>, p: Payment, marking: Marking, ranked: seq<Ranked>)
    requires RankedOrder(ranked)
    requires forall r :: r in ranked ==> r.idx < |invoices| && r.idx !in used && 0.0 <= Score(r) <= 1.0
    ensures Commits(invoices, used, ComboOrList(invoices, used, p, marking, ranked), marking)
    ensures ProposalBounds(invoices, used, ComboOrList(invoices, used, p, marking, ranked))
  {
    ComboFromRanking(p.amount, ranked);
    var combo := FindCombination(p.amount, ranked);
    if combo.picked != [] && combo.score >= CombinedAccept {
      assert ComboOrList(invoices, used, p, marking, ranked) == CombinedStepOf(invoices, used, p, marking, combo);
      CombinedStep(invoices, used, p, marking, ranked, combo);
    } else {
      var top := CandidateList(ranked[..Min(|ranked|, TopK)]);
      assert ComboOrList(invoices, used, p, marking, ranked) == Step(Candidates(p, top), {}, used);
      assert |top| <= TopK;
      assert used + {} == used;
    }
  }

  /** A combined match commits the picked unused invoices and allocates each its total. */
  lemma CombinedStep(invoices: seq<Invoice>, used: set<nat>, p: Payment, marking: Marking, ranked: seq<Ranked>, combo: ComboResult)
    requires forall r :: r in ranked ==> r.idx < |invoices| && r.idx !in used
    requires forall x :: x in combo.picked ==> x in ranked
    requires 2 <= |combo.picked| <= 3 && CombinedAccept <= combo.score <= 1.0
    ensures Commits(invoices, used, CombinedStepOf(invoices, used, p, marking, combo), marking)
    ensures ProposalBounds(invoices, used, CombinedStepOf(invoices, used, p, marking, combo))
  {
    var allocs := Allocations(combo.picked);
    forall a | a in allocs
      ensures a.allocatedAmount == a.invoice.total
    {
      var i :| 0 <= i < |allocs| && allocs[i] == a;
    }
  }

  /** A non-empty combination scores the rounded mean or the rounded approximate score of its candidates. */
  lemma ComboScoreIsMeanOrApprox(amount: real, candidates: seq<Ranked>)
    ensures var r := FindCombination(amount, candidates);
      r.picked != [] ==> r.score == Round3(Mean(r.picked)) || r.score == Round3(ApproxScore(r.picked, amount))
  {
    if candidates != [] {
      var pool := Pool(candidates);
      FitsOrder(|pool|, 2, Min(MaxComb, |pool|));
      ScanScores(Searched(|pool|), pool, amount, Tolerance(amount), NoCombo);
    }
  }

  lemma {:induction false} ScanScores(cs: seq<seq<nat>>, pool: seq<Ranked>, amount: real, tol: real, best: ComboResult)
    requires FitsAll(cs, |pool|)
    requires best.picked != [] ==> best.score == Round3(Mean(best.picked)) || best.score == Round3(ApproxScore(best.picked, amount))
    ensures var r := Scan(cs, pool, amount, tol, best);
      r.picked != [] ==> r.score == Round3(Mean(r.picked)) || r.score == Round3(ApproxScore(r.picked, amount))
    decreases |cs|
  {
    if cs != [] {
      var ps := Pick(pool, cs[0]);
      if !Within(ps, amount, tol) {
        ScanScores(cs[1..], pool, amount, tol, ReconCombination.Step(ps, amount, best));
      }
    }
  }

  /** A single match always names an invoice whose number occurs in the payment reference. */
  lemma SingleNeedsHit(invoices: seq<Invoice>, used: set<nat>, p: Payment, ratio: Ratio, marking: Marking)
    requires Decide(invoices, used, p, ratio, marking).proposal.Single?
    ensures NumberHit(Decide(invoices, used, p, ratio, marking).proposal.invoice.invoiceNo, p.reference)
  {
    var ranked := Rank(p, invoices, used, ratio);
    RankSpec(p, invoices, used, ratio);
    if |ranked| > 0 && ranked[0].cand.score >= AutoAccept {
      assert ranked[0] in ranked;
      AutoAcceptNeedsHit(p, invoices[ranked[0].idx], ratio);
    }
  }

  /**
    An unused invoice whose number occurs in the reference and whose total equals the
    payment amount gets a single match scoring at least 0.85.
  */
  lemma HighScoreSingle(invoices: seq<Invoice>, used: set<nat>, p: Payment, ratio: Ratio, marking: Marking, k: nat)
    requires k < |invoices| && k !in used
    requires NumberHit(invoices[k].invoiceNo, p.reference)
    requires invoices[k].total == p.amount && p.amount > 0.0
    ensures var s := Decide(invoices, used, p, ratio, marking);
      s.proposal.Single? && s.proposal.score >= 0.85
  {
    var ranked := Rank(p, invoices, used, ratio);
    RankSpec(p, invoices, used, ratio);
    var r :| r in ranked && r.idx == k;
    HitAndAmountScore(p, invoices[k], ratio);
    RankTop(p, invoices, used, ratio);
    assert Score(ranked[0]) >= Score(r);
  }

  /** The union of the sets committed by a run. */
  function Union(a: seq<set<nat>>): (u: set<nat>)
    ensures forall i :: 0 <= i < |a| ==> a[i] <= u
  {
    if a == [] then {} else Union(a[..|a| - 1]) + a[|a| - 1]
  }

  /** No index is committed by two different payments. */
  predicate Disjoint(a: seq<set<nat>>) {
    forall i, j :: 0 <= i < j < |a| ==> a[i] * a[j] == {}
  }

  /**
    With invoices marked by their own indices, no invoice is committed twice: the
    committed sets are disjoint and together make up the used set.
  */
  lemma {:induction false} RunOwnIndex(invoices: seq<Invoice>, payments: seq<Payment>, ratio: Ratio)
    ensures var st := Run(invoices, payments, ratio, OwnIndex);
      st.used == Union(st.accepted) && Disjoint(st.accepted) && forall k :: k in st.used ==> k < |invoices|
  {
    if payments != [] {
      var prev := Run(invoices, payments[..|payments| - 1], ratio, OwnIndex);
      RunOwnIndex(invoices, payments[..|payments| - 1], ratio);
      var step := Decide(invoices, prev.used, payments[|payments| - 1], ratio, OwnIndex);
      DecideSpec(invoices, prev.used, payments[|payments| - 1], ratio, OwnIndex);
      assert Commits(invoices, prev.used, step, OwnIndex);
      var acc := prev.accepted + [step.accepted];
      assert Run(invoices, payments, ratio, OwnIndex) == RunState(prev.proposals + [step.proposal], acc, step.used);
      assert acc[..|acc| - 1] == prev.accepted;
      assert Union(acc) == Union(prev.accepted) + step.accepted;
      forall i, j | 0 <= i < j < |acc|
        ensures acc[i] * acc[j] == {}
      {
        if j == |acc| - 1 {
          assert acc[i] <= prev.used;
        }
      }
    }
  }

  /**
    Every invoice matched singly stays in the used set, and no other payment commits it.
  */
  ghost predicate SinglesKept(st: RunState) {
    && |st.proposals| == |st.accepted|
    && (forall i :: 0 <= i < |st.accepted| && st.proposals[i].Single? ==> st.accepted[i] <= st.used)
    && (forall i, j :: 0 <= i < j < |st.accepted| && st.proposals[i].Single? ==> st.accepted[i] * st.accepted[j] == {})
  }

  lemma SinglesKeptStep(invoices: seq<Invoice>, prev: RunState, s: Step)
    requires SinglesKept(prev)
    requires Commits(invoices, prev.used, s, AsWritten) && ProposalBounds(invoices, prev.used, s)
    ensures SinglesKept(RunState(prev.proposals + [s.proposal], prev.accepted + [s.accepted], s.used))
  {
    var st := RunState(prev.proposals + [s.proposal], prev.accepted + [s.accepted], s.used);
    var n := |prev.accepted|;
    forall i | 0 <= i < n + 1 && st.proposals[i].Single?
      ensures st.accepted[i] <= st.used
    {
      if i < n {
        assert st.accepted[i] == prev.accepted[i] && st.proposals[i] == prev.proposals[i];
      }
    }
    forall i, j | 0 <= i < j < n + 1 && st.proposals[i].Single?
      ensures st.accepted[i] * st.accepted[j] == {}
    {
      assert st.accepted[i] == prev.accepted[i] && st.proposals[i] == prev.proposals[i];
      if j < n {
        assert st.accepted[j] == prev.accepted[j];
      } else {
        assert st.accepted[i] <= prev.used;
      }
    }
  }

  /**
    As written, an invoice matched singly is never committed again: a later payment
    cannot accept it, singly or in a combination.
  */
  lemma {:induction false} SingleNeverReused(invoices: seq<Invoice>, payments: seq<Payment>, ratio: Ratio)
    ensures SinglesKept(Run(invoices, payments, ratio, AsWritten))
  {
    if payments != [] {
      var n := |payments| - 1;
      var prev := Run(invoices, payments[..n], ratio, AsWritten);
      SingleNeverReused(invoices, payments[..n], ratio);
      var step := Decide(invoices, prev.used, payments[n], ratio, AsWritten);
      DecideSpec(invoices, prev.used, payments[n], ratio, AsWritten);
      SinglesKeptStep(invoices, prev, step);
      assert Run(invoices, payments, ratio, AsWritten) == RunState(prev.proposals + [step.proposal], prev.accepted + [step.accepted], step.used);
    }
  }

  /** No two ledger rows share an invoice number and total. */
  predicate DistinctKeys(invoices: seq<Invoice>) {
    forall i, j :: 0 <= i < j < |invoices| ==> !SameKey(invoices[i], invoices[j])
  }

  /** Picked candidates carry their own ledger rows. */
  predicate OwnRows(invoices: seq<Invoice>, picked: seq<Ranked>) {
    forall r :: r in picked ==> r.idx < |invoices| && r.cand.invoice == invoices[r.idx]
  }

  /** With distinct keys the lookup finds each picked invoice at its own index. */
  lemma {:induction false} MarkDistinct(invoices: seq<Invoice>, used: set<nat>, picked: seq<Ranked>)
    requires DistinctKeys(invoices) && OwnRows(invoices, picked)
    ensures MarkLookedUp(invoices, used, Allocations(picked)) == used + Indices(picked)
  {
    if picked != [] {
      var n := |picked| - 1;
      var allocs := Allocations(picked);
      assert allocs[..n] == Allocations(picked[..n]);
      MarkDistinct(invoices, used, picked[..n]);
      assert picked[n] in picked;
      var k := picked[n].idx;
      var l := LookupIndex(invoices, invoices[k]);
      assert SameKey(invoices[k], invoices[k]);
      assert l == Some(k);
      assert picked == picked[..n] + [picked[n]];
      assert Indices(picked) == Indices(picked[..n]) + {k};
    }
  }

  /** With distinct keys, marking by lookup and marking by index decide alike. */
  lemma DecideDistinct(invoices: seq<Invoice>, used: set<nat>, p: Payment, ratio: Ratio)
    requires DistinctKeys(invoices)
    ensures Decide(invoices, used, p, ratio, AsWritten) == Decide(invoices, used, p, ratio, OwnIndex)
  {
    var ranked := Rank(p, invoices, used, ratio);
    RankSpec(p, invoices, used, ratio);
    var combo := FindCombination(p.amount, ranked);
    ComboFromRanking(p.amount, ranked);
    MarkDistinct(invoices, used, combo.picked);
  }

  /**
    With distinct keys the run as written is the run that marks by index, so no invoice
    is committed twice.
  */
  lemma {:induction false} RunDistinct(invoices: seq<Invoice>, payments: seq<Payment>, ratio: Ratio)
    requires DistinctKeys(invoices)
    ensures Run(invoices, payments, ratio, AsWritten) == Run(invoices, payments, ratio, OwnIndex)
    ensures Disjoint(Run(invoices, payments, ratio, AsWritten).accepted)
  {
    if payments != [] {
      var n := |payments| - 1;
      RunDistinct(invoices, payments[..n], ratio);
      var prev := Run(invoices, payments[..n], ratio, OwnIndex);
      DecideDistinct(invoices, prev.used, payments[n], ratio);
    }
    RunOwnIndex(invoices, payments, ratio);
  }

  /**
    As written, a combined match marks the first ledger row with each invoice's number and
    total: a later row sharing the key of an earlier one is never marked.
  */
  lemma {:induction false} MarkSkipsShadowed(invoices: seq<Invoice>, used: set<nat>, allocs: seq<Allocation>, j: nat, k: nat)
    requires j < k < |invoices| && SameKey(invoices[j], invoices[k]) && k !in used
    ensures k !in MarkLookedUp(invoices, used, allocs)
  {
    if allocs != [] {
      MarkSkipsShadowed(invoices, used, allocs[..|allocs| - 1], j, k);
    }
  }

  /**
    As written, an invoice committed by a combined match whose key an earlier ledger row
    shares stays unused, so the next payment ranks it again.
  */
  lemma CombinedLeavesShadowedOpen(invoices: seq<Invoice>, used: set<nat>, p: Payment, q: Payment, ratio: Ratio, j: nat, k: nat)
    requires Decide(invoices, used, p, ratio, AsWritten).proposal.Combined?
    requires k in Decide(invoices, used, p, ratio, AsWritten).accepted
    requires j < k < |invoices| && SameKey(invoices[j], invoices[k])
    ensures var s := Decide(invoices, used, p, ratio, AsWritten);
      k !in s.used && exists r :: r in Rank(q, invoices, s.used, ratio) && r.idx == k
  {
    var ranked := Rank(p, invoices, used, ratio);
    DecideSpec(invoices, used, p, ratio, AsWritten);
    var combo := FindCombination(p.amount, ranked);
    DecideCombined(invoices, used, p, ratio, AsWritten);
    var s := Decide(invoices, used, p, ratio, AsWritten);
    assert s.used == MarkLookedUp(invoices, used, Allocations(combo.picked));
    MarkSkipsShadowed(invoices, used, Allocations(combo.picked), j, k);
    RankSpec(q, invoices, s.used, ratio);
  }

  /** A combined proposal is the combination search's result on the ranking. */
  lemma DecideCombined(invoices: seq<Invoice>, used: set<nat>, p: Payment, ratio: Ratio, marking: Marking)
    requires Decide(invoices, used, p, ratio, marking).proposal.Combined?
    ensures Decide(invoices, used, p, ratio, marking)
         == CombinedStepOf(invoices, used, p, marking, FindCombination(p.amount, Rank(p, invoices, used, ratio)))
  {
    var ranked := Rank(p, invoices, used, ratio);
    assert Decide(invoices, used, p, ratio, marking) == DecideRanked(invoices, used, p, marking, ranked);
    assert DecideRanked(invoices, used, p, marking, ranked) == NumberOrCombo(invoices, used, p, marking, ranked);
    assert NumberOrCombo(invoices, used, p, marking, ranked) == ComboOrList(invoices, used, p, marking, ranked);
  }

  /**
    Two ledger rows with the same number and total: a combined match that takes the second
    marks the first, and the second, although committed, stays unused.
  */
  lemma DuplicateKeyWitness()
    ensures var inv := Invoice(Some("A"), None, "", 1000.0);
      var picked := [Ranked(Candidate(inv, 0.55, Reasons(0.0, 1.0, 1.0)), 1)];
      1 in Indices(picked) && MarkLookedUp([inv, inv], {0}, Allocations(picked)) == {0}
  {
    var inv := Invoice(Some("A"), None, "", 1000.0);
    var picked := [Ranked(Candidate(inv, 0.55, Reasons(0.0, 1.0, 1.0)), 1)];
    var allocs := Allocations(picked);
    assert allocs[..0] == [];
    assert LookupIndex([inv, inv], inv) == Some(0);
    assert picked[0] in picked;
  }
}
