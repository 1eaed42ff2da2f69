/**
  The Indian income-tax slab calculator of the tax bot (`TaxCalculator.compute_tax`,
  `TaxBot.calculate`) and the merge of extracted incomes by source.
*/
module Tax {
  import opened Wrappers
  import opened Rounding

  datatype IncomeRecord = IncomeRecord(source: string, amount: real)
  datatype Deduction = Deduction(section: string, amount: real)

  datatype TaxSummary = TaxSummary(
    grossIncome: real,
    totalDeductions: real,
    taxableIncome: real,
    taxBeforeRebate: real,
    rebate: real,
    healthCess: real,
    taxPayable: real,
    effectiveRate: real)

  /** A slab: its upper limit (None for the open top slab) and its rate. */
  datatype Slab = Slab(limit: Option<real>, rate: real)

  const Slabs: seq<Slab> := [
    Slab(Some(250000.0), 0.0),
    Slab(Some(500000.0), 0.05),
    Slab(Some(1000000.0), 0.20),
    Slab(None, 0.30)]

  const HealthCessRate: real := 0.04

  function Max(a: real, b: real): real { if a >= b then a else b }
  function Min(a: real, b: real): real { if a <= b then a else b }

  /** The lower edge of slab k: the limit of the slab before it. */
  function Lower(k: nat): real
    requires k < |Slabs|
  {
    if k == 0 then 0.0 else Slabs[k - 1].limit.value
  }

  /** The part of `taxable` that falls in slab k. */
  function SlabAmount(taxable: real, k: nat): real
    requires k < |Slabs|
  {
    var remaining := Max(taxable - Lower(k), 0.0);
    match Slabs[k].limit
    case None => remaining
    case Some(l) => Max(Min(remaining, l - Lower(k)), 0.0)
  }

  /** The tax on the parts of `taxable` in the first n slabs. */
  function TaxUpTo(taxable: real, n: nat): real
    requires n <= |Slabs|
  {
    if n == 0 then 0.0 else TaxUpTo(taxable, n - 1) + SlabAmount(taxable, n - 1) * Slabs[n - 1].rate
  }

  /** The slab sum, before rounding. */
  function SlabTax(taxable: real): real {
    TaxUpTo(taxable, |Slabs|)
  }

  /** The slab sum in closed form: nothing up to 2.5 lakh, then 5%, 20% and 30% bands. */
  lemma SlabTaxClosedForm(taxable: real)
    requires taxable >= 0.0
    ensures taxable <= 250000.0 ==> SlabTax(taxable) == 0.0
    ensures 250000.0 <= taxable <= 500000.0 ==> SlabTax(taxable) == 0.05 * (taxable - 250000.0)
    ensures 500000.0 <= taxable <= 1000000.0 ==> SlabTax(taxable) == 12500.0 + 0.20 * (taxable - 500000.0)
    ensures 1000000.0 <= taxable ==> SlabTax(taxable) == 112500.0 + 0.30 * (taxable - 1000000.0)
  {
    assert TaxUpTo(taxable, 1) == SlabAmount(taxable, 0) * 0.0;
    assert TaxUpTo(taxable, 2) == TaxUpTo(taxable, 1) + SlabAmount(taxable, 1) * 0.05;
    assert TaxUpTo(taxable, 3) == TaxUpTo(taxable, 2) + SlabAmount(taxable, 2) * 0.20;
    assert TaxUpTo(taxable, 4) == TaxUpTo(taxable, 3) + SlabAmount(taxable, 3) * 0.30;
  }

  /** The slab sum is never negative and never falls as taxable income grows. */
  lemma SlabTaxMono(a: real, b: real)
    requires 0.0 <= a <= b
    ensures 0.0 <= SlabTax(a) <= SlabTax(b)
  {
    SlabTaxClosedForm(a);
    SlabTaxClosedForm(b);
  }

  /** Everything `compute_tax` reports for the given gross income, deductions and rebate. */
  function Summary(gross: real, deductions: real, rebate: real): TaxSummary {
    var taxable := Max(gross - deductions, 0.0);
    var before := Round2(SlabTax(taxable));
    var applied := Min(rebate, before);
    var after := before - applied;
    var cess := Round2(after * HealthCessRate);
    var payable := Round2(after + cess);
    var rate := if gross > 0.0 then payable / gross * 100.0 else 0.0;
    TaxSummary(Round2(gross), Round2(deductions), Round2(taxable), before, Round2(applied), cess, payable, Round2(rate))
  }

  /** The slab loop of `compute_tax`, which stops once nothing of the income remains. */
  method SlabLoop(taxable: real) returns (tax: real)
    requires taxable >= 0.0
    ensures tax == SlabTax(taxable)
  {
    tax := 0.0;
    var lower := 0.0;
    var remaining := taxable;
    var k := 0;
    while k < |Slabs|
      invariant 0 <= k <= |Slabs|
      invariant tax == TaxUpTo(taxable, k)
      invariant k < |Slabs| ==> lower == Lower(k) && remaining == Max(taxable - lower, 0.0)
    {
      var slab := Slabs[k];
      var slabAmount := match slab.limit
        case None => remaining
        case Some(l) => Max(Min(remaining, l - lower), 0.0);
      tax := tax + slabAmount * slab.rate;
      match slab.limit {
        case None =>
          remaining := 0.0;
        case Some(l) =>
          lower := l;
          remaining := Max(taxable - lower, 0.0);
      }
      k := k + 1;
      if remaining <= 0.0 {
        NothingAbove(taxable, k);
        return;
      }
    }
  }

  /** Once taxable income lies below slab n, the slabs from n on add nothing. */
  lemma NothingAbove(taxable: real, n: nat)
    requires 0 < n <= |Slabs|
    requires n < |Slabs| ==> taxable <= Lower(n)
    ensures SlabTax(taxable) == TaxUpTo(taxable, n)
  {
    if n < |Slabs| {
      forall k | n <= k < |Slabs|
        ensures SlabAmount(taxable, k) == 0.0
      {
        assert Lower(n) <= Lower(k);
      }
      assert TaxUpTo(taxable, 4) == TaxUpTo(taxable, 3) + SlabAmount(taxable, 3) * 0.30;
      if n < 3 {
        assert TaxUpTo(taxable, 3) == TaxUpTo(taxable, 2) + SlabAmount(taxable, 2) * 0.20;
      }
      if n < 2 {
        assert TaxUpTo(taxable, 2) == TaxUpTo(taxable, 1) + SlabAmount(taxable, 1) * 0.05;
      }
    }
  }

  /** `TaxCalculator.compute_tax`. */
  method ComputeTax(gross: real, deductions: real, rebate: real) returns (s: TaxSummary)
    ensures s == Summary(gross, deductions, rebate)
  {
    var taxable := Max(gross - deductions, 0.0);
    var tax := SlabLoop(taxable);
    var before := Round2(tax);
    var applied := Min(rebate, before);
    var after := before - applied;
    var cess := Round2(after * HealthCessRate);
    var payable := Round2(after + cess);
    var rate := if gross > 0.0 then payable / gross * 100.0 else 0.0;
    s := TaxSummary(Round2(gross), Round2(deductions), Round2(taxable), before, Round2(applied), cess, payable, Round2(rate));
  }

  /** Taxable income is gross less deductions, never below zero. */
  lemma TaxableIncome(gross: real, deductions: real, rebate: real)
    ensures var s := Summary(gross, deductions, rebate);
      s.taxableIncome == Round2(if gross >= deductions then gross - deductions else 0.0) && s.taxableIncome >= 0.0
  {
    Round2NonNegative(Max(gross - deductions, 0.0));
  }

  /** Up to 2.5 lakh of taxable income, nothing is due. */
  lemma NoTaxUpToExemption(gross: real, deductions: real, rebate: real)
    requires gross - deductions <= 250000.0
    ensures var s := Summary(gross, deductions, rebate);
      s.taxBeforeRebate == 0.0 && (rebate >= 0.0 ==> s.healthCess == 0.0 && s.taxPayable == 0.0)
  {
    var taxable := Max(gross - deductions, 0.0);
    SlabTaxClosedForm(taxable);
    RoundByGrid(0, 100.0);
  }

  /** Tax before the rebate never falls as gross income grows or deductions shrink. */
  lemma TaxBeforeRebateMono(g1: real, d1: real, g2: real, d2: real, rebate: real)
    requires g1 - d1 <= g2 - d2
    ensures 0.0 <= Summary(g1, d1, rebate).taxBeforeRebate <= Summary(g2, d2, rebate).taxBeforeRebate
  {
    var t1 := Max(g1 - d1, 0.0);
    var t2 := Max(g2 - d2, 0.0);
    SlabTaxMono(t1, t2);
    Round2Mono(SlabTax(t1), SlabTax(t2));
    Round2NonNegative(SlabTax(t1));
  }

  /**
    The rebate applied is the smaller of the rebate and the tax, so the tax after it is
    never negative; a non-negative rebate never raises it.
  */
  lemma RebateBounds(gross: real, deductions: real, rebate: real)
    ensures var s := Summary(gross, deductions, rebate);
      var after := s.taxBeforeRebate - Min(rebate, s.taxBeforeRebate);
      && 0.0 <= after
      && (rebate >= 0.0 ==> after <= s.taxBeforeRebate)
      && (rebate >= s.taxBeforeRebate ==> after == 0.0)
      && s.rebate == Round2(if rebate <= s.taxBeforeRebate then rebate else s.taxBeforeRebate)
  {
    var taxable := Max(gross - deductions, 0.0);
    SlabTaxMono(taxable, taxable);
    Round2NonNegative(SlabTax(taxable));
  }

  /**
    The payable amount is the tax after rebate plus a 4% cess, and neither is negative; the
    effective rate is 0 without positive gross income.
  */
  lemma PayableBounds(gross: real, deductions: real, rebate: real)
    ensures var s := Summary(gross, deductions, rebate);
      var after := s.taxBeforeRebate - Min(rebate, s.taxBeforeRebate);
      && s.healthCess == Round2(after * 0.04) && s.healthCess >= 0.0
      && s.taxPayable == Round2(after + s.healthCess) && s.taxPayable >= 0.0
      && (gross <= 0.0 ==> s.effectiveRate == 0.0)
      && (gross > 0.0 ==> s.effectiveRate == Round2(s.taxPayable / gross * 100.0) && s.effectiveRate >= 0.0)
  {
    var s := Summary(gross, deductions, rebate);
    var after := s.taxBeforeRebate - Min(rebate, s.taxBeforeRebate);
    CessBounds(after);
    RateBounds(s.taxPayable, gross);
  }

  lemma CessBounds(after: real)
    requires after >= 0.0
    ensures Round2(after * HealthCessRate) >= 0.0 && Round2(after + Round2(after * HealthCessRate)) >= 0.0
  {
    Round2NonNegative(after * HealthCessRate);
    Round2NonNegative(after + Round2(after * HealthCessRate));
  }

  lemma RateBounds(payable: real, gross: real)
    requires payable >= 0.0
    ensures Round2(if gross > 0.0 then payable / gross * 100.0 else 0.0) >= 0.0
    ensures gross <= 0.0 ==> Round2(if gross > 0.0 then payable / gross * 100.0 else 0.0) == 0.0
  {
    RoundByGrid(0, 100.0);
    if gross > 0.0 {
      assert payable / gross >= 0.0;
      Round2NonNegative(payable / gross * 100.0);
    }
  }

  function SumIncomes(incomes: seq<IncomeRecord>): real {
    if incomes == [] then 0.0 else SumIncomes(incomes[..|incomes| - 1]) + incomes[|incomes| - 1].amount
  }

  function SumDeductions(ds: seq<Deduction>): real {
    if ds == [] then 0.0 else SumDeductions(ds[..|ds| - 1]) + ds[|ds| - 1].amount
  }

  /** `TaxBot.calculate`: the summary for the summed incomes and summed deductions. */
  function Calculate(incomes: seq<IncomeRecord>, deductions: seq<Deduction>, rebate: real): (s: TaxSummary)
    ensures s.grossIncome == Round2(SumIncomes(incomes)) && s.totalDeductions == Round2(SumDeductions(deductions))
  {
    Summary(SumIncomes(incomes), SumDeductions(deductions), rebate)
  }

  /** One more non-negative income never lowers the tax before rebate. */
  lemma CalculateMoreIncome(incomes: seq<IncomeRecord>, r: IncomeRecord, deductions: seq<Deduction>, rebate: real)
    requires r.amount >= 0.0
    ensures Calculate(incomes, deductions, rebate).taxBeforeRebate <= Calculate(incomes + [r], deductions, rebate).taxBeforeRebate
  {
    assert (incomes + [r])[..|incomes|] == incomes;
    TaxBeforeRebateMono(SumIncomes(incomes), SumDeductions(deductions), SumIncomes(incomes + [r]), SumDeductions(deductions), rebate);
  }

  /** The distinct sources of `incomes`, in the order each first appears. */
  function Sources(incomes: seq<IncomeRecord>): (ks: seq<string>)
    ensures forall i, j :: 0 <= i < j < |ks| ==> ks[i] != ks[j]
    ensures forall k :: k in ks <==> exists r :: r in incomes && r.source == k
  {
    if incomes == [] then []
    else
      var prev := Sources(incomes[..|incomes| - 1]);
      var last := incomes[|incomes| - 1];
      assert forall r :: r in incomes <==> r in incomes[..|incomes| - 1] || r == last;
      if last.source in prev then prev else prev + [last.source]
  }

  /** The sum of the amounts recorded under `source`. */
  function SourceTotal(incomes: seq<IncomeRecord>, source: string): real {
    if incomes == [] then 0.0
    else
      var last := incomes[|incomes| - 1];
      SourceTotal(incomes[..|incomes| - 1], source) + (if last.source == source then last.amount else 0.0)
  }

  /** The merged incomes: one record per source, in first-seen order, with the source's total. */
  function Merged(incomes: seq<IncomeRecord>): (m: seq<IncomeRecord>)
    ensures |m| == |Sources(incomes)|
    ensures forall i :: 0 <= i < |m| ==> m[i] == IncomeRecord(Sources(incomes)[i], Round2(SourceTotal(incomes, Sources(incomes)[i])))
  {
    var ks := Sources(incomes);
    seq(|ks|, i requires 0 <= i < |ks| => IncomeRecord(ks[i], Round2(SourceTotal(incomes, ks[i]))))
  }

  /** Every merged record has its own source, and every income's source has a merged record. */
  lemma MergedSources(incomes: seq<IncomeRecord>)
    ensures forall i, j :: 0 <= i < j < |Merged(incomes)| ==> Merged(incomes)[i].source != Merged(incomes)[j].source
    ensures forall r :: r in incomes ==> exists i :: 0 <= i < |Merged(incomes)| && Merged(incomes)[i].source == r.source
  {
    var m := Merged(incomes);
    var ks := Sources(incomes);
    forall r | r in incomes
      ensures exists i :: 0 <= i < |m| && m[i].source == r.source
    {
      assert r.source in ks;
      var i :| 0 <= i < |ks| && ks[i] == r.source;
      assert m[i].source == r.source;
    }
  }

  /** The merge loop at the end of `TaxBot.extract`, over an insertion-ordered dictionary. */
  method MergeBySource(incomes: seq<IncomeRecord>) returns (merged: seq<IncomeRecord>)
    ensures merged == Merged(incomes)
  {
    var keys: seq<string> := [];
    var sums: map<string, real> := map[];
    for i := 0 to |incomes|
      invariant (keys, sums) == Tally(incomes[..i])
    {
      var rec := incomes[i];
      assert incomes[..i + 1][..i] == incomes[..i];
      var current := if rec.source in sums then sums[rec.source] else 0.0;
      if rec.source !in sums {
        keys := keys + [rec.source];
      }
      sums := sums[rec.source := current + rec.amount];
    }
    assert incomes[..|incomes|] == incomes;
    TallyMerged(incomes);
    merged := seq(|keys|, j requires 0 <= j < |keys| && keys[j] in sums => IncomeRecord(keys[j], Round2(sums[keys[j]])));
  }

  /** `keys` are the sources of `incomes` in first-seen order and `sums` maps each to its total. */
  ghost predicate Tallied(incomes: seq<IncomeRecord>, keys: seq<string>, sums: map<string, real>) {
    && keys == Sources(incomes)
    && (forall k :: k in sums <==> k in keys)
    && (forall k :: k in sums ==> sums[k] == SourceTotal(incomes, k))
  }

  /** The source order and the running sums the merge loop holds after `incomes`. */
  function Tally(incomes: seq<IncomeRecord>): (seq<string>, map<string, real>) {
    if incomes == [] then ([], map[])
    else
      var (keys, sums) := Tally(incomes[..|incomes| - 1]);
      AddRecord(keys, sums, incomes[|incomes| - 1])
  }

  /** One pass of the merge loop: a new source is appended, and the record's amount is added
      to its source's sum. */
  function AddRecord(keys: seq<string>, sums: map<string, real>, rec: IncomeRecord): (seq<string>, map<string, real>) {
    var current := if rec.source in sums then sums[rec.source] else 0.0;
    (if rec.source in sums then keys else keys + [rec.source], sums[rec.source := current + rec.amount])
  }

  /** The running sums are the sources in first-seen order with their totals. */
  lemma {:induction false} TallyTallied(incomes: seq<IncomeRecord>)
    ensures Tallied(incomes, Tally(incomes).0, Tally(incomes).1)
  {
    if incomes != [] {
      var prev := incomes[..|incomes| - 1];
      var last := incomes[|incomes| - 1];
      assert prev + [last] == incomes;
      TallyTallied(prev);
      var (keys, sums) := Tally(prev);
      TallyStep(prev, last, keys, sums);
    }
  }

  /** Reading the sums off in source order gives the merged incomes. */
  lemma TallyMerged(incomes: seq<IncomeRecord>)
    ensures var (keys, sums) := Tally(incomes);
      && |keys| == |Merged(incomes)|
      && forall j :: 0 <= j < |keys| ==> keys[j] in sums && Merged(incomes)[j] == IncomeRecord(keys[j], Round2(sums[keys[j]]))
  {
    TallyTallied(incomes);
  }

  /** Adding one record to the running sums keeps them tallied. */
  lemma TallyStep(incomes: seq<IncomeRecord>, rec: IncomeRecord, keys: seq<string>, sums: map<string, real>)
    requires Tallied(incomes, keys, sums)
    ensures Tallied(incomes + [rec], AddRecord(keys, sums, rec).0, AddRecord(keys, sums, rec).1)
  {
    var next := incomes + [rec];
    SnocParts(incomes, rec);
    if rec.source !in sums {
      ZeroTotal(incomes, rec.source);
    }
    var sums' := AddRecord(keys, sums, rec).1;
    forall k | k in sums'
      ensures sums'[k] == SourceTotal(next, k)
    {
      SourceTotalSnoc(incomes, rec, k);
      if k != rec.source {
        assert k in keys;
      }
    }
  }

  lemma SnocParts(incomes: seq<IncomeRecord>, rec: IncomeRecord)
    ensures (incomes + [rec])[..|incomes|] == incomes && (incomes + [rec])[|incomes|] == rec
  {
  }

  lemma SourceTotalSnoc(incomes: seq<IncomeRecord>, rec: IncomeRecord, k: string)
    ensures SourceTotal(incomes + [rec], k) == SourceTotal(incomes, k) + (if rec.source == k then rec.amount else 0.0)
  {
    SnocParts(incomes, rec);
  }

  /** A source that never occurs totals zero. */
  lemma {:induction false} ZeroTotal(incomes: seq<IncomeRecord>, source: string)
    requires source !in Sources(incomes)
    ensures SourceTotal(incomes, source) == 0.0
  {
    if incomes != [] {
      var prev := incomes[..|incomes| - 1];
      assert forall r :: r in prev ==> r in incomes;
      ZeroTotal(prev, source);
      assert incomes[|incomes| - 1] in incomes;
    }
  }
}
