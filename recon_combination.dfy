/**
  The combined-invoice heuristic (`_find_combination_match`): among the first ten ranked
  candidates, look at every pair and then every triple, in itertools.combinations order,
  for invoices whose totals add up to the payment amount.
*/
module ReconCombination {
  import opened Rounding
  import opened ReconTypes
  import opened ReconScoring

  const PoolLimit: nat := 10
  const MaxComb: nat := 3

  function Min(a: int, b: int): int { if a <= b then a else b }

  /** A strictly increasing tuple of positions below n. */
  predicate Tuple(t: seq<nat>, n: nat) {
    && (forall j :: 0 <= j < |t| ==> t[j] < n)
    && (forall i, j :: 0 <= i < j < |t| ==> t[i] < t[j])
  }

  /** itertools.combinations(range(lo, n), r): the increasing r-tuples, lexicographically. */
  function CombosFrom(lo: nat, n: nat, r: nat): (cs: seq<seq<nat>>)
    ensures forall k :: 0 <= k < |cs| ==> |cs[k]| == r && Tuple(cs[k], n)
    ensures forall k :: 0 <= k < |cs| ==> forall j :: 0 <= j < |cs[k]| ==> lo <= cs[k][j]
    decreases n - lo
  {
    if r == 0 then [[]]
    else if lo >= n then []
    else
      var tail := CombosFrom(lo + 1, n, r - 1);
      seq(|tail|, k requires 0 <= k < |tail| => [lo] + tail[k]) + CombosFrom(lo + 1, n, r)
  }

  /** Tuples of size r, then r + 1, ..., up to m: the order the two nested loops visit. */
  function Order(n: nat, r: nat, m: nat): (cs: seq<seq<nat>>)
    ensures forall k :: 0 <= k < |cs| ==> r <= |cs[k]| <= m && Tuple(cs[k], n)
    decreases m - r
  {
    if r > m then [] else CombosFrom(0, n, r) + Order(n, r + 1, m)
  }

  /** The candidates at the positions of a tuple. */
  function Pick(pool: seq<Ranked>, t: seq<nat>): (ps: seq<Ranked>)
    requires forall j :: 0 <= j < |t| ==> t[j] < |pool|
    ensures |ps| == |t| && forall j :: 0 <= j < |t| ==> ps[j] == pool[t[j]]
  {
    seq(|t|, j requires 0 <= j < |t| => pool[t[j]])
  }

  function SumTotals(ps: seq<Ranked>): real {
    if ps == [] then 0.0 else SumTotals(ps[..|ps| - 1]) + ps[|ps| - 1].cand.invoice.total
  }

  function SumScores(ps: seq<Ranked>): real {
    if ps == [] then 0.0 else SumScores(ps[..|ps| - 1]) + ps[|ps| - 1].cand.score
  }

  function Mean(ps: seq<Ranked>): real
    requires |ps| > 0
  {
    SumScores(ps) / |ps| as real
  }

  /** The totals add up to the amount within the tolerance. */
  predicate Within(ps: seq<Ranked>, amount: real, tol: real) {
    Abs(SumTotals(ps) - amount) <= tol
  }

  /** 0.7 * mean score + 0.3 * amount closeness, for a combination that is not within tolerance. */
  function ApproxScore(ps: seq<Ranked>, amount: real): real
    requires |ps| > 0
  {
    var s := SumTotals(ps);
    var closeness := 1.0 - Abs(s - amount) / Max(Max(amount, s), 1.0);
    Mean(ps) * 0.7 + closeness * 0.3
  }

  /** The picked candidates with the score that goes with them. */
  datatype ComboResult = ComboResult(picked: seq<Ranked>, score: real)

  const NoCombo := ComboResult([], 0.0)

  predicate FitsAll(cs: seq<seq<nat>>, n: nat) {
    forall k :: 0 <= k < |cs| ==> |cs[k]| > 0 && forall j :: 0 <= j < |cs[k]| ==> cs[k][j] < n
  }

  /** Keeps the better of `best` and a combination outside the tolerance. */
  function Step(ps: seq<Ranked>, amount: real, best: ComboResult): ComboResult
    requires |ps| > 0
  {
    if ApproxScore(ps, amount) > best.score then ComboResult(ps, Round3(ApproxScore(ps, amount))) else best
  }

  /**
    Visits the tuples in order: the first one within tolerance ends the search with its
    mean score; otherwise `best` is replaced whenever a combination's unrounded approximate
    score beats the (rounded) best score so far.
  */
  function Scan(cs: seq<seq<nat>>, pool: seq<Ranked>, amount: real, tol: real, best: ComboResult): ComboResult
    requires FitsAll(cs, |pool|)
    decreases |cs|
  {
    if cs == [] then best
    else
      var ps := Pick(pool, cs[0]);
      if Within(ps, amount, tol) then ComboResult(ps, Round3(Mean(ps)))
      else Scan(cs[1..], pool, amount, tol, Step(ps, amount, best))
  }

  function Tolerance(amount: real): real { Max(1.0, 0.01 * amount) }

  /** The first ten candidates (or all of them). */
  function Pool(candidates: seq<Ranked>): seq<Ranked> {
    candidates[..Min(|candidates|, PoolLimit)]
  }

  /** The tuples searched for a pool of n candidates: pairs, then triples. */
  function Searched(n: nat): seq<seq<nat>> {
    Order(n, 2, Min(MaxComb, n))
  }

  /** What `_find_combination_match` returns for a payment amount and the ranked candidates. */
  function FindCombination(amount: real, candidates: seq<Ranked>): ComboResult {
    if candidates == [] then NoCombo
    else
      var pool := Pool(candidates);
      Scan(Searched(|pool|), pool, amount, Tolerance(amount), NoCombo)
  }

  /** One iteration of the inner loop, as a step of Scan over the remaining tuples. */
  lemma ScanStep(a: seq<seq<nat>>, k: nat, rest: seq<seq<nat>>, pool: seq<Ranked>, amount: real, tol: real, best: ComboResult)
    requires k < |a| && FitsAll(a, |pool|) && FitsAll(rest, |pool|)
    ensures FitsAll(a[k..] + rest, |pool|) && FitsAll(a[k + 1..] + rest, |pool|)
    ensures var ps := Pick(pool, a[k]);
      Scan(a[k..] + rest, pool, amount, tol, best)
      == if Within(ps, amount, tol) then ComboResult(ps, Round3(Mean(ps)))
         else Scan(a[k + 1..] + rest, pool, amount, tol, Step(ps, amount, best))
  {
    var cs := a[k..] + rest;
    assert cs[0] == a[k];
    assert cs[1..] == a[k + 1..] + rest;
  }

  lemma FitsSuffix(a: seq<seq<nat>>, k: nat, rest: seq<seq<nat>>, n: nat)
    requires k <= |a| && FitsAll(a, n) && FitsAll(rest, n)
    ensures FitsAll(a[k..] + rest, n)
  {
    var cs := a[k..] + rest;
    forall i | 0 <= i < |cs|
      ensures |cs[i]| > 0 && forall j :: 0 <= j < |cs[i]| ==> cs[i][j] < n
    {
      if i < |a| - k {
        assert cs[i] == a[k + i];
      } else {
        assert cs[i] == rest[i - (|a| - k)];
      }
    }
  }

  lemma FitsOrder(n: nat, r: nat, m: nat)
    requires r >= 1
    ensures FitsAll(CombosFrom(0, n, r), n) && FitsAll(Order(n, r, m), n)
  {
  }

  /** With fewer than two candidates there is nothing to combine. */
  lemma FewerThanTwo(amount: real, candidates: seq<Ranked>)
    requires |candidates| < 2
    ensures FindCombination(amount, candidates) == NoCombo
  {
    if candidates != [] {
      assert Searched(|Pool(candidates)|) == [];
    }
  }

  /** The first tuple within tolerance decides the result, with its rounded mean score. */
  lemma {:induction false} ScanFirstHit(cs: seq<seq<nat>>, pool: seq<Ranked>, amount: real, tol: real, best: ComboResult, j: nat)
    requires FitsAll(cs, |pool|) && j < |cs|
    requires Within(Pick(pool, cs[j]), amount, tol)
    requires forall i :: 0 <= i < j ==> !Within(Pick(pool, cs[i]), amount, tol)
    ensures Scan(cs, pool, amount, tol, best) == ComboResult(Pick(pool, cs[j]), Round3(Mean(Pick(pool, cs[j]))))
    decreases j
  {
    if j > 0 {
      var ps := Pick(pool, cs[0]);
      assert !Within(ps, amount, tol);
      var tail := cs[1..];
      assert FitsAll(tail, |pool|);
      assert tail[j - 1] == cs[j];
      forall i | 0 <= i < j - 1
        ensures !Within(Pick(pool, tail[i]), amount, tol)
      {
        assert tail[i] == cs[i + 1];
      }
      ScanFirstHit(tail, pool, amount, tol, Step(ps, amount, best), j - 1);
    }
  }

  /** A score already rounded to three places. */
  predicate OnGrid(x: real) { Round3(x) == x }

  /**
    When no tuple is within tolerance, the result is `best` or one of the scanned
    combinations, and its score is at least the rounded approximate score of every one.
  */
  lemma {:induction false} ScanNoHit(cs: seq<seq<nat>>, pool: seq<Ranked>, amount: real, tol: real, best: ComboResult)
    requires FitsAll(cs, |pool|) && OnGrid(best.score)
    requires forall i :: 0 <= i < |cs| ==> !Within(Pick(pool, cs[i]), amount, tol)
    ensures var r := Scan(cs, pool, amount, tol, best);
      && OnGrid(r.score) && best.score <= r.score
      && (forall i :: 0 <= i < |cs| ==> Round3(ApproxScore(Pick(pool, cs[i]), amount)) <= r.score)
      && (r == best || exists i :: 0 <= i < |cs| && r == ComboResult(Pick(pool, cs[i]), Round3(ApproxScore(Pick(pool, cs[i]), amount))))
    decreases |cs|
  {
    if cs != [] {
      var ps := Pick(pool, cs[0]);
      var a := ApproxScore(ps, amount);
      var next := Step(ps, amount, best);
      if a > best.score {
        Round3Mono(best.score, a);
        Round3Idempotent(a);
      } else {
        Round3Mono(a, best.score);
      }
      assert OnGrid(next.score) && best.score <= next.score && Round3(a) <= next.score;
      var tail := cs[1..];
      forall i | 0 <= i < |tail|
        ensures !Within(Pick(pool, tail[i]), amount, tol)
      {
        assert tail[i] == cs[i + 1];
      }
      ScanNoHit(tail, pool, amount, tol, next);
      var r := Scan(tail, pool, amount, tol, next);
      assert r == Scan(cs, pool, amount, tol, best);
      forall i | 0 <= i < |cs|
        ensures Round3(ApproxScore(Pick(pool, cs[i]), amount)) <= r.score
      {
        if i > 0 {
          assert cs[i] == tail[i - 1];
        }
      }
      if r != best {
        if r == next {
          assert r == ComboResult(Pick(pool, cs[0]), Round3(ApproxScore(Pick(pool, cs[0]), amount)));
        } else {
          var i :| 0 <= i < |tail| && r == ComboResult(Pick(pool, tail[i]), Round3(ApproxScore(Pick(pool, tail[i]), amount)));
          assert tail[i] == cs[i + 1];
        }
      }
    }
  }

  /** Whatever Scan returns is `best` or picks the candidates at the positions of one tuple. */
  lemma {:induction false} ScanPicks(cs: seq<seq<nat>>, pool: seq<Ranked>, amount: real, tol: real, best: ComboResult)
    requires FitsAll(cs, |pool|)
    ensures var r := Scan(cs, pool, amount, tol, best);
      r == best || exists i :: 0 <= i < |cs| && r.picked == Pick(pool, cs[i])
    decreases |cs|
  {
    if cs != [] {
      var ps := Pick(pool, cs[0]);
      if !Within(ps, amount, tol) {
        var tail := cs[1..];
        var next := Step(ps, amount, best);
        ScanPicks(tail, pool, amount, tol, next);
        var r := Scan(tail, pool, amount, tol, next);
        if r != best && r != next {
          var i :| 0 <= i < |tail| && r.picked == Pick(pool, tail[i]);
          assert tail[i] == cs[i + 1];
        }
      }
    }
  }

  /** The candidates an increasing tuple picks from a pool without repeats are different members of it. */
  lemma PickDistinct(pool: seq<Ranked>, t: seq<nat>)
    requires forall i, j :: 0 <= i < j < |pool| ==> pool[i] != pool[j]
    requires Tuple(t, |pool|)
    ensures forall x :: x in Pick(pool, t) ==> x in pool
    ensures forall i, j :: 0 <= i < j < |t| ==> Pick(pool, t)[i] != Pick(pool, t)[j]
  {
    var ps := Pick(pool, t);
    forall i, j | 0 <= i < j < |t|
      ensures ps[i] != ps[j]
    {
      assert t[i] < t[j];
    }
  }

  /** Search over one pool: see FindCombinationShape. */
  lemma SearchShape(pool: seq<Ranked>, amount: real, tol: real)
    requires forall i, j :: 0 <= i < j < |pool| ==> pool[i] != pool[j]
    ensures var r := Scan(Searched(|pool|), pool, amount, tol, NoCombo);
      && (r.picked == [] ==> r.score == 0.0)
      && (r.picked == [] || 2 <= |r.picked| <= 3)
      && (forall x :: x in r.picked ==> x in pool)
      && (forall i, j :: 0 <= i < j < |r.picked| ==> r.picked[i] != r.picked[j])
  {
    var cs := Searched(|pool|);
    FitsOrder(|pool|, 2, Min(MaxComb, |pool|));
    ScanPicks(cs, pool, amount, tol, NoCombo);
    var r := Scan(cs, pool, amount, tol, NoCombo);
    if r != NoCombo {
      var k :| 0 <= k < |cs| && r.picked == Pick(pool, cs[k]);
      assert Tuple(cs[k], |pool|) && 2 <= |cs[k]| <= 3;
      PickDistinct(pool, cs[k]);
    }
  }

  /**
    A combination is two or three different candidates from the first ten; an empty
    result has score 0.
  */
  lemma FindCombinationShape(amount: real, candidates: seq<Ranked>)
    requires forall i, j :: 0 <= i < j < |candidates| ==> candidates[i] != candidates[j]
    ensures var r := FindCombination(amount, candidates);
      && (r.picked == [] ==> r.score == 0.0)
      && (r.picked == [] || 2 <= |r.picked| <= 3)
      && (forall x :: x in r.picked ==> x in candidates[..Min(|candidates|, PoolLimit)])
      && (forall i, j :: 0 <= i < j < |r.picked| ==> r.picked[i] != r.picked[j])
  {
    if candidates != [] {
      var pool := Pool(candidates);
      PoolDistinct(candidates);
      SearchShape(pool, amount, Tolerance(amount));
    }
  }

  /** A pool drawn from distinct candidates holds distinct candidates. */
  lemma PoolDistinct(candidates: seq<Ranked>)
    requires forall i, j :: 0 <= i < j < |candidates| ==> candidates[i] != candidates[j]
    ensures var pool := Pool(candidates); forall i, j :: 0 <= i < j < |pool| ==> pool[i] != pool[j]
  {
  }

  /** The first pair or triple whose totals lie within the tolerance wins. */
  lemma FirstWithinTolerance(amount: real, candidates: seq<Ranked>, j: nat)
    requires candidates != []
    requires j < |Searched(|Pool(candidates)|)|
    requires var pool := Pool(candidates); var cs := Searched(|pool|);
      FitsAll(cs, |pool|)
      && Within(Pick(pool, cs[j]), amount, Tolerance(amount))
      && forall i :: 0 <= i < j ==> !Within(Pick(pool, cs[i]), amount, Tolerance(amount))
    ensures var pool := Pool(candidates); var ps := Pick(pool, Searched(|pool|)[j]);
      FindCombination(amount, candidates) == ComboResult(ps, Round3(Mean(ps)))
  {
    var pool := Pool(candidates);
    ScanFirstHit(Searched(|pool|), pool, amount, Tolerance(amount), NoCombo, j);
  }

  /**
    r scores at least the rounded approximate score of every tuple of cs, and is either
    the empty result or one of those tuples with its rounded approximate score.
  */
  predicate BestOf(r: ComboResult, cs: seq<seq<nat>>, pool: seq<Ranked>, amount: real)
    requires FitsAll(cs, |pool|)
  {
    && (forall i :: 0 <= i < |cs| ==> Round3(ApproxScore(Pick(pool, cs[i]), amount)) <= r.score)
    && (r == NoCombo || exists i :: 0 <= i < |cs| && r == ComboResult(Pick(pool, cs[i]), Round3(ApproxScore(Pick(pool, cs[i]), amount))))
  }

  /** No tuple of cs picks candidates whose totals lie within the tolerance. */
  predicate NoneWithin(cs: seq<seq<nat>>, pool: seq<Ranked>, amount: real, tol: real)
    requires FitsAll(cs, |pool|)
  {
    forall i :: 0 <= i < |cs| ==> !Within(Pick(pool, cs[i]), amount, tol)
  }

  /** Search over one pool: see BestApproximate. */
  lemma SearchBest(pool: seq<Ranked>, amount: real, tol: real)
    requires FitsAll(Searched(|pool|), |pool|)
    requires NoneWithin(Searched(|pool|), pool, amount, tol)
    ensures BestOf(Scan(Searched(|pool|), pool, amount, tol, NoCombo), Searched(|pool|), pool, amount)
  {
    RoundByGrid(0, 1000.0);
    assert OnGrid(NoCombo.score);
    ScanNoHit(Searched(|pool|), pool, amount, tol, NoCombo);
  }

  /**
    Without a combination within tolerance, the result is empty or one of the searched
    combinations, and its score bounds every rounded approximate score.
  */
  lemma BestApproximate(amount: real, candidates: seq<Ranked>)
    requires candidates != []
    requires FitsAll(Searched(|Pool(candidates)|), |Pool(candidates)|)
    requires NoneWithin(Searched(|Pool(candidates)|), Pool(candidates), amount, Tolerance(amount))
    ensures BestOf(FindCombination(amount, candidates), Searched(|Pool(candidates)|), Pool(candidates), amount)
  {
    SearchBest(Pool(candidates), amount, Tolerance(amount));
  }

  /**
    The inner loop of `_find_combination_match` over one size of combination. `found`
    reports the early return; otherwise `res` is the updated best.
  */
  method TryCombos(combos: seq<seq<nat>>, ghost rest: seq<seq<nat>>, pool: seq<Ranked>, amount: real, tol: real, best: ComboResult)
    returns (found: bool, res: ComboResult)
    requires FitsAll(combos, |pool|) && FitsAll(rest, |pool|)
    ensures FitsAll(combos + rest, |pool|)
    ensures found ==> res == Scan(combos + rest, pool, amount, tol, best)
    ensures !found ==> Scan(combos + rest, pool, amount, tol, best) == Scan(rest, pool, amount, tol, res)
  {
    FitsSuffix(combos, 0, rest, |pool|);
    assert combos[0..] == combos;
    res := best;
    var k := 0;
    while k < |combos|
      invariant 0 <= k <= |combos|
      invariant FitsAll(combos[k..] + rest, |pool|)
      invariant Scan(combos + rest, pool, amount, tol, best) == Scan(combos[k..] + rest, pool, amount, tol, res)
    {
      ScanStep(combos, k, rest, pool, amount, tol, res);
      FitsSuffix(combos, k + 1, rest, |pool|);
      var combo := Pick(pool, combos[k]);
      if Within(combo, amount, tol) {
        return true, ComboResult(combo, Round3(Mean(combo)));
      }
      var combinedScore := ApproxScore(combo, amount);
      ghost var next := Step(combo, amount, res);
      if combinedScore > res.score {
        res := ComboResult(combo, Round3(combinedScore));
      }
      assert res == next;
      k := k + 1;
    }
    assert combos[k..] + rest == rest;
    return false, res;
  }

  /** The loops of `_find_combination_match`. */
  method FindCombinationMatch(paymentAmount: real, candidates: seq<Ranked>) returns (res: ComboResult)
    ensures res == FindCombination(paymentAmount, candidates)
  {
    if |candidates| == 0 {
      return NoCombo;
    }
    var tol := Tolerance(paymentAmount);
    var best := NoCombo;
    var n := Min(|candidates|, PoolLimit);
    var pool := candidates[..n];
    var m := Min(MaxComb, |pool|);
    ghost var goal := FindCombination(paymentAmount, candidates);
    assert pool == Pool(candidates) && goal == Scan(Order(n, 2, m), pool, paymentAmount, tol, NoCombo);
    var r := 2;
    FitsOrder(n, 2, m);
    while r <= m
      invariant 2 <= r <= m + 1 || (r == 2 && m < 2)
      invariant FitsAll(Order(n, r, m), n)
      invariant goal == Scan(Order(n, r, m), pool, paymentAmount, tol, best)
      decreases m + 1 - r
    {
      FitsOrder(n, r + 1, m);
      var found;
      found, best := TryCombos(CombosFrom(0, n, r), Order(n, r + 1, m), pool, paymentAmount, tol, best);
      if found {
        return best;
      }
      r := r + 1;
    }
    return best;
  }
}
