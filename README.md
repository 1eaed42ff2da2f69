# CAAI agents: a verified Dafny model

This project models the rule-based core of the CAAI chartered-accountant assistant backend,
and proves properties of it. The main part is the payment-to-invoice reconciliation matcher
of the ledger reconciliation agent, modelled in the `Recon*` modules:

- ledger and payment row conversion;
- amount closeness and candidate scoring;
- the bounded search for combinations of two or three invoices;
- the four-step decision ladder: auto-accept at 0.78, the invoice-number fallback at 0.5,
  the combined match at 0.65, and otherwise a list of the top five candidates;
- the set of used invoices that later payments must respect.

Beside it are the smaller rule and state pieces the agents rely on:

- `Tax`: the income-tax slab calculator and the merge of incomes by source.
- `Gst`: GSTIN validation, invoice-number normalisation, line taxable values, invoice totals
  split into IGST or CGST and SGST, organisation loading and the GST agent's action router.
- `BookBot`: keyword categorisation, journal building and the profit-and-loss sign rule.
- `Compliance`: the row-level compliance rules and the severity sort.
- `Collections`: account prioritisation and reminder drafting.
- `Auth`: the role hierarchy, the agent-access table, password strength, and the update and
  delete rules of the user routes, over a user table held as a map.
- `CommandPlan` and `GoalPlan`: the two planners, one matching command prefixes and one
  matching goal phrases.
- `Config`: the `.env` line parser, the load rule and the settings read from the environment.
- `Review`: the human-review queue.
- `Memory`: the agent's short-term and long-term memory.
- `Gemini`: model selection, the retry policy with back-off, and error messages.

Shared helpers live in `Wrappers` (Option, Result), `Text` (Python's whitespace set,
`strip`, ASCII case mapping, substring tests and `int()`), `Rounding` (rounding to a fixed
number of places) and `StableSort` (Python's stable descending sort).

The model follows the source's form.

- Loops that update variables are `method`s with loop invariants. Each is proved equal to a
  specification function. Examples are the payments loop, the combination search, the slab
  loop, the compliance rules, the `.env` read loop and the retry loop.
- Objects whose fields the source updates are classes with `modifies` clauses. These are the
  review queue, the memory module, the process environment and the user table.
- Pure rules are functions, and lemmas state what the source promises about them.

Foreign code is passed in as parameters. This covers:

- rapidfuzz's similarity ratio, as any function into [0, 100];
- `float()` on a cell, and the date parsers;
- the Gemini model constructor and the content call, as functions of the attempt number;
- `is_file`, reading a file, and the password hash;
- the lines typed at the approval prompt, as a sequence of answers.

## Model

| member | source | states |
|---|---|---|
| ReconScoring.AmountScore | backend/agents/recon_agent.py:99-106 | the amount closeness lies in [0, 1] and is 0 when both amounts are zero or negative |
| ReconScoring.AmountScoreSymmetric | backend/agents/recon_agent.py:99-106 | closeness does not depend on which amount is the invoice and which the payment |
| ReconScoring.AmountScoreOne | backend/agents/recon_agent.py:99-106 | closeness is exactly 1 if and only if the amounts are equal and positive |
| ReconScoring.DetailsScore | backend/agents/recon_agent.py:114 | the details similarity is the fuzzy ratio over 100, in [0, 1], and 0 when the reference or the details are empty |
| ReconScoring.MakeCandidate | backend/agents/recon_agent.py:108-134 | a candidate carries its invoice, a score in [0, 1], an invoice-number reason of 1 exactly when the number is set and occurs in the reference, and reason scores in [0, 1] |
| ReconScoring.HitAndAmountScore | backend/agents/recon_agent.py:113-132 | an invoice-number hit with equal positive amounts scores at least 0.85 |
| ReconScoring.NoHitScore | backend/agents/recon_agent.py:113-132 | without an invoice-number hit the score is at most 0.55 |
| ReconScoring.AutoAcceptNeedsHit | backend/agents/recon_agent.py:118-132 | a candidate at the 0.78 auto-accept threshold always has an invoice-number hit |
| ReconReaders.FirstCell | backend/agents/recon_agent.py:70 | `r.get(a) or r.get(b)` is empty exactly when both cells are missing or empty |
| ReconReaders.NonEmpty | backend/agents/recon_agent.py:70 | `x or None` is None exactly for the empty text |
| ReconReaders.ToInvoice | backend/agents/recon_agent.py:60-75 | the invoice number is None exactly when the stripped number cell is empty and otherwise starts with a non-space; the date is never empty; the total is qty × unit rounded to 2 places |
| ReconReaders.Ledger | backend/agents/recon_agent.py:53-77 | a missing ledger file gives no invoices; otherwise one invoice per row, in row order |
| ReconReaders.ReadLedger | backend/agents/recon_agent.py:53-77 | the reading loop returns exactly the invoices of Ledger |
| ReconReaders.FilePayment | backend/agents/recon_agent.py:84-89 | a row with no amount cell has amount 0, and the reference is `reference or details` |
| ReconReaders.FirstTruthy | backend/agents/recon_agent.py:93 | `d.get(a) or d.get(b)` is None or a truthy value |
| ReconReaders.InlinePayment | backend/agents/recon_agent.py:91-96 | an inline payment with no truthy amount has amount 0 |
| ReconReaders.Payments | backend/agents/recon_agent.py:79-97 | a readable payments file wins over the inline list, one payment per row in order; without a file an inline list gives one payment per item; anything else gives none |
| ReconReaders.ReadPayments | backend/agents/recon_agent.py:79-97 | the two reading loops return exactly the payments of Payments |
| ReconCombination.CombosFrom | backend/agents/recon_agent.py:150 | every combination of size r is a strictly increasing tuple of positions of the pool |
| ReconCombination.Order | backend/agents/recon_agent.py:149-150 | the visiting order lists tuples of increasing size, each of them increasing and inside the pool |
| ReconCombination.Pick | backend/agents/recon_agent.py:150-151 | the candidates picked by a tuple are the pool members at its positions |
| ReconCombination.ScanStep | backend/agents/recon_agent.py:150-160 | one inner iteration returns on a hit within tolerance and otherwise keeps the better approximate combination |
| ReconCombination.FitsSuffix | backend/agents/recon_agent.py:149-150 | every remaining tuple still indexes into the pool |
| ReconCombination.FitsOrder | backend/agents/recon_agent.py:149-150 | all searched tuples are non-empty and index into the pool |
| ReconCombination.FewerThanTwo | backend/agents/recon_agent.py:143-149 | with fewer than two candidates there is nothing to combine and the result is ([], 0.0) |
| ReconCombination.ScanFirstHit | backend/agents/recon_agent.py:151-155 | the first tuple whose totals lie within the tolerance decides the result, with its mean score rounded to 3 places |
| ReconCombination.ScanNoHit | backend/agents/recon_agent.py:156-161 | when no tuple is within tolerance, the result scores at least as well as each tuple's rounded approximate score |
| ReconCombination.ScanPicks | backend/agents/recon_agent.py:146-161 | whatever the search returns is the starting best or the candidates picked by one searched tuple |
| ReconCombination.PickDistinct | backend/agents/recon_agent.py:150 | a tuple picks different members of a pool without repeats |
| ReconCombination.SearchShape | backend/agents/recon_agent.py:146-161 | a result of the search over one pool is empty, or 2 or 3 distinct pool members |
| ReconCombination.FindCombinationShape | backend/agents/recon_agent.py:136-161 | a combination is empty, or 2 or 3 distinct candidates among the first ten |
| ReconCombination.FirstWithinTolerance | backend/agents/recon_agent.py:145-155 | the first pair or triple within max(1, 1% of the amount) wins, with its rounded mean score |
| ReconCombination.SearchBest | backend/agents/recon_agent.py:156-161 | with no tuple within tolerance, the search over one pool returns the best approximate combination |
| ReconCombination.BestApproximate | backend/agents/recon_agent.py:156-161 | with no tuple within tolerance, the result is the best approximate combination of the first ten candidates |
| ReconCombination.TryCombos | backend/agents/recon_agent.py:150-160 | the inner loop over one size's tuples agrees with the search specification: a hit ends the search, otherwise the search goes on from the new best |
| ReconCombination.FindCombinationMatch | backend/agents/recon_agent.py:136-161 | the nested loops return exactly what the search specification returns |
| ReconMatch.CandidatesUpTo | backend/agents/recon_agent.py:180-186 | the candidates are the unused invoices, each scored against the payment and tagged with its ledger index, in increasing index order |
| ReconMatch.CandidatesComplete | backend/agents/recon_agent.py:181-186 | every unused invoice becomes a candidate |
| ReconMatch.BuildCandidates | backend/agents/recon_agent.py:180-186 | the candidate-building loop returns exactly the specified candidates |
| ReconMatch.ConsRanked | backend/agents/recon_agent.py:189 | a candidate that ranks before all the rest can head the ranking |
| ReconMatch.InsertRanked | backend/agents/recon_agent.py:189 | inserting a candidate with a smaller ledger index than all others keeps the ranking order |
| ReconMatch.SortRanked | backend/agents/recon_agent.py:189 | the stable sort ranks candidates by score, highest first, with ties in ledger order |
| ReconMatch.RankSpec | backend/agents/recon_agent.py:179-189 | the ranking is ordered, holds exactly the unused invoices, and each appears once |
| ReconMatch.RankTop | backend/agents/recon_agent.py:189-193 | the top candidate has the highest score, and the lowest ledger index among equal scores |
| ReconMatch.FirstNumberHit | backend/agents/recon_agent.py:199-204 | the found candidate is the first in ranking order whose invoice number occurs in the reference; None means no candidate's number occurs |
| ReconMatch.FindNumberHit | backend/agents/recon_agent.py:199-204 | the search loop stops at exactly that first hit |
| ReconMatch.Allocations | backend/agents/recon_agent.py:155 | one allocation per picked candidate, carrying the invoice and allocating its whole total |
| ReconMatch.LookupIndex | backend/agents/recon_agent.py:217-220 | the looked-up index is the first ledger row with the same invoice number and total; None means there is none |
| ReconMatch.MarkLookedUp | backend/agents/recon_agent.py:214-220 | marking a combined match only adds to the used set |
| ReconMatch.MarkCombined | backend/agents/recon_agent.py:214-220 | the marking loop marks exactly the indices the key lookup finds |
| ReconMatch.CandidateList | backend/agents/recon_agent.py:224-228 | the returned candidates are the ranked candidates without their ledger index |
| ReconMatch.Decide | backend/agents/recon_agent.py:179-228 | the proposal made for a payment is about that payment |
| ReconMatch.Run | backend/agents/recon_agent.py:179-228 | one proposal per payment, in payment order, each about its own payment |
| ReconMatch.UnmatchedOf | backend/agents/recon_agent.py:230-233 | the unmatched payments are exactly those whose proposal is a candidates list |
| ReconMatch.MatchSpec | backend/agents/recon_agent.py:163-235 | no payments returns the invoices and their count; otherwise one proposal per payment, in order, and the unmatched payments |
| ReconMatch.Propose | backend/agents/recon_agent.py:179-228 | the loop body for one payment makes the specified decision and leaves the specified used set, under the source's marking or the corrected one |
| ReconMatch.CollectUnmatched | backend/agents/recon_agent.py:230-233 | the collecting loop returns exactly the unmatched payments |
| ReconMatch.MatchPayments | backend/agents/recon_agent.py:163-235 | `_match_payments` on the ledger and payment rows returns exactly MatchSpec of the converted rows, under the marking chosen |
| ReconMatch.ProposeAll | backend/agents/recon_agent.py:179-228 | the loop over the payments returns, in payment order, the proposals of MatchSpec's run and the set of ledger rows it leaves used |
| ReconProperties.RankedDistinct | backend/agents/recon_agent.py:180-189 | a ranking holds no candidate twice |
| ReconProperties.SumScoresBound | backend/agents/recon_agent.py:154 | the summed scores of candidates scoring in [0, 1] lie between 0 and their count |
| ReconProperties.ComboScoreAtMostOne | backend/agents/recon_agent.py:154-160 | the rounded mean and the rounded approximate score of any combination are at most 1 |
| ReconProperties.ComboFromRanking | backend/agents/recon_agent.py:136-161 | a combination drawn from a ranking is empty with score 0, or 2 or 3 ranked candidates scoring at most 1 |
| ReconProperties.DecideSpec | backend/agents/recon_agent.py:191-228 | a single match scores at least 0.5 and commits one unused invoice; a combined match scores at least 0.65 and allocates each invoice's whole total to 2 or 3 invoices; a candidates list has at most five entries and commits nothing; committed invoices were unused |
| ReconProperties.DecideCombined | backend/agents/recon_agent.py:211-226 | a combined proposal is the step built from the combination search over the ranked candidates, with the rows it marks under the marking chosen |
| ReconProperties.ComboScoreIsMeanOrApprox | backend/agents/recon_agent.py:154-160 | a non-empty combination scores its rounded mean score or its rounded approximate score |
| ReconProperties.ScanScores | backend/agents/recon_agent.py:150-161 | every combination the search can return scores its rounded mean or rounded approximate score |
| ReconProperties.SingleNeedsHit | backend/agents/recon_agent.py:191-208 | a single match always names an invoice whose number occurs in the payment reference |
| ReconProperties.HighScoreSingle | backend/agents/recon_agent.py:191-196 | an unused invoice whose number occurs in the reference and whose total equals the positive payment amount gives a single match scoring at least 0.85 |
| ReconProperties.Union | backend/agents/recon_agent.py:176 | every committed set lies inside the union of the run |
| ReconProperties.RunOwnIndex | backend/agents/recon_agent.py:174-228 | with combined matches marked by their own indices, no invoice is committed by two payments and the used set is the union of what was committed |
| ReconProperties.SinglesKeptStep | backend/agents/recon_agent.py:182-196 | one more payment keeps every singly matched invoice used and uncommitted by others |
| ReconProperties.SingleNeverReused | backend/agents/recon_agent.py:182-196 | as written, an invoice matched singly stays used and no later payment commits it |
| ReconProperties.MarkDistinct | backend/agents/recon_agent.py:214-220 | when no two ledger rows share invoice number and total, the lookup marks exactly the picked invoices' own indices |
| ReconProperties.DecideDistinct | backend/agents/recon_agent.py:214-220 | with distinct keys, marking by lookup and marking by own index give the same decision |
| ReconProperties.RunDistinct | backend/agents/recon_agent.py:174-228 | with distinct keys, the run as written commits no invoice twice |
| ReconProperties.MarkSkipsShadowed | backend/agents/recon_agent.py:217-220 | as written, a ledger row whose number and total an earlier row shares is never marked by a combined match |
| ReconProperties.CombinedLeavesShadowedOpen | backend/agents/recon_agent.py:211-221 | as written, such a row committed by a combined match stays unused, so the next payment ranks it again |
| ReconProperties.DuplicateKeyWitness | backend/agents/recon_agent.py:214-220 | two ledger rows "A"/1000.0: a combined match that takes row 1 marks row 0 instead |
| Tax.SlabTaxClosedForm | backend/agents/tax_bot_agent.py:186-206 | the slab sum is 0 up to 2.5 lakh, then 5% of the part up to 5 lakh, 20% up to 10 lakh and 30% above |
| Tax.SlabTaxMono | backend/agents/tax_bot_agent.py:186-206 | the slab sum is never negative and never falls as taxable income grows |
| Tax.SlabLoop | backend/agents/tax_bot_agent.py:197-206 | the slab loop, with its early break, computes exactly the slab sum |
| Tax.NothingAbove | backend/agents/tax_bot_agent.py:201-206 | once taxable income lies below a slab, that slab and those above it add nothing, so breaking out is safe |
| Tax.ComputeTax | backend/agents/tax_bot_agent.py:196-222 | `compute_tax` returns exactly the specified summary |
| Tax.TaxableIncome | backend/agents/tax_bot_agent.py:197 | taxable income is gross less deductions, never below zero, rounded to 2 places |
| Tax.NoTaxUpToExemption | backend/agents/tax_bot_agent.py:186-212 | with taxable income up to 2.5 lakh, nothing is due before the rebate, and with a non-negative rebate no cess and nothing payable |
| Tax.TaxBeforeRebateMono | backend/agents/tax_bot_agent.py:196-208 | the tax before rebate is non-negative and never falls as gross income grows or deductions shrink |
| Tax.RebateBounds | backend/agents/tax_bot_agent.py:209-210 | the applied rebate is the smaller of the rebate and the tax, so the tax after it is never negative; a non-negative rebate never raises it, and a rebate covering the tax clears it |
| Tax.PayableBounds | backend/agents/tax_bot_agent.py:211-213 | the cess is 4% of the tax after rebate, the payable amount is their sum, both non-negative; the effective rate is 0 without positive gross income and otherwise the payable share of gross in percent |
| Tax.Calculate | backend/agents/tax_bot_agent.py:439-442 | `calculate` reports the summed incomes as gross income and the summed deductions as deductions |
| Tax.CalculateMoreIncome | backend/agents/tax_bot_agent.py:439-442 | one more non-negative income never lowers the tax before rebate |
| Tax.Sources | backend/agents/tax_bot_agent.py:433-436 | the merged sources are distinct and are exactly the sources of the incomes |
| Tax.Merged | backend/agents/tax_bot_agent.py:433-436 | one merged record per source, in first-seen order, carrying the source's total rounded to 2 places |
| Tax.MergedSources | backend/agents/tax_bot_agent.py:433-436 | no two merged records share a source, and every income's source has a merged record |
| Tax.MergeBySource | backend/agents/tax_bot_agent.py:433-436 | the merge loop over an insertion-ordered dictionary returns exactly the merged records |
| Tax.TallyTallied | backend/agents/tax_bot_agent.py:433-435 | after any prefix of the incomes the running dictionary holds each source once, in first-seen order, mapped to the sum of its amounts |
| Tax.TallyMerged | backend/agents/tax_bot_agent.py:433-436 | reading that dictionary off in insertion order, with each sum rounded, gives the merged records |
| Tax.ZeroTotal | backend/agents/tax_bot_agent.py:435 | a source that never occurs totals zero |
| Gst.ValidateGstin | backend/agents/gst_agent.py:52-53 | a missing GSTIN is invalid; a valid one, stripped, has 15 characters starting with two digits |
| Gst.GstinAccepted | backend/agents/gst_agent.py:42 | the demonstration GSTIN 29ABCDE1234F2Z5 is valid |
| Gst.DemoIsGstin | backend/agents/gst_agent.py:42 | 29ABCDE1234F2Z5 matches the GSTIN pattern |
| Gst.LowerCaseNotGstin | backend/agents/gst_agent.py:42 | the pattern refuses lower-case letters in the PAN part |
| Gst.GstinRefusesLowerCase | backend/agents/gst_agent.py:42-53 | `validate_gstin` refuses a GSTIN with lower-case letters |
| Gst.ZeroEntityNotGstin | backend/agents/gst_agent.py:42 | the pattern refuses 0 as the thirteenth character |
| Gst.GstinRefusesZeroEntity | backend/agents/gst_agent.py:42-53 | `validate_gstin` refuses 0 as the thirteenth character |
| Gst.NormInvNo | backend/agents/gst_agent.py:56-57 | the normal form holds only upper-case letters and digits, and a missing number normalises to "" |
| Gst.KeepAlnum | backend/agents/gst_agent.py:57 | removing the non-alphanumerics keeps a sub-sequence of letters and digits |
| Gst.KeepAlnumFixed | backend/agents/gst_agent.py:57 | text made of upper-case letters and digits is its own normal form |
| Gst.NormInvNoIdempotent | backend/agents/gst_agent.py:56-57 | normalising twice gives the same as normalising once |
| Gst.KeepAlnumAppend | backend/agents/gst_agent.py:57 | removing the non-alphanumerics distributes over concatenation |
| Gst.NormInvNoIgnoresSeparator | backend/agents/gst_agent.py:56-57 | a separator character does not change the normal form |
| Gst.NormInvNoIgnoresCase | backend/agents/gst_agent.py:56-57 | letter case does not change the normal form |
| Gst.TaxableValueBounds | backend/agents/gst_agent.py:118-120 | with non-negative charges the taxable value is non-negative; a discount beyond the price leaves only the charges |
| Gst.Rates | backend/agents/gst_agent.py:134-136 | the rate groups are distinct |
| Gst.RatesMembers | backend/agents/gst_agent.py:134-136 | the rate groups are exactly the rates that occur on some line |
| Gst.RateBaseStep | backend/agents/gst_agent.py:136 | a line adds its taxable value to the base of its own rate only |
| Gst.GroupTaxStep | backend/agents/gst_agent.py:134-140 | a line adds its own tax to the grouped tax when its rate is a group |
| Gst.RateBaseAbsent | backend/agents/gst_agent.py:134-136 | a rate with no line has a zero base |
| Gst.GroupTaxAppend | backend/agents/gst_agent.py:138-140 | one more group adds its base times its rate |
| Gst.NewRateGroup | backend/agents/gst_agent.py:134-140 | a line with a new rate opens its own group holding just that line's tax |
| Gst.GroupedTaxIsLineTax | backend/agents/gst_agent.py:132-144 | grouping by rate does not change the tax: it is the sum of every line's own tax |
| Gst.TotalsSplit | backend/agents/gst_agent.py:132-151 | an interstate invoice carries only IGST and an intra-state one only CGST and SGST in equal halves; the total is the taxable value plus every line's tax |
| Gst.GroupByRate | backend/agents/gst_agent.py:134-136 | the grouping loop yields the rates in first-seen order, each with the taxable value of its lines |
| Gst.SumLines | backend/agents/gst_agent.py:133 | the summing loop gives the total taxable value |
| Gst.SplitTax | backend/agents/gst_agent.py:137-144 | interstate: IGST is the grouped tax and CGST and SGST are 0; otherwise IGST is 0 and CGST and SGST are each half the grouped tax |
| Gst.HalfShare | backend/agents/gst_agent.py:142-144 | taxing at half the rate gives half the tax |
| Gst.ComputeTotals | backend/agents/gst_agent.py:132-151 | `Invoice.totals` returns exactly the specified totals |
| Gst.OrgFromJsonSpec | backend/agents/gst_agent.py:91-105 | an organisation loads exactly when the three keys are present, the GSTIN is valid and the state code is known; the frequency is the given one lower-cased, "monthly" by default; a state-code error means the GSTIN was valid |
| Gst.OrgFrequencyLower | backend/agents/gst_agent.py:99 | a loaded organisation's filing frequency has no upper-case letter |
| Gst.Execute | backend/agents/gst_agent.py:210-223 | an unknown action is an error, and anomaly detection receives the ledger parameter |
| Gst.ExecuteErrors | backend/agents/gst_agent.py:210-223 | an unknown action names itself in the error, a missing action reads "None", summarize never fails for missing parameters, and query fails exactly when the ledger or the query is missing |
| BookBot.ActiveRules | backend/agents/book_bot_agent.py:37-39 | the rules in force are never empty: the given ones when a non-empty list is given, the defaults otherwise (rules are keyword alternations) |
| BookBot.FirstMatch | backend/agents/book_bot_agent.py:157-159 | the found rule matches the text and no earlier rule does; None means no rule matches |
| BookBot.RuleMatches | backend/agents/book_bot_agent.py:158 | the keyword scan reports a hit exactly when one of the rule's keywords occurs in the text; this is `re.search` only for patterns that are alternations of literals |
| BookBot.CategorizeRow | backend/agents/book_bot_agent.py:153-170 | without a language model, a row gets the category of the first rule matching its lower-cased item name and details, or "Other" |
| BookBot.FirstMatchAt | backend/agents/book_bot_agent.py:157-159 | a matching rule preceded only by non-matching rules is the one found |
| BookBot.CategorySpec | backend/agents/book_bot_agent.py:157-170 | a text no rule matches is "Other"; a text some rule matches gets that rule's or an earlier rule's category |
| BookBot.FeeIsProfessionalFees | backend/agents/book_bot_agent.py:21-25 | a "fee" text that the first four default rules miss is "Professional Fees", so the "fee" of the Finance Charges rule is never reached |
| BookBot.RowTaxable | backend/agents/book_bot_agent.py:104 | a row's taxable value is never negative |
| BookBot.TaxSplit | backend/agents/book_bot_agent.py:106-111 | an interstate row carries all tax as IGST; otherwise CGST and SGST are equal halves of the tax |
| BookBot.Present | backend/agents/book_bot_agent.py:140-141 | filtering keeps exactly the lines that are not None |
| BookBot.Journals | backend/agents/book_bot_agent.py:115-143 | one journal per row, in row order, at most 200, each with the row's invoice number and its filtered entry |
| BookBot.DropNone | backend/agents/book_bot_agent.py:141 | the filtering comprehension keeps exactly the present lines |
| BookBot.Journalize | backend/agents/book_bot_agent.py:93-145 | `_journalize` on loaded rows fails with ValueError exactly when the ledger has no rows, and otherwise returns exactly the specified journals |
| BookBot.SalesEntryHead | backend/agents/book_bot_agent.py:120-123 | a sales entry opens with the Debtors/Bank debit of the rounded gross and the Sales credit of the rounded taxable value |
| BookBot.SalesTaxLines | backend/agents/book_bot_agent.py:124-126 | a sales tax line appears exactly when its amount is non-zero |
| BookBot.PurchaseEntryTail | backend/agents/book_bot_agent.py:130-136 | a purchase entry ends with the Creditors/Bank credit of the rounded gross |
| BookBot.InterstateNoHalves | backend/agents/book_bot_agent.py:106-111 | an interstate row's entry never carries CGST or SGST lines |
| BookBot.PresentAppend | backend/agents/book_bot_agent.py:141 | filtering distributes over concatenation |
| BookBot.PnlAmount | backend/agents/book_bot_agent.py:85 | a Sales row counts as income and any other row as expense |
| BookBot.NetProfit | backend/agents/book_bot_agent.py:85-89 | the reported net profit, rounded to two places, never exceeds the rounded sales total, and without sales rows it is never positive |
| BookBot.NetProfitAtMostSales | backend/agents/book_bot_agent.py:83-86 | before rounding, the sum of the row amounts never exceeds the sales total, and without sales rows it is never positive |
| Compliance.CellText | backend/agents/compliance_check_agent.py:161-172 | a missing column reads as the empty text and a NaN cell as "nan" |
| Compliance.ZFill2 | backend/agents/compliance_check_agent.py:172 | the padded code has at least two characters; a code of two or more characters is unchanged and the empty code becomes "00" |
| Compliance.ZFill2Digit | backend/agents/compliance_check_agent.py:172 | a single digit gains exactly one leading zero |
| Compliance.MakeFinding | backend/agents/compliance_check_agent.py:250-260 | the finding carries the ledger, issue and severity given, and a hint exactly when a non-empty hint is given |
| Compliance.Collect | backend/agents/compliance_check_agent.py:158-167 | a rule yields at most one finding per row |
| Compliance.CollectMembers | backend/agents/compliance_check_agent.py:158-167 | a finding is reported exactly when some row's check produces it |
| Compliance.CollectAppend | backend/agents/compliance_check_agent.py:158-167 | findings come out in row order: the findings of two row runs one after the other are the findings of each, concatenated |
| Compliance.Scan | backend/agents/compliance_check_agent.py:158-167 | the row loop returns the findings of every row in row order |
| Compliance.GstinCheck | backend/agents/compliance_check_agent.py:158-167 | a row is flagged HIGH, with the format hint, exactly when its GSTIN text is non-empty and fails GSTIN validation |
| Compliance.GstinBlankAndNan | backend/agents/compliance_check_agent.py:161-162 | a missing or empty GSTIN is never flagged, while a NaN cell, read as "nan", is |
| Compliance.NanNotGstin | backend/agents/compliance_check_agent.py:161-162 | the text "nan" is not a valid GSTIN |
| Compliance.StateCheck | backend/agents/compliance_check_agent.py:169-175 | a row is flagged HIGH exactly when its zero-padded place-of-supply code is not a known state code |
| Compliance.StateBlankFlagged | backend/agents/compliance_check_agent.py:172-173 | a missing or falsy code pads to "00" and is flagged with that code in the issue |
| Compliance.StatePadded | backend/agents/compliance_check_agent.py:172-173 | the code "7" passes, being looked up as "07" |
| Compliance.RateValue | backend/agents/compliance_check_agent.py:180 | a missing rate reads as 0 |
| Compliance.RateCheck | backend/agents/compliance_check_agent.py:177-184 | a row whose rate parsed is flagged MEDIUM, with the allowed-set hint, exactly when the rate is not one of 0, 5, 12, 18 and 28 |
| Compliance.RateFindings | backend/agents/compliance_check_agent.py:177-184 | the rule raises ValueError exactly when some row's rate does not parse as a float; otherwise at most one finding per row |
| Compliance.ScanRates | backend/agents/compliance_check_agent.py:177-184 | the rate loop returns what the rate rule defines, stopping at the first unparseable rate |
| Compliance.PrefixErr | backend/agents/compliance_check_agent.py:177-184 | an unparseable rate anywhere in the ledger fails the whole rule |
| Compliance.RateNanAndZero | backend/agents/compliance_check_agent.py:180-181 | a NaN rate is always flagged and a zero rate never is |
| Compliance.HsnCheck | backend/agents/compliance_check_agent.py:214-220 | a row is flagged MEDIUM ("Missing HSN code") exactly when its stripped HSN text is empty |
| Compliance.InterstateCheck | backend/agents/compliance_check_agent.py:222-240 | only rows with a valid party GSTIN are flagged, and then LOW with a hint |
| Compliance.InterstateVerdict | backend/agents/compliance_check_agent.py:232-238 | a row is flagged exactly when "party state differs from place of supply" disagrees with the interstate flag, and then LOW with a hint |
| Compliance.PartyState | backend/agents/compliance_check_agent.py:229-233 | the party state is the first two characters of the GSTIN |
| Compliance.InterstateRule | backend/agents/compliance_check_agent.py:228-238 | for a valid GSTIN the row is flagged exactly when "the GSTIN's state differs from the padded place of supply" disagrees with the interstate flag |
| Compliance.InterstateNeedsValidGstin | backend/agents/compliance_check_agent.py:232 | a row with an invalid party GSTIN is never flagged by this rule |
| Compliance.DaysIn | backend/agents/compliance_check_agent.py:205-207 | a month has between 28 and 31 days |
| Compliance.Split | backend/agents/compliance_check_agent.py:202 | splitting gives at least one part and no part contains the separator |
| Compliance.SplitJoin | backend/agents/compliance_check_agent.py:202 | joining the parts with the separator gives back the original text |
| Compliance.MonthBounds | backend/agents/compliance_check_agent.py:203-207 | every failure of the date construction is a ValueError |
| Compliance.PeriodBounds | backend/agents/compliance_check_agent.py:202-207 | every failure to read the period, including a wrong number of "-" parts, is a ValueError |
| Compliance.MonthIsMonth | backend/agents/compliance_check_agent.py:203-207 | bounds that are computed run from the 1st to the last day of the given month, both valid dates |
| Compliance.PeriodIsMonth | backend/agents/compliance_check_agent.py:202-207 | a period that parses spans one whole calendar month |
| Compliance.PaddedDecemberRaises | backend/agents/compliance_check_agent.py:204-207 | December written "12" ends on the 31st, while December written any other way (for instance "012") takes the ordinary branch and raises |
| Compliance.InPeriodIffSameMonth | backend/agents/compliance_check_agent.py:203-210 | a valid date lies between the bounds exactly when it falls in the period's month |
| Compliance.PeriodCheck | backend/agents/compliance_check_agent.py:208-212 | a row is flagged MEDIUM exactly when its date does not parse or lies outside the bounds |
| Compliance.PeriodRule | backend/agents/compliance_check_agent.py:200-212 | a row with a valid date is flagged exactly when the date is outside the period's month |
| Compliance.GroupKeys | backend/agents/compliance_check_agent.py:188 | the group keys are distinct, and they are exactly the keys of the rows with no NaN key part |
| Compliance.DuplicatesOf | backend/agents/compliance_check_agent.py:189-197 | at most one finding per group key |
| Compliance.DuplicateFindings | backend/agents/compliance_check_agent.py:186-198 | the rule raises exactly when the invoice number or invoice date column is missing |
| Compliance.DuplicatesOfSpec | backend/agents/compliance_check_agent.py:189-197 | a finding is reported exactly when it reports, with its size, a listed group of more than one row |
| Compliance.DuplicateRule | backend/agents/compliance_check_agent.py:186-198 | the rule reports exactly the groups of more than one row that occur in the ledger, each with its row count |
| Compliance.ZeroSize | backend/agents/compliance_check_agent.py:188 | a key that never occurs has an empty group |
| Compliance.ScanDuplicates | backend/agents/compliance_check_agent.py:186-198 | the counting loop returns what the duplicate rule defines |
| Compliance.CountGroups | backend/agents/compliance_check_agent.py:188 | counting the rows per (invoice_no, invoice_date) key gives the keys in first-seen order and each key's row count |
| Compliance.CountCounted | backend/agents/compliance_check_agent.py:188 | those keys are exactly the keys that occur in the ledger, and each count is the size of its group |
| Compliance.Rank | backend/agents/compliance_check_agent.py:108-109 | HIGH ranks 3, MEDIUM 2, and any other severity 1 |
| Compliance.PeriodPart | backend/agents/compliance_check_agent.py:94-96 | the period rule raises exactly when a non-empty period is given and fails to parse |
| Compliance.ChecksOrdered | backend/agents/compliance_check_agent.py:82-109 | the findings are a permutation of what the rules produced, sorted by severity from HIGH down, each severity keeping rule order |
| Compliance.HighFirst | backend/agents/compliance_check_agent.py:108-109 | a HIGH finding never comes after a finding of another severity |
| Compliance.ScanFormats | backend/agents/compliance_check_agent.py:85-88 | the GSTIN and state-code rules on both ledgers, appended in order |
| Compliance.ScanCounts | backend/agents/compliance_check_agent.py:89-92 | the rate and duplicate rules on both ledgers, appended in order, the first error ending the run |
| Compliance.ScanPeriod | backend/agents/compliance_check_agent.py:94-96 | the period rule on both ledgers, run only for a non-empty period |
| Compliance.ScanTail | backend/agents/compliance_check_agent.py:98-101 | the HSN and interstate rules on both ledgers, appended in order |
| Compliance.RunChecks | backend/agents/compliance_check_agent.py:77-111 | the run appends each rule's findings in order, then the review's findings, then sorts once by severity |
| Compliance.Execute | backend/agents/compliance_check_agent.py:42-47 | "run_checks" succeeds exactly when the checks do and returns their findings; any other action gets an error reply |
| Collections.Prioritize | backend/agents/collections_agent.py:26-30 | the count equals the length of the priority list and of the input accounts, an absent list counting as empty |
| Collections.PrioritizePermutation | backend/agents/collections_agent.py:29 | the priority list holds exactly the input accounts, each as often as in the input |
| Collections.PrioritizeOrdered | backend/agents/collections_agent.py:29 | the priority list is ordered by outstanding amount, largest first, a missing amount counting as 0 |
| Collections.PrioritizeStable | backend/agents/collections_agent.py:29 | accounts with equal outstanding amounts keep their input order |
| Collections.MissingRanksAsZero | backend/agents/collections_agent.py:29 | an account without an amount ranks below every account with a positive amount |
| Collections.DraftReminder | backend/agents/collections_agent.py:32-35 | the reply echoes the recipient and its message is "Reminder drafted for " followed by the amount's text ("None" when absent) |
| Collections.Execute | backend/agents/collections_agent.py:15-24 | the two actions go to their handlers and any other action is an error naming it |
| CommandPlan.FirstCommand | backend/agent_core/agent.py:17-90 | the found command's prefix starts the line and no earlier command's does; None means no command from that point matches |
| CommandPlan.ProcessRequest | backend/agent_core/agent.py:10-92 | at most one step; the plan is empty exactly when no command prefix starts the lower-cased input; otherwise it is the step of the first matching command |
| CommandPlan.PlanTools | backend/agent_core/agent.py:17-90 | every planned step names one of the seven tools |
| CommandPlan.CaseInsensitive | backend/agent_core/agent.py:14 | matching ignores letter case |
| CommandPlan.LowerUnchanged | backend/agent_core/agent.py:14 | text already in lower case is its own lower-casing |
| CommandPlan.UnknownInitialNoPlan | backend/agent_core/agent.py:17-92 | an input whose first letter starts no command gets the empty plan |
| CommandPlan.CommandInitial | backend/agent_core/agent.py:17-90 | every command prefix starts with one of the known initials |
| CommandPlan.PrefixNotOccurrence | backend/agent_core/agent.py:17 | "please audit document" gets no plan: commands are matched by prefix, not occurrence |
| CommandPlan.GstAnomalies | backend/agent_core/agent.py:48-52 | "gstagent anomalies" followed by lower-case text plans GSTAgent's detect_anomalies |
| GoalPlan.CreatePlan | backend/agent_core/planning.py:16-39 | at most one step, always with empty parameters; the plan is empty exactly when the lower-cased goal contains none of the three phrases |
| GoalPlan.Priority | backend/agent_core/planning.py:31-36 | the first phrase found in priority order decides the whole step: "calculate taxes" plans TaxBotAgent calculate_taxes, else "gst return" plans GSTAgent prepare_gst_return, else "audit document" plans DocAuditAgent audit_document, each with empty parameters |
| GoalPlan.PhraseAnywhere | backend/agent_core/planning.py:31-32 | "Calculate Taxes" anywhere in the goal, in any case, plans TaxBotAgent's calculate_taxes |
| GoalPlan.ContextIgnored | backend/agent_core/planning.py:16-39 | the context never changes the plan |
| Auth.ParseRole | backend/auth/models.py:15-20 | a parsed role is one whose stored value is exactly the text; any other text is refused |
| Auth.ParseRoleText | backend/auth/models.py:15-20 | every stored role value parses back to its role |
| Auth.Level | backend/auth/models.py:45-51 | the role levels run from 0 (user) to 4 (superadmin) |
| Auth.HasRole | backend/auth/models.py:43-54 | an unknown stored role raises; otherwise the user has the required role exactly when their level is at least its level |
| Auth.LevelInjective | backend/auth/models.py:45-51 | no two roles share a level |
| Auth.HasRoleOrder | backend/auth/models.py:43-54 | every role has itself, a superadmin has every role, and having a role is transitive |
| Auth.UnknownRoleRaises | backend/auth/models.py:43-82 | a stored role outside the enum ("guest") raises in both checks instead of counting as the lowest level |
| Auth.CanAccessAgent | backend/auth/models.py:56-82 | an unknown stored role raises; otherwise access holds exactly when the role's list holds the wildcard or the agent |
| Auth.AdminsReachAll | backend/auth/models.py:75-76 | admins and superadmins reach every agent name |
| Auth.UserAgents | backend/auth/models.py:60-63 | a plain user reaches exactly the five basic agents |
| Auth.AccessNested | backend/auth/models.py:60-74 | the user list lies within the CA list, which lies within the senior CA list |
| Auth.AccessMonotone | backend/auth/models.py:43-82 | a role of higher level reaches every agent a lower one reaches |
| Auth.ValidatePassword | backend/auth/routes.py:20-33 | a password passes exactly when it has at least eight characters and an upper-case letter, a lower-case letter, a digit and one of the listed special characters |
| Auth.ValidateExtends | backend/auth/routes.py:20-33 | characters appended to a passing password never make it fail |
| Auth.ValidateExample | backend/auth/routes.py:20-33 | "Passw0rd!" passes |
| Auth.UniquenessRefusal | backend/auth/routes.py:286-308 | refusals are 400s; none exactly when neither the requested username nor the requested email belongs to another user, the username being checked first |
| Auth.ProfileUpdate | backend/auth/routes.py:311-313 | the profile update keeps every requested field except "role", with its value |
| Auth.AdminUpdate | backend/auth/routes.py:453-456 | the admin update stores no "password" field: a new password is stored hashed under "hashed_password"; every other field is kept as requested |
| Auth.UpdateUserRefusal | backend/auth/routes.py:415-452 | an unknown user gives 404; no refusal means the user exists and a role change comes from a superadmin |
| Auth.SuperAdminCheck | backend/auth/routes.py:425 | the superadmin test of the route holds exactly for a caller whose stored role is superadmin |
| Auth.Directory.constructor | backend/auth/models.py:22-38 | the user table starts as given |
| Auth.Directory.Apply | backend/auth/routes.py:461-462 | the setattr loop overwrites the updated fields of that one user and leaves every other user alone |
| Auth.Directory.UpdateProfile | backend/auth/routes.py:278-317 | a refused update changes nothing; an accepted one writes the filtered fields onto the signed-in user only |
| Auth.Directory.UpdateUser | backend/auth/routes.py:407-462 | the refusal is the one of the route's checks in order; a refused update changes nothing; an accepted one writes the password-hashed fields onto that user only |
| Auth.Directory.DeleteUser | backend/auth/routes.py:481-512 | an unknown id gives 404, the caller's own id 400, and otherwise exactly that user is removed |
| Auth.ProfileKeepsRole | backend/auth/routes.py:311-317 | a profile update leaves the user's role as it was, whatever the request holds |
| Auth.AdminUpdateGuards | backend/auth/routes.py:424-462 | after an accepted admin update a changed role came from a superadmin and no plain "password" field was added |
| Auth.RoleChangeNeedsSuperAdmin | backend/auth/routes.py:424-429 | an admin asking to change a role is refused with 403 |
| Config.Before | backend/config.py:19 | the text before the first '=': a prefix of the line without '=', followed by '=' unless it is the whole line |
| Config.ParseEnvLine | backend/config.py:13-22 | nothing is parsed exactly when the stripped line is empty, starts with '#' or has no '=' |
| Config.SplitStripped | backend/config.py:15-22 | on a stripped line, nothing is parsed exactly for an empty line, a comment, or a line without '=' |
| Config.ParsedShape | backend/config.py:19-22 | a parsed key has no '=' and no surrounding whitespace; a parsed value has no quote character at either end |
| Config.SplitShape | backend/config.py:19-22 | the same shape holds for the split of a stripped line |
| Config.SplitOf | backend/config.py:19-22 | a line "k=v" splits into the stripped k and the stripped, unquoted v |
| Config.StripChars | backend/config.py:20 | stripping only removes characters |
| Config.KeyStripped | backend/config.py:20 | stripping twice is stripping once |
| Config.ValueKeepsEquals | backend/config.py:19-22 | a plain "key=value" line reads back as that key and value, the value keeping any later '=' |
| Config.LineStripped | backend/config.py:14 | a line with no surrounding whitespace is unchanged by the first strip |
| Config.LineSplits | backend/config.py:19-21 | a plain "key=value" splits back into key and value |
| Config.BeforeOf | backend/config.py:19 | the split stops at the first '=' |
| Config.TrimUnchanged | backend/config.py:21 | a value without quote characters at its ends is unchanged by the quote strip |
| Config.ParseLines | backend/config.py:49-50 | one parse result per line of the file, in order |
| Config.KeepsExisting | backend/config.py:54-55 | without override, a variable already set keeps its value, whatever the file holds |
| Config.FirstOccurrenceWins | backend/config.py:49-56 | without override, a load that reaches the end gives a new variable the value of the first line assigning it, and leaves unassigned variables unset |
| Config.LastOccurrenceWins | backend/config.py:49-56 | with override, a load that reaches the end gives each assigned variable the value of its last line, and leaves other variables as they were |
| Config.EmptyKeyLine | backend/config.py:13-22 | the line "=v" parses to the empty name with value v |
| Config.EmptyKeyStripped | backend/config.py:14 | "=v" is unchanged by the first strip |
| Config.EmptyKeySplits | backend/config.py:19-21 | "=v" splits into the empty name and v |
| Config.EmptyKeyStopsLoad | backend/config.py:48-59 | as written, a line "=v" raises inside the loop and the blanket handler ends the load, so a plain assignment after it is never loaded |
| Config.StopsAtEmptyKey | backend/config.py:53-59 | a first entry with the empty name ends the load with the environment unchanged |
| Config.SkippingLoadsFirst | backend/config.py:49-56 | with failing lines skipped, a new variable whose first line is acceptable gets that line's value, wherever failing lines occur |
| Config.SkippingKeeps | backend/config.py:54-55 | with failing lines skipped and no override, a variable already set keeps its value |
| Config.SkippingRecovers | backend/config.py:49-56 | with failing lines skipped, the plain assignment after a line "=v" is loaded |
| Config.SkipsEmptyKey | backend/config.py:49-56 | a skipped empty-name entry does not stop the assignment after it |
| Config.Candidates | backend/config.py:34-42 | three candidates with a non-empty explicit path, two without; the last two are always the project-root and backend files |
| Config.FirstFile | backend/config.py:44 | the chosen file is the first candidate that is a file; None means no candidate is |
| Config.Environment.constructor | backend/config.py:8 | the environment starts as given |
| Config.Environment.Get | backend/config.py:66-68 | a set variable gives its value and an unset one the default |
| Config.Environment.LoadLines | backend/config.py:48-59 | the read loop leaves the environment the load rule defines: ended at the first failing assignment as written, or past it with failing lines skipped |
| Config.Environment.LoadEnv | backend/config.py:25-59 | no existing candidate, or an unreadable file, changes nothing; otherwise the first existing file is loaded by the read loop |
| Config.Port | backend/config.py:75-78 | an unset or empty variable, or one that is not an integer, gives port 8000; otherwise its integer value |
| Config.PortOfDigits | backend/config.py:76 | a port written in decimal is read back |
| Config.Setting | backend/config.py:72-73 | an unset or empty variable gives the default, and any other value is kept |
| Review.OrderedIdsUnique | backend/action/human_in_the_loop.py:22-29 | in a queue built by flagging, no two items share an id |
| Review.FlagKeepsOrdered | backend/action/human_in_the_loop.py:22-30 | appending a pending item under the next id keeps the ids increasing and below the counter |
| Review.FirstIndex | backend/action/human_in_the_loop.py:47-51 | the lookup finds the first item with the id, and None exactly when no item has it |
| Review.FirstIndexAt | backend/action/human_in_the_loop.py:47-51 | a search stopping at the first item with the id finds that item |
| Review.FlaggedIsFound | backend/action/human_in_the_loop.py:22-51 | an id just handed out is found, at the end of the queue |
| Review.Decide | backend/action/human_in_the_loop.py:55-63 | an answer approves exactly when its lower-cased text is "yes" or "y", and rejects exactly when it is "no" or "n" |
| Review.DecideIgnoresCase | backend/action/human_in_the_loop.py:55 | answers are read without regard to letter case |
| Review.Outcome | backend/action/human_in_the_loop.py:53-64 | no decision exactly when no typed answer decides; otherwise the decision is that of an answer with no deciding answer before it |
| Review.OutcomeIgnoresLater | backend/action/human_in_the_loop.py:53-64 | lines typed after the deciding answer are never read |
| Review.ApproveUnknown | backend/action/human_in_the_loop.py:47-51 | an unknown id returns False and changes nothing, whatever is typed |
| Review.ApproveSetsStatus | backend/action/human_in_the_loop.py:53-63 | for a known id the first deciding answer is returned and sets that item's status to approved or rejected; id, task, reason and every other item stay |
| Review.ApproveEndOfInput | backend/action/human_in_the_loop.py:53-64 | input that runs out before a deciding answer leaves the queue unchanged |
| Review.ApproveKeepsOrdered | backend/action/human_in_the_loop.py:37-64 | a review keeps the queue ordered |
| Review.HumanInTheLoop.constructor | backend/action/human_in_the_loop.py:7-9 | the queue starts empty and the first id is 1 |
| Review.HumanInTheLoop.FlagForReview | backend/action/human_in_the_loop.py:11-35 | returns the current counter as the id, appends a pending item with it and advances the counter, keeping the queue ordered |
| Review.HumanInTheLoop.GetUserApproval | backend/action/human_in_the_loop.py:37-64 | the search and prompt loops return what Approve defines and leave the queue it defines; the counter is unchanged |
| Review.ReadDecision | backend/action/human_in_the_loop.py:53-64 | the prompt loop returns the first answer that decides, or nothing when the input runs out first |
| Memory.Retrieve | backend/agent_core/memory.py:41-51 | data is returned exactly when the key is stored, and it is the stored data |
| Memory.RetrieveAfterStore | backend/agent_core/memory.py:31-51 | what is stored under a key is what a later retrieve of that key returns |
| Memory.StoreKeepsOthers | backend/agent_core/memory.py:31-51 | storing under one key leaves every other key's data as it was |
| Memory.StoreOverwrites | backend/agent_core/memory.py:31-39 | a second store under the same key replaces the first |
| Memory.Appended | backend/agent_core/memory.py:13-20 | a run of additions leaves the earlier history followed by the additions, in the order made |
| Memory.MemoryModule.constructor | backend/agent_core/memory.py:7-11 | both memories start empty |
| Memory.MemoryModule.AddToShortTerm | backend/agent_core/memory.py:13-20 | the interaction is appended to the short-term list and the long-term store is unchanged |
| Memory.MemoryModule.GetShortTermContext | backend/agent_core/memory.py:22-29 | the context is the short-term list, oldest first |
| Memory.MemoryModule.StoreInLongTerm | backend/agent_core/memory.py:31-39 | the key now maps to the data, other keys keep theirs, and the short-term list is unchanged |
| Memory.MemoryModule.RetrieveFromLongTerm | backend/agent_core/memory.py:41-51 | the result is the data stored under the key, or None when the key is absent |
| Gemini.TryOrder | backend/utils/gemini_helper.py:31-43 | a non-empty model name is tried first, then the fallbacks, which default to the three free-tier models |
| Gemini.FirstBuilt | backend/utils/gemini_helper.py:46-52 | a model is returned only when one name builds and every earlier name failed; otherwise all names failed and the last failure is kept |
| Gemini.FirstBuiltAt | backend/utils/gemini_helper.py:46-52 | the first name that builds is the one returned |
| Gemini.DefaultTryOrder | backend/utils/gemini_helper.py:32-43 | with no name, or an empty one, and no fallbacks, the three defaults are tried in order |
| Gemini.NamedModelFirst | backend/utils/gemini_helper.py:26-49 | with a key, a named model that builds is returned without trying the fallbacks |
| Gemini.AllFailRaisesLast | backend/utils/gemini_helper.py:46-56 | when every name fails, the failure of the last one tried is raised |
| Gemini.CreateGeminiModel | backend/utils/gemini_helper.py:10-59 | an empty key raises ValueError; otherwise the loop returns the first model that builds, raises the last failure, or builds the last-resort model for an empty try list |
| Gemini.Pow2 | backend/utils/gemini_helper.py:99 | each doubling factor is at least 1 |
| Gemini.Retry | backend/utils/gemini_helper.py:86-103 | at most the allowed calls, one sleep between consecutive calls; with a non-negative delay the result is that of the last call made; a negative delay raises ValueError at the first sleep, so the run ends after one call with no sleep |
| Gemini.RetrySleeps | backend/utils/gemini_helper.py:96-99 | the k-th sleep lasts the initial delay times 2 to the k, and a negative delay is never slept |
| Gemini.Generate | backend/utils/gemini_helper.py:62-106 | at most max_retries calls, and with no attempts allowed the run raises TypeError from raising None |
| Gemini.GenerateReturnsFirstSuccess | backend/utils/gemini_helper.py:86-100 | with at least one attempt and a non-negative delay, the first call that does not fail with a quota-like error decides the result; with a negative delay the first call's answer is returned, or ValueError when it asks for a retry |
| Gemini.NonQuotaRaisedAtOnce | backend/utils/gemini_helper.py:101-103 | a first error that is not quota-like is raised after one call and no sleep |
| Gemini.BackoffDoubles | backend/utils/gemini_helper.py:96-99 | the delays double from the initial delay, one sleep between consecutive calls, and none when the delay is negative |
| Gemini.QuotaExhaustsAttempts | backend/utils/gemini_helper.py:95-103 | when every call hits a quota-like error, all attempts are made and the last error is raised; with a negative delay and a second attempt allowed, the first sleep raises ValueError after one call |
| Gemini.GenerateWithRetry | backend/utils/gemini_helper.py:62-106 | the retry loop makes the calls and sleeps that Generate defines and returns its result, including the ValueError of a negative sleep |
| Gemini.FriendlyMessage | backend/utils/gemini_helper.py:109-134 | quota or "429" gives the quota text; else a rate limit gives the rate text; else an invalid key or authentication failure gives the key text; else the error prefix and the message's first 200 characters |
| Gemini.FallbackBounded | backend/utils/gemini_helper.py:134 | the fallback message is at most the prefix plus 200 characters, and keeps a short message whole |
| Gemini.DigitsSurviveLower | backend/utils/gemini_helper.py:121 | "429" in the lower-cased message means "429" in the message itself |
| Gemini.RetriedErrorsReportedAsQuota | backend/utils/gemini_helper.py:95-129 | every error the retry loop treats as quota-like is reported with the quota or the rate-limit text |
| StableSort.SortDescPerm | backend/agents/collections_agent.py:29 | the descending sort holds the same elements as its input, each as often |
| StableSort.SortDescSorted | backend/agents/collections_agent.py:29 | the descending sort is ordered by key, largest first |
| StableSort.SortDescStable | backend/agents/collections_agent.py:29 | elements with equal keys keep their input order |
| Text.ParseIntOfNat | backend/config.py:76 | int() reads back a number written in decimal |
| Compliance.ParseTwelve | backend/agents/compliance_check_agent.py:203 | int("12") is 12 |

## Left out

- Language-model calls are not modelled: the recon explanations, the tax extraction, the GST
  anomaly prompts, the compliance review, the book-bot fallback categoriser and the Gemini
  content itself. The network cannot be modelled. The compliance review's findings arrive as
  the `review` parameter, and a Gemini call's outcome as the `call` function.
- `genai.configure`, `time.sleep` and every `print` are left out: they are side effects with no
  result. The retry model records the sleeps it would make instead of sleeping. The one result
  `time.sleep` can have, the ValueError for a negative length, is modelled as `Gemini.NegativeSleep`.
- Collections.Prioritize: `accounts` is a list or absent, and `outstanding` a number or absent.
  An explicit null `accounts` reaches `sorted(None, ...)`, and with two or more accounts a null
  or text `outstanding` makes the sort compare it with a number
  (backend/agents/collections_agent.py:29). Both raise TypeError in the source. The model
  cannot represent those inputs and does not raise.
- CSV, Excel and PDF reading, pandas loading, the SMTP sender, the database session and the
  audit log are left out: they are I/O. Rows arrive as maps, and a user table as a map from id
  to fields.
- JWT handling and bcrypt are left out: they are foreign cryptographic code. The password hash
  is a function parameter.
- Floating point is not modelled: amounts are exact reals.
  - `round(x, n)` and `ROUND2` become half-up rounding at n places. Python rounds the binary
    float, so the two can differ on ties.
  - NaN appears only where a rule tests for it: compliance cells and rates. Infinities are
    not modelled.
- Python's `str.lower`/`str.upper` are modelled on ASCII letters only, and regex `\d` on ASCII
  digits. In the model, letters outside ASCII keep their case and non-ASCII digits are not digits.
- Compliance.GroupKeys: pandas `groupby` reports its groups in sorted key order. The model
  reports them in first-seen order, so the set of duplicate findings is exact but their order
  within the LOW findings may differ.
- Compliance: a language-model finding without a "severity" key makes the severity sort raise
  KeyError. The model's findings always carry a severity.
- Auth: the request schemas' own limits (field lengths, e-mail format) are not modelled. A
  "role" field in a profile update is dropped as the route does, even though the profile
  schema may never deliver one.
- Config.Environment.LoadEnv: `os.environ` is a map from names to values. Platform rules
  other than the three refusals of POSIX (an empty name, '=' in a name, a NUL character) are
  not modelled.
- Memory.MemoryModule.GetShortTermContext: it returns the list's value. The source returns the
  list object itself, so a caller's later change would show in the memory; the model does not
  capture that aliasing. `Review.HumanInTheLoop` likewise stores the task by value, where the
  source keeps a reference to the caller's dictionary.
- Memory.MemoryModule.RetrieveFromLongTerm: the source cannot tell a stored `None` from an
  absent key; the model can, because stored data is a value of any type.
- Review.HumanInTheLoop.GetUserApproval: `input()` is the sequence of answers. Running out of
  answers stands for the EOFError a closed console raises. The prompt text is not modelled.
- ReconTypes.Ratio: rapidfuzz's `token_sort_ratio` is any function into [0, 100]. Properties
  that need more of it are not claimed.
- Gst.ValidateGstin: its contract states the length and the two leading digits. The full
  pattern is the predicate `Gst.IsGstin`, which the body applies to the stripped text.
- ReconReaders.InlinePayment: a reference or details value that is truthy but not text, such
  as the number 4521, becomes the empty reference. The source keeps the value, and the later
  `inv_no in ref` test (backend/agents/recon_agent.py:113 and :202) then raises TypeError. The
  model scores such a payment as if it had no reference, and does not raise.
- RuleMatches (BookBot.RuleMatches): a rule's pattern is modelled as an alternation of literal
  keywords, which covers the default rules. A user-supplied rule may carry any regular
  expression for `re.search` (backend/agents/book_bot_agent.py:12, 158); such patterns are not
  representable, so `BookBot.ActiveRules` holds keyword rules only.
- OrgFromJsonSpec (Gst.OrgFromJsonSpec, Gst.OrgFromJson): the JSON file is a map from keys to
  strings. A non-string value is not representable, so the errors it raises are not modelled: a
  numeric `state_code` fails the `STATE_CODES` lookup with ValueError, and a null
  `filing_frequency` raises AttributeError at `.lower()` (backend/agents/gst_agent.py:99-103).
- AdminUpdate (Auth.AdminUpdate): a request value is text or a flag, with no null, and a
  "password" that is not text is dropped. The schema admits an explicit null password
  (backend/auth/schemas.py:51), which the route passes to `hash_password(None)`, which raises
  (backend/auth/routes.py:456-457). The model neither represents that request nor raises.
- Tax: the heuristic income parser and the PDF and OCR extractor are left out, because they
  are regex and library code. Incomes and deductions arrive as records.

## Findings

| source | as written | input that shows it | evidently intended | confidence | as-written member | corrected member |
|---|---|---|---|---|---|---|
| backend/agents/recon_agent.py:214-220 | a combined match marks as used the first ledger row with the same invoice number and total, searching all rows, used or not | two ledger rows with invoice number "A" and total 1000.0, row 0 already used, a combined match taking row 1: row 0 is marked again and row 1 stays unused, so a later payment can be matched to it a second time | mark the ledger rows the combination actually picked, so no invoice is committed twice | not executed | ReconProperties.CombinedLeavesShadowedOpen | ReconProperties.RunOwnIndex |
| backend/config.py:48-59 | one `try` wraps the whole read loop, so the first assignment `os.environ` refuses ends the load | a `.env` file whose first line is "=x" and whose second line is "A=1", A unset: setting the empty name raises (OSError on POSIX), the handler ends the loop, and A is never loaded | skip the refused line and load the rest of the file | not executed | Config.EmptyKeyStopsLoad | Config.SkippingLoadsFirst |

In both cases the model keeps the source's behaviour and offers the corrected one beside it.

- `ReconMatch.MatchPayments` takes a `Marking`. With `AsWritten` it marks rows by key lookup,
  as the source does. With `OwnIndex` it marks the picked rows themselves.
- `ReconProperties.RunDistinct` proves that the two markings agree whenever no two ledger rows
  share an invoice number and total.
- `ReconProperties.DuplicateKeyWitness` and `ReconProperties.MarkSkipsShadowed` give the
  concrete witness and the general statement of the first finding.
- `Config.Environment.LoadLines` and `LoadEnv` take an `OnError`. With `StopLoad` they behave
  as the source does. With `SkipLine` they skip the refused line.
- `Config.SkippingRecovers` shows that skipping loads the assignment the source loses.
