# Hong Kong salaries-tax planner — calculation core

The calculator holds a form for up to four taxpayers. P1 and P2 are the couple
(or any two relatives). P3 and P4 are further relatives. For each person it
reduces the form to three figures: income, capped deductions and allowances.
It assesses salaries tax the Hong Kong way. The tax is the lower of the
standard-rate tax on net income (15% up to 5,000,000 and 16% above) and the
progressive tax on net chargeable income (four bands of 50,000 at 2%, 6%, 10%
and 14%, then 17%). A reduction of at most 3,000 then comes off that tax.

For a married household it tries three filing elections and shows the
cheapest. In the first, P1 claims the basic allowance. In the second, P2
claims it. The third is joint assessment with the married person's allowance.
The number boxes for VHIS, TVC, self-education, elderly care and rent clamp
what is typed to that item's deduction cap; every other number box (income,
MPF, the donation and the counts) stores what is typed. Typing an income fills
in the mandatory provident fund (MPF) contribution. An assistant can also send a
partial state, which is merged into the form.

Modules:

- `Common`: `Min`, `Max` and `Option`.
- `Household`: the person record, the household state and the field accessors.
- `Bracket`: `calculateHKTax`. It is the method `CalculateHKTax`, proved
  equal to the function `Tax`. Its five band steps are the method
  `ProgressiveLadder`, proved equal to the function `ProgressiveTax`, a
  recursive ladder over a band table.
- `PersonNet`: `getPersonNet`.
- `Optimizer`: `optimizeTax` and its `compare` closure. The method
  `OptimizeTax` is proved against the candidate records and the predicate
  `FirstLowest`.
- `StateUpdate`: `handlePersonChange` and the assistant's `newState` merge.
  The merge is the loop method `MergeAssistantState`, proved equal to the
  function `Merged`.

Amounts are exact `real`s. Two behaviours of the code are worth knowing:

- In the two separate-assessment candidates (`src/App.tsx:160-161`), the
  claimant adds the basic allowance of 132,000 (not the married person's
  264,000), and the other spouse adds nothing at all.
- The assistant's merge (`src/App.tsx:240-249`) stores what it is given. It
  neither clamps the deductions nor fills in MPF, unlike typing into the form.
  `MergeNeitherClampsNorFillsMpf` states this.

## Model

| member | source | states |
|---|---|---|
| Household.DefaultPerson | src/App.tsx:25-31 | a fresh person has the given name, every figure 0 and no flag set |
| Household.InitialState | src/App.tsx:54-61 | the form starts "single", not living with a child, with four default persons: every figure 0 and no flag set |
| Household.Set | src/App.tsx:279 | the object spread `{ ...p, [f]: v }` changes field f to v and leaves every other figure, flag and the name alone |
| Household.SetFlag | src/App.tsx:279 | the spread for a checkbox field sets that flag only |
| Household.WithPerson | src/App.tsx:286 | `{ ...prev, [key]: person }` replaces one person and keeps the other three and both settings |
| Bracket.StandardTax | src/App.tsx:85 | the standard-rate tax lies between 15% and 16% of net income |
| Bracket.LadderTax | src/App.tsx:88-95 | a ladder of non-negative bands and a non-negative top rate never yields a negative tax |
| Bracket.ProgressiveTax | src/App.tsx:88-95 | the progressive tax is never negative |
| Bracket.Portion | src/App.tsx:91-94 | the share of n that falls in a band [lo, hi] is between 0 and the band width: 0 below it, the whole width above it, n - lo inside it |
| Bracket.Tax | src/App.tsx:82-100 | the reduction is between 0 and 3,000; 0 ≤ final ≤ base; final = base - reduction; the full 3,000 is given unless the tax drops to 0; base is the lower of the standard and progressive taxes |
| Bracket.CalculateHKTax | src/App.tsx:82-100 | the step-by-step computation returns exactly `Tax(income, deductions, allowances)` |
| Bracket.ProgressiveLadder | src/App.tsx:88-95 | the five guarded band steps on the running remainder compute exactly the recursive ladder `ProgressiveTax` |
| Bracket.LadderMonotone | src/App.tsx:88-95 | more chargeable income never means less ladder tax |
| Bracket.ProgressiveMonotone | src/App.tsx:88-95 | the progressive tax is monotone in net chargeable income |
| Bracket.ProgressiveByBands | src/App.tsx:88-95 | closed form: the progressive tax is the sum over the four 50,000 bands of each band's share times its rate, plus 17% of what lies above 200,000 |
| Bracket.FinalTaxMonotone | src/App.tsx:82-99 | with the same deductions and allowances, a higher income never gives a lower final tax |
| Bracket.StandardTaxAboveThreshold | src/App.tsx:85 | a net income of 5,200,000 gives a standard tax of 750,000 + 16% of 200,000 = 782,000, and that is the base tax with no deductions or allowances |
| Bracket.WorkedExample220k | src/App.tsx:82-99 | 220,000 with no deductions or allowances: standard 33,000, progressive 19,400, base 19,400, reduction 3,000, final 16,400 |
| Bracket.ReductionBoundaries | src/App.tsx:98 | no income means no reduction; 10,000,000 gets the full 3,000 |
| PersonNet.RentCap | src/App.tsx:103 | the rent cap is 120,000 exactly when the household lives with a child, and 100,000 exactly when not |
| PersonNet.CapDeductions | src/App.tsx:105 | each of MPF (18,000), VHIS (8,000), TVC (60,000), rent, self-education (100,000) and elderly care (100,000) is at most its cap and at most the amount claimed, and is exactly the amount claimed when that is within the cap and exactly the cap otherwise |
| PersonNet.OtherDeductions | src/App.tsx:105 | the six capped deductions add up to at most the sum of the caps, and to at least 0 for non-negative figures |
| PersonNet.DonationDeduction | src/App.tsx:106-108 | the allowed donation is at most the donation and at most 35% of assessable income, and equals one of the two |
| PersonNet.Allowances | src/App.tsx:111-121 | a person with non-negative counts has non-negative allowances |
| PersonNet.GetPersonNet | src/App.tsx:102-124 | income passes through; the allowances are the person's own, without the basic 132,000; the donation part of the deductions is bounded by the donation and by 35% of the income left after the capped items; for non-negative figures the deductions lie between 0 and the caps plus 35% of income |
| PersonNet.AllowancePerHead | src/App.tsx:111-119 | one more dependant of a kind adds exactly that kind's unit allowance; changing any other figure adds nothing |
| PersonNet.FlatAllowances | src/App.tsx:120-121 | the personal-disability flag adds a flat 75,000 and the single-parent flag a flat 132,000, whatever else the person has |
| PersonNet.NewbornIsTwiceAChild | src/App.tsx:112-113 | a newborn is worth 260,000, twice a child's 130,000 |
| PersonNet.DefaultPersonHasNothing | src/App.tsx:102-124 | a person with nothing entered has income, deductions and allowances all 0 |
| PersonNet.DonationBounded | src/App.tsx:105-108 | raising the donation never lowers the deductions, which never exceed the capped items plus 35% of assessable income |
| Optimizer.Compare | src/App.tsx:152-158 | the candidate becomes the best exactly when nothing was found yet or its total is strictly lower; on a tie the earlier best stays; the result is never absent and its total is at most both |
| Optimizer.AssessWith | src/App.tsx:132 | one `calculateHKTax` call on a person's figures, with an amount added to the allowances |
| Optimizer.FileIndependently | src/App.tsx:140-150 | for "single", P1 and P2 are each assessed alone with the basic allowance, and the record carries the four final taxes, their sum and the summed reductions |
| Optimizer.ChooseElection | src/App.tsx:152-167 | the married branch returns the first of [P1 claims, P2 claims, joint] whose total is the lowest |
| Optimizer.FirstOfThree | src/App.tsx:152-167 | two strict-improvement steps followed by the strict joint check leave the first lowest of the three candidates |
| Optimizer.OptimizeTax | src/App.tsx:126-170 | a best strategy always exists; P3 and P4 carry their own taxes; total = sum of the four taxes and is ≥ 0; "single" gives the independent outcome; any other relationship gives the first lowest of the three elections |
| Optimizer.RecordsConsistent | src/App.tsx:143-166 | a record built from non-negative assessments, with P3's and P4's own taxes, has total = sum of the four taxes and nothing negative |
| Optimizer.OutcomesConsistent | src/App.tsx:132-166 | the independent outcome and all three married candidates are consistent |
| Optimizer.FirstLowestUnique | src/App.tsx:152-167 | at most one record is the first lowest, so the outcome is determined |
| Optimizer.FirstLowestOfThree | src/App.tsx:152-167 | the chosen total is the minimum of the three; P1-claims wins every tie; P2-claims wins only when strictly below P1-claims; joint wins only when strictly below both |
| Optimizer.JointShownAsP1 | src/App.tsx:163-166 | under joint assessment the joint tax on the summed figures with the 264,000 allowance is P1's, P2's is 0, and the total is the joint tax plus P3's and P4's |
| Optimizer.SingleNeverJoint | src/App.tsx:140-150 | with "single", P1 and P2 are each assessed alone with the basic allowance |
| Optimizer.OthersUnaffected | src/App.tsx:132-135 | P3's and P4's taxes depend only on their own figures and the living-with-child flag, not on the relationship nor on P1 and P2 |
| StateUpdate.EntryCap | src/App.tsx:268-276 | only VHIS, TVC, self-education, elderly care and rent have an entry ceiling, and each is that item's deduction cap; rent follows the household's rent cap |
| StateUpdate.Clamp | src/App.tsx:268-276 | a stored value is never above the value typed; without a ceiling it is the value typed; with one it is at most the ceiling, is the value typed when within it, and is the value or the ceiling |
| StateUpdate.AutoMpf | src/App.tsx:282-284 | the filled-in MPF is at most 18,000 and at most 5% of income, and equals one of the two |
| StateUpdate.HandlePersonChange | src/App.tsx:262-288 | only the addressed person changes; a number box stores the clamped value in its own field; an income also sets MPF to the automatic figure; a checkbox sets its flag only; the name box sets the name only |
| StateUpdate.EntryKeepsNonNegative | src/App.tsx:262-288 | typing a non-negative number keeps every figure of the person non-negative |
| StateUpdate.EntryIdempotent | src/App.tsx:262-288 | making the same entry twice gives the same state as making it once |
| StateUpdate.MpfEntryNotClamped | src/App.tsx:268-279 | an MPF typed directly is stored as typed, and only the deduction cap limits it to 18,000 |
| StateUpdate.AutoMpfExamples | src/App.tsx:282-284 | an income of 600,000 fills in MPF 18,000; 240,000 fills in 12,000 |
| StateUpdate.EntryClampInvisible | src/App.tsx:268-279 | for every field but income, the person an entry leaves behind has the same net figures as the person with the value stored exactly as typed |
| StateUpdate.OverlayFields | src/App.tsx:246 | `{ ...person, ...delta }` takes every field the delta mentions from the delta and every other field from the person |
| StateUpdate.MergeAssistantState | src/App.tsx:240-249 | the copy-then-overlay loop over p1..p4 builds exactly `Merged(prev, delta)` |
| StateUpdate.MergeKeepsUnmentioned | src/App.tsx:244-248 | a person the delta does not name is unchanged; for a named person, every figure, every flag and the name that the delta leaves out keep their values |
| StateUpdate.OverlayIdempotent | src/App.tsx:246 | overlaying a delta twice is overlaying it once |
| StateUpdate.MergeIdempotent | src/App.tsx:240-249 | applying the same delta twice gives the same state as applying it once |
| StateUpdate.EmptyDeltaIsIdentity | src/App.tsx:240-249 | an empty delta leaves the state unchanged |
| StateUpdate.MergeNeitherClampsNorFillsMpf | src/App.tsx:240-249 | an income from the assistant leaves MPF alone, and a VHIS above 8,000 is stored as given |

## Left out

- React state, effects and re-rendering. `setFormData` and `setBestStrategy`
  are modelled as the value handed to them. Re-running `optimizeTax` on every
  change is not modelled.
- The chat assistant: the prompt, the HTTP request and its API key, the
  `JSON.parse` of the reply and the message list. Only the merge of an
  already-parsed `newState` is modelled.
- JSON values of the wrong type inside `newState`, such as a string where a
  number belongs. The delta is typed, so these cannot arise in the model.
- The mode and note texts of `BestStrategy`, and the names interpolated into
  them. They are replaced by the `Election` value.
- The page layout, `PersonInput` and display rounding.
- The parse `Number(e.target.value) || 0` of a number box. The model starts
  from the number it yields.
- The relationship selector and the living-with-child checkbox. They write
  the value chosen straight into the state.
- IEEE-754 floating point. Every amount is an exact real, so the model does
  not capture rounding in products such as `0.35 * income` or `0.17 * n`.
- Counts (children, parents, ...) are reals, as in the source. Nothing in the
  model forces them to be whole numbers or non-negative.
- A rent clamped under the 100,000 ceiling stays at that value when the
  living-with-child flag is later switched on. This follows from
  `StateUpdate.HandlePersonChange` and is not restated as a lemma.
