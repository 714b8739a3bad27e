# SASP calculator — a Dafny model of the calculation engine and its helpers

The SASP calculator turns a snapshot of a household's finances into a
"safety-adjusted spending power" (SASP). The snapshot is a list of assets, a
list of debts, monthly income, monthly necessary expense, an optional monthly
saving target, one of four safety-factor curves and a safety line `L` in
months. The engine (`calculateResult` in `App.tsx`) works in five steps:

1. It sums the assets and the debts and takes their difference as net worth.
2. It computes monthly passive income and monthly interest as simple interest.
3. It computes the nominal disposable money (clamped at 0) and the money still
   available once the target is set aside.
4. It computes the runway, net worth over expense, which is 0 without a
   positive expense.
5. It maps the runway to a safety factor K in [0, 1], using the linear,
   smooth, step or sigmoid curve. It then splits the money into spending
   power, locked savings and total savings, in three exclusive cases
   (insolvency, enough money beyond the target, target takes everything), and
   raises the insolvency and cash-flow-crisis flags.

Around the engine the model covers these helpers:

- the debt analysis: debt-to-income and payment-pressure tiers, and the
  high-interest debts;
- the result panel: the runway health label, the saving-goal progress and its
  colour, and the bar widths;
- the income/expense/target form: editing, clearing the target, the "target
  too high" warning and the suggested ceiling;
- the asset and debt list editors: add, remove by id, and update a field by id.

Everything in this core is pure. The model is therefore datatypes, functions
and lemmas:

| file | module | models |
|---|---|---|
| `wrappers.dfy` | `Wrappers` | `Option`, used for the optional target and for a failed number parse |
| `types.dfy` | `Types` | the records of `types.ts`, and the `parseFloat(..) \|\| 0` coercion |
| `ledger.dfy` | `Ledger` | the `reduce` sums, `filter` (remove by id) and `map` (update by id) over asset and debt lists |
| `engine.dfy` | `Engine` | `calculateResult` |
| `engine_properties.dfy` | `EngineProperties` | properties of the curves, the savings cases and the flags |
| `engine_examples.dfy` | `EngineExamples` | worked examples, including the default portfolio of `constants.ts` |
| `debt_analysis.dfy` | `DebtAnalysis` | `components/DebtAnalysis.tsx` |
| `sasp_display.dfy` | `SaspDisplay` | `components/SaspDisplay.tsx` |
| `income_expense.dfy` | `IncomeExpense` | `components/IncomeExpense.tsx` |
| `asset_manager.dfy`, `debt_manager.dfy` | `AssetManager`, `DebtManager` | the two list editors |

Modelling choices:

- Amounts and rates are `real`. Money is exact; the floating-point rounding
  of the source is not modelled.
- An asset and a debt have the same four fields, so one record `Holding`
  serves both (`Asset` and `Debt` are synonyms). Both editors use the same
  `Ledger` operations, just as their source handlers are line-for-line the same.
- `Math.exp` is a parameter `exp: real -> real`. The engine assumes only
  `exp(0) = 1` and `exp(x) > 0` (`Engine.ExpLaws`). The monotonicity lemma
  also assumes that `exp` is strictly increasing (`Engine.ExpIncreasing`).
- `parseFloat` is a parameter `string -> Option<real>`, where `None` stands
  for NaN. An amount or rate input reaches the list editors as
  `SetAmount(NumberOrZero(parsed))` or `SetRate(NumberOrZero(parsed))`
  (`Ledger.AmountInputEdit`, `Ledger.RateInputEdit`).
- `Date.now()` ids are parameters, and ids are not assumed to be unique.
- The engine requires `L > 0`. The safety-line slider only offers 3 to 24, and
  the stored default is 6.

On the step curve, a runway on a threshold belongs to the higher tier: the
comparisons at `App.tsx:117-120` are strict `<`, so `L/2` gives 0.6, `L`
gives 0.85 and `1.5 L` gives 1.0. `EngineProperties.StepBoundaries` proves it.

Two behaviours are modelled as written and stated as lemmas:

- The insolvency case adds the target on top of all disposable money
  (`App.tsx:138`), but the target-exceeds case does not (`App.tsx:147`).
  `EngineProperties.InsolvencyCountsTargetTwice` states this. As a consequence,
  an insolvent user with a positive target sees the saving goal as reached
  (`SaspDisplay.InsolvencyShowsGoalReached`).
- With no positive expense the runway is 0, so the health label is "danger"
  however large the net worth is (`SaspDisplay.ZeroExpenseShowsDanger`).

## Model

| member | source | states |
|---|---|---|
| Types.NumberOrZero | components/AssetManager.tsx:91 | a failed parse (NaN) becomes 0, and a parsed number is kept as it is; the same coercion is used at components/AssetManager.tsx:101, components/DebtManager.tsx:90 and 100, and components/IncomeExpense.tsx:24 |
| Ledger.TotalAmount | App.tsx:74-75 | the left-fold sum of the amounts equals the first amount plus the sum of the rest, so the order of summation does not matter; the same sum gives `highInterestAmount` at components/DebtAnalysis.tsx:51 |
| Ledger.AnnualYield | App.tsx:79-82 | the left-fold sum of `amount * (rate / 100)` equals the first entry's yield plus the yield of the rest |
| Ledger.TotalAmountAppend | App.tsx:74-75 | the amount sum of a concatenation is the sum of the parts' sums |
| Ledger.AnnualYieldAppend | App.tsx:79-82 | the `amount * rate / 100` sum of a concatenation is the sum of the parts' sums |
| Ledger.TotalAmountNonNegative | App.tsx:74-75 | a list whose amounts are all non-negative has a non-negative total |
| Ledger.Filter | components/DebtAnalysis.tsx:50 | an element is in the result exactly when it is in the input and passes the test; the result is no longer than the input |
| Ledger.FilterAppend | components/AssetManager.tsx:30 | filtering a concatenation is the concatenation of the filtered parts, so the relative order is kept |
| Ledger.FilterKeepsAll | components/AssetManager.tsx:30 | a list whose entries all pass the test is returned unchanged |
| Ledger.FilterIdempotent | components/AssetManager.tsx:30 | filtering twice by the same test equals filtering once |
| Ledger.FilterPartitionsTotal | components/DebtAnalysis.tsx:50-51 | the total of the kept entries plus the total of the dropped entries is the total of the list |
| Ledger.RemoveById | components/AssetManager.tsx:29-31 | an entry survives exactly when it was in the list and its id differs from the given id; the list never grows |
| Ledger.RemoveIdempotent | components/DebtManager.tsx:28-30 | removing the same id twice equals removing it once |
| Ledger.RemoveAbsent | components/AssetManager.tsx:29-31 | removing an id that no entry carries leaves the list unchanged |
| Ledger.RemoveUndoesAppend | components/DebtManager.tsx:18-30 | appending an entry with an unused id and then removing that id gives back the original list |
| Ledger.RemoveTotal | components/AssetManager.tsx:29-31 | the total after a removal is the old total minus the amounts of the entries that carried the id |
| Ledger.ApplyEdit | components/AssetManager.tsx:36 | the edited field takes the new value, every other field keeps its value, and the id never changes |
| Ledger.UpdateById | components/AssetManager.tsx:33-41 | the length and order are kept, entries with another id are unchanged, and entries with the id get the edit |
| Ledger.UpdateAbsent | components/DebtManager.tsx:32-40 | an update for an id that no entry carries leaves the list unchanged |
| Ledger.RemoveAfterUpdate | components/DebtManager.tsx:28-40 | updating entries and then removing the same id equals just removing it, so an update touches nothing else |
| Ledger.RenameKeepsSums | components/AssetManager.tsx:81 | renaming entries changes neither the total amount nor the yield of the list |
| Ledger.AmountInputEdit | components/AssetManager.tsx:90-92 | an amount input edits exactly the entries carrying the id: a parsed number becomes their amount, a non-numeric input (NaN) becomes 0, and every other entry and field is kept; the same handler is at components/DebtManager.tsx:89-91 |
| Ledger.RateInputEdit | components/AssetManager.tsx:100-102 | a rate input sets the rate of the entries carrying the id to the parsed number, or to 0 for a non-numeric input, keeping everything else; the same handler is at components/DebtManager.tsx:99-101 |
| Engine.MonthlyYield | App.tsx:79-82 | the monthly figure times 12 is the yearly simple-interest sum (the source's `/ 12`) |
| Engine.Curve | App.tsx:109-125 | the raw curve before clamping: step takes only the values 0.3, 0.6, 0.85 and 1.0, linear never exceeds 1, and smooth stays below 1 |
| Engine.Clamp01 | App.tsx:126 | the result lies in [0, 1], equals the input inside [0, 1], and equals the nearer bound outside it |
| Engine.NominalDisposable | App.tsx:90-95 | the result is never negative, is at least income minus expense plus net passive income, and is either 0 or exactly that amount |
| Engine.AvailableDisposable | App.tsx:98 | the result is never negative, is either 0 or nominal minus target, and never exceeds the nominal amount when the target is non-negative |
| Engine.Runway | App.tsx:102 | the result is 0 without a positive expense; otherwise runway times expense is the net worth; it is negative (positive) exactly when there is an expense and the net worth is negative (positive) |
| Engine.SafetyFactor | App.tsx:105-127 | for every algorithm and every runway, K lies in [0, 1], and K is 0 whenever the runway is not positive |
| Engine.Share | App.tsx:140 | the spending share of a non-negative amount with K in [0, 1] lies between 0 and that amount |
| Engine.SavingsSplit | App.tsx:129-148 | insolvency gives no spending, locks all nominal money and adds the target on top; the sufficient case splits nominal minus target into spending and locked money and adds the target; the target-exceeds case saves the nominal money and no more; spending and locked money are never negative; when solvent, spending plus total savings is exactly the nominal money |
| Engine.Calculate | App.tsx:65-174 | the totals are the amount sums of the two lists and passive income and interest are their monthly yields; net worth is assets minus debts; net passive income is passive income minus interest; nominal disposable is NominalDisposable of income, expense and net passive income; an absent target counts as 0; the runway is Runway of net worth and expense; K is SafetyFactor of that runway, so in [0, 1] and 0 for a non-positive runway; spending, locked and total savings are SavingsSplit of net worth, nominal money, target and K; `isInsolvency` holds exactly when net worth < 0 and then spending is 0; `isCashFlowCrisis` holds exactly when income < expense + interest |
| EngineProperties.StepTiers | App.tsx:116-120 | for a positive runway, step gives 0.3, 0.6, 0.85 or 1.0 exactly on the left-closed tiers [0, L/2), [L/2, L), [L, 1.5L) and [1.5L, ∞) |
| EngineProperties.StepBoundaries | App.tsx:116-120 | a runway on a threshold falls in the higher tier: L/2 gives 0.6, L gives 0.85, 1.5L gives 1.0 |
| EngineProperties.LinearSaturates | App.tsx:110-111 | linear gives exactly 1 from the safety line on, and runway / L below it |
| EngineProperties.SigmoidMidpoint | App.tsx:122-123 | sigmoid gives exactly 0.5 when runway = L |
| EngineProperties.SigmoidInsideUnit | App.tsx:122-126 | for a positive runway the sigmoid factor lies strictly between 0 and 1 |
| EngineProperties.SmoothBelowOne | App.tsx:113-114 | the smooth factor never reaches 1 |
| EngineProperties.ClampKeepsOrder | App.tsx:126 | clamping to [0, 1] keeps order |
| EngineProperties.SmoothMonotone | App.tsx:113-114 | given a strictly increasing exp, the smooth curve never falls as the runway grows |
| EngineProperties.SigmoidMonotone | App.tsx:122-123 | given a strictly increasing exp, the sigmoid curve never falls as the runway grows |
| EngineProperties.CurveMonotone | App.tsx:109-125 | for each of the four curves, a longer runway never gives a lower raw value |
| EngineProperties.SafetyFactorMonotone | App.tsx:105-127 | for every algorithm, K never decreases as the runway grows |
| EngineProperties.EmptyPortfolio | App.tsx:74-83 | empty lists give total assets, total debts, net worth, passive income and interest of 0, and then a runway, K and spending power of 0 and no insolvency |
| EngineProperties.ZeroExpenseMeansNoSpending | App.tsx:102-107 | an expense that is not positive gives runway 0, K 0 and spending power 0, whatever the algorithm |
| EngineProperties.InsolvencyCase | App.tsx:134-138 | when net worth < 0, for every algorithm, spending power is 0, locked savings equal the nominal money, and total savings equal the nominal money plus the target |
| EngineProperties.SufficientCase | App.tsx:139-142 | when solvent and nominal money exceeds the target, spending power is K times what is left after the target, spending plus locked money is that remainder, spending lies between 0 and the remainder, and total savings are locked money plus the target |
| EngineProperties.TargetExceedsCase | App.tsx:143-148 | when solvent and the target is at least the nominal money, spending power is 0, and locked and total savings both equal the nominal money |
| EngineProperties.SolventConservation | App.tsx:139-148 | when solvent, spending power plus total savings is exactly the nominal disposable money |
| EngineProperties.InsolvencyCountsTargetTwice | App.tsx:136-138 | when insolvent, spending plus total savings is nominal money plus the target, so a positive target makes total savings exceed all disposable money |
| EngineProperties.CashFlowCrisisFlag | App.tsx:151-153 | the crisis flag holds exactly when income < expense + the debts' annual interest / 12, in every savings case |
| EngineProperties.CrisisWithoutYieldMeansNoSpending | App.tsx:90-98 | with no asset yield and a non-negative target, a cash-flow crisis leaves nominal money 0 and spending power 0 |
| EngineProperties.AlgorithmIndependence | App.tsx:155-171 | two algorithms give results that differ at most in K, spending power, locked savings and total savings |
| EngineProperties.AbsentTargetActsAsZero | App.tsx:92 | an absent target and a target of 0 give identical results |
| EngineExamples.InitialPortfolioSums | constants.ts:17-26 | the default assets total 120000 with 550 a month of yield, and the default debt totals 2000 with 25 a month of interest |
| EngineExamples.DefaultsWithLinearCurve | App.tsx:30 | the default inputs with the linear curve and L = 6 give net worth 118000, nominal money 6525, K 1, spending power 5525, locked 0, total savings 1000, and no crisis |
| EngineExamples.DefaultsWithSigmoidCurve | App.tsx:30 | the default inputs with the sigmoid curve split the 5525 beyond the target into spending and locked money, with spending strictly between 0 and 5525 |
| EngineExamples.TargetTooHighExample | App.tsx:143-148 | income 5000, expense 4000, nothing owned and a target of 2000 give nominal money 1000, spending 0, locked 1000 and total savings 1000 |
| EngineExamples.InsolvencyExample | App.tsx:134-138 | a 5000 debt with nothing owned gives a negative runway, K 0, spending 0, locked money 500 of the 500 nominal, and total savings 700 with the 200 target |
| DebtAnalysis.Percent | components/DebtAnalysis.tsx:23 | the guarded percentage is 0 for a non-positive whole; otherwise percentage times whole is 100 times the part; the same guard is at components/DebtAnalysis.tsx:38 |
| DebtAnalysis.DebtToIncomeRatio | components/DebtAnalysis.tsx:23 | the ratio is 0 without a positive annual income; otherwise ratio times annual income is 100 times the total debt |
| DebtAnalysis.ClassifyDti | components/DebtAnalysis.tsx:24-32 | exactly one tier: dangerous iff ≥ 300, manageable iff in [100, 300), safe iff < 100 |
| DebtAnalysis.PaymentPressure | components/DebtAnalysis.tsx:38 | the pressure is 0 without a positive monthly income; otherwise pressure times income is 100 times the monthly interest |
| DebtAnalysis.ClassifyPressure | components/DebtAnalysis.tsx:39-47 | exactly one tier: high iff ≥ 30, moderate iff in [20, 30), easy iff < 20 |
| DebtAnalysis.HighInterestDebts | components/DebtAnalysis.tsx:50 | a debt is kept exactly when it is in the list with a rate above 10; a rate of exactly 10 is excluded |
| DebtAnalysis.HighInterestKeepsOrder | components/DebtAnalysis.tsx:50 | the high-interest debts of a concatenation are those of the parts, in order |
| DebtAnalysis.HighInterestAmount | components/DebtAnalysis.tsx:50-51 | the high-interest sum plus the sum of the other debts is the total debt; with non-negative amounts it lies between 0 and the total debt |
| DebtAnalysis.Analyze | components/DebtAnalysis.tsx:20-51 | nothing is produced exactly when the total debt is 0; otherwise the debt-to-income ratio and the payment pressure are DebtToIncomeRatio and PaymentPressure of the inputs, each label is the tier of its ratio, the high-interest list is HighInterestDebts of the debts (the filter, in order), and the high-interest amount is HighInterestAmount of the debts |
| DebtAnalysis.PanelOfDebts | App.tsx:239-245 | fed with the engine's total debt and monthly interest, the panel is hidden exactly when the debts sum to 0; without a positive income both tiers read safe, however large the debt; the high-interest amount plus the other debts is the total debt |
| SaspDisplay.HealthLabel | components/SaspDisplay.tsx:14-22 | danger iff runway < 3, warning iff 3 ≤ runway < safety line, healthy otherwise |
| SaspDisplay.NoWarningUnderShortLine | components/SaspDisplay.tsx:14-22 | a safety line of 3 or less never yields the warning label |
| SaspDisplay.ShowSavingsProgress | components/SaspDisplay.tsx:28 | the goal bar is shown only for a non-zero (positive) target, so the percentage never divides by zero |
| SaspDisplay.SavingsProgress | components/SaspDisplay.tsx:28-33 | progress is 0 when the target is not positive (no division); otherwise progress times target is 100 times total savings |
| SaspDisplay.SavingsColor | components/SaspDisplay.tsx:30-37 | green when the bar is hidden; otherwise exactly one of red < 50, orange in [50, 80), beige in [80, 100), green ≥ 100 |
| SaspDisplay.BarWidth | components/SaspDisplay.tsx:97 | the width never exceeds 100, equals the value up to 100, and is 100 beyond it |
| SaspDisplay.ProgressReachesGoal | components/SaspDisplay.tsx:33-37 | for a positive target, progress is at least 100 exactly when total savings reach the target |
| SaspDisplay.SafetyBarIsFactor | components/SaspDisplay.tsx:80 | the safety-factor bar is never clipped: its width is K × 100, in [0, 100] |
| SaspDisplay.InsolvencyShowsDanger | components/SaspDisplay.tsx:16-18 | with a positive expense, an insolvent result always gets the danger label |
| SaspDisplay.ZeroExpenseShowsDanger | components/SaspDisplay.tsx:16-18 | with no positive expense the label is danger, whatever the net worth |
| SaspDisplay.GoalReachedWhenSufficient | components/SaspDisplay.tsx:32-37 | when solvent, with a positive target below the nominal money, the goal colour is green |
| SaspDisplay.GoalMissedWhenTargetTooHigh | components/SaspDisplay.tsx:32-37 | when solvent, with a target above the nominal money, the goal colour is never green |
| SaspDisplay.InsolvencyShowsGoalReached | components/SaspDisplay.tsx:32-37 | when insolvent, a positive target shows green, because the target is counted twice |
| IncomeExpense.HandleChange | components/IncomeExpense.tsx:12-26 | an empty target input makes the target absent; any other input sets only its own field, to the parsed number or 0 on NaN; the other fields keep their values |
| IncomeExpense.ClearTarget | components/IncomeExpense.tsx:28-32 | the target becomes absent; income and expense are kept |
| IncomeExpense.ClearTargetIsEmptyInput | components/IncomeExpense.tsx:14-19 | clearing the target equals entering an empty target |
| IncomeExpense.EmptyAmountIsZero | components/IncomeExpense.tsx:21-25 | an empty income or expense input sets that field to 0 (not absent) and keeps the other two |
| IncomeExpense.HandleChangeIdempotent | components/IncomeExpense.tsx:21-25 | entering the same input twice has the effect of entering it once |
| IncomeExpense.IsTargetTooHigh | components/IncomeExpense.tsx:34 | the warning holds exactly when the target (absent counts as 0) exceeds the nominal money; an absent target never warns when that money is non-negative |
| IncomeExpense.SuggestedMax | components/IncomeExpense.tsx:35 | the suggestion is never negative; it is 30% of non-negative nominal money, so at most that money; it is 0 otherwise |
| IncomeExpense.SuggestedTargetIsNotTooHigh | components/IncomeExpense.tsx:34-35 | a target set to the suggestion never triggers the warning |
| IncomeExpense.TooHighMeansNoSpending | components/IncomeExpense.tsx:34 | whenever the form warns, the engine grants no spending power; when solvent it saves exactly the nominal money |
| AssetManager.AddAsset | components/AssetManager.tsx:19-27 | the list grows by one, the earlier entries are unchanged, and the new asset has the given id, name 新资产, amount 0 and rate 3 |
| AssetManager.AddAssetKeepsSums | components/AssetManager.tsx:19-27 | adding an asset changes neither the total nor the yield |
| AssetManager.AddAssetKeepsResult | components/AssetManager.tsx:19-27 | adding an asset leaves the engine's whole result unchanged |
| AssetManager.RemoveUndoesAddAsset | components/AssetManager.tsx:19-31 | removing a just-added asset whose id was unused gives back the old list |
| DebtManager.AddDebt | components/DebtManager.tsx:18-26 | the list grows by one, the earlier entries are unchanged, and the new debt has the given id, name 新负债, amount 0 and rate 5 |
| DebtManager.AddDebtKeepsResult | components/DebtManager.tsx:18-26 | adding a debt leaves the engine's whole result unchanged |
| DebtManager.RemoveUndoesAddDebt | components/DebtManager.tsx:18-30 | removing a just-added debt whose id was unused gives back the old list |
| DebtManager.RenameDebtKeepsResult | components/DebtManager.tsx:32-40 | renaming a debt leaves the engine's whole result unchanged |

## Left out

- React state, `useMemo`/`useCallback` and `localStorage` persistence (`App.tsx:17-62`) are I/O and framework plumbing. The engine takes its inputs as parameters.
- All JSX rendering, Tailwind classes, number formatting (`toLocaleString`, `toFixed`) and the recharts comparison chart are left out. `components/InfoTabs.tsx` only calls the engine once per algorithm, which `EngineProperties.AlgorithmIndependence` covers.
- The help text, the algorithm selector, the safety-line slider, the net-worth summary and `postbuild.js` are not part of this model: they hold no logic beyond display, or are build tooling.
- The display of the target-clear button (`components/IncomeExpense.tsx:88`) and the target input's shown value (`components/IncomeExpense.tsx:99`, `''` for an absent target and the number for 0) are rendering only. They are the two places where an absent target differs from a target of 0.
- Floating point is left out: amounts are exact reals, and NaN and Infinity are not modelled. A `parseFloat` failure is `None`, and it becomes 0 wherever the source coerces it.
- Engine.Calculate: requires `L > 0` (the slider range is 3 to 24). With `L = 0` the source would divide by zero and produce Infinity; this is not modelled.
- Engine.SafetyFactor: `Math.exp` is abstract, so the model proves no numeric value of the smooth or sigmoid curves beyond `exp(0) = 1` and positivity, for example not the ≈0.971 sigmoid value of the default inputs.
- Editing an entry's `id` field is left out: the source's inputs never pass `'id'` to the update handlers.
- The removal and update handlers of `components/DebtManager.tsx:28-40` are the same code as those of `components/AssetManager.tsx:29-41`. Both are modelled by `Ledger.RemoveById` and `Ledger.UpdateById`.
