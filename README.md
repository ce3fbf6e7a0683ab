# Hot-tub water chemistry: dosage engine and maintenance rules

A Dafny model of the decision logic of a personal hot-tub logbook (a single-page
web application, `app.js`). The model covers:

- the **dosage recommendation engine** `calculerDosages`: five independent rule
  checks on a water reading (pH out of range, bromine too low, green water, foam,
  cloudy water), each appending at most one product recommendation, in a fixed
  order, with quantities scaled by the pool volume;
- the **value classifier** `getValueClass` used to colour-code readings on the
  dashboard and in the history (ok / warning / danger, with a 0.5 tolerance band around the ideal range);
- the measurement form's **preview decision** (show the list, "Aucun traitement
  nécessaire", or hide the panel);
- the dashboard's **maintenance countdowns** (activator every 14 days, filter
  balls every 30 days), the measurement page's **cycle checklist flag**, and the
  management page's **water-change estimate** computed from a fold over bathing
  sessions.

The constant configuration `CONFIG` is the datatype `PoolConfig.Config` with the
shipped values in `PoolConfig.Default`; the engine takes it as a parameter, and
general properties are proved for every configuration satisfying `Valid()`
(positive volume and ranges, positive cycles, non-negative rates). A reading that
is absent, `null` or `NaN` is `None`. JavaScript's `Math.ceil`, `Math.round` and
truncating `%` are written out in module `JsMath`. A quantity is an amount (a
`real`) and a unit; a reason carries the measured value the message cites.

Files: `wrappers.dfy` (Option), `jsmath.dfy`, `config.dfy`, `dosage.dfy` (rules,
specification function and the imperative method), `dosage_properties.dfy`,
`dosage_examples.dfy`, `valueclass.dfy`, `valueclass_links.dfy`, `preview.dfy`,
`cycles.dfy`, `drain.dfy`.

## Model

| member | source | states |
|---|---|---|
| JsMath.Ceil | app.js:197 | `Math.ceil`: the result is the least integer not below its argument |
| JsMath.Round | app.js:221 | `Math.round`: the result lies within half a unit of the argument, halves rounding up |
| JsMath.JsRem | app.js:521 | JavaScript `%`: dividend = truncated quotient × divisor + remainder, the remainder has the dividend's sign and is below the divisor in size, and agrees with the Euclidean remainder on non-negative dividends |
| PoolConfig.DefaultValid | app.js:2-21 | the shipped constants (1.5 m3, pH 7.2-7.6, bromine 2-4, cycles 14 and 30 days, product rates) form a valid configuration |
| Dosage.PhMinusDoses | app.js:195-197 | for a pH above the range the dose count is at least 1 and is the fewest 0.4-steps that bring the pH to or below the maximum |
| Dosage.PhPlusDoses | app.js:204-206 | for a pH below the range the dose count is at least 1 and is the fewest 0.2-steps that bring the pH to or above the minimum |
| Dosage.PhRule | app.js:194-214 | an entry exactly when a pH is present and outside the ideal range: "pH moins" citing the reading when above, "pH plus" citing it when below, in the product's unit |
| Dosage.BromineRule | app.js:216-225 | an entry exactly when bromine is present and below the minimum: "Brome" citing the reading, in tablets, a whole number within half a tablet of rate × volume |
| Dosage.ShockRule | app.js:227-234 | an entry exactly when the colour is green: one full-pool dose of "Choc sans chlore" in its unit, reason green water |
| Dosage.AntiFoamRule | app.js:236-243 | an entry exactly when foam is present: one full-pool dose of "Anti-écume" in its unit, reason foam |
| Dosage.ClarityRule | app.js:245-252 | an entry exactly when transparence > 2: one full-pool dose of "Eau éclatante (curatif)" in its unit, citing the transparence |
| Dosage.Recommendations | app.js:190-255 | the list is the concatenation of each rule's optional entry, in rule order, and holds at most five entries |
| Dosage.ProductNameInjective | app.js:200-248 | the six `produit` labels are pairwise distinct: equal labels mean the same product |
| Dosage.CalculateDosages | app.js:190-255 | the step-by-step appends produce exactly `Recommendations` for every input |
| DosageProperties.PhEntries | app.js:194-214 | exactly one "pH moins" iff pH is present and above the maximum, exactly one "pH plus" iff present and below the minimum, never both, none when absent or in range |
| DosageProperties.BromineEntry | app.js:216-225 | exactly one "Brome" entry iff bromine is present and below the minimum; a high reading never triggers one |
| DosageProperties.VisualEntries | app.js:227-252 | "Choc sans chlore" occurs once iff the colour is green, "Anti-écume" once iff foam, "Eau éclatante (curatif)" once iff transparence > 2, whatever the other inputs |
| DosageProperties.RecommendationOrder | app.js:190-255 | entries appear in strictly increasing rule order (pH, Brome, Choc, Anti-écume, Eau éclatante), so no product appears twice |
| DosageProperties.DistinctProductNames | app.js:190-255 | no `produit` label is displayed twice in the returned list, for every input |
| DosageProperties.NoTreatmentNeeded | app.js:190-255 | the list is empty iff pH is absent or in range, bromine is absent or at least the minimum, the water is not green, there is no foam and transparence ≤ 2 |
| DosageProperties.PhCorrectionIsWholeDoses | app.js:194-214 | a pH entry is always first, cites the measured pH, has the product's unit, and its amount is the minimal dose count times one full-pool dose, hence at least one full dose |
| DosageProperties.VisualEntryContents | app.js:227-252 | for every input, a Choc, Anti-écume or Eau éclatante entry is one full-pool dose (rate × volume) in the product's unit and cites its trigger: green water, foam, or the transparence value |
| DosageProperties.BromineIsWholeTablets | app.js:216-225 | a bromine entry cites the low reading, is in tablets, is a whole number, and is the full-pool rate rounded to the nearest unit |
| DosageExamples.HighPh | app.js:195-203 | over exact reals, pH 8.4 on the shipped configuration gives one entry, pH moins 90 g |
| DosageExamples.LowPh | app.js:204-212 | over exact reals, pH 6.9 gives one entry, pH plus 45 g |
| DosageExamples.OneStepAbove | app.js:195-198 | over exact reals pH 8.0 is one 0.4-step above 7.6 and gives one dose, 45 g |
| DosageExamples.LowBromine | app.js:216-224 | bromine 1.0 gives one entry, 3 tablets |
| DosageExamples.GreenWaterOnly | app.js:227-234 | green water with balanced readings gives only the shock treatment, 30 g |
| DosageExamples.ClarityThreshold | app.js:245-252 | transparence 3 gives the curative clarifier (6 caps); transparence 2 gives nothing |
| DosageExamples.AllRules | app.js:190-255 | over exact reals, with every rule firing, all five entries appear in rule order with their quantities |
| ValueClass.Classify | app.js:662-667 | no class iff the value is absent/NaN; ok iff min ≤ v ≤ max; danger iff v < min − 0.5 or v > max + 0.5; a warning value lies outside the range but within 0.5 of it |
| ValueClass.CssNameInjective | app.js:663-666 | the four strings `getValueClass` returns are pairwise distinct: equal names mean the same class |
| ValueClass.ClassByDistance | app.js:662-667 | for a non-empty range the class depends only on the distance to the range: 0 is ok, up to 0.5 warning, beyond danger |
| ValueClassLinks.PhOkIffNoCorrection | app.js:662-667 | a pH reading is coded ok exactly when the pH rule recommends nothing |
| ValueClassLinks.BromineCodingVsRule | app.js:216-225 | a bromine entry implies the reading is coded warning or danger; a reading more than 0.5 above the range is coded danger yet recommends nothing |
| Preview.Truthy | app.js:277 | JavaScript truthiness of a reading: a truthy reading is present, and a present reading is falsy exactly when it is zero |
| Preview.PreviewPanel | app.js:269-282 | the list is shown iff the engine recommends something, and then it is exactly the engine's list |
| Preview.PanelCases | app.js:277-282 | "Aucun traitement nécessaire" iff nothing is recommended and a pH or bromine reading is present; hidden iff nothing was measured and no visual trigger holds (a zero reading, falsy in JavaScript, always triggers a recommendation) |
| Preview.NoTreatmentMeansBalanced | app.js:277-279 | "no treatment" implies a reading is present, every present reading is within its rule's bounds and no visual trigger holds |
| Cycles.ActivatorDaysLeft | app.js:521 | from filling day on, the countdown lies in 1..14, equals 14 exactly on a cycle day, and otherwise lands on the next cycle day with none in between |
| Cycles.ActivatorCountdown | app.js:521-523 | "-" iff no filling date; from filling day on, "Aujourd'hui !" iff the day count is a multiple of the cycle, otherwise "Dans n jours" with n = 14 − (days % 14) as JavaScript computes it, 1 ≤ n < 14 |
| Cycles.BallCountdown | app.js:531-533 | "-" iff no cleaning date; "À faire !" iff at least 30 days have passed; otherwise n ≥ 1 days remain and the day count plus n is 30 |
| Cycles.ShowCycle | app.js:542 | the checklist is shown iff the day count is below 1 or a multiple of the cycle |
| Cycles.ChecklistMatchesCountdown | app.js:542 | from filling day on, the checklist shows exactly when the dashboard says the activator is due today |
| Drain.PersonMinutes | app.js:630-631 | the `reduce` total of people × minutes; never negative when every session has non-negative people and minutes |
| Drain.PersonMinutesAppend | app.js:630-631 | the person-minute total of two lists of sessions is the sum of their totals |
| Drain.EstimateAsWritten | app.js:634-644 | the classification as written: "Bientôt recommandée" iff load > 1500 or age > 75, otherwise (the "Recommandée" test being dead) "~N jours" with N = 90 − age |
| Drain.RecommendedUnreachable | app.js:634-644 | as written, "Recommandée" is never produced, and "~N jours" appears only with load ≤ 1500 and age ≤ 75, so N ≥ 15 |
| Drain.HeavyUseNotEscalated | app.js:634-639 | as written, 2500 person-minutes after 100 days still reads "Bientôt recommandée" |
| Drain.ClassifyLoad | app.js:634-644 | corrected order: "Recommandée" iff load > 2000 or age > 90; "Bientôt recommandée" iff not that but load > 1500 or age > 75; otherwise "~N jours" with N = 90 − age ≥ 15 |
| Drain.UrgencyMonotone | app.js:634-644 | more load or older water never makes the estimate less urgent |
| Drain.CorrectionOnlyEscalates | app.js:634-644 | the corrected estimate agrees with the code as written everywhere except where it says "Recommandée", where the code says "Bientôt recommandée" |
| Drain.DrainEstimateAsWritten | app.js:629-646 | the page as written: "-" iff no filling date; never "Recommandée"; "Bientôt recommandée" iff the fold's total exceeds 1500 or the age exceeds 75; otherwise "~N jours" with N = 90 − age ≥ 15 |
| Drain.DrainEstimate | app.js:629-646 | corrected classification: "-" iff no filling date; otherwise `ClassifyLoad` of the fold's total and the day count |
| Drain.NewSessionNeverRelaxes | app.js:630-644 | with the corrected classification, logging one more session never makes the estimate less urgent |

## Findings

| source | as written | input that shows it | evidently intended | confidence | as-written member | corrected member |
|---|---|---|---|---|---|---|
| app.js:634-639 | the "Bientôt recommandée" test (load > 1500 or age > 75) comes before the "Recommandée" test (load > 2000 or age > 90), whose condition implies the first | 2500 person-minutes, 100 days since filling: shows "Bientôt recommandée" | "Recommandée" (danger colour) once load > 2000 or age > 90 | high, not executed | Drain.RecommendedUnreachable | Drain.ClassifyLoad |

`Drain.EstimateAsWritten` and `Drain.DrainEstimateAsWritten` are the classification
and the page as written; `Drain.DrainEstimate` uses the corrected `Drain.ClassifyLoad`.

## Left out

- Numbers are exact reals and unbounded integers, not IEEE-754 binary64 doubles. The pH dose counts differ exactly where they matter most: a one-decimal reading that lies a whole number of steps outside the range usually gets one dose more in doubles than over exact reals, because the rounding error of the subtraction pushes the quotient just above the whole number before `Math.ceil`. In binary64, 8.4 − 7.6 = 0.8000000000000007 and its quotient by 0.4 is 2.0000000000000018, so the application gives 3 doses (135 g) where `DosageExamples.HighPh` gives 2 (90 g); likewise 8.0, 8.8, 10.0 (pH moins) and 7.0, 6.8, 6.6, 6.0 (pH plus) get one extra dose, 9.2 does not. All claims about pH quantities hold over exact reals only. Infinite readings are not modelled.
- The display strings are not modelled: number-to-string formatting of quantities, the reason texts and the HTML of the list, history and estimate.
- Form parsing (`parseFloat`, `parseInt`) is not modelled: the engine receives already-parsed optional values. In particular, the stored reading keeps a zero pH or bromine as `null` (`|| null`) while the engine receives the raw zero.
- Transparence is a plain integer (the form's range slider); a `NaN` transparence is not modelled.
- Dates: day counts are integer inputs; the wall-clock difference and `Math.floor` of milliseconds are left out.
- The session field fallbacks (`nb_personnes || nbPersonnes`) and sessions with missing fields (which give `NaN` in JavaScript) are not modelled; a session is a pair of integers.
- Network calls, local storage, the POST handlers, CSV export, push notifications, frost alerts, toasts, navigation and the service worker are I/O with no decision logic and are not part of this model.
- `CONFIG.API_URL` and the descriptive `effet` and `type` labels of the product table are not part of `PoolConfig.Config`; the activator and preventive clarifier rates are carried but play no role in the modelled rules.
