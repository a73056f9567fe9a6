# Mortgage offer calculator, modelled in Dafny

The engine compares Spanish mortgage offers. An offer is fixed (`fija`),
floating (`variable`: euribor plus a spread) or fixed-then-floating (`mixta`).
It carries conditional discounts (`bonificaciones`). Each discount lowers the
rate in return for a yearly cost.

For one offer, the engine does the following:

- resolves the annual rate of every month, with and without discounts. When
  the unreduced rate is missing, it infers it from the quoted reduced rate.
- builds the French-amortisation payment stream. A floating tranche is
  re-amortised every month.
- finds the APR (TAE) by bisection on the net present value.
- totals the costs and adds the personal products that no discount already
  covers.
- produces the per-offer result row and, in the legacy version, the monthly
  amortisation series for the chart.

There are two versions of this engine, and each is a module of its own:

- **Legacy engine** (`calculadora.ts`, module `Calculadora`). A discount
  carries one reduction per rate category. If a category has no reduction of
  its own, the generic TIN reduction stands in for it. Every discount always
  counts. Expenses are four separate fields.
- **Newer engine** (`shared/utils/CalculadoraHipotecas.ts`, with the types of
  `shared/types/hipotecas.ts`; modules `CalculadoraHipotecas` and
  `HipotecasTypes`). A discount carries one `reduccion` and an `enabled`
  switch. The offer may cap the total reduction (`topeBonificacion`).
  Expenses are a list. The result also carries a warning when a quoted
  reduced rate is not reached, and a warning when the active discounts stay
  below the cap.

Some code is textually the same in both versions, and lives in shared
modules:

- `Finance`: `calcularCuotaFrances`, sums and powers.
- `Amortization`: the payment-stream loops, as schedules over any
  month-to-rate function.
- `Bisection`: the root search of `calcularTAE`.
- `PersonalProducts`: the personal-product overlay.

Each version's `obtenerInteresMensual` is turned into the month-to-rate
function that these shared modules take.

How the model is built:

- Numbers are reals.
- JavaScript's `NaN` APR is `None`.
- Optional fields are `Option`s.
- The source's loops are methods. Each is proved equal to a recursive
  specification function, and the properties are proved about that function.
  These properties are: the schedule repays the loan, the bisection keeps a
  sign change and lands inside its bracket, and the APR is NaN exactly when
  no bracket is found.

## Model

| member | source | states |
|---|---|---|
| Finance.CuotaFrances | calculadora.ts:97-102 | With a non-positive monthly rate, `meses` instalments add up to the capital; with a positive rate the instalment solves the annuity identity `c * ((1+i)^n - 1) == capital * i * (1+i)^n` (the same function is `shared/utils/CalculadoraHipotecas.ts:3-8`) |
| Finance.AnnuityIdentityCharacterises | calculadora.ts:97-102 | For a positive rate, the annuity identity has exactly one solution, the French instalment |
| Finance.PowPositive | calculadora.ts:101 | `(1+i)^n` is positive for a positive base |
| Finance.PowAboveOne | calculadora.ts:101 | `(1+i)^n > 1` for `i > 0`, `n > 0`, so the formula's denominator is never zero |
| Finance.SumAppend | calculadora.ts:342 | The left-to-right `reduce` sum of a concatenation is the sum of the parts |
| Finance.SumConstant | calculadora.ts:290 | A stream of `n` equal instalments sums to `n` times the instalment |
| Amortization.StepUnfold | calculadora.ts:297-299 | Interest then principal then new balance is one `Step` of the balance |
| Amortization.ReamortizedTailStep | calculadora.ts:294-301 | A floating month's instalment re-amortises the balance over the months left, then the stream goes on from the new balance |
| Amortization.ReamortizedPrefixStep | calculadora.ts:294-301 | Loop step: the instalments pushed so far plus the remaining tail stay equal to the whole stream |
| Amortization.CuotasReamortizadas | calculadora.ts:320-327 | The floating loop, from any month and balance, returns exactly the re-amortised stream |
| Amortization.CuotasTramoFijo | calculadora.ts:312-317 | The fixed-tranche loop pushes the fixed instalment `plazoFijoMeses` times and leaves the balance given by `FixedBalance` |
| Amortization.ReamortizedTailLength | calculadora.ts:294 | The floating loop runs once per month from `mes` to the term, and not at all past it |
| Amortization.ScheduleShape | calculadora.ts:283-332 | Fixed: `plazoMeses` equal instalments. Floating: `plazoMeses` instalments. Mixed: `max(fixed months, term)` instalments, the fixed ones equal, then the first floating instalment re-amortises the balance left after the fixed tranche |
| Amortization.FixedBalanceNoInterest | calculadora.ts:312-317 | At zero interest, the fixed tranche takes `k` instalments off the capital |
| Amortization.FixedBalanceClosedForm | calculadora.ts:312-317 | Closed form of the balance after `k` fixed instalments: `B_k * i == C*i*(1+i)^k - c*((1+i)^k - 1)` |
| Amortization.FixedInstalmentExhausts | calculadora.ts:287-291 | Paying the French instalment for its whole term leaves a zero balance |
| Amortization.OneMonthClears | calculadora.ts:296-299 | A one-month re-amortisation clears the balance |
| Amortization.ReamortizedExhausts | calculadora.ts:294-301 | The re-amortised floating stream leaves a zero balance after the last month, whatever the earlier rates (non-negative final month) |
| Amortization.ScheduleRepaysLoan | calculadora.ts:283-332 | With non-negative rates, and for a mixed offer a fixed tranche no longer than the term, every offer type's stream repays the loan exactly |
| Amortization.ReamortizationKeepsInstalment | calculadora.ts:296 | At a constant rate, re-amortising after one payment gives back the same instalment |
| Amortization.ReamortizationNoInterest | calculadora.ts:296 | Zero-rate case of the above |
| Amortization.ReamortizationWithInterest | calculadora.ts:296 | Positive-rate case of the above |
| Amortization.AnnuityShift | calculadora.ts:296-299 | Algebraic step: an instalment that solves the annuity identity for `n` months solves it for `n - 1` months on the new balance |
| Amortization.ReamortizedAtConstantRate | calculadora.ts:294-301 | At a constant rate, the floating loop pays one constant instalment |
| Amortization.VariableAtConstantRateIsFixed | calculadora.ts:287-303 | A floating offer whose rate never changes has the same stream as a fixed offer |
| Amortization.SeriesFromStep | calculadora.ts:629-643 | One chart month: the month number, the balance floored at 0, and the running interest and principal, then the rest of the series |
| Amortization.ConcatAssoc | calculadora.ts:640-643 | Appending to the four chart arrays is associative |
| Amortization.ConcatEmpty | calculadora.ts:645 | Appending empty arrays changes nothing |
| Amortization.ConcatEmptyLeft | calculadora.ts:619-624 | Starting from four empty arrays changes nothing |
| Amortization.SeriesPrefixStep | calculadora.ts:629-643 | Loop step of the chart series: the arrays pushed so far plus the remaining series stay equal to the whole series |
| Amortization.SeriesShape | calculadora.ts:618-646 | All four arrays have one entry per month; month `k` is numbered `mes + k`; the balance shown is the loan less the cumulative principal, floored at 0; with a non-negative final rate the cumulative principal ends at the loan |
| Bisection.ValorDescontadoMonotoneInCost | shared/utils/CalculadoraHipotecas.ts:84-89 | With a positive discount factor, a higher monthly product cost never lowers the discounted payments |
| Bisection.SignoOpuestoIsProduct | shared/utils/CalculadoraHipotecas.ts:98 | "Strictly opposite signs" is exactly `van(a) * van(b) < 0`, the source's test |
| Bisection.StartBracketInitial | shared/utils/CalculadoraHipotecas.ts:93-98 | If `van(0)` and `van(0.2)` have opposite signs, the search starts from `[0, 0.2]` |
| Bisection.StartBracketWidened | shared/utils/CalculadoraHipotecas.ts:98-108 | Otherwise it widens to `[0, 0.5]` when `van(0) < 0`, else to `[-0.05, 0.2]`, and gives up if there is still no sign change |
| Bisection.BisectStops | shared/utils/CalculadoraHipotecas.ts:112 | The loop stops once the bracket is narrower than 1e-7 or 500 iterations are done |
| Bisection.BisectStep | shared/utils/CalculadoraHipotecas.ts:112-122 | One iteration: stop at an exact root, else keep the half whose endpoints have opposite signs |
| Bisection.TaeIsNaNIff | shared/utils/CalculadoraHipotecas.ts:98-108 | The APR is NaN if and only if neither the initial bracket nor the widened one shows a sign change |
| Bisection.StartBracketNoneIff | shared/utils/CalculadoraHipotecas.ts:98-108 | No bracket is found exactly under the same condition |
| Bisection.TaeNoneIffNoBracket | shared/utils/CalculadoraHipotecas.ts:105-107 | NaN is returned exactly when bracket search fails |
| Bisection.TaeSinCuotas | shared/utils/CalculadoraHipotecas.ts:81-106 | With no payment to discount, `van` never changes sign and the APR is NaN |
| Bisection.BisectKeepsBracket | shared/utils/CalculadoraHipotecas.ts:110-122 | Bisection keeps a sign change between the ends of a shrinking bracket, never runs more than 500 iterations, stops only at a root, at the precision or at the iteration cap, and once it has iterated the midpoint lies strictly inside the starting bracket |
| Bisection.StartBracketBounds | shared/utils/CalculadoraHipotecas.ts:93-108 | A found bracket is one of `[0, 0.2]`, `[0, 0.5]`, `[-0.05, 0.2]`, has a sign change, and is `[0, 0.2]` whenever that one does |
| Bisection.BisectFromKeepsBracket | shared/utils/CalculadoraHipotecas.ts:110-122 | From a bracket wider than the precision, the last midpoint lies strictly inside it and between the final ends, which still change sign |
| Bisection.TaeFromBracket | shared/utils/CalculadoraHipotecas.ts:110-124 | When a bracket is found, the APR is the last midpoint times 100 |
| Bisection.TaeDesdeBracket | shared/utils/CalculadoraHipotecas.ts:110-124 | The same, for the search started from a given bracket |
| Bisection.TaeBracketsRoot | shared/utils/CalculadoraHipotecas.ts:93-124 | When the APR exists, it is 100 times a rate strictly inside the bracket searched, next to a sign change of `van` |
| Bisection.TaeRange | shared/utils/CalculadoraHipotecas.ts:93-124 | Any APR found lies strictly between -5% and 50%, and strictly between 0% and 20% when `[0, 0.2]` already brackets the root |
| Bisection.BuscarHorquilla | shared/utils/CalculadoraHipotecas.ts:93-108 | The bracket code returns the bracket of the specification, or none for the NaN exit |
| Bisection.Biseccionar | shared/utils/CalculadoraHipotecas.ts:110-122 | The `while` loop computes the specification's last midpoint |
| Bisection.TaeDesdeHorquilla | shared/utils/CalculadoraHipotecas.ts:105-124 | NaN without a bracket, else 100 times the midpoint the loop computes |
| Bisection.BuscarTae | shared/utils/CalculadoraHipotecas.ts:93-124 | The whole search returns the specification's APR |
| PersonalProducts.TrimStart | calculadora.ts:377 | Leading white space removed: the result is a suffix of the input that does not start with white space, and everything removed before it is white space |
| PersonalProducts.TrimEnd | calculadora.ts:377 | Trailing white space removed: the result is a prefix of the input that does not end with white space, and everything removed after it is white space |
| PersonalProducts.Trim | calculadora.ts:377 | `trim()` returns a contiguous slice of the input that neither starts nor ends with white space, and only white space is removed on either side of it |
| PersonalProducts.OccursInTail | calculadora.ts:379 | A match at position `k >= 1` is a match at `k - 1` in the tail |
| PersonalProducts.IncludesIffOccurs | calculadora.ts:379 | `includes` holds exactly when the needle occurs at some position |
| PersonalProducts.Names | calculadora.ts:384 | One pushed name per included product |
| PersonalProducts.NamesAt | calculadora.ts:384 | The `k`-th pushed name is the `k`-th included product's name |
| PersonalProducts.IncludedIff | calculadora.ts:375-387 | A product is added exactly when it is in the list, enabled, and its normalised name occurs in no discount's normalised name |
| PersonalProducts.IncludedAppend | calculadora.ts:375 | The overlay over a concatenation is the overlay over each part, in order |
| PersonalProducts.ExtrasCostSnoc | calculadora.ts:383-384 | Adding a product adds its yearly cost times the term in years and appends its name |
| PersonalProducts.ExtrasCostNonNegative | calculadora.ts:383 | Non-negative costs give a non-negative extra cost |
| PersonalProducts.SumarExtras | calculadora.ts:371-387 | The loop returns the base total plus the cost of the included products, and their names in order (the same loop is `shared/utils/CalculadoraHipotecas.ts:199-213`) |
| PersonalProducts.SimilarityEdgeCases | calculadora.ts:377-380 | An enabled product whose name is empty after trimming matches any discount and is never added; with no discounts every enabled product is added |
| Calculadora.Reduccion | calculadora.ts:111-122 | One discount contributes its category's reduction, else (spread and fixed tranche) the TIN reduction, else nothing |
| Calculadora.SumReductionsAppend | calculadora.ts:110-123 | The reduction total of a concatenation is the sum of the totals |
| Calculadora.ObtenerInteresMensual | calculadora.ts:104-186 | The monthly rate is non-negative, and equals `final / 1200` unless clamped to 0 where the final rate is negative; the base-inferred flag is that of the baseline |
| Calculadora.RateIsClampedFinal | calculadora.ts:179-185 | The rate times 1200 is `max(0, final annual rate)` |
| Calculadora.BaselinePrecedence | calculadora.ts:125-177 | Per type and tranche: the explicit unreduced value wins, not flagged; else the reduced value plus the category total, flagged; else 0 or the euribor, flagged |
| Calculadora.InferenceRoundTrip | calculadora.ts:130-132 | When the base is inferred from the reduced value, the discounted rate is the quoted reduced value (floored at 0), the undiscounted one is that value plus the total, and it is flagged |
| Calculadora.NoDiscountsChargesBase | calculadora.ts:179-185 | Without discounts, the rate is the baseline floored at 0 |
| Calculadora.MixtaTranche | calculadora.ts:152-153 | A mixed offer uses its fixed tranche exactly up to month `plazoFijoAnios * 12`, and never the plain TIN category |
| Calculadora.RateConstantWithinTranche | calculadora.ts:125-177 | Two months of the same tranche get the same rate: euribor is one constant |
| Calculadora.CalcularFlujoDeCuotas | calculadora.ts:283-332 | The stream equals the schedule of the offer's plan at the offer's resolved monthly rates |
| Calculadora.PrestamoAmortizado | calculadora.ts:283-332 | That stream repays the loan exactly (a mixed offer's fixed tranche no longer than the term) |
| Calculadora.ValorActualNeto | calculadora.ts:227-235 | The `van` loop computes the net present value of the specification |
| Calculadora.CalcularTAE | calculadora.ts:223-277 | Returns the APR of the specified search over that net present value, NaN as `None` |
| Calculadora.CosteBonificacionesEnAnios | calculadora.ts:338 | Over `12 * years` months, the discounts' cost is their yearly cost times the years |
| Calculadora.CalcularCostes | calculadora.ts:334-352 | The scenario's stream goes in its own slot and the other slot is empty; its total is payments plus valuation, broker and other expenses, plus, when discounted, the discounts' yearly cost over the term; the other total is 0 |
| Calculadora.TotalPagadoFija | calculadora.ts:287-291 | A fixed offer pays `plazoMeses` times its instalment, which is the loan itself at rate 0 |
| Calculadora.CosteAnualBonificacionesNonNegative | calculadora.ts:338 | Non-negative yearly costs give a non-negative total |
| Calculadora.NombresBonificaciones | calculadora.ts:378-380 | The names compared against are the discounts' names, in order |
| Calculadora.CuotasCoverTerm | calculadora.ts:425-431 | Every stream has at least one entry per month, so `cuotas[0]` and the first floating month's index are in range |
| Calculadora.ValoresTabla | calculadora.ts:390-421 | The displayed TIN and spreads per offer type are the clamped annual rates of month 1 and of the first floating month, with spreads net of euribor; the flag is set if either baseline was inferred |
| Calculadora.CalcularEscenario | calculadora.ts:364-369 | One scenario's stream, totals and APR, with the discounts' monthly cost added to the discounted APR's cash flows |
| Calculadora.CalcularResultadoParaOferta | calculadora.ts:354-466 | Every field of the result: streams, first instalments, totals, APRs, expense breakdown, display rates, the personal-product totals and, for a mixed offer whose term outlasts the fixed tranche, the first floating instalments |
| Calculadora.GenerarDatosAmortizacion | calculadora.ts:618-646 | The chart loop returns exactly the specified amortisation series at the offer's monthly rates |
| Calculadora.SerieAmortizacion | calculadora.ts:629-643 | The loop body over any rate function builds the specified series |
| Calculadora.AmortizacionCompleta | calculadora.ts:618-646 | The chart has one entry per month, numbered from 1; the balance is the loan less the cumulative principal, floored at 0; the cumulative principal ends at the loan |
| CalculadoraHipotecas.Activas | shared/utils/CalculadoraHipotecas.ts:19 | The kept discounts are exactly those not switched off, and there are no more of them than in the input |
| CalculadoraHipotecas.ActivasAppend | shared/utils/CalculadoraHipotecas.ts:19 | `filter` keeps order: filtering a concatenation is concatenating the filtered parts |
| CalculadoraHipotecas.ActivasSnoc | shared/utils/CalculadoraHipotecas.ts:19 | A discount appended at the end is kept, at the end, exactly when it is active |
| CalculadoraHipotecas.ActivasMultiset | shared/utils/CalculadoraHipotecas.ts:19 | `filter` keeps multiplicity: each active discount occurs in the result as often as in the input, and no other discount occurs |
| CalculadoraHipotecas.SumaDeSnoc | shared/utils/CalculadoraHipotecas.ts:16 | The `reduce` sum over a list with one more entry adds that entry |
| CalculadoraHipotecas.SumaDeActivas | shared/utils/CalculadoraHipotecas.ts:19 | Summing over the filtered list equals summing over all with the switched-off ones counted as 0 |
| CalculadoraHipotecas.ReduccionActivaAcotada | shared/utils/CalculadoraHipotecas.ts:68 | With non-negative reductions, the active reduction is at most the total, and equal when all are active |
| CalculadoraHipotecas.MascaraAcotada | shared/utils/CalculadoraHipotecas.ts:68 | The same bound for the masked sum |
| CalculadoraHipotecas.MascaraTotal | shared/utils/CalculadoraHipotecas.ts:68 | With every discount active, the masked sum is the full sum |
| CalculadoraHipotecas.ObtenerInteresMensual | shared/utils/CalculadoraHipotecas.ts:10-76 | The monthly rate is non-negative and equals `final / 1200` unless clamped to 0; the flag is the baseline's |
| CalculadoraHipotecas.RateIsClampedFinal | shared/utils/CalculadoraHipotecas.ts:66-75 | The rate times 1200 is `max(0, final annual rate)` |
| CalculadoraHipotecas.SoloActivasReducen | shared/utils/CalculadoraHipotecas.ts:67-72 | Only active discounts reduce the rate, and their sum is cut to the cap when there is one |
| CalculadoraHipotecas.TopeLimitaReduccion | shared/utils/CalculadoraHipotecas.ts:66-73 | With a cap, the applied reduction never exceeds it and is the full active reduction when that is within it, so the discounted rate never falls more than the cap below the baseline |
| CalculadoraHipotecas.BaselinePrecedence | shared/utils/CalculadoraHipotecas.ts:29-64 | Per type and tranche: explicit value wins, not flagged; else the reduced value plus the cap (or the total of all discounts, active or not), flagged; else 0 or the euribor, flagged |
| CalculadoraHipotecas.InferenceRoundTrip | shared/utils/CalculadoraHipotecas.ts:29-75 | With an inferred base, the discounted rate is the quoted value plus what the applied reduction falls short of the inference, the undiscounted one is the quoted value plus the inference, and it is flagged; when the applied reduction covers the inference, the quoted reduced value comes back exactly |
| CalculadoraHipotecas.MixtaTranche | shared/utils/CalculadoraHipotecas.ts:22-27 | A mixed offer uses its fixed tranche exactly up to month `plazoFijoAnios * 12`, never the plain TIN |
| CalculadoraHipotecas.CalcularFlujoDeCuotas | shared/utils/CalculadoraHipotecas.ts:127-174 | The stream equals the schedule of the offer's plan at the newer resolver's rates, and is empty for a zero term |
| CalculadoraHipotecas.CuotasShape | shared/utils/CalculadoraHipotecas.ts:131-170 | Fixed: `plazoMeses` equal instalments; floating: `plazoMeses`; mixed: `max(fixed months, term)`, the fixed ones all equal (a zero term included) |
| CalculadoraHipotecas.PrestamoAmortizado | shared/utils/CalculadoraHipotecas.ts:127-174 | The stream repays the loan exactly (mixed: fixed tranche within the term) |
| CalculadoraHipotecas.ValorActualNeto | shared/utils/CalculadoraHipotecas.ts:81-91 | The `van` loop, which skips months past the end of the stream, computes the specified net present value |
| CalculadoraHipotecas.ValorDescontadoMasAlla | shared/utils/CalculadoraHipotecas.ts:86-88 | Asking for more months than the stream has adds nothing |
| CalculadoraHipotecas.CalcularTAE | shared/utils/CalculadoraHipotecas.ts:78-125 | Returns the APR of the specified search, NaN as `None` |
| CalculadoraHipotecas.SumGastos | shared/utils/CalculadoraHipotecas.ts:176-178 | A missing or empty expense list totals 0 |
| CalculadoraHipotecas.SumaCostesAppend | shared/utils/CalculadoraHipotecas.ts:177 | The expense total of a concatenation is the sum of the totals |
| CalculadoraHipotecas.SumaCostesCubre | shared/utils/CalculadoraHipotecas.ts:177 | With non-negative costs, the total is at least each single expense |
| CalculadoraHipotecas.SumaCostesNoNegativa | shared/utils/CalculadoraHipotecas.ts:177 | Non-negative costs give a non-negative total |
| CalculadoraHipotecas.SoloActivasCuestan | shared/utils/CalculadoraHipotecas.ts:194 | Only active discounts are paid for, at their yearly cost times the years |
| CalculadoraHipotecas.AvisoTopeComoTextoFalla | shared/utils/CalculadoraHipotecas.ts:261 | As written, the cap warning compares `toFixed(2)` strings: 9 below a cap of 10 gives no warning, and 10 above a cap of 9 gives one |
| CalculadoraHipotecas.CentimosMonotone | shared/utils/CalculadoraHipotecas.ts:261 | Rounding to cents is monotone |
| CalculadoraHipotecas.AvisoTopeNumericoCorrecto | shared/utils/CalculadoraHipotecas.ts:257-263 | The corrected cap warning never fires when the active reduction reaches the cap, and always fires when it stays at least a cent below it |
| CalculadoraHipotecas.NombresBonificaciones | shared/utils/CalculadoraHipotecas.ts:205-207 | The names compared against are the offer's discounts' names, in order, active or not |
| CalculadoraHipotecas.CalcularEscenario | shared/utils/CalculadoraHipotecas.ts:188-197 | One scenario's stream, its total (payments, expenses and, when discounted, the active discounts' cost) and its APR; over a zero term the stream is empty, the total is the expenses and the APR is NaN |
| CalculadoraHipotecas.ValoresTabla | shared/utils/CalculadoraHipotecas.ts:215-255 | The display rates per offer type, as in the legacy engine, plus the first rate-mismatch warning: a quoted reduced rate that the computed one misses by more than 0.001 |
| CalculadoraHipotecas.ValoresMixta | shared/utils/CalculadoraHipotecas.ts:234-255 | A mixed offer's fixed rates, floating spreads, flag and warning |
| CalculadoraHipotecas.AvisoMixta | shared/utils/CalculadoraHipotecas.ts:248-253 | The fixed-tranche warning takes precedence over the floating-spread warning |
| CalculadoraHipotecas.AvisoTinInferido | shared/utils/CalculadoraHipotecas.ts:222-227 | For a fixed offer quoted only by its reduced TIN: no warning when the applied reduction covers the inference; a warning when a cap exists and the active reduction stays more than 0.001 below it |
| CalculadoraHipotecas.AvisoDiferencialInferido | shared/utils/CalculadoraHipotecas.ts:228-233 | The same for a floating offer quoted only by its reduced spread |
| CalculadoraHipotecas.CalcularResultadoParaOferta | shared/utils/CalculadoraHipotecas.ts:180-306 | Every field of the result: the first instalments, which are 0 for an empty stream; the expense breakdown; the rate-mismatch warning; the personal-product totals; the first floating instalments of a mixed offer; and the bonus-cap warning, by the corrected cents comparison, not the string comparison. Over a zero term the streams are empty, the totals are the expenses and both APRs are NaN |

## Left out

- DOM, charts, forms, storage, the network and the server routes: the model covers only the arithmetic engine. This includes `generarTabla`, `mostrarGrafico`, the event handlers, `formatearNumero`, `generator.ts` and `server/`.
- `Math.pow(1 + tae, 1/12)` has no exact counterpart over the reals. The monthly discount factor is a function parameter (`descuento`), and nothing is assumed about it except where a lemma says so.
- Floating point: all arithmetic is exact real arithmetic, so rounding, overflow and `Infinity` are not modelled. A `NaN` APR is `None`.
- Calculadora.CalcularResultadoParaOferta: requires a positive term in years. Over a zero term the legacy engine reads `cuotas[0]` of an empty stream, with no `?? 0` default, and stores `undefined` in a number field; a fixed-tranche offer would also push instalments computed over zero months (`capital / 0`). For the same reason, the legacy `CalcularFlujoDeCuotas`, `CalcularCostes`, `Cuotas`, `FlujosTae` and `CalcularEscenario` require `plazoMeses > 0`.
- Calculadora.ValorActualNeto, Calculadora.CalcularTAE: require that the payment count is at most the stream length. When it is longer, the legacy `van` adds `undefined` and gets `NaN`; its callers always pass exactly the stream's length.
- CalculadoraHipotecas.CalcularResultadoParaOferta: a zero term is modelled for fixed and floating offers and for a mixed offer with no fixed years. It is excluded (`PlazoCalculable`) only for a mixed offer with fixed years, whose fixed tranche pushes an instalment computed over zero months, which is `Infinity` or `NaN` in floating point. Over a zero term, the discounts' monthly cost passed to `calcularTAE` is `0 / 0`. That value is never read, since no month is discounted, and the model passes 0.
- CalculadoraHipotecas.CalcularResultadoParaOferta: `bonusCapWarning` uses the corrected test `AvisoTopeNumerico`, which compares the cents of the two figures as numbers. It does not use the string comparison the source performs at `shared/utils/CalculadoraHipotecas.ts:261`. The two differ, for example, for an active reduction of 9 under a cap of 10 (see Findings). The as-written test is `AvisoTopeComoTexto`.
- Record ids (`id`) and warning message texts: no figure depends on them. A warning is modelled by its kind and the quoted value it shows.
- `toLowerCase` and `trim` are modelled on ASCII letters and the common white-space characters. Unicode case mapping is left out.
- CalculadoraHipotecas.AvisoTopeComoTexto: `toFixed(2)` is modelled as rounding half away from zero on exact reals. Exponent notation for magnitudes of 1e21 and more is left out.
- The newer types lack `reduccion`, `enabled` and `topeBonificacion`, although the engine reads them. The model adds them as optional fields, and absent `enabled` counts as on.
- Per-category reductions of the newer `IBonificacion` are kept as data. The newer engine never reads them.

## Findings

| source | as written | input that shows it | evidently intended | confidence | as-written member | corrected member |
|---|---|---|---|---|---|---|
| shared/utils/CalculadoraHipotecas.ts:261 | The cap warning compares `reduccionActiva.toFixed(2) < topeBonificacion.toFixed(2)` as strings, in lexicographic code-unit order | Active reduction 9 with a cap of 10: "9.00" < "10.00" is false, so no warning although the cap is not reached. Active 10 with a cap of 9: "10.00" < "9.00" is true, so a warning although the cap is exceeded | Compare the two figures numerically, at cent precision | high (not executed) | CalculadoraHipotecas.AvisoTopeComoTextoFalla | CalculadoraHipotecas.AvisoTopeNumericoCorrecto |
