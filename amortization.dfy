/**
 * The payment schedule that `calcularFlujoDeCuotas` builds (both versions have
 * the same loops and differ only in the rate resolver they call), and the
 * cumulative amortisation series of `generarDatosAmortizacion`, stated as
 * functions of the month-by-month monthly rate `rate(mes)`. The imperative
 * loops of the two calculator modules are proved equal to these functions.
 */
module Amortization {
  import opened Finance

  /** Which loop shape the offer type selects: `fija`, `variable`, or `mixta` with its fixed months. */
  datatype Plan = FixedPlan | VariablePlan | MixedPlan(plazoFijoMeses: nat)

  /** One month of the running balance: the instalment pays `balance * rate` of interest and amortises the rest. */
  function Step(balance: real, rate: real, cuota: real): real {
    balance - (cuota - balance * rate)
  }

  /** The running-balance update written out as the loops do it: interest first, then the amortised part. */
  lemma StepUnfold(balance: real, rate: real, cuota: real, interes: real, amortizado: real)
    requires interes == balance * rate && amortizado == cuota - interes
    ensures balance - amortizado == Step(balance, rate, cuota)
  {
  }

  /** The balance after `k` months of paying the same instalment at the same rate. */
  function FixedBalance(capital: real, rate: real, cuota: real, k: nat): real {
    if k == 0 then capital else Step(FixedBalance(capital, rate, cuota, k - 1), rate, cuota)
  }

  /**
   * The instalments of months `mes..plazoMeses` when each month is re-amortised:
   * the French instalment of the current balance over the remaining months, at
   * that month's rate.
   */
  function ReamortizedTail(rate: int -> real, balance: real, mes: int, plazoMeses: int): seq<real>
    decreases plazoMeses - mes + 1
  {
    if mes > plazoMeses then []
    else
      var cuota := CuotaFrances(balance, rate(mes), plazoMeses - mes + 1);
      [cuota] + ReamortizedTail(rate, Step(balance, rate(mes), cuota), mes + 1, plazoMeses)
  }

  /** One month of the re-amortised stream: this month's instalment, then the rest from the new balance. */
  lemma ReamortizedTailStep(rate: int -> real, balance: real, mes: int, plazoMeses: int, i: real, cuota: real)
    requires mes <= plazoMeses && i == rate(mes) && cuota == CuotaFrances(balance, i, plazoMeses - mes + 1)
    ensures ReamortizedTail(rate, balance, mes, plazoMeses)
         == [cuota] + ReamortizedTail(rate, Step(balance, i, cuota), mes + 1, plazoMeses)
  {
  }

  /**
   * The invariant of a loop that builds the re-amortised stream month by
   * month survives one month: the instalment goes on the end of the prefix
   * and the balance falls by the instalment less the interest.
   */
  lemma ReamortizedPrefixStep(rate: int -> real, prefijo: seq<real>, balance: real, mes: int, plazoMeses: int,
                              inicial: real, desde: int, cuota: real, interes: real, amortizado: real)
    requires prefijo + ReamortizedTail(rate, balance, mes, plazoMeses) == ReamortizedTail(rate, inicial, desde, plazoMeses)
    requires mes <= plazoMeses && cuota == CuotaFrances(balance, rate(mes), plazoMeses - mes + 1)
    requires interes == balance * rate(mes) && amortizado == cuota - interes
    ensures (prefijo + [cuota]) + ReamortizedTail(rate, balance - amortizado, mes + 1, plazoMeses)
         == ReamortizedTail(rate, inicial, desde, plazoMeses)
  {
    ReamortizedTailStep(rate, balance, mes, plazoMeses, rate(mes), cuota);
    StepUnfold(balance, rate(mes), cuota, interes, amortizado);
    assert prefijo + ([cuota] + ReamortizedTail(rate, balance - amortizado, mes + 1, plazoMeses))
        == (prefijo + [cuota]) + ReamortizedTail(rate, balance - amortizado, mes + 1, plazoMeses);
  }

  /** The balance left after the re-amortised months `mes..plazoMeses`. */
  function ReamortizedFinalBalance(rate: int -> real, balance: real, mes: int, plazoMeses: int): real
    decreases plazoMeses - mes + 1
  {
    if mes > plazoMeses then balance
    else
      var cuota := CuotaFrances(balance, rate(mes), plazoMeses - mes + 1);
      ReamortizedFinalBalance(rate, Step(balance, rate(mes), cuota), mes + 1, plazoMeses)
  }

  /**
   * The payment stream: `fija` repeats the full-term instalment at the month-1
   * rate; `variable` re-amortises every month; `mixta` pays the full-term
   * instalment at the month-1 rate for its fixed months, then re-amortises from
   * the balance those payments leave.
   */
  function Schedule(plan: Plan, rate: int -> real, importe: real, plazoMeses: nat): seq<real>
    requires plazoMeses > 0
  {
    match plan
    case FixedPlan =>
      seq(plazoMeses, _ => CuotaFrances(importe, rate(1), plazoMeses))
    case VariablePlan =>
      ReamortizedTail(rate, importe, 1, plazoMeses)
    case MixedPlan(f) =>
      var cuotaFija := CuotaFrances(importe, rate(1), plazoMeses);
      seq(f, _ => cuotaFija)
        + ReamortizedTail(rate, FixedBalance(importe, rate(1), cuotaFija, f), f + 1, plazoMeses)
  }

  /**
   * The re-amortising loop of `calcularFlujoDeCuotas`, the same in both
   * versions and written twice in each (all months of a `variable` offer, the
   * floating months of a `mixta` one): from month `desde` to `plazoMeses`, the French instalment of the
   * outstanding balance over the remaining months at that month's rate; the
   * balance then falls by the instalment less the month's interest. `tasa`
   * is the monthly rate `obtenerInteresMensual` resolves for each month.
   */
  method CuotasReamortizadas(tasa: int -> real, capitalInicial: real, desde: int, plazoMeses: nat)
    returns (cuotas: seq<real>)
    ensures cuotas == ReamortizedTail(tasa, capitalInicial, desde, plazoMeses)
  {
    var capitalPendiente := capitalInicial;
    cuotas := [];
    var mes := desde;
    while mes <= plazoMeses
      invariant desde <= mes && (desde <= plazoMeses + 1 ==> mes <= plazoMeses + 1)
      invariant cuotas + ReamortizedTail(tasa, capitalPendiente, mes, plazoMeses)
             == ReamortizedTail(tasa, capitalInicial, desde, plazoMeses)
    {
      var interesMensual := tasa(mes);
      var cuota := CuotaFrances(capitalPendiente, interesMensual, plazoMeses - mes + 1);
      var interesPagado := capitalPendiente * interesMensual;
      var capitalAmortizado := cuota - interesPagado;
      ReamortizedPrefixStep(tasa, cuotas, capitalPendiente, mes, plazoMeses, capitalInicial, desde,
                            cuota, interesPagado, capitalAmortizado);
      capitalPendiente := capitalPendiente - capitalAmortizado;
      cuotas := cuotas + [cuota];
      mes := mes + 1;
    }
  }

  /**
   * The fixed-tranche loop of `calcularFlujoDeCuotas` (both versions) for a `mixta` offer:
   * `plazoFijoMeses` payments of `cuotaFija`, each lowering the balance by the
   * instalment less the month's interest at the fixed rate.
   */
  method CuotasTramoFijo(importe: real, interesMensual: real, cuotaFija: real, plazoFijoMeses: nat)
    returns (cuotas: seq<real>, capitalPendiente: real)
    ensures cuotas == seq(plazoFijoMeses, _ => cuotaFija)
    ensures capitalPendiente == FixedBalance(importe, interesMensual, cuotaFija, plazoFijoMeses)
  {
    capitalPendiente := importe;
    cuotas := [];
    var mes := 1;
    while mes <= plazoFijoMeses
      invariant 1 <= mes <= plazoFijoMeses + 1
      invariant |cuotas| == mes - 1 && forall k :: 0 <= k < |cuotas| ==> cuotas[k] == cuotaFija
      invariant capitalPendiente == FixedBalance(importe, interesMensual, cuotaFija, mes - 1)
    {
      var interesPagado := capitalPendiente * interesMensual;
      var capitalAmortizado := cuotaFija - interesPagado;
      StepUnfold(capitalPendiente, interesMensual, cuotaFija, interesPagado, capitalAmortizado);
      capitalPendiente := capitalPendiente - capitalAmortizado;
      cuotas := cuotas + [cuotaFija];
      mes := mes + 1;
    }
  }

  /** The running balance once the whole stream has been paid. */
  function ScheduleFinalBalance(plan: Plan, rate: int -> real, importe: real, plazoMeses: nat): real
    requires plazoMeses > 0
  {
    var cuotaFija := CuotaFrances(importe, rate(1), plazoMeses);
    match plan
    case FixedPlan => FixedBalance(importe, rate(1), cuotaFija, plazoMeses)
    case VariablePlan => ReamortizedFinalBalance(rate, importe, 1, plazoMeses)
    case MixedPlan(f) =>
      ReamortizedFinalBalance(rate, FixedBalance(importe, rate(1), cuotaFija, f), f + 1, plazoMeses)
  }

  lemma {:induction false} ReamortizedTailLength(rate: int -> real, balance: real, mes: int, plazoMeses: int)
    ensures |ReamortizedTail(rate, balance, mes, plazoMeses)| == if mes > plazoMeses then 0 else plazoMeses - mes + 1
    decreases plazoMeses - mes + 1
  {
    if mes <= plazoMeses {
      var cuota := CuotaFrances(balance, rate(mes), plazoMeses - mes + 1);
      ReamortizedTailLength(rate, Step(balance, rate(mes), cuota), mes + 1, plazoMeses);
    }
  }

  /**
   * The shape of the stream: `fija` and `variable` have one entry per month;
   * `mixta` has its fixed months of the full-term instalment and then one entry
   * per remaining month, so `max(plazoFijoMeses, plazoMeses)` entries; its first
   * floating month is priced on the balance left after exactly the fixed months.
   */
  lemma ScheduleShape(plan: Plan, rate: int -> real, importe: real, plazoMeses: nat)
    requires plazoMeses > 0
    ensures var s := Schedule(plan, rate, importe, plazoMeses);
            var cuotaFija := CuotaFrances(importe, rate(1), plazoMeses);
            && (plan.FixedPlan? ==> |s| == plazoMeses && forall k :: 0 <= k < |s| ==> s[k] == cuotaFija)
            && (plan.VariablePlan? ==> |s| == plazoMeses)
            && (plan.MixedPlan? ==>
                  && |s| == (if plan.plazoFijoMeses > plazoMeses then plan.plazoFijoMeses else plazoMeses)
                  && (forall k :: 0 <= k < plan.plazoFijoMeses ==> s[k] == cuotaFija)
                  && (plan.plazoFijoMeses < plazoMeses ==>
                        s[plan.plazoFijoMeses]
                          == CuotaFrances(FixedBalance(importe, rate(1), cuotaFija, plan.plazoFijoMeses),
                                          rate(plan.plazoFijoMeses + 1), plazoMeses - plan.plazoFijoMeses)))
  {
    match plan
    case FixedPlan =>
    case VariablePlan =>
      ReamortizedTailLength(rate, importe, 1, plazoMeses);
    case MixedPlan(f) =>
      var cuotaFija := CuotaFrances(importe, rate(1), plazoMeses);
      ReamortizedTailLength(rate, FixedBalance(importe, rate(1), cuotaFija, f), f + 1, plazoMeses);
  }

  /** With no interest the balance falls by one instalment a month. */
  lemma {:induction false} FixedBalanceNoInterest(capital: real, cuota: real, k: nat)
    ensures FixedBalance(capital, 0.0, cuota, k) == capital - k as real * cuota
  {
    if k > 0 {
      FixedBalanceNoInterest(capital, cuota, k - 1);
    }
  }

  /** Closed form of the fixed-instalment balance, multiplied through by the rate. */
  lemma {:induction false} FixedBalanceClosedForm(capital: real, i: real, cuota: real, k: nat)
    ensures FixedBalance(capital, i, cuota, k) * i
         == capital * i * Pow(1.0 + i, k) - cuota * (Pow(1.0 + i, k) - 1.0)
  {
    if k > 0 {
      FixedBalanceClosedForm(capital, i, cuota, k - 1);
      var b := FixedBalance(capital, i, cuota, k - 1);
      var p := Pow(1.0 + i, k - 1);
      assert Pow(1.0 + i, k) == (1.0 + i) * p;
      assert FixedBalance(capital, i, cuota, k) == b * (1.0 + i) - cuota;
      calc {
        FixedBalance(capital, i, cuota, k) * i;
        (1.0 + i) * (b * i) - cuota * i;
        (1.0 + i) * (capital * i * p - cuota * (p - 1.0)) - cuota * i;
        capital * i * ((1.0 + i) * p) - cuota * ((1.0 + i) * p - 1.0);
      }
    }
  }

  /**
   * Paying the full-term instalment every month at a constant non-negative
   * rate brings the balance to exactly zero after the last month.
   */
  lemma FixedInstalmentExhausts(capital: real, i: real, n: nat)
    requires i >= 0.0 && n > 0
    ensures FixedBalance(capital, i, CuotaFrances(capital, i, n), n) == 0.0
  {
    var cuota := CuotaFrances(capital, i, n);
    if i == 0.0 {
      FixedBalanceNoInterest(capital, cuota, n);
    } else {
      FixedBalanceClosedForm(capital, i, cuota, n);
      CancelPositive(FixedBalance(capital, i, cuota, n), i);
    }
  }

  /** A one-month French instalment repays the whole balance with its interest. */
  lemma OneMonthClears(balance: real, i: real)
    requires i >= 0.0
    ensures Step(balance, i, CuotaFrances(balance, i, 1)) == 0.0
  {
    var cuota := CuotaFrances(balance, i, 1);
    assert Pow(1.0 + i, 1) == 1.0 + i;
    if i > 0.0 {
      assert cuota * i == balance * i * (1.0 + i);
      CancelPositive(cuota - balance * (1.0 + i), i);
    }
  }

  /** Re-amortising every month always leaves a zero balance: the last month's instalment is the whole balance plus interest. */
  lemma {:induction false} ReamortizedExhausts(rate: int -> real, balance: real, mes: int, plazoMeses: int)
    requires mes <= plazoMeses && rate(plazoMeses) >= 0.0
    ensures ReamortizedFinalBalance(rate, balance, mes, plazoMeses) == 0.0
    decreases plazoMeses - mes
  {
    var cuota := CuotaFrances(balance, rate(mes), plazoMeses - mes + 1);
    if mes == plazoMeses {
      OneMonthClears(balance, rate(mes));
    } else {
      ReamortizedExhausts(rate, Step(balance, rate(mes), cuota), mes + 1, plazoMeses);
    }
  }

  /**
   * Balance exhaustion: with non-negative rates the stream repays the loan
   * exactly, for every offer type, provided a `mixta` fixed tranche does not
   * outlast the term.
   */
  lemma ScheduleRepaysLoan(plan: Plan, rate: int -> real, importe: real, plazoMeses: nat)
    requires plazoMeses > 0
    requires forall m :: rate(m) >= 0.0
    requires plan.MixedPlan? ==> plan.plazoFijoMeses <= plazoMeses
    ensures ScheduleFinalBalance(plan, rate, importe, plazoMeses) == 0.0
  {
    var cuotaFija := CuotaFrances(importe, rate(1), plazoMeses);
    match plan
    case FixedPlan =>
      FixedInstalmentExhausts(importe, rate(1), plazoMeses);
    case VariablePlan =>
      ReamortizedExhausts(rate, importe, 1, plazoMeses);
    case MixedPlan(f) =>
      if f == plazoMeses {
        FixedInstalmentExhausts(importe, rate(1), plazoMeses);
      } else {
        ReamortizedExhausts(rate, FixedBalance(importe, rate(1), cuotaFija, f), f + 1, plazoMeses);
      }
  }

  /** At a constant rate, re-amortising after one payment gives back the same instalment. */
  lemma ReamortizationKeepsInstalment(balance: real, i: real, n: nat)
    requires i >= 0.0 && n >= 2
    ensures CuotaFrances(Step(balance, i, CuotaFrances(balance, i, n)), i, n - 1) == CuotaFrances(balance, i, n)
  {
    if i == 0.0 {
      ReamortizationNoInterest(balance, n);
    } else {
      ReamortizationWithInterest(balance, i, n);
    }
  }

  lemma ReamortizationNoInterest(balance: real, n: nat)
    requires n >= 2
    ensures CuotaFrances(Step(balance, 0.0, CuotaFrances(balance, 0.0, n)), 0.0, n - 1) == CuotaFrances(balance, 0.0, n)
  {
    var c := CuotaFrances(balance, 0.0, n);
    var b1 := Step(balance, 0.0, c);
    var c1 := CuotaFrances(b1, 0.0, n - 1);
    assert c * n as real == balance;
    assert c1 * (n - 1) as real == b1;
    assert b1 == balance - c;
    assert (c1 - c) * (n - 1) as real == 0.0;
    CancelPositive(c1 - c, (n - 1) as real);
  }

  lemma ReamortizationWithInterest(balance: real, i: real, n: nat)
    requires i > 0.0 && n >= 2
    ensures CuotaFrances(Step(balance, i, CuotaFrances(balance, i, n)), i, n - 1) == CuotaFrances(balance, i, n)
  {
    var c := CuotaFrances(balance, i, n);
    var q := Pow(1.0 + i, n - 1);
    assert Pow(1.0 + i, n) == (1.0 + i) * q;
    PowAboveOne(1.0 + i, n - 1);
    AnnuityShift(balance, i, c, q);
    AnnuityIdentityCharacterises(Step(balance, i, c), i, n - 1, c);
  }

  /** The annuity identity over n months, moved one month on: the algebra behind ReamortizationKeepsInstalment. */
  lemma AnnuityShift(balance: real, i: real, c: real, q: real)
    requires c * ((1.0 + i) * q - 1.0) == balance * i * ((1.0 + i) * q)
    ensures c * (q - 1.0) == Step(balance, i, c) * i * q
  {
    var b1 := Step(balance, i, c);
    assert b1 == balance * (1.0 + i) - c;
    assert b1 * i * q == balance * (1.0 + i) * i * q - c * i * q;
    assert c * (q - 1.0) + c * i * q == c * ((1.0 + i) * q - 1.0);
    assert balance * (1.0 + i) * i * q == balance * i * ((1.0 + i) * q);
  }

  /** Re-amortising at a rate that does not change month to month yields equal instalments. */
  lemma {:induction false} ReamortizedAtConstantRate(rate: int -> real, balance: real, mes: int, plazoMeses: int, i: real)
    requires mes <= plazoMeses && i >= 0.0
    requires forall m :: mes <= m <= plazoMeses ==> rate(m) == i
    ensures ReamortizedTail(rate, balance, mes, plazoMeses)
         == seq(plazoMeses - mes + 1, _ => CuotaFrances(balance, i, plazoMeses - mes + 1))
    decreases plazoMeses - mes
  {
    var n := plazoMeses - mes + 1;
    var c := CuotaFrances(balance, i, n);
    if mes < plazoMeses {
      ReamortizationKeepsInstalment(balance, i, n);
      ReamortizedAtConstantRate(rate, Step(balance, i, c), mes + 1, plazoMeses, i);
      assert ReamortizedTail(rate, balance, mes, plazoMeses)
          == [c] + seq(n - 1, _ => c);
    }
  }

  /** A `variable` stream at a month-independent rate is exactly the `fija` stream at that rate. */
  lemma VariableAtConstantRateIsFixed(rate: int -> real, importe: real, plazoMeses: nat)
    requires plazoMeses > 0 && rate(1) >= 0.0
    requires forall m :: rate(m) == rate(1)
    ensures Schedule(VariablePlan, rate, importe, plazoMeses) == Schedule(FixedPlan, rate, importe, plazoMeses)
  {
    ReamortizedAtConstantRate(rate, importe, 1, plazoMeses, rate(1));
  }

  /** The four lists `generarDatosAmortizacion` pushes to, month by month (month numbers stand for the "Mes k" labels). */
  datatype Series = Series(meses: seq<int>, capitalRestante: seq<real>,
                           interesesPagados: seq<real>, capitalAmortizadoAcumulado: seq<real>)

  /**
   * The series from month `mes` on, re-amortising every month, with the running
   * interest and capital totals carried in; the remaining capital is shown
   * clamped at zero.
   */
  function SeriesFrom(rate: int -> real, balance: real, acumIntereses: real, acumCapital: real,
                      mes: int, plazoMeses: int): Series
    decreases plazoMeses - mes + 1
  {
    if mes > plazoMeses then Series([], [], [], [])
    else
      var cuota := CuotaFrances(balance, rate(mes), plazoMeses - mes + 1);
      var interes := balance * rate(mes);
      var amortizado := cuota - interes;
      var rest := SeriesFrom(rate, balance - amortizado, acumIntereses + interes, acumCapital + amortizado,
                             mes + 1, plazoMeses);
      Series([mes] + rest.meses,
             [Max0(balance - amortizado)] + rest.capitalRestante,
             [acumIntereses + interes] + rest.interesesPagados,
             [acumCapital + amortizado] + rest.capitalAmortizadoAcumulado)
  }

  /** The series of some months followed by the series of the months after them. */
  function Concat(a: Series, b: Series): Series {
    Series(a.meses + b.meses, a.capitalRestante + b.capitalRestante,
           a.interesesPagados + b.interesesPagados, a.capitalAmortizadoAcumulado + b.capitalAmortizadoAcumulado)
  }

  /** The series from one month is that month's entries followed by the series from the next. */
  lemma SeriesFromStep(rate: int -> real, balance: real, acumIntereses: real, acumCapital: real,
                       mes: int, plazoMeses: int, interes: real, amortizado: real)
    requires mes <= plazoMeses
    requires interes == balance * rate(mes)
    requires amortizado == CuotaFrances(balance, rate(mes), plazoMeses - mes + 1) - interes
    ensures SeriesFrom(rate, balance, acumIntereses, acumCapital, mes, plazoMeses)
         == Concat(Series([mes], [Max0(balance - amortizado)], [acumIntereses + interes], [acumCapital + amortizado]),
                   SeriesFrom(rate, balance - amortizado, acumIntereses + interes, acumCapital + amortizado,
                              mes + 1, plazoMeses))
  {
  }

  lemma ConcatAssoc(a: Series, b: Series, c: Series)
    ensures Concat(Concat(a, b), c) == Concat(a, Concat(b, c))
  {
    assert (a.meses + b.meses) + c.meses == a.meses + (b.meses + c.meses);
    assert (a.capitalRestante + b.capitalRestante) + c.capitalRestante
        == a.capitalRestante + (b.capitalRestante + c.capitalRestante);
    assert (a.interesesPagados + b.interesesPagados) + c.interesesPagados
        == a.interesesPagados + (b.interesesPagados + c.interesesPagados);
    assert (a.capitalAmortizadoAcumulado + b.capitalAmortizadoAcumulado) + c.capitalAmortizadoAcumulado
        == a.capitalAmortizadoAcumulado + (b.capitalAmortizadoAcumulado + c.capitalAmortizadoAcumulado);
  }

  lemma ConcatEmpty(a: Series)
    ensures Concat(a, Series([], [], [], [])) == a
  {
    assert a.meses + [] == a.meses;
    assert a.capitalRestante + [] == a.capitalRestante;
    assert a.interesesPagados + [] == a.interesesPagados;
    assert a.capitalAmortizadoAcumulado + [] == a.capitalAmortizadoAcumulado;
  }

  lemma ConcatEmptyLeft(a: Series)
    ensures Concat(Series([], [], [], []), a) == a
  {
    assert [] + a.meses == a.meses;
    assert [] + a.capitalRestante == a.capitalRestante;
    assert [] + a.interesesPagados == a.interesesPagados;
    assert [] + a.capitalAmortizadoAcumulado == a.capitalAmortizadoAcumulado;
  }

  /**
   * The invariant of a loop that builds the series month by month survives
   * one month: the month's four entries go on the end of the lists built so
   * far, and the rest starts from the lowered balance and the grown totals.
   */
  lemma SeriesPrefixStep(rate: int -> real, prefijo: Series, balance: real, acumIntereses: real, acumCapital: real,
                         mes: int, plazoMeses: int, total: Series, interes: real, amortizado: real)
    requires Concat(prefijo, SeriesFrom(rate, balance, acumIntereses, acumCapital, mes, plazoMeses)) == total
    requires mes <= plazoMeses
    requires interes == balance * rate(mes)
    requires amortizado == CuotaFrances(balance, rate(mes), plazoMeses - mes + 1) - interes
    ensures Concat(Series(prefijo.meses + [mes], prefijo.capitalRestante + [Max0(balance - amortizado)],
                          prefijo.interesesPagados + [acumIntereses + interes],
                          prefijo.capitalAmortizadoAcumulado + [acumCapital + amortizado]),
                   SeriesFrom(rate, balance - amortizado, acumIntereses + interes, acumCapital + amortizado,
                              mes + 1, plazoMeses))
         == total
  {
    var mesSerie := Series([mes], [Max0(balance - amortizado)], [acumIntereses + interes], [acumCapital + amortizado]);
    var resto := SeriesFrom(rate, balance - amortizado, acumIntereses + interes, acumCapital + amortizado,
                            mes + 1, plazoMeses);
    SeriesFromStep(rate, balance, acumIntereses, acumCapital, mes, plazoMeses, interes, amortizado);
    ConcatAssoc(prefijo, mesSerie, resto);
  }

  /**
   * The series has one entry per remaining month in each list; the capital
   * shown as remaining is the loan minus the capital amortised so far (clamped
   * at zero); and with a non-negative last-month rate the last cumulative
   * capital figure is the whole loan.
   */
  lemma {:induction false} SeriesShape(rate: int -> real, balance: real, acumIntereses: real, acumCapital: real,
                                       mes: int, plazoMeses: int, total: real)
    requires acumCapital + balance == total
    ensures var s := SeriesFrom(rate, balance, acumIntereses, acumCapital, mes, plazoMeses);
            var n := if mes > plazoMeses then 0 else plazoMeses - mes + 1;
            && |s.meses| == n && |s.capitalRestante| == n
            && |s.interesesPagados| == n && |s.capitalAmortizadoAcumulado| == n
            && (forall k :: 0 <= k < n ==> s.meses[k] == mes + k)
            && (forall k :: 0 <= k < n ==> s.capitalRestante[k] == Max0(total - s.capitalAmortizadoAcumulado[k]))
            && (n > 0 && rate(plazoMeses) >= 0.0 ==> s.capitalAmortizadoAcumulado[n - 1] == total)
    decreases plazoMeses - mes + 1
  {
    if mes <= plazoMeses {
      var cuota := CuotaFrances(balance, rate(mes), plazoMeses - mes + 1);
      var interes := balance * rate(mes);
      var amortizado := cuota - interes;
      SeriesShape(rate, balance - amortizado, acumIntereses + interes, acumCapital + amortizado,
                  mes + 1, plazoMeses, total);
      if mes == plazoMeses && rate(plazoMeses) >= 0.0 {
        OneMonthClears(balance, rate(mes));
      }
    }
  }
}
