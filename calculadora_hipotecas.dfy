/**
 * The newer calculation engine of `shared/utils/CalculadoraHipotecas.ts`:
 * the rate resolver `obtenerInteresMensual` with one generic reduction per
 * discount, the `enabled !== false` filter and the optional cap
 * `topeBonificacion`; the payment stream `calcularFlujoDeCuotas`; the APR
 * search `calcularTAE`, which skips missing payments; the expense total
 * `sumGastos`; and the per-offer result `calcularResultadoParaOferta` with
 * its rate-mismatch and bonus-cap warnings.
 */
module CalculadoraHipotecas {
  import opened Finance
  import opened Amortization
  import opened Bisection
  import opened PersonalProducts
  import opened HipotecasTypes

  /** The rate category of a month: `'tin' | 'diferencial' | 'tinFijo'`. */
  datatype TipoInteres = Tin | Diferencial | TinFijo

  /** What `obtenerInteresMensual` returns: the monthly decimal rate and whether the base was inferred. */
  datatype InteresMensual = InteresMensual(rate: real, isAssumedBase: bool)

  // ---------------------------------------------------------------------------
  // Discounts
  // ---------------------------------------------------------------------------

  /** `b.enabled !== false`: a discount is active unless it is explicitly switched off. */
  predicate Activa(b: Bonificacion) {
    b.enabled != Some(false)
  }

  /** `bonificaciones.filter(b => b.enabled !== false)`, in order. */
  function Activas(bs: seq<Bonificacion>): (r: seq<Bonificacion>)
    ensures |r| <= |bs|
    ensures forall b :: b in r <==> b in bs && Activa(b)
  {
    if bs == [] then []
    else
      var last := bs[|bs| - 1];
      assert bs == bs[..|bs| - 1] + [last];
      Activas(bs[..|bs| - 1]) + (if Activa(last) then [last] else [])
  }

  /**
   * The filter keeps the order of the list: filtering a concatenation is
   * concatenating the filtered parts, and a single discount is kept exactly
   * when it is active.
   */
  lemma {:induction false} ActivasAppend(xs: seq<Bonificacion>, ys: seq<Bonificacion>)
    ensures Activas(xs + ys) == Activas(xs) + Activas(ys)
    decreases |ys|
  {
    if ys == [] {
      assert xs + ys == xs;
    } else {
      var init, last := ys[..|ys| - 1], ys[|ys| - 1];
      var keep := if Activa(last) then [last] else [];
      calc {
        Activas(xs + ys);
        { assert xs + ys == (xs + init) + [last]; }
        Activas((xs + init) + [last]);
        { ActivasSnoc(xs + init, last); }
        Activas(xs + init) + keep;
        { ActivasAppend(xs, init); }
        Activas(xs) + (Activas(init) + keep);
        { assert ys == init + [last]; ActivasSnoc(init, last); }
        Activas(xs) + Activas(ys);
      }
    }
  }

  /** The filter keeps every active discount as many times as it occurs, and no other. */
  lemma {:induction false} ActivasMultiset(bs: seq<Bonificacion>)
    ensures forall b :: multiset(Activas(bs))[b] == if Activa(b) then multiset(bs)[b] else 0
  {
    if bs != [] {
      var init, last := bs[..|bs| - 1], bs[|bs| - 1];
      assert bs == init + [last];
      ActivasSnoc(init, last);
      ActivasMultiset(init);
      assert multiset(bs) == multiset(init) + multiset{last};
    }
  }

  /** One step of the filter: a discount added at the end is kept exactly when it is active. */
  lemma ActivasSnoc(bs: seq<Bonificacion>, b: Bonificacion)
    ensures Activas(bs + [b]) == Activas(bs) + (if Activa(b) then [b] else [])
  {
    assert (bs + [b])[..|bs|] == bs;
  }

  lemma ActivasUna(b: Bonificacion)
    ensures Activas([b]) == if Activa(b) then [b] else []
  {
    assert [b][..0] == [];
  }

  /** A left-to-right `reduce` over the discounts of the figure `f` of each one. */
  function SumaDe(bs: seq<Bonificacion>, f: Bonificacion -> real): real {
    if bs == [] then 0.0 else SumaDe(bs[..|bs| - 1], f) + f(bs[|bs| - 1])
  }

  /** `b.reduccion || 0`: a discount's generic reduction, a missing one counting as 0. */
  function Reduccion(b: Bonificacion): real {
    b.reduccion.GetOr(0.0)
  }

  /** `b.costeAnual || 0`: a discount's yearly cost. */
  function CosteAnual(b: Bonificacion): real {
    b.costeAnual
  }

  /** `f`, counted only for active discounts. */
  function SoloActivas(f: Bonificacion -> real): Bonificacion -> real {
    b => if Activa(b) then f(b) else 0.0
  }

  /** `sumReductions`: the total generic reduction of a list of discounts. */
  function SumReductions(bs: seq<Bonificacion>): real {
    SumaDe(bs, Reduccion)
  }

  lemma SumaDeSnoc(bs: seq<Bonificacion>, b: Bonificacion, f: Bonificacion -> real)
    ensures SumaDe(bs + [b], f) == SumaDe(bs, f) + f(b)
  {
    assert (bs + [b])[..|bs|] == bs;
  }

  /**
   * Filtering on `enabled !== false` and then summing is summing with the
   * switched-off discounts counted as 0: they contribute nothing, whatever
   * their figures.
   */
  lemma {:induction false} SumaDeActivas(bs: seq<Bonificacion>, f: Bonificacion -> real)
    ensures SumaDe(Activas(bs), f) == SumaDe(bs, SoloActivas(f))
  {
    if bs != [] {
      var prefix, last := bs[..|bs| - 1], bs[|bs| - 1];
      SumaDeActivas(prefix, f);
      if Activa(last) {
        SumaDeSnoc(Activas(prefix), last, f);
      } else {
        assert Activas(bs) == Activas(prefix) + [];
        assert Activas(prefix) + [] == Activas(prefix);
      }
    }
  }

  /**
   * With non-negative reductions, the active discounts never reduce more than
   * all of them together, and exactly as much when none is switched off.
   */
  lemma {:induction false} ReduccionActivaAcotada(bs: seq<Bonificacion>)
    requires forall k :: 0 <= k < |bs| ==> Reduccion(bs[k]) >= 0.0
    ensures SumReductions(Activas(bs)) <= SumReductions(bs)
    ensures (forall k :: 0 <= k < |bs| ==> Activa(bs[k])) ==> SumReductions(Activas(bs)) == SumReductions(bs)
  {
    SumaDeActivas(bs, Reduccion);
    MascaraAcotada(bs);
  }

  lemma {:induction false} MascaraAcotada(bs: seq<Bonificacion>)
    requires forall k :: 0 <= k < |bs| ==> Reduccion(bs[k]) >= 0.0
    ensures SumaDe(bs, SoloActivas(Reduccion)) <= SumaDe(bs, Reduccion)
    ensures (forall k :: 0 <= k < |bs| ==> Activa(bs[k])) ==> SumaDe(bs, SoloActivas(Reduccion)) == SumaDe(bs, Reduccion)
  {
    if bs != [] {
      MascaraAcotada(bs[..|bs| - 1]);
    }
  }

  // ---------------------------------------------------------------------------
  // Rate resolution
  // ---------------------------------------------------------------------------

  /** `plazoFijoAnios * 12` for a `mixta` offer. */
  function PlazoFijoMeses(oferta: OfertaHipoteca): nat
    requires oferta.OfertaMixta?
  {
    oferta.plazoFijoAnios * 12
  }

  /** `interestType`: the category of month `mesActual`. */
  function TipoVigente(oferta: OfertaHipoteca, mesActual: int): TipoInteres {
    match oferta
    case OfertaFija(_, _, _, _, _, _) => Tin
    case OfertaVariable(_, _, _, _, _, _) => Diferencial
    case OfertaMixta(_, _, _, _, _, _, _, _, _) =>
      if mesActual <= PlazoFijoMeses(oferta) then TinFijo else Diferencial
  }

  /** `isEuriborBased`: spreads are quoted over the euribor; fixed rates stand alone. */
  function Referencia(t: TipoInteres, euribor: real): real {
    if t == Diferencial then euribor else 0.0
  }

  /** `baseValue` and `bonifiedValue`: the unreduced and reduced values of the tranche of month `mes`. */
  function ParVigente(oferta: OfertaHipoteca, mes: int): (Option<real>, Option<real>) {
    match oferta
    case OfertaFija(_, _, _, _, tin, tinBonificado) => (tin, tinBonificado)
    case OfertaVariable(_, _, _, _, diferencial, diferencialBonificado) => (diferencial, diferencialBonificado)
    case OfertaMixta(_, _, _, _, _, tinFijo, tinFijoBonificado, diferencial, diferencialBonificado) =>
      if mes <= PlazoFijoMeses(oferta) then (tinFijo, tinFijoBonificado) else (diferencial, diferencialBonificado)
  }

  /**
   * `reduccionParaInferencia`: the reduction assumed to separate a quoted
   * reduced value from the unquoted base; the cap when there is one, else the
   * reductions of all discounts, switched off or not.
   */
  function ReduccionParaInferencia(oferta: OfertaHipoteca): real {
    if oferta.topeBonificacion.Some? then oferta.topeBonificacion.value else SumReductions(oferta.bonificaciones)
  }

  /** `reduccionAplicada`: the active discounts' reductions, cut to the cap when there is one. */
  function ReduccionAplicada(oferta: OfertaHipoteca): real {
    var reduccionActiva := SumReductions(Activas(oferta.bonificaciones));
    if oferta.topeBonificacion.Some? then Min(reduccionActiva, oferta.topeBonificacion.value) else reduccionActiva
  }

  /** The annual base rate of month `mesActual` and whether it was inferred. */
  function BaseAnual(oferta: OfertaHipoteca, euribor: real, mesActual: int): TasaBase {
    var par := ParVigente(oferta, mesActual);
    Precedencia(Referencia(TipoVigente(oferta, mesActual), euribor), par.0, par.1, ReduccionParaInferencia(oferta))
  }

  /** `finalRate`: the base, less the applied reduction when discounts apply. */
  function TasaFinal(oferta: OfertaHipoteca, euribor: real, conBonificaciones: bool, mesActual: int): real {
    var base := BaseAnual(oferta, euribor, mesActual).baseRate;
    if conBonificaciones then base - ReduccionAplicada(oferta) else base
  }

  /**
   * `obtenerInteresMensual`: the final annual percentage, floored at zero,
   * as a monthly decimal rate; the flag tells whether the base was inferred.
   */
  function ObtenerInteresMensual(oferta: OfertaHipoteca, euribor: real, conBonificaciones: bool,
                                 mesActual: int): (r: InteresMensual)
    ensures r.rate >= 0.0
    ensures r.rate * 1200.0 >= TasaFinal(oferta, euribor, conBonificaciones, mesActual)
    ensures r.rate == 0.0 || r.rate * 1200.0 == TasaFinal(oferta, euribor, conBonificaciones, mesActual)
    ensures r.isAssumedBase == BaseAnual(oferta, euribor, mesActual).isAssumedBase
  {
    var finalRate := TasaFinal(oferta, euribor, conBonificaciones, mesActual);
    InteresMensual(Max0(finalRate) / 100.0 / 12.0, BaseAnual(oferta, euribor, mesActual).isAssumedBase)
  }

  /** The month-by-month monthly rate of an offer, as the payment stream consumes it. */
  function Tasa(oferta: OfertaHipoteca, euribor: real, conBonificaciones: bool): int -> real {
    mes => ObtenerInteresMensual(oferta, euribor, conBonificaciones, mes).rate
  }

  /** The resolved rate is `max(0, final) / 1200`. */
  lemma RateIsClampedFinal(oferta: OfertaHipoteca, euribor: real, con: bool, mes: int)
    ensures ObtenerInteresMensual(oferta, euribor, con, mes).rate * 1200.0
         == Max0(TasaFinal(oferta, euribor, con, mes))
  {
  }

  /**
   * Only active discounts reduce the rate: the applied reduction is the sum
   * over the discounts with the switched-off ones counted as 0, cut to the
   * cap when there is one.
   */
  lemma SoloActivasReducen(oferta: OfertaHipoteca)
    ensures var activa := SumaDe(oferta.bonificaciones, SoloActivas(Reduccion));
            ReduccionAplicada(oferta)
            == if oferta.topeBonificacion.Some? then Min(activa, oferta.topeBonificacion.value) else activa
  {
    SumaDeActivas(oferta.bonificaciones, Reduccion);
  }

  /**
   * With a cap, discounts never take off more than the cap: the applied
   * reduction is at most the cap, all of the active reduction when that is
   * within it, and the final rate is at least the base less the cap.
   */
  lemma TopeLimitaReduccion(oferta: OfertaHipoteca, euribor: real, mes: int)
    requires oferta.topeBonificacion.Some?
    ensures ReduccionAplicada(oferta) <= oferta.topeBonificacion.value
    ensures SumReductions(Activas(oferta.bonificaciones)) <= oferta.topeBonificacion.value
            ==> ReduccionAplicada(oferta) == SumReductions(Activas(oferta.bonificaciones))
    ensures TasaFinal(oferta, euribor, true, mes)
            >= BaseAnual(oferta, euribor, mes).baseRate - oferta.topeBonificacion.value
    ensures ObtenerInteresMensual(oferta, euribor, true, mes).rate * 1200.0
            >= BaseAnual(oferta, euribor, mes).baseRate - oferta.topeBonificacion.value
  {
  }

  /**
   * Baseline precedence, per offer type: the explicit unreduced value wins and
   * is not flagged; else the reduced value plus the inference reduction (the
   * cap if any, else all discounts' reductions), flagged; else 0, or the
   * euribor alone for a spread, flagged. Spreads sit on top of the euribor;
   * a `mixta` offer uses its fixed pair up to month `plazoFijoAnios * 12`
   * and its spread pair after.
   */
  lemma BaselinePrecedence(oferta: OfertaHipoteca, euribor: real, mes: int)
    ensures var b := BaseAnual(oferta, euribor, mes);
            var inferencia := if oferta.topeBonificacion.Some? then oferta.topeBonificacion.value
                              else SumReductions(oferta.bonificaciones);
            && (oferta.OfertaFija? ==>
                  && TipoVigente(oferta, mes) == Tin
                  && (oferta.tin.Some? ==> b == TasaBase(oferta.tin.value, false))
                  && (oferta.tin.None? && oferta.tinBonificado.Some? ==>
                        b == TasaBase(oferta.tinBonificado.value + inferencia, true))
                  && (oferta.tin.None? && oferta.tinBonificado.None? ==> b == TasaBase(0.0, true)))
            && (oferta.OfertaVariable? ==>
                  && TipoVigente(oferta, mes) == Diferencial
                  && (oferta.diferencial.Some? ==> b == TasaBase(euribor + oferta.diferencial.value, false))
                  && (oferta.diferencial.None? && oferta.diferencialBonificado.Some? ==>
                        b == TasaBase(euribor + oferta.diferencialBonificado.value + inferencia, true))
                  && (oferta.diferencial.None? && oferta.diferencialBonificado.None? ==>
                        b == TasaBase(euribor, true)))
            && (oferta.OfertaMixta? && mes <= oferta.plazoFijoAnios * 12 ==>
                  && TipoVigente(oferta, mes) == TinFijo
                  && (oferta.tinFijo.Some? ==> b == TasaBase(oferta.tinFijo.value, false))
                  && (oferta.tinFijo.None? && oferta.tinFijoBonificado.Some? ==>
                        b == TasaBase(oferta.tinFijoBonificado.value + inferencia, true))
                  && (oferta.tinFijo.None? && oferta.tinFijoBonificado.None? ==> b == TasaBase(0.0, true)))
            && (oferta.OfertaMixta? && mes > oferta.plazoFijoAnios * 12 ==>
                  && TipoVigente(oferta, mes) == Diferencial
                  && (oferta.diferencial.Some? ==> b == TasaBase(euribor + oferta.diferencial.value, false))
                  && (oferta.diferencial.None? && oferta.diferencialBonificado.Some? ==>
                        b == TasaBase(euribor + oferta.diferencialBonificado.value + inferencia, true))
                  && (oferta.diferencial.None? && oferta.diferencialBonificado.None? ==>
                        b == TasaBase(euribor, true)))
  {
  }

  /** Whether the active discounts cover the reduction the inference assumed. */
  predicate CubreInferencia(oferta: OfertaHipoteca) {
    if oferta.topeBonificacion.Some? then
      SumReductions(Activas(oferta.bonificaciones)) >= oferta.topeBonificacion.value
    else
      forall k :: 0 <= k < |oferta.bonificaciones| ==> Activa(oferta.bonificaciones[k])
  }

  /**
   * Inference round trip: when only the reduced value `d` of the tranche is
   * known, the discounted rate is `d` (over the euribor for a spread) plus
   * what the inference assumed and less what the active discounts take off,
   * floored at zero. It is exactly `max(0, d)` when the active discounts
   * cover the assumption, and above `d` by the shortfall otherwise; without
   * discounts the inferred base is returned unreduced.
   */
  lemma InferenceRoundTrip(oferta: OfertaHipoteca, euribor: real, mes: int)
    requires ParVigente(oferta, mes).0.None? && ParVigente(oferta, mes).1.Some?
    ensures var d := ParVigente(oferta, mes).1.value;
            var ref := Referencia(TipoVigente(oferta, mes), euribor);
            && ObtenerInteresMensual(oferta, euribor, true, mes).rate * 1200.0
               == Max0(ref + d + (ReduccionParaInferencia(oferta) - ReduccionAplicada(oferta)))
            && ObtenerInteresMensual(oferta, euribor, false, mes).rate * 1200.0
               == Max0(ref + d + ReduccionParaInferencia(oferta))
            && ObtenerInteresMensual(oferta, euribor, true, mes).isAssumedBase
            && (CubreInferencia(oferta) ==> ObtenerInteresMensual(oferta, euribor, true, mes).rate * 1200.0 == Max0(ref + d))
  {
    RateIsClampedFinal(oferta, euribor, true, mes);
    RateIsClampedFinal(oferta, euribor, false, mes);
    if CubreInferencia(oferta) && oferta.topeBonificacion.None? {
      SumaDeActivas(oferta.bonificaciones, Reduccion);
      MascaraTotal(oferta.bonificaciones);
    }
  }

  lemma {:induction false} MascaraTotal(bs: seq<Bonificacion>)
    requires forall k :: 0 <= k < |bs| ==> Activa(bs[k])
    ensures SumaDe(bs, SoloActivas(Reduccion)) == SumaDe(bs, Reduccion)
  {
    if bs != [] {
      MascaraTotal(bs[..|bs| - 1]);
    }
  }

  /** A `mixta` offer is in its fixed tranche exactly in months up to `plazoFijoAnios * 12`. */
  lemma MixtaTranche(oferta: OfertaHipoteca, mes: int)
    requires oferta.OfertaMixta?
    ensures TipoVigente(oferta, mes) == TinFijo <==> mes <= oferta.plazoFijoAnios * 12
    ensures TipoVigente(oferta, mes) != Tin
  {
  }

  // ---------------------------------------------------------------------------
  // Payment stream
  // ---------------------------------------------------------------------------

  /** The loop shape `calcularFlujoDeCuotas` uses for an offer. */
  function PlanDe(oferta: OfertaHipoteca): Plan {
    match oferta
    case OfertaFija(_, _, _, _, _, _) => FixedPlan
    case OfertaVariable(_, _, _, _, _, _) => VariablePlan
    case OfertaMixta(_, _, _, _, _, _, _, _, _) => MixedPlan(PlazoFijoMeses(oferta))
  }

  /**
   * The terms whose stream has a value: any positive term, and a zero term
   * unless a `mixta` offer's fixed tranche would push instalments computed
   * over zero months.
   */
  predicate PlazoCalculable(oferta: OfertaHipoteca, plazoMeses: nat) {
    plazoMeses > 0 || !oferta.OfertaMixta? || oferta.plazoFijoAnios == 0
  }

  /** The payment stream of one scenario: empty for a zero term, where no loop runs. */
  function Cuotas(oferta: OfertaHipoteca, importe: real, plazoMeses: nat, euribor: real, con: bool): seq<real>
    requires PlazoCalculable(oferta, plazoMeses)
  {
    if plazoMeses == 0 then [] else Schedule(PlanDe(oferta), Tasa(oferta, euribor, con), importe, plazoMeses)
  }

  /**
   * `calcularFlujoDeCuotas`: the monthly payments of the offer, built with a
   * running outstanding balance.
   */
  method CalcularFlujoDeCuotas(oferta: OfertaHipoteca, importe: real, plazoMeses: nat, euribor: real,
                               conBonificaciones: bool) returns (cuotas: seq<real>)
    requires PlazoCalculable(oferta, plazoMeses)
    ensures cuotas == Cuotas(oferta, importe, plazoMeses, euribor, conBonificaciones)
  {
    var capitalPendiente := importe;
    cuotas := [];

    if oferta.OfertaFija? {
      var interesMensual := ObtenerInteresMensual(oferta, euribor, conBonificaciones, 1);
      if plazoMeses == 0 {
        // `Array(0).fill(...)`: the instalment over no months is never stored.
        return [];
      }
      var cuotaConstante := CuotaFrances(importe, interesMensual.rate, plazoMeses);
      return seq(plazoMeses, _ => cuotaConstante);
    }

    if oferta.OfertaVariable? {
      cuotas := CuotasReamortizadas(Tasa(oferta, euribor, conBonificaciones), capitalPendiente, 1, plazoMeses);
      return;
    }

    var plazoFijoMeses := oferta.plazoFijoAnios * 12;
    var interesFijoMensual := ObtenerInteresMensual(oferta, euribor, conBonificaciones, 1);
    if plazoMeses == 0 {
      // No fixed months and no floating months: the instalment over no months is never pushed.
      return [];
    }
    var cuotaFija := CuotaFrances(importe, interesFijoMensual.rate, plazoMeses);
    cuotas, capitalPendiente := CuotasTramoFijo(importe, interesFijoMensual.rate, cuotaFija, plazoFijoMeses);
    var tramoVariable := CuotasReamortizadas(Tasa(oferta, euribor, conBonificaciones), capitalPendiente,
                                             plazoFijoMeses + 1, plazoMeses);
    cuotas := cuotas + tramoVariable;
  }

  /**
   * The shape of a stream: `fija` gives `plazoMeses` equal payments,
   * `variable` one per month, and `mixta` its fixed months of the full-term
   * instalment followed by the months after them, so
   * `max(plazoFijoMeses, plazoMeses)` in all.
   */
  lemma CuotasShape(oferta: OfertaHipoteca, importe: real, plazoMeses: nat, euribor: real, con: bool)
    requires PlazoCalculable(oferta, plazoMeses)
    ensures var s := Cuotas(oferta, importe, plazoMeses, euribor, con);
            && (oferta.OfertaFija? ==> |s| == plazoMeses && forall k :: 0 <= k < |s| ==> s[k] == s[0])
            && (oferta.OfertaVariable? ==> |s| == plazoMeses)
            && (oferta.OfertaMixta? ==>
                  |s| == (if PlazoFijoMeses(oferta) > plazoMeses then PlazoFijoMeses(oferta) else plazoMeses)
                  && forall k :: 0 <= k < PlazoFijoMeses(oferta) ==> s[k] == s[0])
  {
    if plazoMeses > 0 {
      ScheduleShape(PlanDe(oferta), Tasa(oferta, euribor, con), importe, plazoMeses);
    }
  }

  /**
   * Since resolved rates are never negative, the running balance of every
   * stream ends at exactly zero (for `mixta`, when the fixed tranche fits in
   * the term).
   */
  lemma PrestamoAmortizado(oferta: OfertaHipoteca, importe: real, plazoMeses: nat, euribor: real, con: bool)
    requires plazoMeses > 0
    requires oferta.OfertaMixta? ==> PlazoFijoMeses(oferta) <= plazoMeses
    ensures ScheduleFinalBalance(PlanDe(oferta), Tasa(oferta, euribor, con), importe, plazoMeses) == 0.0
  {
    var rate := Tasa(oferta, euribor, con);
    forall m ensures rate(m) >= 0.0 {
      assert rate(m) == ObtenerInteresMensual(oferta, euribor, con, m).rate;
    }
    ScheduleRepaysLoan(PlanDe(oferta), rate, importe, plazoMeses);
  }

  // ---------------------------------------------------------------------------
  // Annual percentage rate
  // ---------------------------------------------------------------------------

  /**
   * The `van` closure of `calcularTAE` at the annual rate `tae`: the running
   * `suma` over the first `numCuotas` months of the payments that exist, each
   * plus the monthly product cost and discounted by `descuento(tae)^(i + 1)`,
   * less the net amount received.
   */
  method ValorActualNeto(cf: Cashflows, tae: real) returns (v: real)
    ensures v == Van(cf, tae)
  {
    var importeNetoRecibido := cf.prestamo - cf.gastosIniciales;
    var factor := cf.descuento(tae);
    var suma := 0.0;
    for i := 0 to cf.numCuotas
      invariant suma == ValorDescontado(cf.flujoCuotas, i, cf.costeMensualProductos, factor)
    {
      if i < |cf.flujoCuotas| {
        var cuota := cf.flujoCuotas[i];
        suma := suma + (cuota + cf.costeMensualProductos) * Pow(factor, i + 1);
      }
    }
    v := suma - importeNetoRecibido;
  }

  /**
   * Months past the end of the stream add nothing: asking for more payments
   * than the stream holds is the same as asking for exactly those it holds.
   */
  lemma {:induction false} ValorDescontadoMasAlla(flujo: seq<real>, n: nat, coste: real, d: real)
    requires n >= |flujo|
    ensures ValorDescontado(flujo, n, coste, d) == ValorDescontado(flujo, |flujo|, coste, d)
  {
    if n > |flujo| {
      ValorDescontadoMasAlla(flujo, n - 1, coste, d);
    }
  }

  /**
   * `calcularTAE(prestamo, numCuotas, gastosIniciales, flujoCuotas,
   * costeMensualProductos)`: the bracket search and bisection on `van`,
   * returning the annual percentage, or None where the source returns NaN.
   * `descuento` stands for `1 / Math.pow(1 + tae, 1/12)`.
   */
  method CalcularTAE(prestamo: real, numCuotas: nat, gastosIniciales: real, flujoCuotas: seq<real>,
                     costeMensualProductos: real, descuento: real -> real) returns (tae: Option<real>)
    ensures tae == Tae(VanDe(Cashflows(prestamo, numCuotas, gastosIniciales, flujoCuotas,
                                       costeMensualProductos, descuento)))
  {
    tae := BuscarTae(VanDe(Cashflows(prestamo, numCuotas, gastosIniciales, flujoCuotas,
                                     costeMensualProductos, descuento)));
  }

  // ---------------------------------------------------------------------------
  // Expenses and the discounts' cost
  // ---------------------------------------------------------------------------

  /** The `reduce` of `sumGastos`: each expense's cost, a missing one counting as 0. */
  function SumaCostes(gastos: seq<Gasto>): real {
    if gastos == [] then 0.0 else SumaCostes(gastos[..|gastos| - 1]) + gastos[|gastos| - 1].coste.GetOr(0.0)
  }

  /** `sumGastos`: 0 for an absent list, otherwise the sum of its costs. */
  function SumGastos(gastos: Option<seq<Gasto>>): (r: real)
    ensures gastos.None? ==> r == 0.0
    ensures gastos.Some? && gastos.value == [] ==> r == 0.0
  {
    if gastos.None? then 0.0 else SumaCostes(gastos.value)
  }

  /** The total of two expense lists put together is the sum of their totals. */
  lemma {:induction false} SumaCostesAppend(xs: seq<Gasto>, ys: seq<Gasto>)
    ensures SumaCostes(xs + ys) == SumaCostes(xs) + SumaCostes(ys)
  {
    if ys == [] {
      assert xs + ys == xs;
    } else {
      assert (xs + ys)[..|xs + ys| - 1] == xs + ys[..|ys| - 1];
      SumaCostesAppend(xs, ys[..|ys| - 1]);
    }
  }

  /** With no negative cost, the expense total is non-negative and covers every single expense. */
  lemma {:induction false} SumaCostesCubre(gastos: seq<Gasto>, k: nat)
    requires k < |gastos|
    requires forall j :: 0 <= j < |gastos| ==> gastos[j].coste.GetOr(0.0) >= 0.0
    ensures SumaCostes(gastos) >= gastos[k].coste.GetOr(0.0)
  {
    SumaCostesNoNegativa(gastos[..|gastos| - 1]);
    if k < |gastos| - 1 {
      SumaCostesCubre(gastos[..|gastos| - 1], k);
    }
  }

  lemma {:induction false} SumaCostesNoNegativa(gastos: seq<Gasto>)
    requires forall j :: 0 <= j < |gastos| ==> gastos[j].coste.GetOr(0.0) >= 0.0
    ensures SumaCostes(gastos) >= 0.0
  {
    if gastos != [] {
      SumaCostesNoNegativa(gastos[..|gastos| - 1]);
    }
  }

  /** The yearly cost of the active discounts times the term in years. */
  function CosteBonificaciones(bs: seq<Bonificacion>, plazoAnios: nat): real {
    SumaDe(Activas(bs), CosteAnual) * plazoAnios as real
  }

  /** Switched-off discounts cost nothing: the cost is the sum with their yearly cost counted as 0. */
  lemma SoloActivasCuestan(bs: seq<Bonificacion>, plazoAnios: nat)
    ensures CosteBonificaciones(bs, plazoAnios) == SumaDe(bs, SoloActivas(CosteAnual)) * plazoAnios as real
  {
    SumaDeActivas(bs, CosteAnual);
  }

  // ---------------------------------------------------------------------------
  // Warnings
  // ---------------------------------------------------------------------------

  /** `tolerance`: how far a resolved rate may be from the quoted one before a warning. */
  const Tolerancia: real := 0.001

  /** A quoted reduced value exists and the resolved one is off by more than the tolerance. */
  predicate NoAlcanza(obtenido: real, anunciado: Option<real>) {
    anunciado.Some? && Abs(obtenido - anunciado.value) > Tolerancia
  }

  /** The whole number of cents `x.toFixed(2)` shows for the magnitude of `x`: `|x| * 100` rounded half up. */
  function CentimosMagnitud(x: real): nat {
    (Abs(x) * 100.0 + 0.5).Floor
  }

  /** The cents `x.toFixed(2)` shows, with the sign of `x`. */
  function Centimos(x: real): int {
    if x < 0.0 then -(CentimosMagnitud(x) as int) else CentimosMagnitud(x)
  }

  function Digito(d: int): char
    requires 0 <= d < 10
  {
    ('0' as int + d) as char
  }

  /** The decimal digits of `n`. */
  function Decimal(n: nat): string {
    if n < 10 then [Digito(n)] else Decimal(n / 10) + [Digito(n % 10)]
  }

  /** `x.toFixed(2)`: optional minus sign, integer digits, a point and two decimals. */
  function ToFixed2(x: real): string {
    var c := CentimosMagnitud(x);
    (if x < 0.0 then "-" else "") + Decimal(c / 100) + "." + [Digito(c / 10 % 10), Digito(c % 10)]
  }

  /** JavaScript's `<` on strings: code unit by code unit, a proper prefix coming first. */
  predicate MenorTexto(a: string, b: string) {
    if a == [] then b != []
    else if b == [] then false
    else if a[0] != b[0] then a[0] < b[0]
    else MenorTexto(a[1..], b[1..])
  }

  /**
   * The bonus-cap test as written: the two-decimal texts of the active
   * reduction and the cap compared as strings.
   */
  predicate AvisoTopeComoTexto(reduccionActiva: real, tope: Option<real>) {
    tope.Some? && MenorTexto(ToFixed2(reduccionActiva), ToFixed2(tope.value))
  }

  /**
   * Comparing texts is not comparing numbers: an active reduction of 9 under
   * a cap of 10 raises no warning ("9.00" sorts after "10.00"), and one of 10
   * over a cap of 9 raises it.
   */
  lemma AvisoTopeComoTextoFalla()
    ensures 9.0 < 10.0 && !AvisoTopeComoTexto(9.0, Some(10.0))
    ensures 10.0 > 9.0 && AvisoTopeComoTexto(10.0, Some(9.0))
  {
    assert Centimos(9.0) == 900 && Centimos(10.0) == 1000;
    assert Decimal(9) == "9";
    assert Decimal(10) == Decimal(1) + [Digito(0)] == "10";
    assert ToFixed2(9.0) == "9.00";
    assert ToFixed2(10.0) == "10.00";
  }

  /**
   * The bonus-cap test as intended: a cap exists and the active reduction,
   * rounded to the cents both figures are shown with, is below it.
   */
  predicate AvisoTopeNumerico(reduccionActiva: real, tope: Option<real>) {
    tope.Some? && Centimos(reduccionActiva) < Centimos(tope.value)
  }

  lemma CentimosMonotone(x: real, y: real)
    requires x <= y
    ensures Centimos(x) <= Centimos(y)
  {
  }

  /**
   * The intended test warns only when the cap is not reached, and always
   * does when the (non-negative) active reduction falls short of it by a
   * cent or more.
   */
  lemma AvisoTopeNumericoCorrecto(reduccionActiva: real, tope: real)
    ensures reduccionActiva >= tope ==> !AvisoTopeNumerico(reduccionActiva, Some(tope))
    ensures 0.0 <= reduccionActiva && reduccionActiva + 0.01 <= tope ==> AvisoTopeNumerico(reduccionActiva, Some(tope))
  {
    if reduccionActiva >= tope {
      CentimosMonotone(tope, reduccionActiva);
    }
  }

  // ---------------------------------------------------------------------------
  // Per-offer result
  // ---------------------------------------------------------------------------

  /** The offer type with a capital initial, as shown: `Fija`, `Variable` or `Mixta`. */
  function Etiqueta(oferta: OfertaHipoteca): string {
    match oferta
    case OfertaFija(_, _, _, _, _, _) => "Fija"
    case OfertaVariable(_, _, _, _, _, _) => "Variable"
    case OfertaMixta(_, _, _, _, _, _, _, _, _) => "Mixta"
  }

  /** The discount names the personal products are compared with. */
  function NombresBonificaciones(bs: seq<Bonificacion>): (r: seq<string>)
    ensures |r| == |bs| && forall k :: 0 <= k < |bs| ==> r[k] == bs[k].nombre
  {
    seq(|bs|, k requires 0 <= k < |bs| => bs[k].nombre)
  }

  /**
   * The inputs `calcularResultadoParaOferta` passes to `calcularTAE` for one
   * scenario: all expenses, and with discounts their cost spread over the
   * months. Over a zero term that share is `0 / 0`, NaN, which `calcularTAE`
   * never reads, since it discounts no month; it is 0 here.
   */
  function FlujosTae(oferta: OfertaHipoteca, importe: real, plazoAnios: nat, euribor: real, con: bool,
                     descuento: real -> real): Cashflows
    requires PlazoCalculable(oferta, plazoAnios * 12)
  {
    var plazoMeses := plazoAnios * 12;
    Cashflows(importe, plazoMeses, SumGastos(oferta.gastosAdicionales),
              Cuotas(oferta, importe, plazoMeses, euribor, con),
              if con && plazoMeses > 0 then CosteBonificaciones(oferta.bonificaciones, plazoAnios) / plazoMeses as real
              else 0.0,
              descuento)
  }

  /**
   * One scenario of `calcularResultadoParaOferta`: its payment stream, the
   * total paid with all expenses (and, with discounts, their cost), and its APR.
   */
  method CalcularEscenario(oferta: OfertaHipoteca, importe: real, plazoAnios: nat, euribor: real, con: bool,
                           descuento: real -> real) returns (cuotas: seq<real>, costeTotal: real, tae: Option<real>)
    requires PlazoCalculable(oferta, plazoAnios * 12)
    ensures cuotas == Cuotas(oferta, importe, plazoAnios * 12, euribor, con)
    ensures |cuotas| >= plazoAnios * 12 && (oferta.OfertaMixta? ==> |cuotas| >= PlazoFijoMeses(oferta))
    ensures costeTotal == Sum(cuotas) + SumGastos(oferta.gastosAdicionales)
                          + (if con then CosteBonificaciones(oferta.bonificaciones, plazoAnios) else 0.0)
    ensures tae == Tae(VanDe(FlujosTae(oferta, importe, plazoAnios, euribor, con, descuento)))
    ensures plazoAnios == 0 ==> cuotas == [] && costeTotal == SumGastos(oferta.gastosAdicionales) && tae == None
  {
    var plazoMeses := plazoAnios * 12;
    var gastosTotalesReales := SumGastos(oferta.gastosAdicionales);
    cuotas := CalcularFlujoDeCuotas(oferta, importe, plazoMeses, euribor, con);
    CuotasShape(oferta, importe, plazoMeses, euribor, con);
    var costeTotalPagado := Sum(cuotas);
    var costeMensualProductos := 0.0;
    if con {
      var costeTotalBonificaciones := CosteBonificaciones(oferta.bonificaciones, plazoAnios);
      costeTotal := costeTotalPagado + gastosTotalesReales + costeTotalBonificaciones;
      if plazoMeses > 0 {
        costeMensualProductos := costeTotalBonificaciones / plazoMeses as real;
      }
    } else {
      costeTotal := costeTotalPagado + gastosTotalesReales;
    }
    tae := CalcularTAE(importe, plazoMeses, gastosTotalesReales, cuotas, costeMensualProductos, descuento);
    if plazoAnios == 0 {
      TaeSinCuotas(FlujosTae(oferta, importe, plazoAnios, euribor, con, descuento));
    }
  }

  /**
   * The display values of `calcularResultadoParaOferta`, from the rates of
   * month 1 (and, for a mixta offer, of the first floating month): the rates
   * of a fixed tranche and the spreads of a floating one net of euribor, and
   * the warning that a quoted reduced value is not reached; for a mixta offer
   * the fixed-tranche warning takes precedence over the floating one.
   */
  method ValoresTabla(oferta: OfertaHipoteca, euribor: real)
    returns (tinInicial: Option<real>, tinBonificado: Option<real>,
             diferencialInicial: Option<real>, diferencialBonificado: Option<real>,
             diferencialInicialVariable: Option<real>, diferencialBonificadoVariable: Option<real>,
             isAssumedBaseRate: bool, rateMismatchWarning: Option<AvisoTasa>)
    ensures tinInicial == (if oferta.OfertaVariable? then None else Some(Max0(TasaFinal(oferta, euribor, false, 1))))
    ensures tinBonificado == (if oferta.OfertaVariable? then None else Some(Max0(TasaFinal(oferta, euribor, true, 1))))
    ensures diferencialInicial
            == (if oferta.OfertaVariable? then Some(Max0(TasaFinal(oferta, euribor, false, 1)) - euribor) else None)
    ensures diferencialBonificado
            == (if oferta.OfertaVariable? then Some(Max0(Max0(TasaFinal(oferta, euribor, true, 1)) - euribor)) else None)
    ensures diferencialInicialVariable
            == (if oferta.OfertaMixta?
                then Some(Max0(TasaFinal(oferta, euribor, false, PlazoFijoMeses(oferta) + 1)) - euribor) else None)
    ensures diferencialBonificadoVariable
            == (if oferta.OfertaMixta?
                then Some(Max0(Max0(TasaFinal(oferta, euribor, true, PlazoFijoMeses(oferta) + 1)) - euribor))
                else None)
    ensures isAssumedBaseRate
            <==> BaseAnual(oferta, euribor, 1).isAssumedBase
                 || (oferta.OfertaMixta? && BaseAnual(oferta, euribor, PlazoFijoMeses(oferta) + 1).isAssumedBase)
    ensures oferta.OfertaFija? ==>
              rateMismatchWarning
              == if NoAlcanza(tinBonificado.value, oferta.tinBonificado)
                 then Some(TinBonificadoNoAlcanzado(oferta.tinBonificado.value)) else None
    ensures oferta.OfertaVariable? ==>
              rateMismatchWarning
              == if NoAlcanza(diferencialBonificado.value, oferta.diferencialBonificado)
                 then Some(DiferencialBonificadoNoAlcanzado(oferta.diferencialBonificado.value)) else None
    ensures oferta.OfertaMixta? ==>
              rateMismatchWarning
              == if NoAlcanza(tinBonificado.value, oferta.tinFijoBonificado)
                 then Some(TinFijoBonificadoNoAlcanzado(oferta.tinFijoBonificado.value))
                 else if NoAlcanza(diferencialBonificadoVariable.value, oferta.diferencialBonificado)
                 then Some(DiferencialVariableNoAlcanzado(oferta.diferencialBonificado.value))
                 else None
  {
    var baseRateInfoSinBonif := ObtenerInteresMensual(oferta, euribor, false, 1);
    var baseRateInfoConBonif := ObtenerInteresMensual(oferta, euribor, true, 1);
    RateIsClampedFinal(oferta, euribor, false, 1);
    RateIsClampedFinal(oferta, euribor, true, 1);
    tinInicial, tinBonificado, diferencialInicial, diferencialBonificado := None, None, None, None;
    diferencialInicialVariable, diferencialBonificadoVariable := None, None;
    isAssumedBaseRate := baseRateInfoSinBonif.isAssumedBase;
    rateMismatchWarning := None;

    if oferta.OfertaFija? {
      tinInicial := Some(baseRateInfoSinBonif.rate * 1200.0);
      tinBonificado := Some(baseRateInfoConBonif.rate * 1200.0);
      if oferta.tinBonificado.Some? && Abs(tinBonificado.value - oferta.tinBonificado.value) > Tolerancia {
        rateMismatchWarning := Some(TinBonificadoNoAlcanzado(oferta.tinBonificado.value));
      }
    } else if oferta.OfertaVariable? {
      diferencialInicial := Some(baseRateInfoSinBonif.rate * 1200.0 - euribor);
      diferencialBonificado := Some(Max0(baseRateInfoConBonif.rate * 1200.0 - euribor));
      if oferta.diferencialBonificado.Some?
         && Abs(diferencialBonificado.value - oferta.diferencialBonificado.value) > Tolerancia {
        rateMismatchWarning := Some(DiferencialBonificadoNoAlcanzado(oferta.diferencialBonificado.value));
      }
    } else {
      tinInicial, tinBonificado, diferencialInicialVariable, diferencialBonificadoVariable,
        isAssumedBaseRate, rateMismatchWarning := ValoresMixta(oferta, euribor, isAssumedBaseRate);
    }
  }

  /**
   * The `mixta` branch of the display values: the fixed tranche's rates of
   * month 1, the floating tranche's spreads of its first month, the flag
   * raised when that month's base is inferred too, and the warnings, the
   * fixed-tranche one first.
   */
  method ValoresMixta(oferta: OfertaHipoteca, euribor: real, isAssumedBaseInicial: bool)
    returns (tinInicial: Option<real>, tinBonificado: Option<real>,
             diferencialInicialVariable: Option<real>, diferencialBonificadoVariable: Option<real>,
             isAssumedBaseRate: bool, rateMismatchWarning: Option<AvisoTasa>)
    requires oferta.OfertaMixta?
    ensures tinInicial == Some(Max0(TasaFinal(oferta, euribor, false, 1)))
    ensures tinBonificado == Some(Max0(TasaFinal(oferta, euribor, true, 1)))
    ensures diferencialInicialVariable
            == Some(Max0(TasaFinal(oferta, euribor, false, PlazoFijoMeses(oferta) + 1)) - euribor)
    ensures diferencialBonificadoVariable
            == Some(Max0(Max0(TasaFinal(oferta, euribor, true, PlazoFijoMeses(oferta) + 1)) - euribor))
    ensures isAssumedBaseRate
            <==> isAssumedBaseInicial || BaseAnual(oferta, euribor, PlazoFijoMeses(oferta) + 1).isAssumedBase
    ensures rateMismatchWarning
            == if NoAlcanza(tinBonificado.value, oferta.tinFijoBonificado)
               then Some(TinFijoBonificadoNoAlcanzado(oferta.tinFijoBonificado.value))
               else if NoAlcanza(diferencialBonificadoVariable.value, oferta.diferencialBonificado)
               then Some(DiferencialVariableNoAlcanzado(oferta.diferencialBonificado.value))
               else None
  {
    isAssumedBaseRate := isAssumedBaseInicial;
    RateIsClampedFinal(oferta, euribor, false, 1);
    RateIsClampedFinal(oferta, euribor, true, 1);
    tinInicial := Some(ObtenerInteresMensual(oferta, euribor, false, 1).rate * 1200.0);
    tinBonificado := Some(ObtenerInteresMensual(oferta, euribor, true, 1).rate * 1200.0);
    var plazoFijoMesesMixta := oferta.plazoFijoAnios * 12;
    var baseRateInfoVariableSinBonif := ObtenerInteresMensual(oferta, euribor, false, plazoFijoMesesMixta + 1);
    var baseRateInfoVariableConBonif := ObtenerInteresMensual(oferta, euribor, true, plazoFijoMesesMixta + 1);
    RateIsClampedFinal(oferta, euribor, false, plazoFijoMesesMixta + 1);
    RateIsClampedFinal(oferta, euribor, true, plazoFijoMesesMixta + 1);
    diferencialInicialVariable := Some(baseRateInfoVariableSinBonif.rate * 1200.0 - euribor);
    diferencialBonificadoVariable := Some(Max0(baseRateInfoVariableConBonif.rate * 1200.0 - euribor));
    if baseRateInfoVariableSinBonif.isAssumedBase {
      isAssumedBaseRate := true;
    }
    rateMismatchWarning := AvisoMixta(oferta, tinBonificado.value, diferencialBonificadoVariable.value);
  }

  /**
   * The rate warning of a `mixta` offer: the fixed tranche's reduced rate
   * is checked first, and the floating tranche's reduced spread only when
   * the first check raised nothing.
   */
  method AvisoMixta(oferta: OfertaHipoteca, tinBonificado: real, diferencialBonificadoVariable: real)
    returns (rateMismatchWarning: Option<AvisoTasa>)
    requires oferta.OfertaMixta?
    ensures rateMismatchWarning
            == if NoAlcanza(tinBonificado, oferta.tinFijoBonificado)
               then Some(TinFijoBonificadoNoAlcanzado(oferta.tinFijoBonificado.value))
               else if NoAlcanza(diferencialBonificadoVariable, oferta.diferencialBonificado)
               then Some(DiferencialVariableNoAlcanzado(oferta.diferencialBonificado.value))
               else None
  {
    rateMismatchWarning := None;
    if oferta.tinFijoBonificado.Some? && Abs(tinBonificado - oferta.tinFijoBonificado.value) > Tolerancia {
      rateMismatchWarning := Some(TinFijoBonificadoNoAlcanzado(oferta.tinFijoBonificado.value));
    }
    if rateMismatchWarning.None? && oferta.diferencialBonificado.Some?
       && Abs(diferencialBonificadoVariable - oferta.diferencialBonificado.value) > Tolerancia {
      rateMismatchWarning := Some(DiferencialVariableNoAlcanzado(oferta.diferencialBonificado.value));
    }
  }

  /**
   * A `fija` offer quoted only by its reduced rate `d >= 0` gets no rate
   * warning when the active discounts cover what the inference assumed (the
   * round trip gives `d` back), and gets one when a cap exists and the
   * active reductions fall short of it by more than the tolerance.
   */
  lemma AvisoTinInferido(oferta: OfertaHipoteca, euribor: real)
    requires oferta.OfertaFija? && oferta.tin.None? && oferta.tinBonificado.Some? && oferta.tinBonificado.value >= 0.0
    ensures CubreInferencia(oferta) ==> !NoAlcanza(Max0(TasaFinal(oferta, euribor, true, 1)), oferta.tinBonificado)
    ensures oferta.topeBonificacion.Some?
            && SumReductions(Activas(oferta.bonificaciones)) < oferta.topeBonificacion.value - Tolerancia
            ==> NoAlcanza(Max0(TasaFinal(oferta, euribor, true, 1)), oferta.tinBonificado)
  {
    InferenceRoundTrip(oferta, euribor, 1);
    RateIsClampedFinal(oferta, euribor, true, 1);
  }

  /**
   * The same for a `variable` offer quoted only by its reduced spread
   * `d >= 0`, the displayed spread being the resolved rate net of euribor,
   * floored at zero.
   */
  lemma AvisoDiferencialInferido(oferta: OfertaHipoteca, euribor: real)
    requires oferta.OfertaVariable? && oferta.diferencial.None? && oferta.diferencialBonificado.Some?
    requires oferta.diferencialBonificado.value >= 0.0 && euribor + oferta.diferencialBonificado.value >= 0.0
    ensures CubreInferencia(oferta)
            ==> !NoAlcanza(Max0(Max0(TasaFinal(oferta, euribor, true, 1)) - euribor), oferta.diferencialBonificado)
    ensures oferta.topeBonificacion.Some?
            && SumReductions(Activas(oferta.bonificaciones)) < oferta.topeBonificacion.value - Tolerancia
            ==> NoAlcanza(Max0(Max0(TasaFinal(oferta, euribor, true, 1)) - euribor), oferta.diferencialBonificado)
  {
    InferenceRoundTrip(oferta, euribor, 1);
    RateIsClampedFinal(oferta, euribor, true, 1);
  }

  /**
   * `calcularResultadoParaOferta`: both scenarios' payment streams, totals
   * (with all expenses, and with discounts the active discounts' yearly cost
   * times the years) and APRs, the total with the personal products no
   * discount resembles, the display rates of the offer's type and the two
   * warnings. `descuento` stands for `Math.pow(1 + tae, 1/12)`.
   */
  method CalcularResultadoParaOferta(oferta: OfertaHipoteca, importe: real, plazoAnios: nat, euribor: real,
                                     bonificacionesPersonalesAdiciones: seq<PersonalBonus>, descuento: real -> real)
    returns (r: ResultadoCalculo)
    requires PlazoCalculable(oferta, plazoAnios * 12)
    ensures var plazoMeses := plazoAnios * 12;
            var sin := Cuotas(oferta, importe, plazoMeses, euribor, false);
            var con := Cuotas(oferta, importe, plazoMeses, euribor, true);
            var gastos := SumGastos(oferta.gastosAdicionales);
            var costeBonificaciones := CosteBonificaciones(oferta.bonificaciones, plazoAnios);
            && r.banco == oferta.banco && r.tipo == Etiqueta(oferta)
            && r.bonificaciones == oferta.bonificaciones && r.oferta == oferta
            && r.costeTotalBonificaciones == costeBonificaciones
            && r.cuotaMensualSinBonificar == (if sin == [] then 0.0 else sin[0])
            && r.cuotaMensualConBonificar == (if con == [] then 0.0 else con[0])
            && r.costeTotalSinBonificar == Sum(sin) + gastos
            && r.costeTotalConBonificar == Sum(con) + gastos + costeBonificaciones
            && r.taeSinBonificar == Tae(VanDe(FlujosTae(oferta, importe, plazoAnios, euribor, false, descuento)))
            && r.taeConBonificar == Tae(VanDe(FlujosTae(oferta, importe, plazoAnios, euribor, true, descuento)))
            && r.desgloseGastos == DesgloseGastos(gastos, oferta.gastosAdicionales.GetOr([]))
    // A zero term: empty streams, first instalments 0, totals of the expenses alone, and no APR.
    ensures plazoAnios == 0 ==>
              && Cuotas(oferta, importe, 0, euribor, false) == [] && Cuotas(oferta, importe, 0, euribor, true) == []
              && r.cuotaMensualSinBonificar == 0.0 && r.cuotaMensualConBonificar == 0.0
              && r.costeTotalSinBonificar == SumGastos(oferta.gastosAdicionales)
              && r.costeTotalConBonificar == SumGastos(oferta.gastosAdicionales)
              && r.taeSinBonificar == None && r.taeConBonificar == None
    ensures r.costeTotalConExtras
            == r.costeTotalConBonificar
               + ExtrasCost(Included(NombresBonificaciones(oferta.bonificaciones), bonificacionesPersonalesAdiciones),
                            plazoAnios as real)
    ensures r.productosPersonalesIncluidos
            == Names(Included(NombresBonificaciones(oferta.bonificaciones), bonificacionesPersonalesAdiciones))
    ensures r.tinInicial == (if oferta.OfertaVariable? then None else Some(Max0(TasaFinal(oferta, euribor, false, 1))))
    ensures r.tinBonificado == (if oferta.OfertaVariable? then None else Some(Max0(TasaFinal(oferta, euribor, true, 1))))
    ensures r.diferencialInicial
            == (if oferta.OfertaVariable? then Some(Max0(TasaFinal(oferta, euribor, false, 1)) - euribor) else None)
    ensures r.diferencialBonificado
            == (if oferta.OfertaVariable? then Some(Max0(Max0(TasaFinal(oferta, euribor, true, 1)) - euribor)) else None)
    ensures r.diferencialInicialVariable
            == (if oferta.OfertaMixta?
                then Some(Max0(TasaFinal(oferta, euribor, false, PlazoFijoMeses(oferta) + 1)) - euribor) else None)
    ensures r.diferencialBonificadoVariable
            == (if oferta.OfertaMixta?
                then Some(Max0(Max0(TasaFinal(oferta, euribor, true, PlazoFijoMeses(oferta) + 1)) - euribor))
                else None)
    ensures r.isAssumedBaseRate
            <==> BaseAnual(oferta, euribor, 1).isAssumedBase
                 || (oferta.OfertaMixta? && BaseAnual(oferta, euribor, PlazoFijoMeses(oferta) + 1).isAssumedBase)
    ensures oferta.OfertaFija? ==>
              r.rateMismatchWarning
              == if NoAlcanza(r.tinBonificado.value, oferta.tinBonificado)
                 then Some(TinBonificadoNoAlcanzado(oferta.tinBonificado.value)) else None
    ensures oferta.OfertaVariable? ==>
              r.rateMismatchWarning
              == if NoAlcanza(r.diferencialBonificado.value, oferta.diferencialBonificado)
                 then Some(DiferencialBonificadoNoAlcanzado(oferta.diferencialBonificado.value)) else None
    ensures oferta.OfertaMixta? ==>
              r.rateMismatchWarning
              == if NoAlcanza(r.tinBonificado.value, oferta.tinFijoBonificado)
                 then Some(TinFijoBonificadoNoAlcanzado(oferta.tinFijoBonificado.value))
                 else if NoAlcanza(r.diferencialBonificadoVariable.value, oferta.diferencialBonificado)
                 then Some(DiferencialVariableNoAlcanzado(oferta.diferencialBonificado.value))
                 else None
    ensures var reduccionActiva := SumReductions(Activas(oferta.bonificaciones));
            r.bonusCapWarning
            == if AvisoTopeNumerico(reduccionActiva, oferta.topeBonificacion)
               then Some(AvisoTope(reduccionActiva, oferta.topeBonificacion.value)) else None
    ensures r.cuotaMensualVariableSinBonificar.Some? <==> oferta.OfertaMixta? && plazoAnios * 12 > PlazoFijoMeses(oferta)
    ensures r.cuotaMensualVariableConBonificar.Some? <==> oferta.OfertaMixta? && plazoAnios * 12 > PlazoFijoMeses(oferta)
    ensures r.cuotaMensualVariableSinBonificar.Some?
            ==> r.cuotaMensualVariableSinBonificar.value
                == Cuotas(oferta, importe, plazoAnios * 12, euribor, false)[PlazoFijoMeses(oferta)]
    ensures r.cuotaMensualVariableConBonificar.Some?
            ==> r.cuotaMensualVariableConBonificar.value
                == Cuotas(oferta, importe, plazoAnios * 12, euribor, true)[PlazoFijoMeses(oferta)]
  {
    var gastosTotalesReales := SumGastos(oferta.gastosAdicionales);
    var plazoMeses := plazoAnios * 12;

    var cuotasSinBonificar, costeTotalSinBonificar, taeSinBonificar :=
      CalcularEscenario(oferta, importe, plazoAnios, euribor, false, descuento);
    var cuotasConBonificar, costeTotalConBonificar, taeConBonificar :=
      CalcularEscenario(oferta, importe, plazoAnios, euribor, true, descuento);
    var costeTotalBonificaciones := CosteBonificaciones(oferta.bonificaciones, plazoAnios);

    var costeTotalConExtras, productosPersonalesIncluidos :=
      SumarExtras(NombresBonificaciones(oferta.bonificaciones), bonificacionesPersonalesAdiciones,
                  plazoAnios as real, costeTotalConBonificar);

    var tinInicial, tinBonificado, diferencialInicial, diferencialBonificado,
        diferencialInicialVariable, diferencialBonificadoVariable, isAssumedBaseRate, rateMismatchWarning :=
      ValoresTabla(oferta, euribor);

    // The bonus-cap test, on the cents both figures are shown with.
    var bonusCapWarning: Option<AvisoTope> := None;
    var reduccionActiva := SumReductions(Activas(oferta.bonificaciones));
    if oferta.topeBonificacion.Some? && Centimos(reduccionActiva) < Centimos(oferta.topeBonificacion.value) {
      bonusCapWarning := Some(AvisoTope(reduccionActiva, oferta.topeBonificacion.value));
    }

    var cuotaMensualVariableSinBonificar: Option<real> := None;
    var cuotaMensualVariableConBonificar: Option<real> := None;
    if oferta.OfertaMixta? {
      var primerMesVariableIndex := oferta.plazoFijoAnios * 12;
      if plazoMeses > primerMesVariableIndex {
        cuotaMensualVariableSinBonificar := Some(cuotasSinBonificar[primerMesVariableIndex]);
        cuotaMensualVariableConBonificar := Some(cuotasConBonificar[primerMesVariableIndex]);
      }
    }

    r := ResultadoCalculo(
      oferta.banco, Etiqueta(oferta), taeSinBonificar, taeConBonificar,
      if |cuotasSinBonificar| > 0 then cuotasSinBonificar[0] else 0.0,
      if |cuotasConBonificar| > 0 then cuotasConBonificar[0] else 0.0,
      costeTotalSinBonificar, costeTotalConBonificar, costeTotalBonificaciones,
      oferta.bonificaciones,
      DesgloseGastos(gastosTotalesReales, oferta.gastosAdicionales.GetOr([])),
      oferta, tinInicial, tinBonificado, diferencialInicial, diferencialBonificado, isAssumedBaseRate,
      costeTotalConExtras, productosPersonalesIncluidos,
      cuotaMensualVariableSinBonificar, cuotaMensualVariableConBonificar,
      diferencialInicialVariable, diferencialBonificadoVariable,
      rateMismatchWarning, bonusCapWarning);
  }
}
