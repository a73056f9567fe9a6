/**
 * The legacy calculation engine of `calculadora.ts`: its own offer and
 * discount types (each discount carries one reduction per rate category), the
 * rate resolver `obtenerInteresMensual`, the payment stream
 * `calcularFlujoDeCuotas`, the APR search `calcularTAE`, the cost totals
 * `calcularCostes`, the per-offer result `calcularResultadoParaOferta` and the
 * amortisation series `generarDatosAmortizacion`.
 */
module Calculadora {
  import opened Finance
  import opened Amortization
  import opened Bisection
  import opened PersonalProducts

  /** A conditional discount: a name, the reductions it grants per category, and its yearly cost. */
  datatype Bonificacion = Bonificacion(
    nombre: string,
    reduccionTin: Option<real>,
    reduccionDiferencial: Option<real>,
    reduccionTinFijo: Option<real>,
    costeAnual: real,
    isSupposed: Option<bool>)

  /**
   * An offer: fixed (`fija`), floating (`variable`) or fixed-then-floating
   * (`mixta`), each with the shared bank, expenses and discounts, and the
   * unreduced and already-reduced values of its rates, any of which may be
   * absent.
   */
  datatype OfertaHipoteca =
    | OfertaFija(banco: string, gastosTasacion: real, comisionBroker: real, otrosGastos: real,
                 gastosCancelacionAnterior: Option<real>, bonificaciones: seq<Bonificacion>,
                 tin: Option<real>, tinBonificado: Option<real>)
    | OfertaVariable(banco: string, gastosTasacion: real, comisionBroker: real, otrosGastos: real,
                     gastosCancelacionAnterior: Option<real>, bonificaciones: seq<Bonificacion>,
                     diferencial: Option<real>, diferencialBonificado: Option<real>)
    | OfertaMixta(banco: string, gastosTasacion: real, comisionBroker: real, otrosGastos: real,
                  gastosCancelacionAnterior: Option<real>, bonificaciones: seq<Bonificacion>,
                  plazoFijoAnios: nat, tinFijo: Option<real>, tinFijoBonificado: Option<real>,
                  diferencial: Option<real>, diferencialBonificado: Option<real>)

  /** The rate category whose reductions apply: `'tin' | 'diferencial' | 'tinFijo'`. */
  datatype TipoReduccion = Tin | Diferencial | TinFijo

  /** What `obtenerInteresMensual` returns: the monthly decimal rate and whether the base was inferred. */
  datatype InteresMensual = InteresMensual(rate: real, isAssumedBase: bool)

  // ---------------------------------------------------------------------------
  // Rate resolution
  // ---------------------------------------------------------------------------

  /** The first defined value of a preference list, or 0 when none is. */
  function FirstDefined(xs: seq<Option<real>>): real {
    if xs == [] then 0.0 else if xs[0].Some? then xs[0].value else FirstDefined(xs[1..])
  }

  /** The fields a discount may contribute to a category, most specific first. */
  function CamposAplicables(b: Bonificacion, t: TipoReduccion): seq<Option<real>> {
    match t
    case Tin => [b.reduccionTin]
    case Diferencial => [b.reduccionDiferencial, b.reduccionTin]
    case TinFijo => [b.reduccionTinFijo, b.reduccionTin]
  }

  /**
   * What one discount adds inside `sumReductions`: exactly one value per
   * entry: the category's own reduction when present, else (for the
   * differential and the fixed tranche) the generic TIN reduction, else nothing.
   */
  function Reduccion(b: Bonificacion, t: TipoReduccion): (r: real)
    ensures r == FirstDefined(CamposAplicables(b, t))
  {
    assert [b.reduccionTin][1..] == [];
    assert FirstDefined([b.reduccionTin]) == if b.reduccionTin.Some? then b.reduccionTin.value else 0.0;
    assert [b.reduccionDiferencial, b.reduccionTin][1..] == [b.reduccionTin];
    assert [b.reduccionTinFijo, b.reduccionTin][1..] == [b.reduccionTin];
    match t
    case Tin =>
      if b.reduccionTin.Some? then b.reduccionTin.value else 0.0
    case Diferencial =>
      if b.reduccionDiferencial.Some? then b.reduccionDiferencial.value
      else if b.reduccionTin.Some? then b.reduccionTin.value
      else 0.0
    case TinFijo =>
      if b.reduccionTinFijo.Some? then b.reduccionTinFijo.value
      else if b.reduccionTin.Some? then b.reduccionTin.value
      else 0.0
  }

  /** `sumReductions(bonificaciones, type)`: the `reduce` over the discounts, left to right. */
  function SumReductions(bs: seq<Bonificacion>, t: TipoReduccion): real {
    if bs == [] then 0.0 else SumReductions(bs[..|bs| - 1], t) + Reduccion(bs[|bs| - 1], t)
  }

  /** The sum over a list of discounts is the sum over its parts. */
  lemma {:induction false} SumReductionsAppend(xs: seq<Bonificacion>, ys: seq<Bonificacion>, t: TipoReduccion)
    ensures SumReductions(xs + ys, t) == SumReductions(xs, t) + SumReductions(ys, t)
  {
    if ys == [] {
      assert xs + ys == xs;
    } else {
      assert (xs + ys)[..|xs + ys| - 1] == xs + ys[..|ys| - 1];
      SumReductionsAppend(xs, ys[..|ys| - 1], t);
    }
  }

  /** `plazoFijoAnios * 12` for a `mixta` offer. */
  function PlazoFijoMeses(oferta: OfertaHipoteca): nat
    requires oferta.OfertaMixta?
  {
    oferta.plazoFijoAnios * 12
  }

  /** The reduction category that applies in month `mesActual`. */
  function TipoVigente(oferta: OfertaHipoteca, mesActual: int): TipoReduccion {
    match oferta
    case OfertaFija(_, _, _, _, _, _, _, _) => Tin
    case OfertaVariable(_, _, _, _, _, _, _, _) => Diferencial
    case OfertaMixta(_, _, _, _, _, _, _, _, _, _, _) =>
      if mesActual <= PlazoFijoMeses(oferta) then TinFijo else Diferencial
  }

  /** Spreads (`diferencial`) are quoted over the euribor; fixed rates stand alone. */
  function Referencia(t: TipoReduccion, euribor: real): real {
    if t == Diferencial then euribor else 0.0
  }

  /** The annual base rate of month `mesActual`: the `switch` of `obtenerInteresMensual`. */
  function BaseAnual(oferta: OfertaHipoteca, euribor: real, mesActual: int): TasaBase {
    var t := TipoVigente(oferta, mesActual);
    var total := SumReductions(oferta.bonificaciones, t);
    match oferta
    case OfertaFija(_, _, _, _, _, _, tin, tinBonificado) =>
      Precedencia(0.0, tin, tinBonificado, total)
    case OfertaVariable(_, _, _, _, _, _, diferencial, diferencialBonificado) =>
      Precedencia(euribor, diferencial, diferencialBonificado, total)
    case OfertaMixta(_, _, _, _, _, _, _, tinFijo, tinFijoBonificado, diferencial, diferencialBonificado) =>
      if mesActual <= PlazoFijoMeses(oferta) then Precedencia(0.0, tinFijo, tinFijoBonificado, total)
      else Precedencia(euribor, diferencial, diferencialBonificado, total)
  }

  /** The annual rate before clamping: the base, minus the total reduction when discounts apply. */
  function TasaFinal(oferta: OfertaHipoteca, euribor: real, conBonificaciones: bool, mesActual: int): real {
    var base := BaseAnual(oferta, euribor, mesActual).baseRate;
    if conBonificaciones then base - SumReductions(oferta.bonificaciones, TipoVigente(oferta, mesActual))
    else base
  }

  /**
   * `obtenerInteresMensual`: the final annual percentage, floored at zero,
   * as a monthly decimal rate; the flag tells whether the base was inferred.
   */
  function ObtenerInteresMensual(oferta: OfertaHipoteca, euribor: real, conBonificaciones: bool,
                                 mesActual: int): (r: InteresMensual)
    ensures r.rate >= 0.0
    ensures r.rate * 1200.0 >= TasaFinal(oferta, euribor, conBonificaciones, mesActual)
    ensures r.rate == 0.0 || r.rate * 1200.0 == TasaFinal(oferta, euribor, conBonificaciones, mesActual)
    ensures r.isAssumedBase == BaseAnual(oferta, euribor, mesActual).isAssumedBase
  {
    var finalRate := TasaFinal(oferta, euribor, conBonificaciones, mesActual);
    InteresMensual(Max0(finalRate) / 100.0 / 12.0, BaseAnual(oferta, euribor, mesActual).isAssumedBase)
  }

  /** The month-by-month monthly rate of an offer, as the payment schedule consumes it. */
  function Tasa(oferta: OfertaHipoteca, euribor: real, conBonificaciones: bool): int -> real {
    mes => ObtenerInteresMensual(oferta, euribor, conBonificaciones, mes).rate
  }

  /** The resolved rate is `max(0, final) / 1200`. */
  lemma RateIsClampedFinal(oferta: OfertaHipoteca, euribor: real, con: bool, mes: int)
    ensures ObtenerInteresMensual(oferta, euribor, con, mes).rate * 1200.0
         == Max0(TasaFinal(oferta, euribor, con, mes))
  {
  }

  /**
   * Baseline precedence, per offer type: the explicit unreduced value wins and
   * is not flagged; else the reduced value plus the category's total reduction,
   * flagged; else 0 (or the euribor alone for a spread), flagged. Spreads sit on
   * top of the euribor; a `mixta` offer uses its fixed pair up to month
   * `plazoFijoAnios * 12` and its spread pair after.
   */
  lemma BaselinePrecedence(oferta: OfertaHipoteca, euribor: real, mes: int)
    ensures var b := BaseAnual(oferta, euribor, mes);
            var total := SumReductions(oferta.bonificaciones, TipoVigente(oferta, mes));
            && (oferta.OfertaFija? ==>
                  && TipoVigente(oferta, mes) == Tin
                  && (oferta.tin.Some? ==> b == TasaBase(oferta.tin.value, false))
                  && (oferta.tin.None? && oferta.tinBonificado.Some? ==>
                        b == TasaBase(oferta.tinBonificado.value + total, true))
                  && (oferta.tin.None? && oferta.tinBonificado.None? ==> b == TasaBase(0.0, true)))
            && (oferta.OfertaVariable? ==>
                  && TipoVigente(oferta, mes) == Diferencial
                  && (oferta.diferencial.Some? ==> b == TasaBase(euribor + oferta.diferencial.value, false))
                  && (oferta.diferencial.None? && oferta.diferencialBonificado.Some? ==>
                        b == TasaBase(euribor + oferta.diferencialBonificado.value + total, true))
                  && (oferta.diferencial.None? && oferta.diferencialBonificado.None? ==>
                        b == TasaBase(euribor, true)))
            && (oferta.OfertaMixta? && mes <= oferta.plazoFijoAnios * 12 ==>
                  && TipoVigente(oferta, mes) == TinFijo
                  && (oferta.tinFijo.Some? ==> b == TasaBase(oferta.tinFijo.value, false))
                  && (oferta.tinFijo.None? && oferta.tinFijoBonificado.Some? ==>
                        b == TasaBase(oferta.tinFijoBonificado.value + total, true))
                  && (oferta.tinFijo.None? && oferta.tinFijoBonificado.None? ==> b == TasaBase(0.0, true)))
            && (oferta.OfertaMixta? && mes > oferta.plazoFijoAnios * 12 ==>
                  && TipoVigente(oferta, mes) == Diferencial
                  && (oferta.diferencial.Some? ==> b == TasaBase(euribor + oferta.diferencial.value, false))
                  && (oferta.diferencial.None? && oferta.diferencialBonificado.Some? ==>
                        b == TasaBase(euribor + oferta.diferencialBonificado.value + total, true))
                  && (oferta.diferencial.None? && oferta.diferencialBonificado.None? ==>
                        b == TasaBase(euribor, true)))
  {
  }

  /** The unreduced and reduced values of the tranche in force in month `mes`. */
  function ParVigente(oferta: OfertaHipoteca, mes: int): (Option<real>, Option<real>) {
    match oferta
    case OfertaFija(_, _, _, _, _, _, tin, tinBonificado) => (tin, tinBonificado)
    case OfertaVariable(_, _, _, _, _, _, diferencial, diferencialBonificado) => (diferencial, diferencialBonificado)
    case OfertaMixta(_, _, _, _, _, _, _, tinFijo, tinFijoBonificado, diferencial, diferencialBonificado) =>
      if mes <= PlazoFijoMeses(oferta) then (tinFijo, tinFijoBonificado) else (diferencial, diferencialBonificado)
  }

  /**
   * Inference round trip: when only the reduced value `d` of the tranche is
   * known, applying the discounts gives back exactly `max(0, d)` (over the
   * euribor for a spread), because the inferred base adds the same total the
   * discounts then subtract; without discounts the inferred base is returned
   * unreduced, `d` plus the total reduction.
   */
  lemma InferenceRoundTrip(oferta: OfertaHipoteca, euribor: real, mes: int)
    requires ParVigente(oferta, mes).0.None? && ParVigente(oferta, mes).1.Some?
    ensures var d := ParVigente(oferta, mes).1.value;
            var ref := Referencia(TipoVigente(oferta, mes), euribor);
            var total := SumReductions(oferta.bonificaciones, TipoVigente(oferta, mes));
            && ObtenerInteresMensual(oferta, euribor, true, mes).rate * 1200.0 == Max0(ref + d)
            && ObtenerInteresMensual(oferta, euribor, false, mes).rate * 1200.0 == Max0(ref + d + total)
            && ObtenerInteresMensual(oferta, euribor, true, mes).isAssumedBase
  {
    RateIsClampedFinal(oferta, euribor, true, mes);
    RateIsClampedFinal(oferta, euribor, false, mes);
  }

  /** Without discounts the base rate, floored at zero, is what is charged. */
  lemma NoDiscountsChargesBase(oferta: OfertaHipoteca, euribor: real, mes: int)
    ensures ObtenerInteresMensual(oferta, euribor, false, mes).rate * 1200.0
         == Max0(BaseAnual(oferta, euribor, mes).baseRate)
  {
    RateIsClampedFinal(oferta, euribor, false, mes);
  }

  /** A `mixta` offer is in its fixed tranche exactly in months up to `plazoFijoAnios * 12`. */
  lemma MixtaTranche(oferta: OfertaHipoteca, mes: int)
    requires oferta.OfertaMixta?
    ensures TipoVigente(oferta, mes) == TinFijo <==> mes <= oferta.plazoFijoAnios * 12
    ensures TipoVigente(oferta, mes) != Tin
  {
  }

  /**
   * Since the euribor is one number for the whole term, a `fija` or
   * `variable` offer is charged the same rate every month, and so is a `mixta`
   * offer within each tranche.
   */
  lemma RateConstantWithinTranche(oferta: OfertaHipoteca, euribor: real, con: bool, m1: int, m2: int)
    requires TipoVigente(oferta, m1) == TipoVigente(oferta, m2)
    ensures ObtenerInteresMensual(oferta, euribor, con, m1) == ObtenerInteresMensual(oferta, euribor, con, m2)
  {
  }

  // ---------------------------------------------------------------------------
  // Payment stream
  // ---------------------------------------------------------------------------

  /** The loop shape `calcularFlujoDeCuotas` uses for an offer. */
  function PlanDe(oferta: OfertaHipoteca): Plan {
    match oferta
    case OfertaFija(_, _, _, _, _, _, _, _) => FixedPlan
    case OfertaVariable(_, _, _, _, _, _, _, _) => VariablePlan
    case OfertaMixta(_, _, _, _, _, _, _, _, _, _, _) => MixedPlan(PlazoFijoMeses(oferta))
  }

  /**
   * `calcularFlujoDeCuotas`: the monthly payments of the offer, built with a
   * running outstanding balance.
   */
  method CalcularFlujoDeCuotas(oferta: OfertaHipoteca, importe: real, plazoMeses: nat, euribor: real,
                               conBonificaciones: bool) returns (cuotas: seq<real>)
    requires plazoMeses > 0
    ensures cuotas == Schedule(PlanDe(oferta), Tasa(oferta, euribor, conBonificaciones), importe, plazoMeses)
  {
    var capitalPendiente := importe;
    cuotas := [];

    if oferta.OfertaFija? {
      var interesMensual := ObtenerInteresMensual(oferta, euribor, conBonificaciones, 1);
      var cuotaConstante := CuotaFrances(importe, interesMensual.rate, plazoMeses);
      return seq(plazoMeses, _ => cuotaConstante);
    }

    if oferta.OfertaVariable? {
      cuotas := CuotasReamortizadas(Tasa(oferta, euribor, conBonificaciones), capitalPendiente, 1, plazoMeses);
      return;
    }

    // mixta: the full-term instalment at the fixed rate for the fixed months, then re-amortised.
    var plazoFijoMeses := oferta.plazoFijoAnios * 12;
    var interesFijoMensual := ObtenerInteresMensual(oferta, euribor, conBonificaciones, 1);
    var cuotaFija := CuotaFrances(importe, interesFijoMensual.rate, plazoMeses);
    cuotas, capitalPendiente := CuotasTramoFijo(importe, interesFijoMensual.rate, cuotaFija, plazoFijoMeses);
    var tramoVariable := CuotasReamortizadas(Tasa(oferta, euribor, conBonificaciones), capitalPendiente,
                                             plazoFijoMeses + 1, plazoMeses);
    cuotas := cuotas + tramoVariable;
  }

  /**
   * Since resolved rates are never negative, the running balance of every
   * stream ends at exactly zero (for `mixta`, when the fixed tranche fits in
   * the term).
   */
  lemma PrestamoAmortizado(oferta: OfertaHipoteca, importe: real, plazoMeses: nat, euribor: real, con: bool)
    requires plazoMeses > 0
    requires oferta.OfertaMixta? ==> PlazoFijoMeses(oferta) <= plazoMeses
    ensures ScheduleFinalBalance(PlanDe(oferta), Tasa(oferta, euribor, con), importe, plazoMeses) == 0.0
  {
    var rate := Tasa(oferta, euribor, con);
    forall m ensures rate(m) >= 0.0 {
      assert rate(m) == ObtenerInteresMensual(oferta, euribor, con, m).rate;
    }
    ScheduleRepaysLoan(PlanDe(oferta), rate, importe, plazoMeses);
  }

  // ---------------------------------------------------------------------------
  // Annual percentage rate
  // ---------------------------------------------------------------------------

  /**
   * The `van` closure of `calcularTAE` at the annual rate `tae`: the running
   * `suma` of the payments, each plus the monthly product cost, discounted by
   * `descuento(tae)^(i + 1)`, less the net amount received.
   */
  method ValorActualNeto(cf: Cashflows, tae: real) returns (v: real)
    requires cf.numCuotas <= |cf.flujoCuotas|
    ensures v == Van(cf, tae)
  {
    var importeNetoRecibido := cf.prestamo - cf.gastosIniciales;
    var factor := cf.descuento(tae);
    var suma := 0.0;
    for i := 0 to cf.numCuotas
      invariant suma == ValorDescontado(cf.flujoCuotas, i, cf.costeMensualProductos, factor)
    {
      suma := suma + (cf.flujoCuotas[i] + cf.costeMensualProductos) * Pow(factor, i + 1);
    }
    v := suma - importeNetoRecibido;
  }

  /**
   * `calcularTAE(prestamo, numCuotas, gastosIniciales, flujoCuotas,
   * costeMensualProductos)`: the bracket search and bisection on `van`,
   * returning the annual percentage, or None where the source returns NaN.
   * Every payment index read must exist in the stream.
   */
  method CalcularTAE(cf: Cashflows) returns (tae: Option<real>)
    requires cf.numCuotas <= |cf.flujoCuotas|
    ensures tae == Tae(VanDe(cf))
  {
    tae := BuscarTae(VanDe(cf));
  }

  // ---------------------------------------------------------------------------
  // Costs
  // ---------------------------------------------------------------------------

  /** `bonificaciones.reduce((acc, b) => acc + b.costeAnual, 0)`: the yearly cost of all discounts. */
  function CosteAnualBonificaciones(bs: seq<Bonificacion>): real {
    if bs == [] then 0.0 else CosteAnualBonificaciones(bs[..|bs| - 1]) + bs[|bs| - 1].costeAnual
  }

  /** The discounts' yearly cost over a term of `plazoMeses` months, counted in years as `plazoMeses / 12`. */
  function CosteBonificaciones(bs: seq<Bonificacion>, plazoMeses: nat): real {
    CosteAnualBonificaciones(bs) * (plazoMeses as real / 12.0)
  }

  /** Over a whole number of years, the prorated cost is the yearly cost times the years. */
  lemma CosteBonificacionesEnAnios(bs: seq<Bonificacion>, plazoAnios: nat)
    ensures CosteBonificaciones(bs, plazoAnios * 12) == CosteAnualBonificaciones(bs) * plazoAnios as real
  {
    assert (plazoAnios * 12) as real / 12.0 == plazoAnios as real;
  }

  /** The up-front expenses `calcularCostes` adds: valuation, broker and other expenses. */
  function GastosIniciales(oferta: OfertaHipoteca): real {
    oferta.gastosTasacion + oferta.comisionBroker + oferta.otrosGastos
  }

  /** What `calcularCostes` returns; the scenario it was not asked for is left empty or 0. */
  datatype Costes = Costes(cuotasConBonificar: seq<real>, cuotasSinBonificar: seq<real>,
                           costeTotalConBonificar: real, costeTotalSinBonificar: real,
                           costeTotalBonificaciones: real)

  /**
   * `calcularCostes`: the payment stream of one scenario, its total, the
   * up-front expenses and, with discounts, their yearly cost over the term.
   */
  method CalcularCostes(oferta: OfertaHipoteca, importe: real, plazoMeses: nat, euribor: real,
                        conBonificaciones: bool) returns (c: Costes)
    requires plazoMeses > 0
    ensures c.costeTotalBonificaciones
            == if conBonificaciones
               then CosteBonificaciones(oferta.bonificaciones, plazoMeses)
               else 0.0
    ensures conBonificaciones ==>
              var cuotas := Cuotas(oferta, importe, plazoMeses, euribor, true);
              && c.cuotasConBonificar == cuotas && c.cuotasSinBonificar == []
              && c.costeTotalConBonificar == Sum(cuotas) + GastosIniciales(oferta) + c.costeTotalBonificaciones
              && c.costeTotalSinBonificar == 0.0
    ensures !conBonificaciones ==>
              var cuotas := Cuotas(oferta, importe, plazoMeses, euribor, false);
              && c.cuotasConBonificar == [] && c.cuotasSinBonificar == cuotas
              && c.costeTotalConBonificar == 0.0
              && c.costeTotalSinBonificar == Sum(cuotas) + GastosIniciales(oferta)
  {
    var costeTotalBonificaciones := 0.0;
    if conBonificaciones {
      costeTotalBonificaciones := CosteBonificaciones(oferta.bonificaciones, plazoMeses);
    }
    var cuotas := CalcularFlujoDeCuotas(oferta, importe, plazoMeses, euribor, conBonificaciones);
    var costeTotalPagado := Sum(cuotas);
    var totalGastosIniciales := oferta.gastosTasacion + oferta.comisionBroker + oferta.otrosGastos;
    c := Costes(
      if conBonificaciones then cuotas else [],
      if !conBonificaciones then cuotas else [],
      if conBonificaciones then costeTotalPagado + totalGastosIniciales + costeTotalBonificaciones else 0.0,
      if !conBonificaciones then costeTotalPagado + totalGastosIniciales else 0.0,
      costeTotalBonificaciones);
  }

  /**
   * For a `fija` offer the total paid is the term times the one instalment,
   * and with a rate of zero (or a negative one) that is exactly the loan.
   */
  lemma TotalPagadoFija(oferta: OfertaHipoteca, importe: real, plazoMeses: nat, euribor: real, con: bool)
    requires oferta.OfertaFija? && plazoMeses > 0
    ensures var rate := Tasa(oferta, euribor, con);
            var cuotas := Schedule(PlanDe(oferta), rate, importe, plazoMeses);
            && Sum(cuotas) == plazoMeses as real * CuotaFrances(importe, rate(1), plazoMeses)
            && (rate(1) == 0.0 ==> Sum(cuotas) == importe)
  {
    var rate := Tasa(oferta, euribor, con);
    SumConstant(CuotaFrances(importe, rate(1), plazoMeses), plazoMeses);
  }

  /** The cost of the discounts over the term cannot be negative when no discount has a negative yearly cost. */
  lemma {:induction false} CosteAnualBonificacionesNonNegative(bs: seq<Bonificacion>)
    requires forall k :: 0 <= k < |bs| ==> bs[k].costeAnual >= 0.0
    ensures CosteAnualBonificaciones(bs) >= 0.0
  {
    if bs != [] {
      CosteAnualBonificacionesNonNegative(bs[..|bs| - 1]);
    }
  }

  // ---------------------------------------------------------------------------
  // Per-offer result
  // ---------------------------------------------------------------------------

  /** The expense breakdown of a result. */
  datatype DesgloseGastos = DesgloseGastos(tasacion: real, broker: real, otros: real,
                                           cancelacionAnterior: real, total: real)

  /**
   * `ResultadoCalculo`: the figures of one offer. The APRs are None where the
   * source has NaN; the optional display rates and mixta figures are None
   * where the source leaves them `undefined`.
   */
  datatype ResultadoCalculo = ResultadoCalculo(
    banco: string,
    tipo: string,
    taeSinBonificar: Option<real>,
    taeConBonificar: Option<real>,
    cuotaMensualSinBonificar: real,
    cuotaMensualConBonificar: real,
    costeTotalSinBonificar: real,
    costeTotalConBonificar: real,
    costeTotalBonificaciones: real,
    bonificaciones: seq<Bonificacion>,
    desgloseGastos: DesgloseGastos,
    oferta: OfertaHipoteca,
    tinInicial: Option<real>,
    tinBonificado: Option<real>,
    diferencialInicial: Option<real>,
    diferencialBonificado: Option<real>,
    isAssumedBaseRate: bool,
    costeTotalConExtras: real,
    productosPersonalesIncluidos: seq<string>,
    cuotaMensualVariableSinBonificar: Option<real>,
    cuotaMensualVariableConBonificar: Option<real>,
    diferencialInicialVariable: Option<real>,
    diferencialBonificadoVariable: Option<real>)

  /** The offer type with a capital initial, as shown: `Fija`, `Variable` or `Mixta`. */
  function Etiqueta(oferta: OfertaHipoteca): string {
    match oferta
    case OfertaFija(_, _, _, _, _, _, _, _) => "Fija"
    case OfertaVariable(_, _, _, _, _, _, _, _) => "Variable"
    case OfertaMixta(_, _, _, _, _, _, _, _, _, _, _) => "Mixta"
  }

  /** The discount names the personal products are compared with. */
  function NombresBonificaciones(bs: seq<Bonificacion>): (r: seq<string>)
    ensures |r| == |bs| && forall k :: 0 <= k < |bs| ==> r[k] == bs[k].nombre
  {
    seq(|bs|, k requires 0 <= k < |bs| => bs[k].nombre)
  }

  /** The payment stream of one scenario. */
  function Cuotas(oferta: OfertaHipoteca, importe: real, plazoMeses: nat, euribor: real, con: bool): seq<real>
    requires plazoMeses > 0
  {
    Schedule(PlanDe(oferta), Tasa(oferta, euribor, con), importe, plazoMeses)
  }

  /** A stream has at least one entry per month of the term, so every index below the term can be read. */
  lemma CuotasCoverTerm(oferta: OfertaHipoteca, importe: real, plazoMeses: nat, euribor: real, con: bool)
    requires plazoMeses > 0
    ensures |Cuotas(oferta, importe, plazoMeses, euribor, con)| >= plazoMeses
    ensures oferta.OfertaMixta? ==> |Cuotas(oferta, importe, plazoMeses, euribor, con)| >= PlazoFijoMeses(oferta)
  {
    ScheduleShape(PlanDe(oferta), Tasa(oferta, euribor, con), importe, plazoMeses);
  }

  /** The inputs `calcularResultadoParaOferta` passes to `calcularTAE` for one scenario. */
  function FlujosTae(oferta: OfertaHipoteca, importe: real, plazoMeses: nat, euribor: real, con: bool,
                     costeMensualProductos: real, descuento: real -> real): Cashflows
    requires plazoMeses > 0
  {
    Cashflows(importe, plazoMeses, oferta.gastosTasacion + oferta.otrosGastos,
              Cuotas(oferta, importe, plazoMeses, euribor, con), costeMensualProductos, descuento)
  }

  /**
   * The display values of `calcularResultadoParaOferta`, from the rates of
   * month 1 (and, for a mixta offer, of the first floating month): the rates
   * of a fixed tranche, and the spreads of a floating one net of euribor.
   */
  method ValoresTabla(oferta: OfertaHipoteca, euribor: real)
    returns (tinInicial: Option<real>, tinBonificado: Option<real>,
             diferencialInicial: Option<real>, diferencialBonificado: Option<real>,
             diferencialInicialVariable: Option<real>, diferencialBonificadoVariable: Option<real>,
             isAssumedBaseRate: bool)
    // The displayed rates are the clamped annual percentages of month 1; spreads are shown net of euribor.
    ensures tinInicial == (if oferta.OfertaVariable? then None else Some(Max0(TasaFinal(oferta, euribor, false, 1))))
    ensures tinBonificado == (if oferta.OfertaVariable? then None else Some(Max0(TasaFinal(oferta, euribor, true, 1))))
    ensures diferencialInicial
            == (if oferta.OfertaVariable? then Some(Max0(TasaFinal(oferta, euribor, false, 1)) - euribor) else None)
    ensures diferencialBonificado
            == (if oferta.OfertaVariable? then Some(Max0(Max0(TasaFinal(oferta, euribor, true, 1)) - euribor)) else None)
    // For a mixta offer, the floating tranche's figures are those of the first floating month.
    ensures diferencialInicialVariable
            == (if oferta.OfertaMixta?
                then Some(Max0(TasaFinal(oferta, euribor, false, PlazoFijoMeses(oferta) + 1)) - euribor) else None)
    ensures diferencialBonificadoVariable
            == (if oferta.OfertaMixta?
                then Some(Max0(Max0(TasaFinal(oferta, euribor, true, PlazoFijoMeses(oferta) + 1)) - euribor))
                else None)
    ensures isAssumedBaseRate
            <==> BaseAnual(oferta, euribor, 1).isAssumedBase
                 || (oferta.OfertaMixta? && BaseAnual(oferta, euribor, PlazoFijoMeses(oferta) + 1).isAssumedBase)
  {
    var baseRateInfoSinBonif := ObtenerInteresMensual(oferta, euribor, false, 1);
    var baseRateInfoConBonif := ObtenerInteresMensual(oferta, euribor, true, 1);
    RateIsClampedFinal(oferta, euribor, false, 1);
    RateIsClampedFinal(oferta, euribor, true, 1);
    tinInicial, tinBonificado, diferencialInicial, diferencialBonificado := None, None, None, None;
    diferencialInicialVariable, diferencialBonificadoVariable := None, None;
    isAssumedBaseRate := baseRateInfoSinBonif.isAssumedBase;

    if oferta.OfertaFija? {
      tinInicial := Some(baseRateInfoSinBonif.rate * 1200.0);
      tinBonificado := Some(baseRateInfoConBonif.rate * 1200.0);
    } else if oferta.OfertaVariable? {
      diferencialInicial := Some(baseRateInfoSinBonif.rate * 1200.0 - euribor);
      diferencialBonificado := Some(Max0(baseRateInfoConBonif.rate * 1200.0 - euribor));
    } else {
      tinInicial := Some(baseRateInfoSinBonif.rate * 1200.0);
      tinBonificado := Some(baseRateInfoConBonif.rate * 1200.0);
      var plazoFijoMeses := oferta.plazoFijoAnios * 12;
      var baseRateInfoVariableSinBonif := ObtenerInteresMensual(oferta, euribor, false, plazoFijoMeses + 1);
      var baseRateInfoVariableConBonif := ObtenerInteresMensual(oferta, euribor, true, plazoFijoMeses + 1);
      RateIsClampedFinal(oferta, euribor, false, plazoFijoMeses + 1);
      RateIsClampedFinal(oferta, euribor, true, plazoFijoMeses + 1);
      diferencialInicialVariable := Some(baseRateInfoVariableSinBonif.rate * 1200.0 - euribor);
      diferencialBonificadoVariable := Some(Max0(baseRateInfoVariableConBonif.rate * 1200.0 - euribor));
      if baseRateInfoVariableSinBonif.isAssumedBase {
        isAssumedBaseRate := true;
      }
    }
  }

  /**
   * One scenario of `calcularResultadoParaOferta`: `calcularCostes`, then
   * `calcularTAE` on the valuation and other expenses, with the discounts'
   * cost spread over the months when discounts apply.
   */
  method CalcularEscenario(oferta: OfertaHipoteca, importe: real, plazoMeses: nat, euribor: real, con: bool,
                           descuento: real -> real) returns (costes: Costes, tae: Option<real>)
    requires plazoMeses > 0
    ensures var cuotas := Cuotas(oferta, importe, plazoMeses, euribor, con);
            var costeBonificaciones := if con then CosteBonificaciones(oferta.bonificaciones, plazoMeses) else 0.0;
            && |cuotas| >= plazoMeses
            && (oferta.OfertaMixta? ==> |cuotas| >= PlazoFijoMeses(oferta))
            && costes.costeTotalBonificaciones == costeBonificaciones
            && (if con then costes.cuotasConBonificar else costes.cuotasSinBonificar) == cuotas
            && (if con then costes.costeTotalConBonificar else costes.costeTotalSinBonificar)
               == Sum(cuotas) + GastosIniciales(oferta) + costeBonificaciones
            && tae == Tae(VanDe(FlujosTae(oferta, importe, plazoMeses, euribor, con,
                                          if con then costeBonificaciones / plazoMeses as real else 0.0, descuento)))
  {
    CuotasCoverTerm(oferta, importe, plazoMeses, euribor, con);
    costes := CalcularCostes(oferta, importe, plazoMeses, euribor, con);
    var gastosParaTAE := oferta.gastosTasacion + oferta.otrosGastos;
    var cuotas := if con then costes.cuotasConBonificar else costes.cuotasSinBonificar;
    var costeMensualProductos := if con then costes.costeTotalBonificaciones / plazoMeses as real else 0.0;
    var flujos := Cashflows(importe, plazoMeses, gastosParaTAE, cuotas, costeMensualProductos, descuento);
    assert flujos == FlujosTae(oferta, importe, plazoMeses, euribor, con, costeMensualProductos, descuento);
    tae := CalcularTAE(flujos);
  }

  /**
   * `calcularResultadoParaOferta`: both scenarios' payment streams, totals and
   * APRs (expenses for the APR are valuation and other expenses; the
   * discounted scenario adds the discounts' cost spread over the months), the
   * total with the personal products no discount resembles, and the display
   * rates of the offer's type. `descuento` stands for `Math.pow(1 + tae, 1/12)`.
   */
  method CalcularResultadoParaOferta(oferta: OfertaHipoteca, importe: real, plazoAnios: nat, euribor: real,
                                     personalBonificaciones: seq<PersonalBonus>, descuento: real -> real)
    returns (r: ResultadoCalculo)
    requires plazoAnios > 0
    ensures var plazoMeses := plazoAnios * 12;
            var sin := Cuotas(oferta, importe, plazoMeses, euribor, false);
            var con := Cuotas(oferta, importe, plazoMeses, euribor, true);
            var costeBonificaciones := CosteBonificaciones(oferta.bonificaciones, plazoMeses);
            && r.banco == oferta.banco && r.tipo == Etiqueta(oferta)
            && r.bonificaciones == oferta.bonificaciones && r.oferta == oferta
            && r.costeTotalBonificaciones == costeBonificaciones
            && r.cuotaMensualSinBonificar == sin[0] && r.cuotaMensualConBonificar == con[0]
            && r.costeTotalSinBonificar == Sum(sin) + GastosIniciales(oferta)
            && r.costeTotalConBonificar == Sum(con) + GastosIniciales(oferta) + costeBonificaciones
            && r.taeSinBonificar
               == Tae(VanDe(FlujosTae(oferta, importe, plazoMeses, euribor, false, 0.0, descuento)))
            && r.taeConBonificar
               == Tae(VanDe(FlujosTae(oferta, importe, plazoMeses, euribor, true,
                                      costeBonificaciones / plazoMeses as real, descuento)))
            && r.costeTotalConExtras
               == r.costeTotalConBonificar
                  + ExtrasCost(Included(NombresBonificaciones(oferta.bonificaciones), personalBonificaciones),
                               plazoAnios as real)
            && r.productosPersonalesIncluidos
               == Names(Included(NombresBonificaciones(oferta.bonificaciones), personalBonificaciones))
    ensures r.desgloseGastos.tasacion == oferta.gastosTasacion && r.desgloseGastos.broker == oferta.comisionBroker
            && r.desgloseGastos.otros == oferta.otrosGastos
            && r.desgloseGastos.cancelacionAnterior == oferta.gastosCancelacionAnterior.GetOr(0.0)
            && r.desgloseGastos.total == r.desgloseGastos.tasacion + r.desgloseGastos.otros
                                         + r.desgloseGastos.broker + r.desgloseGastos.cancelacionAnterior
    ensures r.tinInicial == (if oferta.OfertaVariable? then None else Some(Max0(TasaFinal(oferta, euribor, false, 1))))
    ensures r.tinBonificado == (if oferta.OfertaVariable? then None else Some(Max0(TasaFinal(oferta, euribor, true, 1))))
    ensures r.diferencialInicial
            == (if oferta.OfertaVariable? then Some(Max0(TasaFinal(oferta, euribor, false, 1)) - euribor) else None)
    ensures r.diferencialBonificado
            == (if oferta.OfertaVariable? then Some(Max0(Max0(TasaFinal(oferta, euribor, true, 1)) - euribor)) else None)
    ensures r.diferencialInicialVariable
            == (if oferta.OfertaMixta?
                then Some(Max0(TasaFinal(oferta, euribor, false, PlazoFijoMeses(oferta) + 1)) - euribor) else None)
    ensures r.diferencialBonificadoVariable
            == (if oferta.OfertaMixta?
                then Some(Max0(Max0(TasaFinal(oferta, euribor, true, PlazoFijoMeses(oferta) + 1)) - euribor))
                else None)
    ensures r.isAssumedBaseRate
            <==> BaseAnual(oferta, euribor, 1).isAssumedBase
                 || (oferta.OfertaMixta? && BaseAnual(oferta, euribor, PlazoFijoMeses(oferta) + 1).isAssumedBase)
    ensures r.cuotaMensualVariableSinBonificar.Some? <==> oferta.OfertaMixta? && plazoAnios * 12 > PlazoFijoMeses(oferta)
    ensures r.cuotaMensualVariableConBonificar.Some? <==> oferta.OfertaMixta? && plazoAnios * 12 > PlazoFijoMeses(oferta)
    ensures r.cuotaMensualVariableSinBonificar.Some?
            ==> r.cuotaMensualVariableSinBonificar.value
                == Cuotas(oferta, importe, plazoAnios * 12, euribor, false)[PlazoFijoMeses(oferta)]
    ensures r.cuotaMensualVariableConBonificar.Some?
            ==> r.cuotaMensualVariableConBonificar.value
                == Cuotas(oferta, importe, plazoAnios * 12, euribor, true)[PlazoFijoMeses(oferta)]
  {
    var gastosParaTAE := oferta.gastosTasacion + oferta.otrosGastos;
    var gastosTotalesReales := gastosParaTAE + oferta.comisionBroker + oferta.gastosCancelacionAnterior.GetOr(0.0);
    var plazoMeses := plazoAnios * 12;

    var costesSin, taeSinBonificar := CalcularEscenario(oferta, importe, plazoMeses, euribor, false, descuento);
    var cuotasSinBonificar := costesSin.cuotasSinBonificar;
    var costesCon, taeConBonificar := CalcularEscenario(oferta, importe, plazoMeses, euribor, true, descuento);
    var cuotasConBonificar := costesCon.cuotasConBonificar;
    var costeTotalBonificaciones := costesCon.costeTotalBonificaciones;

    var costeTotalConExtras, productosPersonalesIncluidos :=
      SumarExtras(NombresBonificaciones(oferta.bonificaciones), personalBonificaciones, plazoAnios as real,
                  costesCon.costeTotalConBonificar);

    var tinInicial, tinBonificado, diferencialInicial, diferencialBonificado,
        diferencialInicialVariable, diferencialBonificadoVariable, isAssumedBaseRate :=
      ValoresTabla(oferta, euribor);

    var cuotaMensualVariableSinBonificar: Option<real> := None;
    var cuotaMensualVariableConBonificar: Option<real> := None;
    if oferta.OfertaMixta? {
      var primerMesVariableIndex := oferta.plazoFijoAnios * 12;
      if plazoMeses > primerMesVariableIndex {
        cuotaMensualVariableSinBonificar := Some(cuotasSinBonificar[primerMesVariableIndex]);
        cuotaMensualVariableConBonificar := Some(cuotasConBonificar[primerMesVariableIndex]);
      }
    }

    r := ResultadoCalculo(
      oferta.banco, Etiqueta(oferta), taeSinBonificar, taeConBonificar,
      cuotasSinBonificar[0], cuotasConBonificar[0],
      costesSin.costeTotalSinBonificar, costesCon.costeTotalConBonificar, costeTotalBonificaciones,
      oferta.bonificaciones,
      DesgloseGastos(oferta.gastosTasacion, oferta.comisionBroker, oferta.otrosGastos,
                     oferta.gastosCancelacionAnterior.GetOr(0.0), gastosTotalesReales),
      oferta, tinInicial, tinBonificado, diferencialInicial, diferencialBonificado, isAssumedBaseRate,
      costeTotalConExtras, productosPersonalesIncluidos,
      cuotaMensualVariableSinBonificar, cuotaMensualVariableConBonificar,
      diferencialInicialVariable, diferencialBonificadoVariable);
  }

  // ---------------------------------------------------------------------------
  // Amortisation chart data
  // ---------------------------------------------------------------------------

  /**
   * `generarDatosAmortizacion`: month by month, the instalment re-amortised
   * over the remaining months at that month's rate; the series records the
   * month, the balance left (never below zero), and the interest and capital
   * paid so far. Month labels `Mes k` are kept as the month number `k`.
   */
  method GenerarDatosAmortizacion(oferta: OfertaHipoteca, importe: real, plazoAnios: nat, euribor: real,
                                  conBonificaciones: bool) returns (datos: Series)
    ensures datos == SeriesFrom(Tasa(oferta, euribor, conBonificaciones), importe, 0.0, 0.0, 1, plazoAnios * 12)
  {
    datos := SerieAmortizacion(Tasa(oferta, euribor, conBonificaciones), importe, plazoAnios * 12);
  }

  /** The loop of `generarDatosAmortizacion` for the monthly rate `tasa` that `obtenerInteresMensual` resolves. */
  method SerieAmortizacion(tasa: int -> real, importe: real, plazoMeses: nat) returns (datos: Series)
    ensures datos == SeriesFrom(tasa, importe, 0.0, 0.0, 1, plazoMeses)
  {
    var capitalPendiente := importe;
    var meses: seq<int> := [];
    var capitalRestante: seq<real> := [];
    var interesesPagados: seq<real> := [];
    var capitalAmortizadoAcumulado: seq<real> := [];
    var acumuladoIntereses := 0.0;
    var acumuladoCapital := 0.0;
    ghost var total := SeriesFrom(tasa, importe, 0.0, 0.0, 1, plazoMeses);
    ConcatEmptyLeft(total);

    var mes := 1;
    while mes <= plazoMeses
      invariant 1 <= mes <= plazoMeses + 1
      invariant Concat(Series(meses, capitalRestante, interesesPagados, capitalAmortizadoAcumulado),
                       SeriesFrom(tasa, capitalPendiente, acumuladoIntereses, acumuladoCapital, mes, plazoMeses))
             == total
    {
      var interesMensual := tasa(mes);
      var cuota := CuotaFrances(capitalPendiente, interesMensual, plazoMeses - mes + 1);
      var interesPagadoMes := capitalPendiente * interesMensual;
      var capitalAmortizadoMes := cuota - interesPagadoMes;
      SeriesPrefixStep(tasa, Series(meses, capitalRestante, interesesPagados, capitalAmortizadoAcumulado),
                       capitalPendiente, acumuladoIntereses, acumuladoCapital, mes, plazoMeses, total,
                       interesPagadoMes, capitalAmortizadoMes);

      capitalPendiente := capitalPendiente - capitalAmortizadoMes;
      acumuladoIntereses := acumuladoIntereses + interesPagadoMes;
      acumuladoCapital := acumuladoCapital + capitalAmortizadoMes;

      meses := meses + [mes];
      capitalRestante := capitalRestante + [Max0(capitalPendiente)];
      interesesPagados := interesesPagados + [acumuladoIntereses];
      capitalAmortizadoAcumulado := capitalAmortizadoAcumulado + [acumuladoCapital];
      mes := mes + 1;
    }
    datos := Series(meses, capitalRestante, interesesPagados, capitalAmortizadoAcumulado);
    ConcatEmpty(datos);
  }

  /**
   * The chart series of an offer: one entry per month of the term; the
   * balance shown is the loan less the capital repaid so far, floored at zero;
   * and after the last month the whole loan has been repaid, since resolved
   * rates are never negative.
   */
  lemma AmortizacionCompleta(oferta: OfertaHipoteca, importe: real, plazoAnios: nat, euribor: real, con: bool)
    ensures var s := SeriesFrom(Tasa(oferta, euribor, con), importe, 0.0, 0.0, 1, plazoAnios * 12);
            var n := plazoAnios * 12;
            && |s.meses| == n && |s.capitalRestante| == n
            && |s.interesesPagados| == n && |s.capitalAmortizadoAcumulado| == n
            && (forall k :: 0 <= k < n ==> s.meses[k] == k + 1)
            && (forall k :: 0 <= k < n ==> s.capitalRestante[k] == Max0(importe - s.capitalAmortizadoAcumulado[k]))
            && (n > 0 ==> s.capitalAmortizadoAcumulado[n - 1] == importe)
  {
    var n := plazoAnios * 12;
    SeriesShape(Tasa(oferta, euribor, con), importe, 0.0, 0.0, 1, n, importe);
    assert Tasa(oferta, euribor, con)(n) >= 0.0;
  }
}
