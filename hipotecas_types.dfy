/**
 * The data of the newer engine (`shared/types/hipotecas.ts`), with the three
 * fields the engine reads although the declarations lack them: a discount's
 * generic `reduccion` and an offer's `topeBonificacion`, both optional, and
 * a discount's `enabled` flag as the engine tests it. Optional TypeScript
 * fields are `Option`s; record ids play no part in any figure and are left out.
 */
module HipotecasTypes {
  import opened Finance

  /**
   * A conditional discount. The per-category reductions are kept as data but
   * the newer engine reads only `reduccion`; `enabled` absent counts as on.
   */
  datatype Bonificacion = Bonificacion(
    nombre: string,
    reduccionTin: Option<real>,
    reduccionDiferencial: Option<real>,
    reduccionTinFijo: Option<real>,
    reduccion: Option<real>,
    costeAnual: real,
    isSupposed: Option<bool>,
    enabled: Option<bool>)

  /** A one-off expense; a missing cost counts as nothing. */
  datatype Gasto = Gasto(nombre: string, coste: Option<real>)

  /**
   * An offer: `fija`, `variable` or `mixta`, each with the bank, the expense
   * list (which the engine also accepts absent), the discounts, the optional
   * cap on the total reduction, and the unreduced and reduced values of its
   * rates, any of which may be absent.
   */
  datatype OfertaHipoteca =
    | OfertaFija(banco: string, gastosAdicionales: Option<seq<Gasto>>, bonificaciones: seq<Bonificacion>,
                 topeBonificacion: Option<real>, tin: Option<real>, tinBonificado: Option<real>)
    | OfertaVariable(banco: string, gastosAdicionales: Option<seq<Gasto>>, bonificaciones: seq<Bonificacion>,
                     topeBonificacion: Option<real>, diferencial: Option<real>, diferencialBonificado: Option<real>)
    | OfertaMixta(banco: string, gastosAdicionales: Option<seq<Gasto>>, bonificaciones: seq<Bonificacion>,
                  topeBonificacion: Option<real>, plazoFijoAnios: nat,
                  tinFijo: Option<real>, tinFijoBonificado: Option<real>,
                  diferencial: Option<real>, diferencialBonificado: Option<real>)

  /**
   * The warning that a quoted reduced rate is not reached by the active
   * discounts, carrying the quoted value its message shows: the fixed rate,
   * the spread, the fixed-tranche rate or the floating-tranche spread.
   */
  datatype AvisoTasa =
    | TinBonificadoNoAlcanzado(tinBonificado: real)
    | DiferencialBonificadoNoAlcanzado(diferencialBonificado: real)
    | TinFijoBonificadoNoAlcanzado(tinFijoBonificado: real)
    | DiferencialVariableNoAlcanzado(diferencialBonificado: real)

  /** The warning that the active discounts stay below the cap, with both figures. */
  datatype AvisoTope = AvisoTope(reduccionActiva: real, tope: real)

  /** The expense part of a result: the total and the list it came from. */
  datatype DesgloseGastos = DesgloseGastos(total: real, detalles: seq<Gasto>)

  /**
   * `IResultadoCalculo`: the figures of one offer. The APRs are None where the
   * engine has NaN; optional figures are None where it leaves them undefined.
   */
  datatype ResultadoCalculo = ResultadoCalculo(
    banco: string,
    tipo: string,
    taeSinBonificar: Option<real>,
    taeConBonificar: Option<real>,
    cuotaMensualSinBonificar: real,
    cuotaMensualConBonificar: real,
    costeTotalSinBonificar: real,
    costeTotalConBonificar: real,
    costeTotalBonificaciones: real,
    bonificaciones: seq<Bonificacion>,
    desgloseGastos: DesgloseGastos,
    oferta: OfertaHipoteca,
    tinInicial: Option<real>,
    tinBonificado: Option<real>,
    diferencialInicial: Option<real>,
    diferencialBonificado: Option<real>,
    isAssumedBaseRate: bool,
    costeTotalConExtras: real,
    productosPersonalesIncluidos: seq<string>,
    cuotaMensualVariableSinBonificar: Option<real>,
    cuotaMensualVariableConBonificar: Option<real>,
    diferencialInicialVariable: Option<real>,
    diferencialBonificadoVariable: Option<real>,
    rateMismatchWarning: Option<AvisoTasa>,
    bonusCapWarning: Option<AvisoTope>)
}
