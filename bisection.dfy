/**
 * The root search of `calcularTAE`, common to both versions: start from the
 * annual-rate bracket [0, 0.20], widen it once if its endpoint values of the
 * net present value `van` do not have strictly opposite signs, give up (NaN)
 * if the widened bracket still does not, and otherwise bisect at most 500
 * times or until the bracket is narrower than 1e-7. Stated for any monthly
 * discount factor standing in for the twelfth root.
 */
module Bisection {
  import opened Finance

  const Precision: real := 0.0000001
  const MaxIterations: nat := 500
  const InitialMin: real := 0.0
  const InitialMax: real := 0.2
  /** Upper bound tried when van(0) < 0: the rate is above 20%. */
  const WidenedMax: real := 0.5
  /** Lower bound tried otherwise: the rate is below 0%. */
  const WidenedMin: real := -0.05

  /**
   * The discounted payments inside `van`: for each month `i < numCuotas` that
   * has an entry in the stream, `(flujo[i] + coste) / (1 + tirMensual)^(i + 1)`,
   * written as a product with `d = 1 / (1 + tirMensual)`, summed left to right.
   */
  function ValorDescontado(flujo: seq<real>, numCuotas: nat, coste: real, d: real): real {
    if numCuotas == 0 then 0.0
    else
      ValorDescontado(flujo, numCuotas - 1, coste, d)
        + (if numCuotas - 1 < |flujo| then (flujo[numCuotas - 1] + coste) * Pow(d, numCuotas) else 0.0)
  }

  /**
   * The inputs of `calcularTAE`: the loan, the number of payments, the
   * up-front expenses, the payment stream and the monthly product cost, and
   * `descuento(tae)`, standing for `1 / Math.pow(1 + tae, 1/12)`, the monthly
   * discount factor, which has no exact counterpart over the reals and is
   * therefore given.
   */
  datatype Cashflows = Cashflows(prestamo: real, numCuotas: nat, gastosIniciales: real,
                                 flujoCuotas: seq<real>, costeMensualProductos: real,
                                 descuento: real -> real)

  /** The net present value `van(tae)`: the discounted payments less the net amount received. */
  function Van(cf: Cashflows, tae: real): real {
    ValorDescontado(cf.flujoCuotas, cf.numCuotas, cf.costeMensualProductos, cf.descuento(tae))
      - (cf.prestamo - cf.gastosIniciales)
  }

  /** `van` as the function of the annual rate that the search below works on. */
  function VanDe(cf: Cashflows): real -> real {
    tae => Van(cf, tae)
  }

  /**
   * With a positive discount factor, a higher monthly cost never lowers the
   * net present value: every discounted term grows with it.
   */
  lemma {:induction false} ValorDescontadoMonotoneInCost(flujo: seq<real>, n: nat, c1: real, c2: real, d: real)
    requires d > 0.0 && c1 <= c2
    ensures ValorDescontado(flujo, n, c1, d) <= ValorDescontado(flujo, n, c2, d)
  {
    if n > 0 {
      ValorDescontadoMonotoneInCost(flujo, n - 1, c1, c2, d);
      PowPositive(d, n);
      if n - 1 < |flujo| {
        assert (flujo[n - 1] + c1) * Pow(d, n) <= (flujo[n - 1] + c2) * Pow(d, n);
      }
    }
  }

  /**
   * The test `a * b < 0` the source applies to two values of `van`: both are
   * non-zero and their signs differ. Stated by signs so that no product of
   * unknowns reaches the solver; `SignoOpuestoIsProduct` is the link.
   */
  predicate SignoOpuesto(a: real, b: real) {
    (a < 0.0 && 0.0 < b) || (b < 0.0 && 0.0 < a)
  }

  lemma SignoOpuestoIsProduct(a: real, b: real)
    ensures SignoOpuesto(a, b) <==> a * b < 0.0
  {
    if a < 0.0 && 0.0 < b {
      assert a * b < 0.0 * b;
    } else if b < 0.0 && 0.0 < a {
      assert b * a < 0.0 * a;
    } else if a >= 0.0 && b >= 0.0 {
      assert a * b >= 0.0 * b;
    } else if a <= 0.0 && b <= 0.0 {
      assert (-a) * (-b) >= 0.0 * (-b);
    }
  }

  /** The state of the bisection loop: `taeMin`, `taeMax`, the last `taeMed`, and `iter`. */
  datatype Search = Search(taeMin: real, taeMax: real, taeMed: real, iter: nat)

  /** The outcome of the bracket search: no sign change found (NaN), or the bracket to bisect. */
  datatype Bracket = NoSignChange | Bracket(lo: real, hi: real)

  /** The bracket the bisection starts from, after the single widening. */
  function StartBracket(van: real -> real): Bracket {
    if !SignoOpuesto(van(InitialMin), van(InitialMax)) then
      var lo := if van(InitialMin) < 0.0 then InitialMin else WidenedMin;
      var hi := if van(InitialMin) < 0.0 then WidenedMax else InitialMax;
      if !SignoOpuesto(van(lo), van(hi)) then NoSignChange else Bracket(lo, hi)
    else
      Bracket(InitialMin, InitialMax)
  }

  /** When [0, 0.20] already brackets a sign change, the search starts from it. */
  lemma StartBracketInitial(van: real -> real, vMin: real, vMax: real)
    requires vMin == van(InitialMin) && vMax == van(InitialMax) && SignoOpuesto(vMin, vMax)
    ensures StartBracket(van) == Bracket(InitialMin, InitialMax)
  {
  }

  /** Otherwise it is widened once, on the side `van(0)` points to, and abandoned if that fails too. */
  lemma StartBracketWidened(van: real -> real, v0: real, v1: real, lo: real, hi: real, vLo: real, vHi: real)
    requires v0 == van(InitialMin) && v1 == van(InitialMax) && !SignoOpuesto(v0, v1)
    requires lo == (if v0 < 0.0 then InitialMin else WidenedMin)
    requires hi == (if v0 < 0.0 then WidenedMax else InitialMax)
    requires vLo == van(lo) && vHi == van(hi)
    ensures StartBracket(van) == if !SignoOpuesto(vLo, vHi) then NoSignChange else Bracket(lo, hi)
  {
  }

  /** The loop stops when the bracket is narrow enough or the iterations are spent. */
  lemma BisectStops(van: real -> real, s: Search)
    requires s.iter <= MaxIterations
    requires !(s.taeMax - s.taeMin >= Precision && s.iter < MaxIterations)
    ensures Bisect(van, s) == s
  {
  }

  /** One turn of the loop: stop on an exact zero at the midpoint, else keep the half with the sign change. */
  lemma BisectStep(van: real -> real, s: Search, vMed: real, vMin: real)
    requires s.iter < MaxIterations && s.taeMax - s.taeMin >= Precision
    requires vMed == van((s.taeMin + s.taeMax) / 2.0) && vMin == van(s.taeMin)
    ensures var med := (s.taeMin + s.taeMax) / 2.0;
            Bisect(van, s)
              == if vMed == 0.0 then Search(s.taeMin, s.taeMax, med, s.iter)
                 else if SignoOpuesto(vMed, vMin) then Bisect(van, Search(s.taeMin, med, med, s.iter + 1))
                 else Bisect(van, Search(med, s.taeMax, med, s.iter + 1))
  {
  }

  /** The bisection loop: halve the bracket, keeping the half whose endpoints differ in sign; stop on an exact zero. */
  function Bisect(van: real -> real, s: Search): Search
    requires s.iter <= MaxIterations
    decreases MaxIterations - s.iter
  {
    if s.taeMax - s.taeMin >= Precision && s.iter < MaxIterations then
      var med := (s.taeMin + s.taeMax) / 2.0;
      if van(med) == 0.0 then Search(s.taeMin, s.taeMax, med, s.iter)
      else if SignoOpuesto(van(med), van(s.taeMin)) then Bisect(van, Search(s.taeMin, med, med, s.iter + 1))
      else Bisect(van, Search(med, s.taeMax, med, s.iter + 1))
    else
      s
  }

  /** The bisection run from a start bracket `[lo, hi]`, with no midpoint yet and no iterations spent. */
  function BisectFrom(van: real -> real, lo: real, hi: real): Search {
    Bisect(van, Search(lo, hi, 0.0, 0))
  }

  /** The annual percentage rate `calcularTAE` returns: 100 times the last midpoint, or None for NaN. */
  function Tae(van: real -> real): Option<real> {
    TaeDesde(van, StartBracket(van))
  }

  /** The rate found from a given start bracket, or None for NaN when there is none. */
  function TaeDesde(van: real -> real, b: Bracket): Option<real> {
    match b
    case NoSignChange => None
    case Bracket(lo, hi) => Some(BisectFrom(van, lo, hi).taeMed * 100.0)
  }

  /**
   * With no payment to discount, `van` is the constant net amount received,
   * negated: it never changes sign, and the APR is NaN.
   */
  lemma TaeSinCuotas(cf: Cashflows)
    requires cf.numCuotas == 0
    ensures Tae(VanDe(cf)) == None
  {
    var van := VanDe(cf);
    assert van(0.0) == van(0.2) == van(0.5) == van(-0.05) == cf.gastosIniciales - cf.prestamo;
    TaeIsNaNIff(van);
  }

  /**
   * NaN is returned exactly when the endpoint values fail to have strictly
   * opposite signs both on [0, 0.20] and on its one widening: [0, 0.5] when
   * van(0) < 0, [-0.05, 0.20] otherwise.
   */
  lemma TaeIsNaNIff(van: real -> real)
    ensures Tae(van) == None <==>
              && !SignoOpuesto(van(0.0), van(0.2))
              && (van(0.0) < 0.0 ==> !SignoOpuesto(van(0.0), van(0.5)))
              && (van(0.0) >= 0.0 ==> !SignoOpuesto(van(-0.05), van(0.2)))
  {
    StartBracketNoneIff(van);
    TaeNoneIffNoBracket(van);
  }

  lemma StartBracketNoneIff(van: real -> real)
    ensures StartBracket(van) == NoSignChange <==>
              && !SignoOpuesto(van(0.0), van(0.2))
              && (van(0.0) < 0.0 ==> !SignoOpuesto(van(0.0), van(0.5)))
              && (van(0.0) >= 0.0 ==> !SignoOpuesto(van(-0.05), van(0.2)))
  {
  }

  lemma TaeNoneIffNoBracket(van: real -> real)
    ensures Tae(van) == None <==> StartBracket(van) == NoSignChange
  {
  }

  /**
   * The bisection keeps a strict sign change between its bounds, only narrows
   * the bracket, never exceeds 500 iterations, and stops only on an exact
   * zero, on a bracket narrower than the precision, or at the cap; when it
   * runs at all, its last midpoint lies strictly inside the bracket it started
   * from and is a bound of, or the zero inside, the final bracket.
   */
  lemma {:induction false} BisectKeepsBracket(van: real -> real, s: Search)
    requires s.iter <= MaxIterations
    requires s.taeMin < s.taeMax && SignoOpuesto(van(s.taeMin), van(s.taeMax))
    ensures var r := Bisect(van, s);
            && s.taeMin <= r.taeMin < r.taeMax <= s.taeMax
            && SignoOpuesto(van(r.taeMin), van(r.taeMax))
            && s.iter <= r.iter <= MaxIterations
            && (van(r.taeMed) == 0.0 || r.taeMax - r.taeMin < Precision || r.iter == MaxIterations)
            && (s.taeMax - s.taeMin >= Precision && s.iter < MaxIterations ==>
                  && s.taeMin < r.taeMed < s.taeMax
                  && r.taeMin <= r.taeMed <= r.taeMax)
    decreases MaxIterations - s.iter
  {
    if s.taeMax - s.taeMin >= Precision && s.iter < MaxIterations {
      var med := (s.taeMin + s.taeMax) / 2.0;
      if van(med) == 0.0 {
      } else if SignoOpuesto(van(med), van(s.taeMin)) {
        assert SignoOpuesto(van(s.taeMin), van(med));
        var t := Search(s.taeMin, med, med, s.iter + 1);
        BisectKeepsBracket(van, t);
      } else {
        assert SignoOpuesto(van(med), van(s.taeMax));
        var t := Search(med, s.taeMax, med, s.iter + 1);
        BisectKeepsBracket(van, t);
      }
    }
  }

  /** The start bracket is one of the three the source tries, with a strict sign change. */
  lemma StartBracketBounds(van: real -> real, lo: real, hi: real)
    requires StartBracket(van) == Bracket(lo, hi)
    ensures lo < hi && SignoOpuesto(van(lo), van(hi))
    ensures (lo, hi) == (InitialMin, InitialMax) || (lo, hi) == (InitialMin, WidenedMax) || (lo, hi) == (WidenedMin, InitialMax)
    ensures SignoOpuesto(van(InitialMin), van(InitialMax)) ==> (lo, hi) == (InitialMin, InitialMax)
  {
  }

  /** Run from a bracket wider than the precision with a sign change, the bisection ends on a midpoint strictly inside it. */
  lemma BisectFromKeepsBracket(van: real -> real, lo: real, hi: real)
    requires hi - lo >= Precision && SignoOpuesto(van(lo), van(hi))
    ensures var r := BisectFrom(van, lo, hi);
            && lo < r.taeMed < hi
            && SignoOpuesto(van(r.taeMin), van(r.taeMax)) && r.taeMin <= r.taeMed <= r.taeMax
            && r.iter <= MaxIterations
            && (van(r.taeMed) == 0.0 || r.taeMax - r.taeMin < Precision || r.iter == MaxIterations)
  {
    BisectKeepsBracket(van, Search(lo, hi, 0.0, 0));
  }

  /** The rate returned from a start bracket is 100 times the last midpoint of the bisection run from it. */
  lemma TaeFromBracket(van: real -> real, lo: real, hi: real)
    requires StartBracket(van) == Bracket(lo, hi)
    ensures Tae(van) == Some(BisectFrom(van, lo, hi).taeMed * 100.0)
  {
    TaeDesdeBracket(van, lo, hi);
  }

  lemma TaeDesdeBracket(van: real -> real, lo: real, hi: real)
    ensures TaeDesde(van, Bracket(lo, hi)) == Some(BisectFrom(van, lo, hi).taeMed * 100.0)
  {
  }

  /**
   * When a rate is returned, it is 100 times a midpoint lying strictly inside
   * the start bracket, and the final bracket still has the sign change around
   * that midpoint, which met the stopping rule.
   */
  lemma TaeBracketsRoot(van: real -> real, lo: real, hi: real)
    requires StartBracket(van) == Bracket(lo, hi)
    ensures var r := BisectFrom(van, lo, hi);
            && Tae(van) == Some(r.taeMed * 100.0)
            && lo < r.taeMed < hi
            && SignoOpuesto(van(r.taeMin), van(r.taeMax)) && r.taeMin <= r.taeMed <= r.taeMax
            && r.iter <= MaxIterations
            && (van(r.taeMed) == 0.0 || r.taeMax - r.taeMin < Precision || r.iter == MaxIterations)
  {
    StartBracketBounds(van, lo, hi);
    BisectFromKeepsBracket(van, lo, hi);
    TaeFromBracket(van, lo, hi);
  }

  /** Whenever a rate is returned it is between -5% and 50%; with a sign change on [0, 0.20], between 0% and 20%. */
  lemma TaeRange(van: real -> real)
    ensures Tae(van).Some? ==> -5.0 < Tae(van).value < 50.0
    ensures SignoOpuesto(van(0.0), van(0.2)) ==> Tae(van).Some? && 0.0 < Tae(van).value < 20.0
  {
    match StartBracket(van)
    case NoSignChange =>
    case Bracket(lo, hi) =>
      TaeBracketsRoot(van, lo, hi);
  }

  /** The prologue of `calcularTAE`: try [0, 0.20], widen it once, or give up with NaN. */
  method BuscarHorquilla(van: real -> real) returns (horquilla: Bracket)
    ensures horquilla == StartBracket(van)
  {
    var taeMin := InitialMin;
    var taeMax := InitialMax;
    var vMin := van(taeMin);
    var vMax := van(taeMax);
    if !SignoOpuesto(vMin, vMax) {
      ghost var v0, v1 := vMin, vMax;
      if vMin < 0.0 {
        taeMax := WidenedMax;
      } else {
        taeMin := WidenedMin;
      }
      vMin := van(taeMin);
      vMax := van(taeMax);
      StartBracketWidened(van, v0, v1, taeMin, taeMax, vMin, vMax);
      if !SignoOpuesto(vMin, vMax) {
        return NoSignChange;
      }
    } else {
      StartBracketInitial(van, vMin, vMax);
    }
    return Bracket(taeMin, taeMax);
  }

  /** The bisection loop of `calcularTAE` from the start bracket `[lo, hi]`; returns the last midpoint. */
  method Biseccionar(van: real -> real, lo: real, hi: real) returns (taeMed: real)
    ensures taeMed == BisectFrom(van, lo, hi).taeMed
  {
    var taeMin, taeMax := lo, hi;
    taeMed := 0.0;
    var iter: nat := 0;
    while taeMax - taeMin >= Precision && iter < MaxIterations
      invariant iter <= MaxIterations
      invariant Bisect(van, Search(taeMin, taeMax, taeMed, iter)) == BisectFrom(van, lo, hi)
      decreases MaxIterations - iter
    {
      ghost var antes := Search(taeMin, taeMax, taeMed, iter);
      taeMed := (taeMin + taeMax) / 2.0;
      var vMed := van(taeMed);
      if vMed == 0.0 {
        BisectStep(van, antes, vMed, van(taeMin));
        return;
      }
      var vMin := van(taeMin);
      BisectStep(van, antes, vMed, vMin);
      if SignoOpuesto(vMed, vMin) {
        taeMax := taeMed;
      } else {
        taeMin := taeMed;
      }
      iter := iter + 1;
    }
    BisectStops(van, Search(taeMin, taeMax, taeMed, iter));
  }

  /** The end of `calcularTAE` once the bracket is known: NaN, or 100 times the last midpoint. */
  method TaeDesdeHorquilla(van: real -> real, horquilla: Bracket) returns (tae: Option<real>)
    ensures tae == TaeDesde(van, horquilla)
  {
    match horquilla
    case NoSignChange =>
      return None;
    case Bracket(lo, hi) =>
      var taeMed := Biseccionar(van, lo, hi);
      return Some(taeMed * 100.0);
  }

  /**
   * The whole of `calcularTAE` on its `van` closure: the annual percentage,
   * or None where the source returns NaN.
   */
  method BuscarTae(van: real -> real) returns (tae: Option<real>)
    ensures tae == Tae(van)
  {
    var horquilla := BuscarHorquilla(van);
    tae := TaeDesdeHorquilla(van, horquilla);
  }
}
