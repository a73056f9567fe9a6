/**
 * Arithmetic shared by both versions of the mortgage calculator: the optional
 * values of TypeScript, `Math.max`/`Math.min`, integer powers, the `reduce`
 * sum over a list of numbers, and the French (annuity) instalment
 * `calcularCuotaFrances`, which the two versions define with the same text.
 * Every quantity is an exact `real`.
 */
module Finance {

  /** A TypeScript optional field or a possibly-NaN result. */
  datatype Option<T> = None | Some(value: T) {
    /** `x ?? d`, or `x || d` for a number that is never 0 or NaN. */
    function GetOr(default: T): T {
      if Some? then value else default
    }
  }

  /** `Math.max(0, x)`. */
  function Max0(x: real): (r: real)
    ensures r >= 0.0 && r >= x
    ensures r == x || r == 0.0
  {
    if x < 0.0 then 0.0 else x
  }

  /** `Math.min(a, b)`. */
  function Min(a: real, b: real): (r: real)
    ensures r <= a && r <= b
    ensures r == a || r == b
  {
    if a <= b then a else b
  }

  /** `Math.abs(x)`. */
  function Abs(x: real): (r: real)
    ensures r >= 0.0 && (r == x || r == -x)
  {
    if x < 0.0 then -x else x
  }

  /** `Math.pow(x, n)` for a whole exponent. */
  function Pow(x: real, n: nat): real {
    if n == 0 then 1.0 else x * Pow(x, n - 1)
  }

  lemma {:induction false} PowPositive(x: real, n: nat)
    requires x > 0.0
    ensures Pow(x, n) > 0.0
  {
    if n > 0 {
      PowPositive(x, n - 1);
    }
  }

  lemma {:induction false} PowAboveOne(x: real, n: nat)
    requires x > 1.0 && n >= 1
    ensures Pow(x, n) > 1.0
  {
    if n > 1 {
      PowAboveOne(x, n - 1);
      assert Pow(x, n) == x * Pow(x, n - 1);
    }
  }

  /** `xs.reduce((acc, v) => acc + v, 0)`: a left fold, so the last element is added last. */
  function Sum(xs: seq<real>): real {
    if xs == [] then 0.0 else Sum(xs[..|xs| - 1]) + xs[|xs| - 1]
  }

  lemma {:induction false} SumAppend(xs: seq<real>, ys: seq<real>)
    ensures Sum(xs + ys) == Sum(xs) + Sum(ys)
  {
    if ys != [] {
      assert (xs + ys)[..|xs + ys| - 1] == xs + ys[..|ys| - 1];
      SumAppend(xs, ys[..|ys| - 1]);
    } else {
      assert xs + ys == xs;
    }
  }

  /** A list of `n` equal payments adds up to `n` times the payment. */
  lemma {:induction false} SumConstant(c: real, n: nat)
    ensures Sum(seq(n, _ => c)) == n as real * c
  {
    if n > 0 {
      assert seq(n, _ => c)[..n - 1] == seq(n - 1, _ => c);
      SumConstant(c, n - 1);
    }
  }

  /**
   * The French instalment: with a non-positive monthly rate, the capital
   * split evenly over the months; otherwise the annuity payment, which is
   * characterised by cuota * ((1 + i)^n - 1) == capital * i * (1 + i)^n.
   */
  function CuotaFrances(capital: real, interesMensual: real, meses: nat): (cuota: real)
    requires meses > 0
    ensures interesMensual <= 0.0 ==> cuota * meses as real == capital
    ensures interesMensual > 0.0 ==>
      cuota * (Pow(1.0 + interesMensual, meses) - 1.0)
        == capital * interesMensual * Pow(1.0 + interesMensual, meses)
  {
    if interesMensual <= 0.0 then
      capital / meses as real
    else
      PowAboveOne(1.0 + interesMensual, meses);
      capital * (interesMensual * Pow(1.0 + interesMensual, meses))
        / (Pow(1.0 + interesMensual, meses) - 1.0)
  }

  /**
   * The annuity identity determines the instalment: a value satisfies it
   * exactly when it is the French instalment.
   */
  lemma AnnuityIdentityCharacterises(capital: real, i: real, n: nat, c: real)
    requires i > 0.0 && n > 0
    ensures c == CuotaFrances(capital, i, n)
        <==> c * (Pow(1.0 + i, n) - 1.0) == capital * i * Pow(1.0 + i, n)
  {
    var p := Pow(1.0 + i, n);
    PowAboveOne(1.0 + i, n);
    var q := CuotaFrances(capital, i, n);
    assert q * (p - 1.0) == capital * i * p;
    if c * (p - 1.0) == capital * i * p {
      assert (c - q) * (p - 1.0) == 0.0;
      CancelPositive(c - q, p - 1.0);
    }
  }

  lemma CancelPositive(a: real, b: real)
    requires b > 0.0 && a * b == 0.0
    ensures a == 0.0
  {
  }

  // ---------------------------------------------------------------------------
  // Base-rate precedence, common to both rate resolvers
  // ---------------------------------------------------------------------------

  /** The base rate of a tranche and whether it was inferred. */
  datatype TasaBase = TasaBase(baseRate: real, isAssumedBase: bool)

  /**
   * The precedence of one tranche: the explicit unreduced value, else the
   * reduced value plus the total reduction (inferred), else nothing (inferred);
   * each on top of the reference (euribor for a spread, 0 for a rate).
   */
  function Precedencia(referencia: real, sinBonificar: Option<real>, bonificado: Option<real>,
                       totalReduccion: real): TasaBase
  {
    if sinBonificar.Some? then TasaBase(referencia + sinBonificar.value, false)
    else if bonificado.Some? then TasaBase(referencia + bonificado.value + totalReduccion, true)
    else TasaBase(referencia, true)
  }
}
