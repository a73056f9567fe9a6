/**
 * The "extra personal products" overlay of `calcularResultadoParaOferta`,
 * identical in both versions: an enabled personal product is added to the
 * total cost, at its annual cost times the term in years, unless its
 * lower-cased, trimmed name occurs inside the lower-cased, trimmed name of one
 * of the offer's discounts. Lower-casing is modelled on ASCII letters and
 * trimming on the ASCII, no-break, byte-order-mark and line/paragraph
 * separator white space.
 */
module PersonalProducts {

  /** A personal product the user declares (`PersonalBonus` / `IProductoPersonal`). */
  datatype PersonalBonus = PersonalBonus(id: int, nombre: string, costeAnual: real, enabled: bool)

  function ToLowerChar(c: char): char {
    if 'A' <= c <= 'Z' then (c as int + 32) as char else c
  }

  /** `s.toLowerCase()` on ASCII letters. */
  function ToLower(s: string): string {
    seq(|s|, k requires 0 <= k < |s| => ToLowerChar(s[k]))
  }

  predicate IsWhiteSpace(c: char) {
    c == ' ' || c == '\t' || c == '\n' || c == '\r' || c == '\U{000B}' || c == '\U{000C}'
    || c == '\U{00A0}' || c == '\U{FEFF}' || c == '\U{2028}' || c == '\U{2029}'
  }

  /** `s.trimStart()`: the suffix left once the leading white space is removed. */
  function TrimStart(s: string): (r: string)
    ensures r == [] || !IsWhiteSpace(r[0])
    ensures |r| <= |s| && r == s[|s| - |r|..]
    ensures forall k :: 0 <= k < |s| - |r| ==> IsWhiteSpace(s[k])
  {
    if s != [] && IsWhiteSpace(s[0]) then TrimStart(s[1..]) else s
  }

  /** `s.trimEnd()`: the prefix left once the trailing white space is removed. */
  function TrimEnd(s: string): (r: string)
    ensures r == [] || !IsWhiteSpace(r[|r| - 1])
    ensures |r| <= |s| && r == s[..|r|]
    ensures forall k :: |r| <= k < |s| ==> IsWhiteSpace(s[k])
  {
    if s != [] && IsWhiteSpace(s[|s| - 1]) then TrimEnd(s[..|s| - 1]) else s
  }

  /** `s.trim()`: the longest slice of `s` that neither starts nor ends with white space. */
  function Trim(s: string): (r: string)
    ensures r == [] || (!IsWhiteSpace(r[0]) && !IsWhiteSpace(r[|r| - 1]))
    ensures var a := |s| - |TrimStart(s)|;
            && a + |r| <= |s| && r == s[a..a + |r|]
            && (forall k :: 0 <= k < a ==> IsWhiteSpace(s[k]))
            && (forall k :: a + |r| <= k < |s| ==> IsWhiteSpace(s[k]))
  {
    TrimEnd(TrimStart(s))
  }

  /** `nombre.toLowerCase().trim()`. */
  function Normalize(nombre: string): string {
    Trim(ToLower(nombre))
  }

  /** `hay.includes(needle)`: `needle` occurs as a contiguous slice of `hay`. */
  predicate Includes(hay: string, needle: string)
    decreases |hay|
  {
    needle <= hay || (hay != [] && Includes(hay[1..], needle))
  }

  /** `needle` sits in `hay` starting at index `k`. */
  predicate OccursAt(hay: string, needle: string, k: int) {
    0 <= k && k + |needle| <= |hay| && hay[k..k + |needle|] == needle
  }

  /** Past the first character, an occurrence in `hay` is one in its tail, one index earlier. */
  lemma OccursInTail(hay: string, needle: string, k: int)
    requires hay != [] && 1 <= k
    ensures OccursAt(hay, needle, k) <==> OccursAt(hay[1..], needle, k - 1)
  {
    if k + |needle| <= |hay| {
      assert hay[1..][k - 1..k - 1 + |needle|] == hay[k..k + |needle|];
    }
  }

  /** `includes` is the search for an occurrence at some index. */
  lemma {:induction false} IncludesIffOccurs(hay: string, needle: string)
    ensures Includes(hay, needle) <==> exists k :: OccursAt(hay, needle, k)
    decreases |hay|
  {
    if needle <= hay {
      assert OccursAt(hay, needle, 0);
    } else if hay != [] {
      IncludesIffOccurs(hay[1..], needle);
      assert !OccursAt(hay, needle, 0);
      forall k | OccursAt(hay, needle, k) ensures OccursAt(hay[1..], needle, k - 1) {
        OccursInTail(hay, needle, k);
      }
      forall k | OccursAt(hay[1..], needle, k) ensures OccursAt(hay, needle, k + 1) {
        OccursInTail(hay, needle, k + 1);
      }
    } else {
      assert |needle| > 0;
      forall k ensures !OccursAt(hay, needle, k) {
      }
    }
  }

  /** `oferta.bonificaciones.some(b => normalize(b.nombre).includes(normalize(nombre)))`. */
  predicate HasSimilarDiscount(discountNames: seq<string>, nombre: string) {
    exists k :: 0 <= k < |discountNames| && Includes(Normalize(discountNames[k]), Normalize(nombre))
  }

  /** Whether a personal product is added to the total with extras. */
  predicate Counted(discountNames: seq<string>, p: PersonalBonus) {
    p.enabled && !HasSimilarDiscount(discountNames, p.nombre)
  }

  /** The products the `forEach` adds, in input order. */
  function Included(discountNames: seq<string>, ps: seq<PersonalBonus>): seq<PersonalBonus> {
    if ps == [] then []
    else
      var last := ps[|ps| - 1];
      Included(discountNames, ps[..|ps| - 1]) + (if Counted(discountNames, last) then [last] else [])
  }

  /** What the included products add: each one's annual cost times the term in years. */
  function ExtrasCost(included: seq<PersonalBonus>, plazoAnios: real): real {
    if included == [] then 0.0
    else ExtrasCost(included[..|included| - 1], plazoAnios) + included[|included| - 1].costeAnual * plazoAnios
  }

  /** The names pushed to `productosPersonalesIncluidos`. */
  function Names(ps: seq<PersonalBonus>): (r: seq<string>)
    ensures |r| == |ps|
  {
    if ps == [] then [] else Names(ps[..|ps| - 1]) + [ps[|ps| - 1].nombre]
  }

  lemma {:induction false} NamesAt(ps: seq<PersonalBonus>, k: nat)
    requires k < |ps|
    ensures Names(ps)[k] == ps[k].nombre
  {
    if k < |ps| - 1 {
      NamesAt(ps[..|ps| - 1], k);
    }
  }

  /** A product is included exactly when it is in the input, enabled, and matches no discount name. */
  lemma {:induction false} IncludedIff(discountNames: seq<string>, ps: seq<PersonalBonus>, p: PersonalBonus)
    ensures p in Included(discountNames, ps) <==> p in ps && Counted(discountNames, p)
  {
    if ps != [] {
      IncludedIff(discountNames, ps[..|ps| - 1], p);
      assert ps == ps[..|ps| - 1] + [ps[|ps| - 1]];
    }
  }

  /** The overlay treats the products one after another: it keeps their input order. */
  lemma {:induction false} IncludedAppend(discountNames: seq<string>, xs: seq<PersonalBonus>, ys: seq<PersonalBonus>)
    ensures Included(discountNames, xs + ys) == Included(discountNames, xs) + Included(discountNames, ys)
  {
    if ys == [] {
      assert xs + ys == xs;
    } else {
      assert (xs + ys)[..|xs + ys| - 1] == xs + ys[..|ys| - 1];
      IncludedAppend(discountNames, xs, ys[..|ys| - 1]);
    }
  }

  /** What a product adds when it is the last one included. */
  lemma ExtrasCostSnoc(included: seq<PersonalBonus>, p: PersonalBonus, plazoAnios: real)
    ensures ExtrasCost(included + [p], plazoAnios) == ExtrasCost(included, plazoAnios) + p.costeAnual * plazoAnios
    ensures Names(included + [p]) == Names(included) + [p.nombre]
  {
    assert (included + [p])[..|included|] == included;
  }

  /** With non-negative annual costs and term, the extras never lower the total. */
  lemma {:induction false} ExtrasCostNonNegative(included: seq<PersonalBonus>, plazoAnios: real)
    requires plazoAnios >= 0.0 && forall k :: 0 <= k < |included| ==> included[k].costeAnual >= 0.0
    ensures ExtrasCost(included, plazoAnios) >= 0.0
  {
    if included != [] {
      ExtrasCostNonNegative(included[..|included| - 1], plazoAnios);
      var last := included[|included| - 1];
      assert last.costeAnual * plazoAnios >= 0.0;
    }
  }

  /**
   * The `forEach` of `calcularResultadoParaOferta` over the personal
   * products: starting from `costeBase`, each enabled product with no similar
   * discount adds its annual cost times the term in years, and its name is
   * pushed to the list of included products.
   */
  method SumarExtras(discountNames: seq<string>, ps: seq<PersonalBonus>, plazoAnios: real, costeBase: real)
    returns (costeTotalConExtras: real, productosPersonalesIncluidos: seq<string>)
    ensures costeTotalConExtras == costeBase + ExtrasCost(Included(discountNames, ps), plazoAnios)
    ensures productosPersonalesIncluidos == Names(Included(discountNames, ps))
  {
    costeTotalConExtras := costeBase;
    productosPersonalesIncluidos := [];
    for i := 0 to |ps|
      invariant costeTotalConExtras == costeBase + ExtrasCost(Included(discountNames, ps[..i]), plazoAnios)
      invariant productosPersonalesIncluidos == Names(Included(discountNames, ps[..i]))
    {
      var pBonus := ps[i];
      assert ps[..i + 1][..i] == ps[..i] && ps[..i + 1][i] == pBonus;
      ghost var antes := Included(discountNames, ps[..i]);
      assert Included(discountNames, ps[..i + 1])
          == antes + (if Counted(discountNames, pBonus) then [pBonus] else []);
      assert antes + [] == antes;
      if pBonus.enabled {
        var pBonusNombreNormalizado := Normalize(pBonus.nombre);
        var tieneBonificacionSimilar := exists k :: 0 <= k < |discountNames|
                                          && Includes(Normalize(discountNames[k]), pBonusNombreNormalizado);
        assert tieneBonificacionSimilar == HasSimilarDiscount(discountNames, pBonus.nombre);
        if !tieneBonificacionSimilar {
          ExtrasCostSnoc(antes, pBonus, plazoAnios);
          costeTotalConExtras := costeTotalConExtras + pBonus.costeAnual * plazoAnios;
          productosPersonalesIncluidos := productosPersonalesIncluidos + [pBonus.nombre];
        }
      }
    }
    assert ps[..|ps|] == ps;
  }

  /**
   * A product whose normalised name is empty matches any discount (the empty
   * string occurs in every string), so it is never added to an offer that has
   * at least one discount; with no discounts every enabled product is added.
   */
  lemma SimilarityEdgeCases(discountNames: seq<string>, p: PersonalBonus)
    ensures discountNames != [] && Normalize(p.nombre) == [] ==> !Counted(discountNames, p)
    ensures discountNames == [] ==> (Counted(discountNames, p) <==> p.enabled)
  {
    if discountNames != [] && Normalize(p.nombre) == [] {
      assert Includes(Normalize(discountNames[0]), Normalize(p.nombre));
    }
  }
}
