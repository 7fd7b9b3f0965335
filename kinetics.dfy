/**
 * The rate laws of pyology/utils.py (Michaelis–Menten, Hill, multiplicative
 * allosteric regulation) and Enzyme.calculate_rate of pyology/enzymes.py.
 * A zero denominator raises ZeroDivisionError, as Python does.
 */
module Kinetics {
  import opened Common

  /** `Effector`: a concentration with its inhibition (Ki) and activation (Ka) constants. */
  datatype Effector = Effector(concentration: real, ki: real, ka: real)

  /**
   * The saturating fraction v·a/(k+a) shared by both rate laws; a zero
   * denominator raises ZeroDivisionError.
   */
  function Saturation(a: real, k: real, v: real): (r: Result<real>)
    ensures r.Raise? <==> k + a == 0.0
    ensures r.Raise? ==> r.error == ZeroDivisionError
    ensures r.Ok? ==> r.value * (k + a) == v * a
  {
    if k + a == 0.0 then Raise(ZeroDivisionError) else Ok(v * a / (k + a))
  }

  /** v·a/(k+a) is v less the part v·k/(k+a). */
  lemma SaturationSplit(a: real, k: real, v: real)
    requires k + a != 0.0
    ensures v * a / (k + a) == v - v * k / (k + a)
  {
    var d := k + a;
    assert (v - v * k / d) * d == v * d - (v * k / d) * d;
  }

  /** Dividing a non-negative number by a larger positive divisor gives no more. */
  lemma DivAntitone(c: real, x: real, y: real)
    requires c >= 0.0 && 0.0 < x <= y
    ensures c / y <= c / x
  {
    var p, q := c / x, c / y;
    assert p * x == c && q * y == c;
    assert q * x <= q * y;
  }

  /**
   * For a ≥ 0, k > 0, v > 0 the fraction is defined and lies in [0, v);
   * it is 0 at a = 0 and v/2 at a = k.
   */
  lemma SaturationBounds(a: real, k: real, v: real)
    requires a >= 0.0 && k > 0.0 && v > 0.0
    ensures Saturation(a, k, v).Ok?
    ensures 0.0 <= Saturation(a, k, v).value < v
    ensures a == 0.0 ==> Saturation(a, k, v).value == 0.0
    ensures a == k ==> Saturation(a, k, v).value == v / 2.0
  {
    SaturationSplit(a, k, v);
    assert v * k / (k + a) > 0.0;
  }

  /** v·a/(k+a) is non-decreasing in a. */
  lemma SaturationMonotone(a1: real, a2: real, k: real, v: real)
    requires 0.0 <= a1 <= a2 && k > 0.0 && v >= 0.0
    ensures Saturation(a1, k, v).Ok? && Saturation(a2, k, v).Ok?
    ensures Saturation(a1, k, v).value <= Saturation(a2, k, v).value
  {
    SaturationSplit(a1, k, v);
    SaturationSplit(a2, k, v);
    DivAntitone(v * k, k + a1, k + a2);
  }

  /** `michaelis_menten`: vmax·S/(km+S). */
  function MichaelisMenten(s: real, vmax: real, km: real): (r: Result<real>)
    ensures r.Raise? <==> km + s == 0.0
    ensures r.Raise? ==> r.error == ZeroDivisionError
    ensures r.Ok? ==> r.value * (km + s) == vmax * s
  {
    Saturation(s, km, vmax)
  }

  /**
   * For vmax > 0, km > 0 and S ≥ 0 the rate is defined, lies in [0, vmax),
   * is 0 at S = 0, and is exactly vmax/2 at S = km.
   */
  lemma MichaelisMentenBounds(s: real, vmax: real, km: real)
    requires vmax > 0.0 && km > 0.0 && s >= 0.0
    ensures MichaelisMenten(s, vmax, km).Ok?
    ensures 0.0 <= MichaelisMenten(s, vmax, km).value < vmax
    ensures s == 0.0 ==> MichaelisMenten(s, vmax, km).value == 0.0
    ensures s == km ==> MichaelisMenten(s, vmax, km).value == vmax / 2.0
  {
    SaturationBounds(s, km, vmax);
  }

  /** The Michaelis–Menten rate is non-decreasing in the substrate concentration. */
  lemma MichaelisMentenMonotone(s1: real, s2: real, vmax: real, km: real)
    requires 0.0 <= s1 <= s2 && vmax >= 0.0 && km > 0.0
    ensures MichaelisMenten(s1, vmax, km).value <= MichaelisMenten(s2, vmax, km).value
  {
    SaturationMonotone(s1, s2, km, vmax);
  }

  /** x to the natural power n. */
  function Pow(x: real, n: nat): (r: real)
    ensures x >= 0.0 ==> r >= 0.0
    ensures x > 0.0 ==> r > 0.0
  {
    if n == 0 then 1.0 else x * Pow(x, n - 1)
  }

  lemma {:induction false} PowMonotone(x: real, y: real, n: nat)
    requires 0.0 <= x <= y
    ensures Pow(x, n) <= Pow(y, n)
  {
    if n > 0 {
      PowMonotone(x, y, n - 1);
      var px, py := Pow(x, n - 1), Pow(y, n - 1);
      MulNonneg(y - x, px);
      MulNonneg(y, py - px);
      assert x * px <= y * px <= y * py;
    }
  }

  /** `hill_equation` with a natural exponent: Vmax·Sⁿ/(Kⁿ+Sⁿ). */
  function Hill(s: real, vmax: real, k: real, n: nat): (r: Result<real>)
    ensures r.Raise? <==> Pow(k, n) + Pow(s, n) == 0.0
    ensures r.Raise? ==> r.error == ZeroDivisionError
    ensures r.Ok? ==> r.value * (Pow(k, n) + Pow(s, n)) == vmax * Pow(s, n)
  {
    Saturation(Pow(s, n), Pow(k, n), vmax)
  }

  /** With n = 1 the Hill equation is the Michaelis–Menten equation. */
  lemma HillOneIsMichaelisMenten(s: real, vmax: real, k: real)
    ensures Hill(s, vmax, k, 1) == MichaelisMenten(s, vmax, k)
  {
    assert Pow(s, 1) == s && Pow(k, 1) == k;
  }

  /**
   * For S ≥ 0, K > 0 and Vmax > 0 the Hill rate is defined, lies in [0, Vmax),
   * is Vmax/2 at S = K, and (for n ≥ 1) is 0 at S = 0.
   */
  lemma HillBounds(s: real, vmax: real, k: real, n: nat)
    requires s >= 0.0 && k > 0.0 && vmax > 0.0
    ensures Hill(s, vmax, k, n).Ok?
    ensures 0.0 <= Hill(s, vmax, k, n).value < vmax
    ensures s == k ==> Hill(s, vmax, k, n).value == vmax / 2.0
    ensures n >= 1 && s == 0.0 ==> Hill(s, vmax, k, n).value == 0.0
  {
    SaturationBounds(Pow(s, n), Pow(k, n), vmax);
  }

  /** The Hill rate is non-decreasing in S. */
  lemma HillMonotone(s1: real, s2: real, vmax: real, k: real, n: nat)
    requires 0.0 <= s1 <= s2 && k > 0.0 && vmax >= 0.0
    ensures Hill(s1, vmax, k, n).value <= Hill(s2, vmax, k, n).value
  {
    PowMonotone(s1, s2, n);
    SaturationMonotone(Pow(s1, n), Pow(s2, n), Pow(k, n), vmax);
  }

  /** An effector's factor is defined: no division by zero. */
  predicate Defined(e: Effector, inhibiting: bool)
  {
    if inhibiting then e.ki != 0.0 && 1.0 + e.concentration / e.ki != 0.0 else e.ka != 0.0
  }

  predicate AllDefined(effs: seq<Effector>, inhibiting: bool)
  {
    forall i :: 0 <= i < |effs| ==> Defined(effs[i], inhibiting)
  }

  /**
   * An inhibitor contributes 1/(1+c/Ki), an activator 1+c/Ka. An undefined
   * factor is given the value 0; RegulatedActivity raises before using it.
   */
  function Factor(e: Effector, inhibiting: bool): real
  {
    if !Defined(e, inhibiting) then 0.0
    else if inhibiting then 1.0 / (1.0 + e.concentration / e.ki) else 1.0 + e.concentration / e.ka
  }

  /** The factors of a list of effectors, in list order. */
  function Factors(effs: seq<Effector>, inhibiting: bool): (r: seq<real>)
    ensures |r| == |effs|
    ensures forall i :: 0 <= i < |effs| ==> r[i] == Factor(effs[i], inhibiting)
  {
    seq(|effs|, i requires 0 <= i < |effs| => Factor(effs[i], inhibiting))
  }

  /** The product of a list of numbers, accumulated left to right as the loops do. */
  function Prod(xs: seq<real>): real
  {
    if xs == [] then 1.0 else Times(Prod(xs[..|xs| - 1]), xs[|xs| - 1])
  }

  /** The inhibition (or activation) factor of a list of effectors. */
  function Product(effs: seq<Effector>, inhibiting: bool): real
  {
    Prod(Factors(effs, inhibiting))
  }

  /** `allosteric_regulation`: base_activity × inhibition factor × activation factor. */
  function RegulatedActivity(base: real, inhibitors: seq<Effector>, activators: seq<Effector>): (r: Result<real>)
    ensures r.Raise? <==> !AllDefined(inhibitors, true) || !AllDefined(activators, false)
    ensures r.Raise? ==> r.error == ZeroDivisionError
  {
    if !AllDefined(inhibitors, true) || !AllDefined(activators, false) then Raise(ZeroDivisionError)
    else Ok(base * Product(inhibitors, true) * Product(activators, false))
  }

  lemma RegulatedActivityValue(base: real, inhibitors: seq<Effector>, activators: seq<Effector>)
    requires AllDefined(inhibitors, true) && AllDefined(activators, false)
    ensures RegulatedActivity(base, inhibitors, activators) ==
      Ok(base * Product(inhibitors, true) * Product(activators, false))
  {
    var r := RegulatedActivity(base, inhibitors, activators);
    assert r.Ok?;
    assert r == Ok(r.value);
    assert r.value == base * Product(inhibitors, true) * Product(activators, false);
  }

  /** A physically meaningful effector: non-negative concentration, positive constants. */
  predicate WellFormed(e: Effector)
  {
    e.concentration >= 0.0 && e.ki > 0.0 && e.ka > 0.0
  }

  /** An inhibitor's factor lies in (0, 1]; an activator's is at least 1. */
  lemma FactorRange(e: Effector)
    requires WellFormed(e)
    ensures Defined(e, true) && Defined(e, false)
    ensures 0.0 < Factor(e, true) <= 1.0
    ensures Factor(e, false) >= 1.0
  {
    assert e.concentration / e.ki >= 0.0;
    assert e.concentration / e.ka >= 0.0;
  }

  lemma {:induction false} ProdPositive(xs: seq<real>)
    requires forall i :: 0 <= i < |xs| ==> xs[i] > 0.0
    ensures Prod(xs) > 0.0
    decreases |xs|
  {
    if xs != [] {
      ProdPositive(xs[..|xs| - 1]);
      MulPositive(Prod(xs[..|xs| - 1]), xs[|xs| - 1]);
    }
  }

  lemma MulPositive(a: real, b: real)
    requires a > 0.0 && b > 0.0
    ensures Times(a, b) > 0.0
  {
  }

  /** Well-formed effectors have defined, positive products. */
  lemma ProductPositive(effs: seq<Effector>, inhibiting: bool)
    requires forall i :: 0 <= i < |effs| ==> WellFormed(effs[i])
    ensures AllDefined(effs, inhibiting)
    ensures Product(effs, inhibiting) > 0.0
  {
    forall i | 0 <= i < |effs| ensures Defined(effs[i], inhibiting) && Factors(effs, inhibiting)[i] > 0.0 {
      FactorRange(effs[i]);
    }
    ProdPositive(Factors(effs, inhibiting));
  }

  /** Appending an effector multiplies the product by its factor. */
  lemma ProductSnoc(effs: seq<Effector>, e: Effector, inhibiting: bool)
    ensures Product(effs + [e], inhibiting) == Times(Product(effs, inhibiting), Factor(e, inhibiting))
  {
    var xs := Factors(effs + [e], inhibiting);
    assert xs[..|xs| - 1] == Factors(effs, inhibiting);
  }

  /** With no inhibitors and no activators the activity is the base activity. */
  lemma RegulatedActivityEmpty(base: real)
    ensures RegulatedActivity(base, [], []) == Ok(base)
  {
  }

  /** Two `*=` steps commute. */
  lemma Swap(p: real, x: real, y: real)
    ensures Times(Times(p, x), y) == Times(Times(p, y), x)
  {
  }

  /** Removing the element at `j` divides it out of the product. */
  lemma {:induction false} ProdRemove(xs: seq<real>, j: nat)
    requires j < |xs|
    ensures Prod(xs) == Times(Prod(xs[..j] + xs[j + 1..]), xs[j])
    decreases |xs|
  {
    var n := |xs| - 1;
    if j == n {
      assert xs[..j] + xs[j + 1..] == xs[..n];
    } else {
      var init, r := xs[..n], xs[..j] + xs[j + 1..];
      assert r[..|r| - 1] == init[..j] + init[j + 1..];
      assert r[|r| - 1] == xs[n];
      ProdRemove(init, j);
      Swap(Prod(init[..j] + init[j + 1..]), xs[j], xs[n]);
    }
  }

  lemma MultisetRemove<T>(xs: seq<T>, j: nat)
    requires j < |xs|
    ensures multiset(xs[..j] + xs[j + 1..]) == multiset(xs) - multiset{xs[j]}
  {
    assert xs == xs[..j] + [xs[j]] + xs[j + 1..];
  }

  /** Appending x multiplies the product by x. */
  lemma ProdSnoc(xs: seq<real>, x: real)
    ensures Prod(xs + [x]) == Times(Prod(xs), x)
  {
    assert (xs + [x])[..|xs|] == xs;
  }

  /** Lists with equal products keep equal products when the same number is appended. */
  lemma ProdSnocEqual(u: seq<real>, v: seq<real>, x: real)
    requires Prod(u) == Prod(v)
    ensures Prod(u + [x]) == Prod(v + [x])
  {
    ProdSnoc(u, x);
    ProdSnoc(v, x);
  }

  /** Moving the element at `j` to the end keeps the product. */
  lemma ProdMove(b: seq<real>, j: nat)
    requires j < |b|
    ensures Prod(b) == Prod(b[..j] + b[j + 1..] + [b[j]])
  {
    ProdRemove(b, j);
    ProdSnoc(b[..j] + b[j + 1..], b[j]);
  }

  /** The product of a list of numbers does not depend on their order. */
  lemma {:induction false} ProdPermutation(a: seq<real>, b: seq<real>)
    requires multiset(a) == multiset(b)
    ensures Prod(a) == Prod(b)
    decreases |a|
  {
    if a == [] {
      assert |b| == |multiset(b)| == 0;
    } else {
      var n := |a| - 1;
      assert a[n] in multiset(b) by {
        assert a[n] in multiset(a);
      }
      var j :| 0 <= j < |b| && b[j] == a[n];
      var ra, rb := a[..n], b[..j] + b[j + 1..];
      MultisetRemove(a, n);
      MultisetRemove(b, j);
      assert a[..n] + a[n + 1..] == ra;
      ProdPermutation(ra, rb);
      ProdSnocEqual(ra, rb, b[j]);
      assert a == ra + [b[j]];
      ProdMove(b, j);
    }
  }

  /** Reordering the effectors reorders their factors. */
  lemma {:induction false} FactorsPermutation(a: seq<Effector>, b: seq<Effector>, inhibiting: bool)
    requires multiset(a) == multiset(b)
    ensures multiset(Factors(a, inhibiting)) == multiset(Factors(b, inhibiting))
    decreases |a|
  {
    if a == [] {
      assert |b| == |multiset(b)| == 0;
    } else {
      var n := |a| - 1;
      var x := a[n];
      assert x in multiset(b) by {
        assert x in multiset(a);
      }
      var j :| 0 <= j < |b| && b[j] == x;
      var rest := b[..j] + b[j + 1..];
      MultisetRemove(a, n);
      MultisetRemove(b, j);
      assert a[..n] + a[n + 1..] == a[..n];
      FactorsPermutation(a[..n], rest, inhibiting);
      FactorsSnoc(a, inhibiting);
      FactorsRemove(b, j, inhibiting);
      MultisetRemove(Factors(b, inhibiting), j);
      MultisetSnoc(Factors(a[..n], inhibiting), Factor(x, inhibiting));
      assert Factors(b, inhibiting)[j] in multiset(Factors(b, inhibiting));
    }
  }

  lemma FactorsSnoc(a: seq<Effector>, inhibiting: bool)
    requires a != []
    ensures Factors(a, inhibiting) == Factors(a[..|a| - 1], inhibiting) + [Factor(a[|a| - 1], inhibiting)]
  {
    assert Factors(a, inhibiting) == Factors(a[..|a| - 1], inhibiting) + [Factor(a[|a| - 1], inhibiting)];
  }

  lemma FactorsRemove(b: seq<Effector>, j: nat, inhibiting: bool)
    requires j < |b|
    ensures Factors(b[..j] + b[j + 1..], inhibiting) == Factors(b, inhibiting)[..j] + Factors(b, inhibiting)[j + 1..]
  {
    assert Factors(b[..j] + b[j + 1..], inhibiting) == Factors(b, inhibiting)[..j] + Factors(b, inhibiting)[j + 1..];
  }

  lemma MultisetSnoc<T>(xs: seq<T>, x: T)
    ensures multiset(xs + [x]) == multiset(xs) + multiset{x}
  {
  }

  /** The product does not depend on the order of the effectors. */
  lemma ProductPermutation(a: seq<Effector>, b: seq<Effector>, inhibiting: bool)
    requires multiset(a) == multiset(b)
    ensures Product(a, inhibiting) == Product(b, inhibiting)
  {
    FactorsPermutation(a, b, inhibiting);
    ProdPermutation(Factors(a, inhibiting), Factors(b, inhibiting));
  }

  lemma AllDefinedPermutation(a: seq<Effector>, b: seq<Effector>, inhibiting: bool)
    requires multiset(a) == multiset(b)
    ensures AllDefined(a, inhibiting) <==> AllDefined(b, inhibiting)
  {
    if AllDefined(a, inhibiting) {
      forall i | 0 <= i < |b| ensures Defined(b[i], inhibiting) {
        assert b[i] in multiset(a);
      }
    }
    if AllDefined(b, inhibiting) {
      forall i | 0 <= i < |a| ensures Defined(a[i], inhibiting) {
        assert a[i] in multiset(b);
      }
    }
  }

  /** The activity is independent of the order of the inhibitor and activator lists. */
  lemma RegulatedActivityOrderIndependent(base: real, inh1: seq<Effector>, inh2: seq<Effector>,
                                          act1: seq<Effector>, act2: seq<Effector>)
    requires multiset(inh1) == multiset(inh2) && multiset(act1) == multiset(act2)
    ensures RegulatedActivity(base, inh1, act1) == RegulatedActivity(base, inh2, act2)
  {
    AllDefinedPermutation(inh1, inh2, true);
    AllDefinedPermutation(act1, act2, false);
    if AllDefined(inh1, true) && AllDefined(act1, false) {
      ProductPermutation(inh1, inh2, true);
      ProductPermutation(act1, act2, false);
      RegulatedActivityValue(base, inh1, act1);
      RegulatedActivityValue(base, inh2, act2);
      assert RegulatedActivity(base, inh1, act1).value == RegulatedActivity(base, inh2, act2).value;
    }
  }

  /** Scaling one positive factor of base·p·q by f ∈ (0, 1] never raises it. */
  lemma ScaleDown(base: real, p: real, f: real, q: real, pf: real, r1: real, r2: real)
    requires base >= 0.0 && p > 0.0 && 0.0 < f <= 1.0 && q > 0.0
    requires pf == Times(p, f) && r1 == base * pf * q && r2 == base * p * q
    ensures r1 <= r2
  {
    assert p - pf == p * (1.0 - f);
    MulNonneg(p, 1.0 - f);
    MulNonneg(base, q);
    assert r2 - r1 == base * q * (p - pf);
    MulNonneg(base * q, p - pf);
  }

  /** Scaling the last positive factor of base·p·q by f ≥ 1 never lowers it. */
  lemma ScaleUp(base: real, p: real, q: real, f: real, qf: real, r1: real, r2: real)
    requires base >= 0.0 && p > 0.0 && q > 0.0 && f >= 1.0
    requires qf == Times(q, f) && r1 == base * p * qf && r2 == base * p * q
    ensures r1 >= r2
  {
    assert qf - q == q * (f - 1.0);
    MulNonneg(q, f - 1.0);
    MulNonneg(base, p);
    assert r1 - r2 == base * p * (qf - q);
    MulNonneg(base * p, qf - q);
  }

  /** For base ≥ 0, one more inhibitor never raises the activity. */
  lemma AddInhibitorNeverRaises(base: real, inh: seq<Effector>, act: seq<Effector>, e: Effector)
    requires base >= 0.0 && WellFormed(e)
    requires forall i :: 0 <= i < |inh| ==> WellFormed(inh[i])
    requires forall i :: 0 <= i < |act| ==> WellFormed(act[i])
    ensures RegulatedActivity(base, inh + [e], act).Ok? && RegulatedActivity(base, inh, act).Ok?
    ensures RegulatedActivity(base, inh + [e], act).value <= RegulatedActivity(base, inh, act).value
  {
    ProductPositive(inh, true);
    ProductPositive(inh + [e], true);
    ProductPositive(act, false);
    FactorRange(e);
    ProductSnoc(inh, e, true);
    RegulatedActivityValue(base, inh, act);
    RegulatedActivityValue(base, inh + [e], act);
    ScaleDown(base, Product(inh, true), Factor(e, true), Product(act, false), Product(inh + [e], true),
              RegulatedActivity(base, inh + [e], act).value, RegulatedActivity(base, inh, act).value);
  }

  /** For base ≥ 0, one more activator never lowers the activity. */
  lemma AddActivatorNeverLowers(base: real, inh: seq<Effector>, act: seq<Effector>, e: Effector)
    requires base >= 0.0 && WellFormed(e)
    requires forall i :: 0 <= i < |inh| ==> WellFormed(inh[i])
    requires forall i :: 0 <= i < |act| ==> WellFormed(act[i])
    ensures RegulatedActivity(base, inh, act + [e]).Ok? && RegulatedActivity(base, inh, act).Ok?
    ensures RegulatedActivity(base, inh, act + [e]).value >= RegulatedActivity(base, inh, act).value
  {
    ProductPositive(inh, true);
    ProductPositive(act, false);
    ProductPositive(act + [e], false);
    FactorRange(e);
    ProductSnoc(act, e, false);
    RegulatedActivityValue(base, inh, act);
    RegulatedActivityValue(base, inh, act + [e]);
    ScaleUp(base, Product(inh, true), Product(act, false), Factor(e, false), Product(act + [e], false),
            RegulatedActivity(base, inh, act + [e]).value, RegulatedActivity(base, inh, act).value);
  }

  /** The two loops of `allosteric_regulation`. */
  method AllostericRegulation(base: real, inhibitors: seq<Effector>, activators: seq<Effector>) returns (r: Result<real>)
    ensures r == RegulatedActivity(base, inhibitors, activators)
  {
    var inhibition := 1.0;
    var i := 0;
    while i < |inhibitors|
      invariant 0 <= i <= |inhibitors|
      invariant AllDefined(inhibitors[..i], true)
      invariant inhibition == Product(inhibitors[..i], true)
    {
      var e := inhibitors[i];
      if e.ki == 0.0 || 1.0 + e.concentration / e.ki == 0.0 {
        assert !Defined(inhibitors[i], true);
        return Raise(ZeroDivisionError);
      }
      assert inhibitors[..i + 1] == inhibitors[..i] + [e];
      ProductSnoc(inhibitors[..i], e, true);
      inhibition := inhibition * (1.0 / (1.0 + e.concentration / e.ki));
      i := i + 1;
    }
    assert inhibitors[..i] == inhibitors;
    assert AllDefined(inhibitors, true);
    var activation := 1.0;
    i := 0;
    while i < |activators|
      invariant 0 <= i <= |activators|
      invariant AllDefined(activators[..i], false)
      invariant activation == Product(activators[..i], false)
      invariant AllDefined(inhibitors, true) && inhibition == Product(inhibitors, true)
    {
      var e := activators[i];
      if e.ka == 0.0 {
        assert !Defined(activators[i], false);
        return Raise(ZeroDivisionError);
      }
      assert activators[..i + 1] == activators[..i] + [e];
      ProductSnoc(activators[..i], e, false);
      activation := activation * (1.0 + e.concentration / e.ka);
      i := i + 1;
    }
    assert activators[..i] == activators;
    assert activation == Product(activators, false);
    RegulatedActivityValue(base, inhibitors, activators);
    r := Ok(base * inhibition * activation);
    assert r.value == RegulatedActivity(base, inhibitors, activators).value;
  }

  /** `Enzyme`: name, maximum rate and Michaelis constant, never modified. */
  datatype Enzyme = Enzyme(name: string, vmax: real, km: real)

  /** `calculate_rate`: the Michaelis–Menten rate with the enzyme's own constants. */
  function CalculateRate(e: Enzyme, s: real): (r: Result<real>)
    ensures r.Raise? <==> e.km + s == 0.0
    ensures r.Raise? ==> r.error == ZeroDivisionError
    ensures r.Ok? ==> r.value * (e.km + s) == e.vmax * s
  {
    MichaelisMenten(s, e.vmax, e.km)
  }

  /**
   * For vmax > 0 and km > 0: the rate at S = 0 is 0, it stays in [0, vmax)
   * for S ≥ 0, is non-decreasing in S, and is vmax/2 at S = km.
   */
  lemma CalculateRateSpec(e: Enzyme, s: real, s2: real)
    requires e.vmax > 0.0 && e.km > 0.0 && 0.0 <= s <= s2
    ensures CalculateRate(e, 0.0) == Ok(0.0)
    ensures CalculateRate(e, s).Ok? && 0.0 <= CalculateRate(e, s).value < e.vmax
    ensures CalculateRate(e, s).value <= CalculateRate(e, s2).value
    ensures CalculateRate(e, e.km) == Ok(e.vmax / 2.0)
  {
    MichaelisMentenBounds(s, e.vmax, e.km);
    MichaelisMentenBounds(0.0, e.vmax, e.km);
    MichaelisMentenBounds(e.km, e.vmax, e.km);
    MichaelisMentenMonotone(s, s2, e.vmax, e.km);
  }
}
