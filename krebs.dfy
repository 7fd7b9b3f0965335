/**
 * pyology/krebs_cycle.py: the Krebs cycle organelle. Its store is split in
 * two: the bounded metabolites it inherits from the base Organelle and an
 * unbounded table of cofactors. Consume and produce handle their items one
 * at a time, so a raise part-way leaves the earlier items applied. Each of
 * the eight enzyme steps reads its substrate, computes a rate from its rate
 * law, consumes its substrates at that rate and produces its products.
 */
module Krebs {
  import opened Common
  import opened Stores
  import PyologyOrganelle
  import Kinetics

  type Cofactors = map<string, real>

  /** The two stores the cycle reads and changes. */
  datatype Pools = Pools(metabolites: Store, cofactors: Cofactors)

  /** An enzyme of the cycle: maximum rate, Michaelis constant and current activity. */
  datatype Enzyme = Enzyme(vmax: real, km: real, activity: real)

  type Enzymes = map<string, Enzyme>

  // The cycle's intermediates, looked up among the metabolites.
  const AcetylCoA: string := "Acetyl-CoA"
  const Oxaloacetate: string := "Oxaloacetate"
  const Citrate: string := "Citrate"
  const Isocitrate: string := "Isocitrate"
  const AlphaKetoglutarate: string := "α-Ketoglutarate"
  const SuccinylCoA: string := "Succinyl-CoA"
  const Succinate: string := "Succinate"
  const Fumarate: string := "Fumarate"
  const Malate: string := "Malate"

  // The cofactors.
  const Nad: string := "NAD"
  const Nadh: string := "NADH"
  const Fad: string := "FAD"
  const Fadh2: string := "FADH2"
  const CoenzymeA: string := "Coenzyme-A"
  const Atp: string := "ATP"
  const Adp: string := "ADP"
  const Gtp: string := "GTP"
  const Gdp: string := "GDP"
  const Co2: string := "CO2"

  /** `INITIAL_NAD` of pyology/constants.py. */
  const InitialNad: real := 10.0

  /** The cofactor table the constructor builds. */
  const InitialCofactors: Cofactors := map[
    Nad := InitialNad, Nadh := 0.0, Fad := 100.0, Fadh2 := 0.0, CoenzymeA := 100.0,
    Atp := 100.0, Adp := 0.0, Gtp := 0.0, Gdp := 0.0, Co2 := 0.0]

  /** The keys of the constructor's enzyme table. */
  const EnzymeKeys: set<string> := {
    "citrate_synthase", "aconitase", "isocitrate_dehydrogenase",
    "alpha_ketoglutarate_dehydrogenase", "succinyl_coa_synthetase",
    "succinate_dehydrogenase", "fumarase", "malate_dehydrogenase"}

  /** Every metabolite lies within [0, capacity] and every cofactor is non-negative. */
  ghost predicate Valid(p: Pools)
  {
    Bounded(p.metabolites) && forall k :: k in p.cofactors ==> p.cofactors[k] >= 0.0
  }

  /** The same names in both stores and the same capacities. */
  ghost predicate SameShape(p: Pools, q: Pools)
  {
    q.metabolites.Keys == p.metabolites.Keys && q.cofactors.Keys == p.cofactors.Keys &&
    forall k :: k in p.metabolites ==> q.metabolites[k].maxQuantity == p.metabolites[k].maxQuantity
  }

  /** The amount the cycle sees under a name: the metabolite if there is one, else the cofactor, else none. */
  function Amount(p: Pools, k: string): real
  {
    if k in p.metabolites then p.metabolites[k].quantity
    else if k in p.cofactors then p.cofactors[k]
    else 0.0
  }

  /** The total amount a list of items names `k` with. */
  function Weight(items: Items, k: string): (r: real)
  {
    if items == [] then 0.0 else (if items[0].0 == k then items[0].1 else 0.0) + Weight(items[1..], k)
  }

  /**
   * `is_metabolite_available`: the metabolite's quantity if the name is a
   * metabolite, else the cofactor's if it is a cofactor; an unknown name is
   * never available.
   */
  function Available(p: Pools, name: string, amount: real): (r: bool)
    ensures name in p.metabolites ==> (r <==> p.metabolites[name].quantity >= amount)
    ensures name !in p.metabolites && name in p.cofactors ==> (r <==> p.cofactors[name] >= amount)
    ensures r ==> name in p.metabolites || name in p.cofactors
  {
    if name in p.metabolites then p.metabolites[name].quantity >= amount
    else if name in p.cofactors then p.cofactors[name] >= amount
    else false
  }

  /**
   * One item of `consume_metabolites`: ValueError for a negative amount, an
   * unknown name or a shortfall; otherwise the metabolite, or failing that
   * the cofactor, loses the amount.
   */
  function ConsumeOne(p: Pools, item: (string, real)): (r: Result<Pools>)
    ensures r.Raise? ==> r.error == ValueError
    ensures r.Ok? <==> item.1 >= 0.0 && Available(p, item.0, item.1)
    ensures r.Ok? ==> SameShape(p, r.value)
    ensures r.Ok? ==> Amount(r.value, item.0) == Amount(p, item.0) - item.1
    ensures r.Ok? ==> forall k :: k != item.0 ==> Amount(r.value, k) == Amount(p, k)
  {
    var (name, amount) := item;
    if amount < 0.0 then Raise(ValueError)
    else if name !in p.metabolites && name !in p.cofactors then Raise(ValueError)
    else if !Available(p, name, amount) then Raise(ValueError)
    else if name in p.metabolites then
      Ok(p.(metabolites := WithQuantity(p.metabolites, name, p.metabolites[name].quantity - amount)))
    else
      Ok(p.(cofactors := p.cofactors[name := p.cofactors[name] - amount]))
  }

  /**
   * One item of `produce_metabolites`: ValueError for a negative amount, an
   * unknown name, or a metabolite that would exceed its capacity; a cofactor
   * has no capacity.
   */
  function ProduceOne(p: Pools, item: (string, real)): (r: Result<Pools>)
    ensures r.Raise? ==> r.error == ValueError
    ensures r.Ok? <==> (item.1 >= 0.0 && (item.0 in p.metabolites || item.0 in p.cofactors) &&
      (item.0 in p.metabolites ==> p.metabolites[item.0].quantity + item.1 <= p.metabolites[item.0].maxQuantity))
    ensures r.Ok? ==> SameShape(p, r.value)
    ensures r.Ok? ==> Amount(r.value, item.0) == Amount(p, item.0) + item.1
    ensures r.Ok? ==> forall k :: k != item.0 ==> Amount(r.value, k) == Amount(p, k)
  {
    var (name, amount) := item;
    if amount < 0.0 then Raise(ValueError)
    else if name in p.metabolites then
      var q := p.metabolites[name].quantity + amount;
      if q > p.metabolites[name].maxQuantity then Raise(ValueError)
      else Ok(p.(metabolites := WithQuantity(p.metabolites, name, q)))
    else if name in p.cofactors then
      Ok(p.(cofactors := p.cofactors[name := p.cofactors[name] + amount]))
    else Raise(ValueError)
  }

  function ApplyOne(p: Pools, item: (string, real), produce: bool): Result<Pools>
  {
    if produce then ProduceOne(p, item) else ConsumeOne(p, item)
  }

  /**
   * `consume_metabolites` (produce = false) and `produce_metabolites`
   * (produce = true): each item in call order; the first raise stops the
   * pass with the earlier items already applied.
   */
  function Sequenced(p: Pools, items: Items, produce: bool): (r: Partial<Pools>)
    decreases |items|
  {
    if items == [] then Partial(p, None)
    else
      match ApplyOne(p, items[0], produce)
      case Raise(e) => Partial(p, Some(e))
      case Ok(q) => Sequenced(q, items[1..], produce)
  }

  /** Two passes in a row are one pass over both lists, stopping at the first raise. */
  lemma {:induction false} SequencedSplit(p: Pools, a: Items, b: Items, produce: bool)
    ensures Sequenced(p, a + b, produce) ==
      (var c := Sequenced(p, a, produce); if c.error.Some? then c else Sequenced(c.state, b, produce))
    decreases |a|
  {
    if a == [] {
      assert a + b == b;
    } else {
      assert (a + b)[0] == a[0] && (a + b)[1..] == a[1..] + b;
      match ApplyOne(p, a[0], produce)
      case Raise(e) =>
      case Ok(q) => SequencedSplit(q, a[1..], b, produce);
    }
  }

  /** Every raise is a ValueError, and a pass changes no name and no capacity. */
  lemma {:induction false} SequencedShape(p: Pools, items: Items, produce: bool)
    ensures Sequenced(p, items, produce).error.Some? ==> Sequenced(p, items, produce).error.value == ValueError
    ensures SameShape(p, Sequenced(p, items, produce).state)
    decreases |items|
  {
    if items != [] {
      match ApplyOne(p, items[0], produce)
      case Raise(e) =>
      case Ok(q) => SequencedShape(q, items[1..], produce);
    }
  }

  /**
   * A completed consume lowers every name by the total it was asked for; a
   * completed produce raises it by that total.
   */
  lemma {:induction false} SequencedAmounts(p: Pools, items: Items, produce: bool, k: string)
    requires Sequenced(p, items, produce).error == None
    ensures Amount(Sequenced(p, items, produce).state, k) ==
      Amount(p, k) + (if produce then Weight(items, k) else -Weight(items, k))
    decreases |items|
  {
    if items != [] {
      var q := ApplyOne(p, items[0], produce).value;
      SequencedAmounts(q, items[1..], produce, k);
    }
  }

  /**
   * Consume is not atomic: when the items before index j go through and the
   * j-th fails, the call raises ValueError with the earlier items' amounts
   * already taken.
   */
  lemma ConsumeKeepsEarlier(p: Pools, items: Items, j: nat, k: string)
    requires j < |items|
    requires Sequenced(p, items[..j], false).error == None
    requires ConsumeOne(Sequenced(p, items[..j], false).state, items[j]).Raise?
    ensures Sequenced(p, items, false).error == Some(ValueError)
    ensures Amount(Sequenced(p, items, false).state, k) == Amount(p, k) - Weight(items[..j], k)
  {
    assert items == items[..j] + items[j..];
    SequencedSplit(p, items[..j], items[j..], false);
    SequencedAmounts(p, items[..j], false, k);
  }

  /** Produce is not atomic either: a failing j-th item leaves the earlier ones produced. */
  lemma ProduceKeepsEarlier(p: Pools, items: Items, j: nat, k: string)
    requires j < |items|
    requires Sequenced(p, items[..j], true).error == None
    requires ProduceOne(Sequenced(p, items[..j], true).state, items[j]).Raise?
    ensures Sequenced(p, items, true).error == Some(ValueError)
    ensures Amount(Sequenced(p, items, true).state, k) == Amount(p, k) + Weight(items[..j], k)
  {
    assert items == items[..j] + items[j..];
    SequencedSplit(p, items[..j], items[j..], true);
    SequencedAmounts(p, items[..j], true, k);
  }

  /** Neither pass can break the bounds of the metabolites or make a cofactor negative. */
  lemma {:induction false} SequencedKeepsValid(p: Pools, items: Items, produce: bool)
    requires Valid(p)
    ensures Valid(Sequenced(p, items, produce).state)
    decreases |items|
  {
    if items != [] {
      match ApplyOne(p, items[0], produce)
      case Raise(e) =>
      case Ok(q) =>
        assert Valid(q);
        SequencedKeepsValid(q, items[1..], produce);
    }
  }

  /**
   * Cofactors are unbounded: producing any non-negative amount of a cofactor
   * that is not also a metabolite always succeeds, however large the total.
   */
  lemma CofactorsUnbounded(p: Pools, name: string, amount: real)
    requires name !in p.metabolites && name in p.cofactors && amount >= 0.0
    ensures Sequenced(p, [(name, amount)], true) ==
      Partial(p.(cofactors := p.cofactors[name := p.cofactors[name] + amount]), None)
  {
    var q := p.(cofactors := p.cofactors[name := p.cofactors[name] + amount]);
    var items := [(name, amount)];
    assert ProduceOne(p, items[0]) == Ok(q);
    assert ApplyOne(p, items[0], true) == Ok(q);
    assert items[1..] == [];
    assert Sequenced(p, items, true) == Sequenced(q, [], true);
  }

  /**
   * `add_substrate`: ValueError for an amount ≤ 0 or an unknown name.
   * Acetyl-CoA is always looked up among the metabolites (KeyError when it
   * is not one); any other name raises its metabolite, or failing that its
   * cofactor, by the amount, with no capacity check.
   */
  function SubstrateAdded(p: Pools, substrate: string, amount: real): (r: Result<Pools>)
    ensures r.Ok? <==> (amount > 0.0 &&
      (substrate in p.metabolites || (substrate != AcetylCoA && substrate in p.cofactors)))
    ensures r.Raise? ==> r.error == (if amount > 0.0 && substrate == AcetylCoA then KeyError else ValueError)
    ensures r.Ok? ==> SameShape(p, r.value)
    ensures r.Ok? ==> Amount(r.value, substrate) == Amount(p, substrate) + amount
    ensures r.Ok? ==> forall k :: k != substrate ==> Amount(r.value, k) == Amount(p, k)
  {
    if amount <= 0.0 then Raise(ValueError)
    else if substrate == AcetylCoA then
      if AcetylCoA !in p.metabolites then Raise(KeyError)
      else Ok(p.(metabolites := WithQuantity(p.metabolites, AcetylCoA, p.metabolites[AcetylCoA].quantity + amount)))
    else if substrate in p.metabolites then
      Ok(p.(metabolites := WithQuantity(p.metabolites, substrate, p.metabolites[substrate].quantity + amount)))
    else if substrate in p.cofactors then
      Ok(p.(cofactors := p.cofactors[substrate := p.cofactors[substrate] + amount]))
    else Raise(ValueError)
  }

  /** Unlike produce, adding a substrate may push a metabolite past its capacity. */
  lemma SubstrateMayOverfill()
    ensures var p := Pools(map[Citrate := Entry(Citrate, 90.0, 100.0)], map[]);
      Valid(p) && SubstrateAdded(p, Citrate, 20.0).Ok? && !Valid(SubstrateAdded(p, Citrate, 20.0).value)
  {
    var p := Pools(map[Citrate := Entry(Citrate, 90.0, 100.0)], map[]);
    assert Citrate != AcetylCoA by { assert |Citrate| != |AcetylCoA|; }
    assert SubstrateAdded(p, Citrate, 20.0).value.metabolites[Citrate].quantity == 110.0;
  }

  /** The pools a freshly constructed cycle starts from. */
  const InitialPools: Pools := Pools(PyologyOrganelle.InitialStore, InitialCofactors)

  /** The step numbers, in the order `run_cycle` calls the steps. */
  type StepIndex = i: int | 1 <= i <= 8 witness 1

  /** The enzyme table key each step uses. */
  function EnzymeKey(i: StepIndex): (r: string)
    ensures r in EnzymeKeys
  {
    if i == 1 then "citrate_synthase"
    else if i == 2 then "aconitase"
    else if i == 3 then "isocitrate_dehydrogenase"
    else if i == 4 then "alpha_ketoglutarate_dehydrogenase"
    else if i == 5 then "succinyl_coa_synthetase"
    else if i == 6 then "succinate_dehydrogenase"
    else if i == 7 then "fumarase"
    else "malate_dehydrogenase"
  }

  /** The method name of each step: `step<i>_` followed by its enzyme's key. */
  function StepName(i: StepIndex): (r: string)
  {
    "step" + [(i + 48) as char] + "_" + EnzymeKey(i)
  }

  /** What each step method returns: step 1 returns True, the others None. */
  function StepValue(i: StepIndex): (r: Option<bool>)
    ensures r.Some? <==> i == 1
    ensures r.Some? ==> r.value
  {
    if i == 1 then Some(true) else None
  }

  /** `self.metabolites[name].quantity`: KeyError for a name that is not a metabolite. */
  function Quantity(p: Pools, name: string): Result<real>
  {
    if name in p.metabolites then Ok(p.metabolites[name].quantity) else Raise(KeyError)
  }

  /** `self.cofactors[name]`: KeyError for a name that is not a cofactor. */
  function Cofactor(p: Pools, name: string): Result<real>
  {
    if name in p.cofactors then Ok(p.cofactors[name]) else Raise(KeyError)
  }

  /** The substrate whose quantity drives each step's rate law (step 1 takes the smaller of two). */
  function Substrate(i: StepIndex): string
  {
    if i == 1 then AcetylCoA
    else if i == 2 then Citrate
    else if i == 3 then Isocitrate
    else if i == 4 then AlphaKetoglutarate
    else if i == 5 then SuccinylCoA
    else if i == 6 then Succinate
    else if i == 7 then Fumarate
    else Malate
  }

  /**
   * Step 4's product inhibition: the activity is one less the mean of
   * ATP/100, NADH/100 and Succinyl-CoA/10. It is at most 1 for non-negative
   * inhibitors, and it reaches 0 once that mean reaches 1.
   */
  function InhibitedActivity(atp: real, nadh: real, succinylCoA: real): (r: real)
    ensures atp >= 0.0 && nadh >= 0.0 && succinylCoA >= 0.0 ==> r <= 1.0
    ensures r == 1.0 <==> atp / 100.0 + nadh / 100.0 + succinylCoA / 10.0 == 0.0
    ensures r <= 0.0 <==> 10.0 * atp + 10.0 * nadh + 100.0 * succinylCoA >= 3000.0
  {
    1.0 - (atp / 100.0 + nadh / 100.0 + succinylCoA / 10.0) / 3.0
  }

  /** Step 1: Michaelis–Menten on the smaller of Acetyl-CoA and Oxaloacetate. */
  function CitrateSynthaseRate(p: Pools, e: Enzyme): (r: Result<real>)
    ensures AcetylCoA !in p.metabolites || Oxaloacetate !in p.metabolites ==> r == Raise(KeyError)
    ensures r.Raise? ==> r.error == KeyError || r.error == ZeroDivisionError
    ensures r.Ok? ==> var s := Min(p.metabolites[AcetylCoA].quantity, p.metabolites[Oxaloacetate].quantity);
      r.value * (e.km + s) == e.vmax * e.activity * s
  {
    match Quantity(p, AcetylCoA)
    case Raise(err) => Raise(err)
    case Ok(a) =>
      match Quantity(p, Oxaloacetate)
      case Raise(err) => Raise(err)
      case Ok(o) => Kinetics.MichaelisMenten(Min(a, o), e.vmax * e.activity, e.km)
  }

  /**
   * Step 3: the activity regulated by ATP (inhibitor, Ki 100, Ka 1000) and
   * ADP (activator, Ki 1000, Ka 100), then the Hill equation with n = 2.
   */
  function IsocitrateDehydrogenaseRate(p: Pools, e: Enzyme): (r: Result<real>)
    ensures Isocitrate !in p.metabolites || Atp !in p.cofactors || Adp !in p.cofactors ==> r == Raise(KeyError)
    ensures r.Raise? ==> r.error == KeyError || r.error == ZeroDivisionError
    ensures r.Ok? ==>
      var regulated := Kinetics.RegulatedActivity(e.activity, [Kinetics.Effector(p.cofactors[Atp], 100.0, 1000.0)],
        [Kinetics.Effector(p.cofactors[Adp], 1000.0, 100.0)]);
      var s := p.metabolites[Isocitrate].quantity;
      regulated.Ok? &&
      r.value * (Kinetics.Pow(e.km, 2) + Kinetics.Pow(s, 2)) == e.vmax * regulated.value * Kinetics.Pow(s, 2)
  {
    match Quantity(p, Isocitrate)
    case Raise(err) => Raise(err)
    case Ok(s) =>
      match Cofactor(p, Atp)
      case Raise(err) => Raise(err)
      case Ok(atp) =>
        match Cofactor(p, Adp)
        case Raise(err) => Raise(err)
        case Ok(adp) =>
          match Kinetics.RegulatedActivity(e.activity, [Kinetics.Effector(atp, 100.0, 1000.0)],
            [Kinetics.Effector(adp, 1000.0, 100.0)])
          case Raise(err) => Raise(err)
          case Ok(regulated) => Kinetics.Hill(s, e.vmax * regulated, e.km, 2)
  }

  /** Step 4: Michaelis–Menten with the maximum rate scaled by the inhibited activity. */
  function KetoglutarateDehydrogenaseRate(p: Pools, e: Enzyme): (r: Result<real>)
    ensures (AlphaKetoglutarate !in p.metabolites || Atp !in p.cofactors || Nadh !in p.cofactors ||
      SuccinylCoA !in p.metabolites) ==> r == Raise(KeyError)
    ensures r.Raise? ==> r.error == KeyError || r.error == ZeroDivisionError
    ensures r.Ok? ==>
      var s := p.metabolites[AlphaKetoglutarate].quantity;
      var inhibited := InhibitedActivity(p.cofactors[Atp], p.cofactors[Nadh], p.metabolites[SuccinylCoA].quantity);
      r.value * (e.km + s) == InhibitedVmax(e, inhibited) * s
  {
    match Quantity(p, AlphaKetoglutarate)
    case Raise(err) => Raise(err)
    case Ok(s) =>
      match Cofactor(p, Atp)
      case Raise(err) => Raise(err)
      case Ok(atp) =>
        match Cofactor(p, Nadh)
        case Raise(err) => Raise(err)
        case Ok(nadh) =>
          match Quantity(p, SuccinylCoA)
          case Raise(err) => Raise(err)
          case Ok(succinylCoA) =>
            Kinetics.MichaelisMenten(s, InhibitedVmax(e, InhibitedActivity(atp, nadh, succinylCoA)), e.km)
  }

  /** Step 4's maximum rate: vmax × inhibited activity × the enzyme's own activity. */
  function InhibitedVmax(e: Enzyme, inhibited: real): real
  {
    e.vmax * inhibited * e.activity
  }

  /** The rate a step reacts at: its enzyme's entry (KeyError if absent), then its rate law. */
  function StepRate(p: Pools, enzymes: Enzymes, i: StepIndex): Result<real>
  {
    if EnzymeKey(i) !in enzymes then Raise(KeyError)
    else
      var e := enzymes[EnzymeKey(i)];
      if i == 1 then CitrateSynthaseRate(p, e)
      else if i == 3 then IsocitrateDehydrogenaseRate(p, e)
      else if i == 4 then KetoglutarateDehydrogenaseRate(p, e)
      else
        match Quantity(p, Substrate(i))
        case Raise(err) => Raise(err)
        case Ok(s) => Kinetics.MichaelisMenten(s, e.vmax * e.activity, e.km)
  }

  /** The keyword arguments each step passes to `consume_metabolites`. */
  function Consumed(i: StepIndex, rate: real): Items
  {
    if i == 1 then [(AcetylCoA, rate), (Oxaloacetate, rate)]
    else if i == 2 then [(Citrate, rate)]
    else if i == 3 then [(Isocitrate, rate), (Nad, rate)]
    else if i == 4 then [(AlphaKetoglutarate, rate), (Nad, rate)]
    else if i == 5 then [(SuccinylCoA, rate), (Gdp, rate)]
    else if i == 6 then [(Succinate, rate), (Fad, rate)]
    else if i == 7 then [(Fumarate, rate)]
    else [(Malate, rate), (Nad, rate)]
  }

  /** The keyword arguments each step passes to `produce_metabolites`. */
  function Produced(i: StepIndex, rate: real): Items
  {
    if i == 1 then [(Citrate, rate)]
    else if i == 2 then [(Isocitrate, rate)]
    else if i == 3 then [(AlphaKetoglutarate, rate), (Nadh, rate), (Co2, rate)]
    else if i == 4 then [(SuccinylCoA, rate), (Nadh, rate), (Co2, rate)]
    else if i == 5 then [(Succinate, rate), (Gtp, rate), (CoenzymeA, rate)]
    else if i == 6 then [(Fumarate, rate), (Fadh2, rate)]
    else if i == 7 then [(Malate, rate)]
    else [(Oxaloacetate, rate), (Nadh, rate)]
  }

  /**
   * "If consume, then produce": consume the substrates, produce the
   * products, then add `release` (if any) to the Coenzyme-A cofactor.
   * Consume returns True or raises, so the steps' "insufficient substrates"
   * branches are never taken: a shortfall propagates as ValueError.
   */
  function Catalysed(p: Pools, consumed: Items, produced: Items, release: Option<real>): Partial<Pools>
  {
    var c := Sequenced(p, consumed, false);
    if c.error.Some? then c
    else
      var q := Sequenced(c.state, produced, true);
      if q.error.Some? || release.None? then q
      else if CoenzymeA !in q.state.cofactors then Partial(q.state, Some(KeyError))
      else Partial(q.state.(cofactors := q.state.cofactors[CoenzymeA := q.state.cofactors[CoenzymeA] + release.value]), None)
  }

  /** Step `i` at a known rate; only step 1 releases Coenzyme-A. */
  function React(p: Pools, i: StepIndex, rate: real): Partial<Pools>
  {
    Catalysed(p, Consumed(i, rate), Produced(i, rate), if i == 1 then Some(rate) else None)
  }

  /** One step: its rate, then the reaction at that rate. */
  function Stepped(p: Pools, enzymes: Enzymes, i: StepIndex): Partial<Pools>
  {
    match StepRate(p, enzymes, i)
    case Raise(e) => Partial(p, Some(e))
    case Ok(rate) => React(p, i, rate)
  }

  /** A step run against a given enzyme table. */
  type StepBody = (Pools, StepIndex) -> Partial<Pools>

  function StepOf(enzymes: Enzymes): StepBody
  {
    (x: Pools, i: StepIndex) => Stepped(x, enzymes, i)
  }

  /** Steps `from` to 8 in order, stopping at the first raise. */
  function Steps(p: Pools, step: StepBody, from: int): Partial<Pools>
    requires 1 <= from <= 9
    decreases 9 - from
  {
    if from == 9 then Partial(p, None)
    else
      var s := step(p, from);
      if s.error.Some? then s else Steps(s.state, step, from + 1)
  }

  /**
   * `run_cycle`: KeyError when Acetyl-CoA is not a metabolite; nothing at
   * all when its quantity is not positive; otherwise the eight steps.
   */
  function CycleRun(p: Pools, enzymes: Enzymes): (r: Partial<Pools>)
    ensures AcetylCoA !in p.metabolites ==> r == Partial(p, Some(KeyError))
    ensures AcetylCoA in p.metabolites && p.metabolites[AcetylCoA].quantity <= 0.0 ==> r == Partial(p, None)
  {
    match Quantity(p, AcetylCoA)
    case Raise(e) => Partial(p, Some(e))
    case Ok(q) => if q > 0.0 then Steps(p, StepOf(enzymes), 1) else Partial(p, None)
  }

  /**
   * A fresh cycle knows only the base organelle's six metabolites, so it
   * cannot start: run_cycle raises KeyError, and so does adding Acetyl-CoA.
   */
  lemma FreshCycleCannotStart(enzymes: Enzymes, amount: real)
    requires amount > 0.0
    ensures CycleRun(InitialPools, enzymes) == Partial(InitialPools, Some(KeyError))
    ensures SubstrateAdded(InitialPools, AcetylCoA, amount) == Raise(KeyError)
  {
    assert AcetylCoA !in InitialPools.metabolites;
  }

  /** A completed pass took every item with a non-negative amount, the first one included. */
  lemma SequencedHeadNonnegative(p: Pools, items: Items, produce: bool)
    requires items != [] && Sequenced(p, items, produce).error == None
    ensures items[0].1 >= 0.0
  {
  }

  /** No reaction breaks the bounds of the metabolites or makes a cofactor negative, even when it raises. */
  lemma CatalysedKeepsValid(p: Pools, consumed: Items, produced: Items, release: Option<real>)
    requires Valid(p)
    requires release.Some? ==> consumed != [] && consumed[0].1 == release.value
    ensures Valid(Catalysed(p, consumed, produced, release).state)
    ensures SameShape(p, Catalysed(p, consumed, produced, release).state)
  {
    var c := Sequenced(p, consumed, false);
    SequencedKeepsValid(p, consumed, false);
    SequencedShape(p, consumed, false);
    if c.error.None? {
      var q := Sequenced(c.state, produced, true);
      SequencedKeepsValid(c.state, produced, true);
      SequencedShape(c.state, produced, true);
      if q.error.None? && release.Some? && CoenzymeA in q.state.cofactors {
        SequencedHeadNonnegative(p, consumed, false);
        ReleaseKeepsValid(q.state, release.value);
      }
    }
  }

  /** Adding a non-negative amount to the Coenzyme-A cofactor keeps the pools valid and their shape. */
  lemma ReleaseKeepsValid(q: Pools, amount: real)
    requires Valid(q) && CoenzymeA in q.cofactors && amount >= 0.0
    ensures Valid(q.(cofactors := q.cofactors[CoenzymeA := q.cofactors[CoenzymeA] + amount]))
    ensures SameShape(q, q.(cofactors := q.cofactors[CoenzymeA := q.cofactors[CoenzymeA] + amount]))
  {
  }

  lemma StepKeepsValid(p: Pools, enzymes: Enzymes, i: StepIndex)
    requires Valid(p)
    ensures Valid(Stepped(p, enzymes, i).state)
    ensures SameShape(p, Stepped(p, enzymes, i).state)
  {
    if StepRate(p, enzymes, i).Ok? {
      var rate := StepRate(p, enzymes, i).value;
      CatalysedKeepsValid(p, Consumed(i, rate), Produced(i, rate), if i == 1 then Some(rate) else None);
    }
  }

  /** Steps that each keep the pools valid and their shape keep them so in sequence. */
  lemma {:induction false} StepsKeepValid(p: Pools, step: StepBody, from: int)
    requires 1 <= from <= 9 && Valid(p)
    requires forall x, i :: Valid(x) ==> Valid(step(x, i).state) && SameShape(x, step(x, i).state)
    ensures Valid(Steps(p, step, from).state)
    ensures SameShape(p, Steps(p, step, from).state)
    decreases 9 - from
  {
    if from < 9 {
      var s := step(p, from);
      if s.error.None? {
        StepsKeepValid(s.state, step, from + 1);
      }
    }
  }

  /** A turn of the cycle keeps the pools valid and changes no name and no capacity. */
  lemma RunCycleKeepsValid(p: Pools, enzymes: Enzymes)
    requires Valid(p)
    ensures Valid(CycleRun(p, enzymes).state)
    ensures SameShape(p, CycleRun(p, enzymes).state)
  {
    forall x, i | Valid(x)
      ensures Valid(StepOf(enzymes)(x, i).state) && SameShape(x, StepOf(enzymes)(x, i).state)
    {
      StepKeepsValid(x, enzymes, i);
    }
    StepsKeepValid(p, StepOf(enzymes), 1);
  }

  /**
   * A completed reaction changes the amount under each name by what it
   * produces less what it consumes, plus any Coenzyme-A it releases to the
   * cofactor table.
   */
  lemma CatalysedAmounts(p: Pools, consumed: Items, produced: Items, release: Option<real>, k: string)
    requires Catalysed(p, consumed, produced, release).error == None
    ensures Amount(Catalysed(p, consumed, produced, release).state, k) ==
      Amount(p, k) - Weight(consumed, k) + Weight(produced, k) +
      (if release.Some? && k == CoenzymeA && CoenzymeA !in p.metabolites then release.value else 0.0)
  {
    var c := Sequenced(p, consumed, false);
    SequencedAmounts(p, consumed, false, k);
    SequencedShape(p, consumed, false);
    SequencedAmounts(c.state, produced, true, k);
    SequencedShape(c.state, produced, true);
  }

  /**
   * Step 1 on success: Acetyl-CoA and Oxaloacetate fall by the rate,
   * Citrate and Coenzyme-A rise by it, and nothing else changes.
   */
  lemma CitrateSynthaseEffect(p: Pools, enzymes: Enzymes, k: string)
    requires Stepped(p, enzymes, 1).error == None
    requires CoenzymeA !in p.metabolites
    ensures StepRate(p, enzymes, 1).Ok?
    ensures var rate := StepRate(p, enzymes, 1).value;
      Amount(Stepped(p, enzymes, 1).state, k) == Amount(p, k) +
        (if k == AcetylCoA || k == Oxaloacetate then -rate
         else if k == Citrate || k == CoenzymeA then rate
         else 0.0)
  {
    var rate := StepRate(p, enzymes, 1).value;
    var consumed, produced := [(AcetylCoA, rate), (Oxaloacetate, rate)], [(Citrate, rate)];
    CatalysedAmounts(p, consumed, produced, Some(rate), k);
    assert AcetylCoA[0] != CoenzymeA[0];
    assert consumed[1..] == [(Oxaloacetate, rate)] && consumed[1..][1..] == [] && produced[1..] == [];
    assert Weight(consumed, k) == (if k == AcetylCoA then rate else 0.0) + (if k == Oxaloacetate then rate else 0.0);
    assert Weight(produced, k) == (if k == Citrate then rate else 0.0);
  }

  lemma WeightOfOne(x: string, r: real, k: string)
    ensures Weight([(x, r)], k) == (if x == k then r else 0.0)
  {
    assert [(x, r)][1..] == [];
  }

  lemma WeightOfTwo(x: string, y: string, r: real, k: string)
    ensures Weight([(x, r), (y, r)], k) == (if x == k then r else 0.0) + (if y == k then r else 0.0)
  {
    assert [(x, r), (y, r)][1..] == [(y, r)];
    WeightOfOne(y, r, k);
  }

  lemma WeightOfThree(x: string, y: string, z: string, r: real, k: string)
    ensures Weight([(x, r), (y, r), (z, r)], k) ==
      (if x == k then r else 0.0) + (if y == k then r else 0.0) + (if z == k then r else 0.0)
  {
    assert [(x, r), (y, r), (z, r)][1..] == [(y, r), (z, r)];
    WeightOfTwo(y, z, r, k);
  }

  /** The cofactor pairs the steps convert into one another. */
  predicate CofactorPair(a: string, b: string)
  {
    (a == Nad && b == Nadh) || (a == Fad && b == Fadh2) || (a == Gdp && b == Gtp)
  }

  /** The weight of a step's list under `k`, spelled out item by item. */
  lemma WeightOfStep(items: Items, k: string)
    requires 1 <= |items| <= 3 && forall j :: 0 <= j < |items| ==> items[j].1 == items[0].1
    ensures Weight(items, k) ==
      (if items[0].0 == k then items[0].1 else 0.0) +
      (if |items| > 1 && items[1].0 == k then items[0].1 else 0.0) +
      (if |items| > 2 && items[2].0 == k then items[0].1 else 0.0)
  {
    var r := items[0].1;
    if |items| == 1 {
      assert items == [(items[0].0, r)];
      WeightOfOne(items[0].0, r, k);
    } else if |items| == 2 {
      assert items == [(items[0].0, r), (items[1].0, r)];
      WeightOfTwo(items[0].0, items[1].0, r, k);
    } else {
      assert items == [(items[0].0, r), (items[1].0, r), (items[2].0, r)];
      WeightOfThree(items[0].0, items[1].0, items[2].0, r, k);
    }
  }

  /** Each step gives out of a cofactor pair exactly what it takes in. */
  lemma PairBalanced(i: StepIndex, rate: real, a: string, b: string)
    requires CofactorPair(a, b)
    ensures Weight(Produced(i, rate), a) + Weight(Produced(i, rate), b) ==
      Weight(Consumed(i, rate), a) + Weight(Consumed(i, rate), b)
  {
    WeightOfStep(Consumed(i, rate), a);
    WeightOfStep(Consumed(i, rate), b);
    WeightOfStep(Produced(i, rate), a);
    WeightOfStep(Produced(i, rate), b);
    if a == Nad {
      NamesOfNadPair(i, rate);
    } else if a == Fad {
      NamesOfFadPair(i, rate);
    } else {
      NamesOfGdpPair(i, rate);
    }
  }

  /** Only steps 3, 4 and 8 name NAD or NADH: each takes one NAD and gives one NADH. */
  lemma NamesOfNadPair(i: StepIndex, rate: real)
    ensures var c, p := Consumed(i, rate), Produced(i, rate);
      (forall j :: 0 <= j < |c| && c[j].0 == Nad ==> i in {3, 4, 8} && j == 1) &&
      (forall j :: 0 <= j < |p| && p[j].0 == Nadh ==> i in {3, 4, 8} && j == 1) &&
      (forall j :: 0 <= j < |c| ==> c[j].0 != Nadh) && (forall j :: 0 <= j < |p| ==> p[j].0 != Nad) &&
      (i in {3, 4, 8} ==> c[1].0 == Nad && p[1].0 == Nadh)
  {
    assert Nad[0] != Co2[0] && Nad[0] != Gdp[0] && Nad[0] != Gtp[0] && Nad[0] != Fad[0];
  }

  /** Only step 6 names FAD or FADH2: it takes one FAD and gives one FADH2. */
  lemma NamesOfFadPair(i: StepIndex, rate: real)
    ensures var c, p := Consumed(i, rate), Produced(i, rate);
      (forall j :: 0 <= j < |c| && c[j].0 == Fad ==> i == 6 && j == 1) &&
      (forall j :: 0 <= j < |p| && p[j].0 == Fadh2 ==> i == 6 && j == 1) &&
      (forall j :: 0 <= j < |c| ==> c[j].0 != Fadh2) && (forall j :: 0 <= j < |p| ==> p[j].0 != Fad) &&
      (i == 6 ==> c[1].0 == Fad && p[1].0 == Fadh2)
  {
    assert Fad[0] != Co2[0] && Fad[0] != Gdp[0] && Fad[0] != Gtp[0] && Fad[0] != Nad[0];
  }

  /** Only step 5 names GDP or GTP: it takes one GDP and gives one GTP. */
  lemma NamesOfGdpPair(i: StepIndex, rate: real)
    ensures var c, p := Consumed(i, rate), Produced(i, rate);
      (forall j :: 0 <= j < |c| && c[j].0 == Gdp ==> i == 5 && j == 1) &&
      (forall j :: 0 <= j < |p| && p[j].0 == Gtp ==> i == 5 && j == 1) &&
      (forall j :: 0 <= j < |c| ==> c[j].0 != Gtp) && (forall j :: 0 <= j < |p| ==> p[j].0 != Gdp) &&
      (i == 5 ==> c[1].0 == Gdp && p[1].0 == Gtp)
  {
    assert Gdp[0] != Co2[0] && Gdp[1] != Gtp[1] && Gtp[0] != Co2[0];
    assert Gdp[0] != Nad[0] && Gdp[0] != Fad[0] && Gtp[0] != Nad[0] && Gtp[0] != Fad[0];
  }

  /** The combined amount of two names. */
  function PairTotal(p: Pools, a: string, b: string): (r: real)
  {
    Amount(p, a) + Amount(p, b)
  }

  /** A completed step keeps NAD+NADH, FAD+FADH2 and GDP+GTP. */
  lemma StepKeepsPair(p: Pools, enzymes: Enzymes, i: StepIndex, a: string, b: string)
    requires CofactorPair(a, b) && Stepped(p, enzymes, i).error == None
    ensures PairTotal(Stepped(p, enzymes, i).state, a, b) == PairTotal(p, a, b)
  {
    var rate := StepRate(p, enzymes, i).value;
    var release := if i == 1 then Some(rate) else None;
    CatalysedAmounts(p, Consumed(i, rate), Produced(i, rate), release, a);
    CatalysedAmounts(p, Consumed(i, rate), Produced(i, rate), release, b);
    PairBalanced(i, rate, a, b);
  }

  /** Steps that each keep a pair's total keep it in sequence. */
  lemma {:induction false} StepsKeepPair(p: Pools, step: StepBody, from: int, a: string, b: string)
    requires 1 <= from <= 9 && Steps(p, step, from).error == None
    requires forall x, i :: step(x, i).error == None ==> PairTotal(step(x, i).state, a, b) == PairTotal(x, a, b)
    ensures PairTotal(Steps(p, step, from).state, a, b) == PairTotal(p, a, b)
    decreases 9 - from
  {
    if from < 9 {
      StepsKeepPair(step(p, from).state, step, from + 1, a, b);
    }
  }

  /**
   * A completed turn of the cycle keeps NAD+NADH, FAD+FADH2 and GDP+GTP.
   * A turn that raises part-way need not: consume and produce are not
   * atomic.
   */
  lemma RunCycleKeepsPair(p: Pools, enzymes: Enzymes, a: string, b: string)
    requires CofactorPair(a, b) && CycleRun(p, enzymes).error == None
    ensures PairTotal(CycleRun(p, enzymes).state, a, b) == PairTotal(p, a, b)
  {
    if AcetylCoA in p.metabolites && p.metabolites[AcetylCoA].quantity > 0.0 {
      forall x, i | StepOf(enzymes)(x, i).error == None
        ensures PairTotal(StepOf(enzymes)(x, i).state, a, b) == PairTotal(x, a, b)
      {
        StepKeepsPair(x, enzymes, i, a, b);
      }
      StepsKeepPair(p, StepOf(enzymes), 1, a, b);
    }
  }

  lemma MulNegative(x: real, y: real)
    requires x > 0.0 && y < 0.0
    ensures x * y < 0.0
  {
  }

  /**
   * When ATP, NADH and Succinyl-CoA inhibit step 4 past zero activity, its
   * Michaelis–Menten rate is negative, so the step's consume raises
   * ValueError at once and nothing changes.
   */
  lemma OverInhibitedStepRaises(p: Pools, enzymes: Enzymes)
    requires EnzymeKey(4) in enzymes
    requires var e := enzymes[EnzymeKey(4)]; e.vmax > 0.0 && e.km > 0.0 && e.activity > 0.0
    requires AlphaKetoglutarate in p.metabolites && p.metabolites[AlphaKetoglutarate].quantity > 0.0
    requires SuccinylCoA in p.metabolites && Atp in p.cofactors && Nadh in p.cofactors
    requires InhibitedActivity(p.cofactors[Atp], p.cofactors[Nadh], p.metabolites[SuccinylCoA].quantity) < 0.0
    ensures StepRate(p, enzymes, 4).Ok? && StepRate(p, enzymes, 4).value < 0.0
    ensures Stepped(p, enzymes, 4) == Partial(p, Some(ValueError))
  {
    var e := enzymes[EnzymeKey(4)];
    var s := p.metabolites[AlphaKetoglutarate].quantity;
    var act := InhibitedActivity(p.cofactors[Atp], p.cofactors[Nadh], p.metabolites[SuccinylCoA].quantity);
    MulNegative(e.vmax, act);
    MulNegative(e.activity, e.vmax * act);
    var v := InhibitedVmax(e, act);
    assert v < 0.0;
    var r := Kinetics.MichaelisMenten(s, v, e.km);
    assert Quantity(p, AlphaKetoglutarate) == Ok(s);
    assert Cofactor(p, Atp) == Ok(p.cofactors[Atp]) && Cofactor(p, Nadh) == Ok(p.cofactors[Nadh]);
    assert Quantity(p, SuccinylCoA) == Ok(p.metabolites[SuccinylCoA].quantity);
    assert KetoglutarateDehydrogenaseRate(p, e) == r;
    assert StepRate(p, enzymes, 4) == r;
    MulNegative(s, v);
    assert r.value * (e.km + s) < 0.0;
    assert r.value < 0.0;
    assert Consumed(4, r.value)[0] == (AlphaKetoglutarate, r.value);
  }

  /** With the constructor's 100 ATP and nothing else inhibiting, step 4 runs at two thirds activity. */
  lemma InitialInhibition()
    ensures InhibitedActivity(InitialCofactors[Atp], InitialCofactors[Nadh], 0.0) == 2.0 / 3.0
  {
    assert InitialCofactors[Atp] == 100.0 && InitialCofactors[Nadh] == 0.0;
  }

  /** A turn of the cycle as a value, so that iterating it does not unfold it. */
  type CycleBody = Pools -> Partial<Pools>

  function Cycle(enzymes: Enzymes): (r: CycleBody)
  {
    x => CycleRun(x, enzymes)
  }

  /**
   * `krebs_cycle_iterator(n)` driven to the end: up to n turns, a snapshot
   * after each completed turn, and the raise, if any, that ended it early.
   */
  function Traced(p: Pools, body: CycleBody, n: nat): (Partial<Pools>, seq<Pools>)
    decreases n
  {
    if n == 0 then (Partial(p, None), [])
    else
      var c := body(p);
      if c.error.Some? then (c, [])
      else
        var t := Traced(c.state, body, n - 1);
        (t.0, [c.state] + t.1)
  }

  /**
   * There is one snapshot per completed turn: n of them exactly when no
   * turn raised, fewer otherwise. Each snapshot is what one more turn made
   * of the one before, and the last is the final state.
   */
  lemma {:induction false} TracedSnapshots(p: Pools, body: CycleBody, n: nat)
    ensures var t := Traced(p, body, n);
      |t.1| <= n && (t.0.error == None <==> |t.1| == n)
    ensures var t := Traced(p, body, n);
      forall i :: 0 <= i < |t.1| ==> body(if i == 0 then p else t.1[i - 1]) == Partial(t.1[i], None)
    ensures var t := Traced(p, body, n);
      t.0.state == (if t.0.error == None && |t.1| > 0 then t.1[|t.1| - 1] else t.0.state) &&
      (t.0.error.Some? ==> t.0 == body(if |t.1| == 0 then p else t.1[|t.1| - 1]))
    ensures var t := Traced(p, body, n); n == 0 ==> t.0 == Partial(p, None)
    decreases n
  {
    if n > 0 {
      var c := body(p);
      if c.error.None? {
        var t := Traced(c.state, body, n - 1);
        TracedSnapshots(c.state, body, n - 1);
        var snaps := [c.state] + t.1;
        forall i | 0 <= i < |snaps|
          ensures body(if i == 0 then p else snaps[i - 1]) == Partial(snaps[i], None)
        {
          if i > 0 {
            assert snaps[i] == t.1[i - 1];
            assert snaps[i - 1] == (if i - 1 == 0 then c.state else t.1[i - 2]);
          }
        }
      }
    }
  }

  /** Turns that keep the pools valid keep every snapshot and the final state valid. */
  lemma {:induction false} TracedKeepsValid(p: Pools, body: CycleBody, n: nat)
    requires Valid(p)
    requires forall x :: Valid(x) ==> Valid(body(x).state)
    ensures Valid(Traced(p, body, n).0.state)
    ensures forall i :: 0 <= i < |Traced(p, body, n).1| ==> Valid(Traced(p, body, n).1[i])
    decreases n
  {
    if n > 0 && body(p).error.None? {
      TracedKeepsValid(body(p).state, body, n - 1);
    }
  }

  /** Turns that keep a pair's total keep it in every snapshot of a run that completes. */
  lemma {:induction false} TracedKeepsPair(p: Pools, body: CycleBody, n: nat, a: string, b: string)
    requires forall x :: body(x).error == None ==> PairTotal(body(x).state, a, b) == PairTotal(x, a, b)
    requires Traced(p, body, n).0.error == None
    ensures PairTotal(Traced(p, body, n).0.state, a, b) == PairTotal(p, a, b)
    ensures forall i :: 0 <= i < |Traced(p, body, n).1| ==> PairTotal(Traced(p, body, n).1[i], a, b) == PairTotal(p, a, b)
    decreases n
  {
    if n > 0 {
      TracedKeepsPair(body(p).state, body, n - 1, a, b);
    }
  }

  /** A turn that changes nothing yields n identical snapshots. */
  lemma {:induction false} TracedIdle(p: Pools, body: CycleBody, n: nat)
    requires body(p) == Partial(p, None)
    ensures Traced(p, body, n).0 == Partial(p, None) && |Traced(p, body, n).1| == n
    ensures forall i :: 0 <= i < n ==> Traced(p, body, n).1[i] == p
    decreases n
  {
    if n > 0 {
      TracedIdle(p, body, n - 1);
    }
  }

  /** With no Acetyl-CoA the iterator yields n copies of the unchanged pools. */
  lemma IdleCyclesRepeat(p: Pools, enzymes: Enzymes, n: nat)
    requires AcetylCoA in p.metabolites && p.metabolites[AcetylCoA].quantity <= 0.0
    ensures Traced(p, Cycle(enzymes), n).0 == Partial(p, None) && |Traced(p, Cycle(enzymes), n).1| == n
    ensures forall i :: 0 <= i < n ==> Traced(p, Cycle(enzymes), n).1[i] == p
  {
    TracedIdle(p, Cycle(enzymes), n);
  }

  /** However many turns run, and however the run ends, the pools stay valid. */
  lemma CyclesKeepValid(p: Pools, enzymes: Enzymes, n: nat)
    requires Valid(p)
    ensures Valid(Traced(p, Cycle(enzymes), n).0.state)
    ensures forall i :: 0 <= i < |Traced(p, Cycle(enzymes), n).1| ==> Valid(Traced(p, Cycle(enzymes), n).1[i])
  {
    forall x | Valid(x) ensures Valid(Cycle(enzymes)(x).state) {
      RunCycleKeepsValid(x, enzymes);
    }
    TracedKeepsValid(p, Cycle(enzymes), n);
  }

  /** A run of turns that completes keeps NAD+NADH, FAD+FADH2 and GDP+GTP in every snapshot. */
  lemma CyclesKeepPair(p: Pools, enzymes: Enzymes, n: nat, a: string, b: string)
    requires CofactorPair(a, b) && Traced(p, Cycle(enzymes), n).0.error == None
    ensures PairTotal(Traced(p, Cycle(enzymes), n).0.state, a, b) == PairTotal(p, a, b)
    ensures forall i :: 0 <= i < |Traced(p, Cycle(enzymes), n).1| ==>
      PairTotal(Traced(p, Cycle(enzymes), n).1[i], a, b) == PairTotal(p, a, b)
  {
    forall x | Cycle(enzymes)(x).error == None
      ensures PairTotal(Cycle(enzymes)(x).state, a, b) == PairTotal(x, a, b)
    {
      RunCycleKeepsPair(x, enzymes, a, b);
    }
    TracedKeepsPair(p, Cycle(enzymes), n, a, b);
  }

  /** The (name, result) pairs `reaction_iterator` yields, in the order of its list. */
  const ReactionOrder: seq<(string, Option<bool>)> :=
    seq(8, j requires 0 <= j < 8 => (StepName(j + 1), StepValue(j + 1)))

  /**
   * `reaction_iterator` driven from step `from` on: each step runs when
   * the consumer asks for the next pair, and a raise ends the iteration
   * before its pair is yielded.
   */
  function Yielded(p: Pools, step: StepBody, from: int): seq<(string, Option<bool>)>
    requires 1 <= from <= 9
    decreases 9 - from
  {
    if from == 9 then []
    else
      var s := step(p, from);
      if s.error.Some? then [] else [(StepName(from), StepValue(from))] + Yielded(s.state, step, from + 1)
  }

  /**
   * The iterator yields a prefix of the eight steps in order, all eight
   * exactly when none raises.
   */
  lemma {:induction false} ReactionsInOrder(p: Pools, step: StepBody, from: int)
    requires 1 <= from <= 9
    ensures Yielded(p, step, from) <= ReactionOrder[from - 1..]
    ensures Yielded(p, step, from) == ReactionOrder[from - 1..] <==> Steps(p, step, from).error == None
    decreases 9 - from
  {
    if from < 9 {
      var s := step(p, from);
      assert ReactionOrder[from - 1..] == [ReactionOrder[from - 1]] + ReactionOrder[from..];
      if s.error.None? {
        ReactionsInOrder(s.state, step, from + 1);
      }
    }
  }

  /** One step at the start of the iterator's remaining turns. */
  lemma TracedFirst(p: Pools, body: CycleBody, n: nat, rest: nat)
    requires n == rest + 1
    ensures Traced(p, body, n) ==
      (if body(p).error.Some? then (body(p), [])
       else (Traced(body(p).state, body, rest).0, [body(p).state] + Traced(body(p).state, body, rest).1))
  {
  }

  /**
   * `KrebsCycle`: the metabolites inherited from the base organelle, the
   * cofactor table and the enzyme table, each updated in place.
   */
  class KrebsCycle {
    var metabolites: Store
    var cofactors: Cofactors
    var enzymes: Enzymes
    /** The enzyme table a fresh cycle starts with; `reset` restores it. */
    const defaults: Enzymes

    function State(): Pools
      reads this
    {
      Pools(metabolites, cofactors)
    }

    /**
     * `__init__`: the base organelle's metabolites, the cofactor table and
     * the eight enzymes (whose constants are the given defaults).
     */
    constructor(defaults: Enzymes)
      requires defaults.Keys == EnzymeKeys
      ensures metabolites == PyologyOrganelle.InitialStore && cofactors == InitialCofactors
      ensures enzymes == defaults && this.defaults == defaults
      ensures Valid(State())
    {
      metabolites := PyologyOrganelle.InitialStore;
      cofactors := InitialCofactors;
      enzymes := defaults;
      this.defaults := defaults;
      new;
      assert Bounded(PyologyOrganelle.InitialStore);
    }

    /** `reset`: everything back to what the constructor built. */
    method Reset()
      modifies this
      ensures metabolites == PyologyOrganelle.InitialStore && cofactors == InitialCofactors
      ensures enzymes == defaults
    {
      metabolites := PyologyOrganelle.InitialStore;
      cofactors := InitialCofactors;
      enzymes := defaults;
    }

    /** The inherited `add_metabolite`, which is how the cycle's intermediates become metabolites. */
    method AddMetabolite(name: string, quantity: real, maxQuantity: real) returns (r: Outcome)
      modifies this
      ensures cofactors == old(cofactors) && enzymes == old(enzymes)
      ensures var a := PyologyOrganelle.Merge(old(metabolites), name, quantity, maxQuantity);
        (a.Ok? ==> metabolites == a.value && r == Done) &&
        (a.Raise? ==> metabolites == old(metabolites) && r == Raised(a.error))
    {
      var a := PyologyOrganelle.Merge(metabolites, name, quantity, maxQuantity);
      if a.Raise? {
        return Raised(a.error);
      }
      metabolites := a.value;
      return Done;
    }

    method IsMetaboliteAvailable(name: string, amount: real) returns (r: bool)
      ensures r == Available(State(), name, amount)
    {
      if name in metabolites {
        return metabolites[name].quantity >= amount;
      } else if name in cofactors {
        return cofactors[name] >= amount;
      }
      return false;
    }

    method ConsumeMetabolites(items: Items) returns (r: Outcome)
      modifies this
      ensures enzymes == old(enzymes)
      ensures var c := Sequenced(old(State()), items, false); State() == c.state && r == OutcomeOf(c.error)
    {
      var i := 0;
      while i < |items|
        invariant 0 <= i <= |items|
        invariant enzymes == old(enzymes)
        invariant Sequenced(State(), items[i..], false) == Sequenced(old(State()), items, false)
      {
        assert items[i..][0] == items[i] && items[i..][1..] == items[i + 1..];
        ghost var before := State();
        var (name, amount) := items[i];
        if amount < 0.0 {
          return Raised(ValueError);
        }
        if name !in metabolites && name !in cofactors {
          return Raised(ValueError);
        }
        var available := IsMetaboliteAvailable(name, amount);
        if !available {
          return Raised(ValueError);
        }
        if name in metabolites {
          metabolites := WithQuantity(metabolites, name, metabolites[name].quantity - amount);
        } else {
          cofactors := cofactors[name := cofactors[name] - amount];
        }
        assert ConsumeOne(before, items[i]) == Ok(State());
        i := i + 1;
      }
      return Done;
    }

    method ProduceMetabolites(items: Items) returns (r: Outcome)
      modifies this
      ensures enzymes == old(enzymes)
      ensures var c := Sequenced(old(State()), items, true); State() == c.state && r == OutcomeOf(c.error)
    {
      var i := 0;
      while i < |items|
        invariant 0 <= i <= |items|
        invariant enzymes == old(enzymes)
        invariant Sequenced(State(), items[i..], true) == Sequenced(old(State()), items, true)
      {
        assert items[i..][0] == items[i] && items[i..][1..] == items[i + 1..];
        ghost var before := State();
        var (name, amount) := items[i];
        if amount < 0.0 {
          return Raised(ValueError);
        }
        if name in metabolites {
          var q := metabolites[name].quantity + amount;
          if q > metabolites[name].maxQuantity {
            return Raised(ValueError);
          }
          metabolites := WithQuantity(metabolites, name, q);
        } else if name in cofactors {
          cofactors := cofactors[name := cofactors[name] + amount];
        } else {
          return Raised(ValueError);
        }
        assert ProduceOne(before, items[i]) == Ok(State());
        i := i + 1;
      }
      return Done;
    }

    /** "If consume, then produce", then any Coenzyme-A release. */
    method Catalyse(consumed: Items, produced: Items, release: Option<real>) returns (r: Outcome)
      modifies this
      ensures enzymes == old(enzymes)
      ensures var c := Catalysed(old(State()), consumed, produced, release); State() == c.state && r == OutcomeOf(c.error)
    {
      r := ConsumeMetabolites(consumed);
      if r.Raised? {
        return;
      }
      r := ProduceMetabolites(produced);
      if r.Raised? || release.None? {
        return;
      }
      if CoenzymeA !in cofactors {
        return Raised(KeyError);
      }
      cofactors := cofactors[CoenzymeA := cofactors[CoenzymeA] + release.value];
    }

    /**
     * The step methods `step1_citrate_synthase` … `step8_malate_dehydrogenase`:
     * the rate, then the reaction at that rate.
     */
    method Step(i: StepIndex) returns (r: Outcome)
      modifies this
      ensures enzymes == old(enzymes)
      ensures var s := Stepped(old(State()), enzymes, i); State() == s.state && r == OutcomeOf(s.error)
    {
      var rate := StepRate(State(), enzymes, i);
      if rate.Raise? {
        return Raised(rate.error);
      }
      r := Catalyse(Consumed(i, rate.value), Produced(i, rate.value), if i == 1 then Some(rate.value) else None);
    }

    /** `run_cycle`: the Acetyl-CoA guard, then the eight steps in order. */
    method RunCycle() returns (r: Outcome)
      modifies this
      ensures enzymes == old(enzymes)
      ensures var c := CycleRun(old(State()), enzymes); State() == c.state && r == OutcomeOf(c.error)
    {
      if AcetylCoA !in metabolites {
        return Raised(KeyError);
      }
      if metabolites[AcetylCoA].quantity <= 0.0 {
        return Done;
      }
      ghost var body := StepOf(enzymes);
      ghost var all := Steps(State(), body, 1);
      for k := 1 to 9
        invariant enzymes == old(enzymes)
        invariant all == Steps(State(), body, k)
      {
        r := Step(k);
        if r.Raised? {
          return;
        }
      }
      r := Done;
    }

    /**
     * `krebs_cycle_iterator(num_cycles)` driven to the end: `run_cycle`
     * until `num_cycles` turns have run, with a snapshot of the pools after
     * each; a raise ends it early.
     */
    method KrebsCycleIterator(numCycles: int) returns (snapshots: seq<Pools>, r: Outcome)
      modifies this
      ensures enzymes == old(enzymes)
      ensures var t := Traced(old(State()), Cycle(enzymes), if numCycles < 0 then 0 else numCycles);
        State() == t.0.state && r == OutcomeOf(t.0.error) && snapshots == t.1
    {
      ghost var n: nat := if numCycles < 0 then 0 else numCycles;
      ghost var left: nat := n;
      ghost var all := Traced(State(), Cycle(enzymes), n);
      var cyclesRun := 0;
      snapshots := [];
      assert snapshots + all.1 == all.1;
      while cyclesRun < numCycles
        invariant 0 <= cyclesRun <= n && left == n - cyclesRun
        invariant enzymes == old(enzymes)
        invariant all == (Traced(State(), Cycle(enzymes), left).0, snapshots + Traced(State(), Cycle(enzymes), left).1)
        decreases numCycles - cyclesRun
      {
        ghost var rest: nat := left - 1;
        TracedFirst(State(), Cycle(enzymes), left, rest);
        r := RunCycle();
        if r.Raised? {
          return;
        }
        cyclesRun := cyclesRun + 1;
        ghost var t := Traced(State(), Cycle(enzymes), rest);
        assert snapshots + ([State()] + t.1) == snapshots + [State()] + t.1;
        snapshots := snapshots + [State()];
        left := rest;
      }
      r := Done;
    }

    /**
     * `reaction_iterator` driven to the end: the eight step methods in
     * order, yielding each one's name and return value; a raise ends it.
     */
    method ReactionIterator() returns (yielded: seq<(string, Option<bool>)>, r: Outcome)
      modifies this
      ensures enzymes == old(enzymes)
      ensures var s := Steps(old(State()), StepOf(enzymes), 1);
        State() == s.state && r == OutcomeOf(s.error) && yielded == Yielded(old(State()), StepOf(enzymes), 1)
    {
      ghost var body := StepOf(enzymes);
      yielded := [];
      var k := 1;
      while k <= 8
        invariant 1 <= k <= 9
        invariant enzymes == old(enzymes)
        invariant Steps(old(State()), body, 1) == Steps(State(), body, k)
        invariant Yielded(old(State()), body, 1) == yielded + Yielded(State(), body, k)
      {
        r := Step(k);
        if r.Raised? {
          return;
        }
        yielded := yielded + [(StepName(k), StepValue(k))];
        k := k + 1;
      }
      r := Done;
    }

    /** `add_substrate`. */
    method AddSubstrate(substrate: string, amount: real) returns (r: Outcome)
      modifies this
      ensures enzymes == old(enzymes)
      ensures var a := SubstrateAdded(old(State()), substrate, amount);
        (a.Ok? ==> State() == a.value && r == Done) && (a.Raise? ==> State() == old(State()) && r == Raised(a.error))
    {
      if amount <= 0.0 {
        return Raised(ValueError);
      }
      if substrate == AcetylCoA {
        if AcetylCoA !in metabolites {
          return Raised(KeyError);
        }
        metabolites := WithQuantity(metabolites, AcetylCoA, metabolites[AcetylCoA].quantity + amount);
      } else if substrate in metabolites {
        metabolites := WithQuantity(metabolites, substrate, metabolites[substrate].quantity + amount);
      } else if substrate in cofactors {
        cofactors := cofactors[substrate := cofactors[substrate] + amount];
      } else {
        return Raised(ValueError);
      }
      return Done;
    }
  }
}
