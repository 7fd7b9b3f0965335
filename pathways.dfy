/**
 * pyology/pathways.py: the glycolysis pathway object. It works on the
 * metabolite store of the organelle it was built with, runs the ten enzyme
 * steps at rates the enzyme kinetics supply, and validates every
 * consume/produce call in full before it changes anything. Every failure
 * inside `glycolysis` surfaces as a GlycolysisError.
 */
module Pathways {
  import opened Common
  import opened Stores
  import PyologyOrganelle

  const Glucose: string := "glucose"
  const Glucose6Phosphate: string := "glucose_6_phosphate"
  const Fructose6Phosphate: string := "fructose_6_phosphate"
  const Fructose16Bisphosphate: string := "fructose_1_6_bisphosphate"
  const Glyceraldehyde3Phosphate: string := "glyceraldehyde_3_phosphate"
  const DihydroxyacetonePhosphate: string := "dihydroxyacetone_phosphate"
  const Bisphosphoglycerate13: string := "bisphosphoglycerate_1_3"
  const Phosphoglycerate3: string := "phosphoglycerate_3"
  const Phosphoglycerate2: string := "phosphoglycerate_2"
  const Phosphoenolpyruvate: string := "phosphoenolpyruvate"
  const Pyruvate: string := "pyruvate"
  const Atp: string := "atp"
  const Adp: string := "adp"
  const Nad: string := "nad"
  const Nadh: string := "nadh"
  const Pi: string := "pi"
  const HPlus: string := "h_plus"
  const H2o: string := "h2o"

  /**
   * One step method: the substrate whose quantity is handed to the enzyme,
   * the further metabolites that bound the actual rate, and what the step
   * consumes and produces, each by the actual rate.
   */
  datatype Reaction = Reaction(substrate: string, limits: seq<string>, consumed: seq<string>, produced: seq<string>)

  const Hexokinase: Reaction := Reaction(Glucose, [Atp], [Glucose, Atp], [Glucose6Phosphate, Adp])
  const PhosphoglucoseIsomerase: Reaction :=
    Reaction(Glucose6Phosphate, [], [Glucose6Phosphate], [Fructose6Phosphate])
  const Phosphofructokinase: Reaction :=
    Reaction(Fructose6Phosphate, [Atp], [Fructose6Phosphate, Atp], [Fructose16Bisphosphate, Adp])
  const Aldolase: Reaction :=
    Reaction(Fructose16Bisphosphate, [], [Fructose16Bisphosphate], [Glyceraldehyde3Phosphate, DihydroxyacetonePhosphate])
  const TriosePhosphateIsomerase: Reaction :=
    Reaction(DihydroxyacetonePhosphate, [], [DihydroxyacetonePhosphate], [Glyceraldehyde3Phosphate])
  const Dehydrogenase: Reaction :=
    Reaction(Glyceraldehyde3Phosphate, [Nad, Pi], [Glyceraldehyde3Phosphate, Nad, Pi], [Bisphosphoglycerate13, Nadh, HPlus])
  const PhosphoglycerateKinase: Reaction :=
    Reaction(Bisphosphoglycerate13, [Adp], [Bisphosphoglycerate13, Adp], [Phosphoglycerate3, Atp])
  const PhosphoglycerateMutase: Reaction :=
    Reaction(Phosphoglycerate3, [], [Phosphoglycerate3], [Phosphoglycerate2])
  const Enolase: Reaction := Reaction(Phosphoglycerate2, [], [Phosphoglycerate2], [Phosphoenolpyruvate, H2o])
  const PyruvateKinase: Reaction :=
    Reaction(Phosphoenolpyruvate, [Adp], [Phosphoenolpyruvate, Adp], [Pyruvate, Atp])

  /** The first four members of the step enum, run once per glucose unit. */
  const FirstSteps: seq<Reaction> := [Hexokinase, PhosphoglucoseIsomerase, Phosphofructokinase, Aldolase]

  /** The last five members of the step enum, run twice per glucose unit. */
  const LaterSteps: seq<Reaction> :=
    [Dehydrogenase, PhosphoglycerateKinase, PhosphoglycerateMutase, Enolase, PyruvateKinase]

  /**
   * `calculate_reaction_rate`: the enzyme's rate for a step on the current
   * store, already multiplied by the time step.
   */
  type Kinetics = (Reaction, Store) -> real

  /** `get_metabolite_quantity` of the organelle: an unknown name raises UnknownMetaboliteError. */
  function Read(s: Store, name: string): (r: Result<real>)
    ensures r.Ok? <==> name in s
    ensures r.Ok? ==> r.value == s[name].quantity
    ensures r.Raise? ==> r.error == UnknownMetaboliteError
  {
    if name in s then Ok(s[name].quantity) else Raise(UnknownMetaboliteError)
  }

  /** The metabolite errors `glycolysis` catches: MetaboliteError and its three subclasses. */
  predicate IsMetaboliteError(e: Error)
  {
    e == MetaboliteError || e == UnknownMetaboliteError || e == InsufficientMetaboliteError || e == QuantityError
  }

  /** `is_metabolite_available`: an unknown name raises MetaboliteError. */
  function Available(s: Store, name: string, amount: real): (r: Result<bool>)
    ensures name !in s <==> r == Raise(MetaboliteError)
    ensures name in s ==> (r == Ok(true) <==> s[name].quantity >= amount)
  {
    Availability(s, name, amount, MetaboliteError)
  }

  /**
   * `ensure_metabolite_availability`: nothing happens when the metabolite is
   * there; short ATP is made from `amount` ADP and short ADP from `amount`
   * ATP; anything else raises a MetaboliteError. Only ATP and ADP change, and
   * a completed fix-up keeps their sum.
   */
  function Ensured(s: Store, name: string, amount: real): (r: Partial<Store>)
    ensures name !in s ==> r == Partial(s, Some(MetaboliteError))
    ensures name in s && s[name].quantity >= amount ==> r == Partial(s, None)
    ensures (name in s && s[name].quantity < amount && name != Atp && name != Adp) ==>
      r == Partial(s, Some(MetaboliteError))
    ensures r.state.Keys == s.Keys
    ensures forall k :: k in s ==> r.state[k].maxQuantity == s[k].maxQuantity
    ensures forall k :: k in s && k != Atp && k != Adp ==> r.state[k] == s[k]
    ensures r.error == None ==> PairSum(r.state, Atp, Adp) == PairSum(s, Atp, Adp)
    ensures r.error == Some(MetaboliteError) ==> r.state == s
    ensures r.error.Some? ==> IsMetaboliteError(r.error.value)
  {
    match Available(s, name, amount)
    case Raise(e) => Partial(s, Some(e))
    case Ok(present) =>
      if present then Partial(s, None)
      else if name == Atp then
        match Available(s, Adp, amount)
        case Raise(e) => Partial(s, Some(e))
        case Ok(spare) => if spare then Converted(s, Adp, Atp, amount) else Partial(s, Some(MetaboliteError))
      else if name == Adp then
        match Available(s, Atp, amount)
        case Raise(e) => Partial(s, Some(e))
        case Ok(spare) => if spare then Converted(s, Atp, Adp, amount) else Partial(s, Some(MetaboliteError))
      else Partial(s, Some(MetaboliteError))
  }

  /** The sum of two quantities (0 for a name the store lacks). */
  function PairSum(s: Store, a: string, b: string): real
  {
    QuantityOf(s, a) + QuantityOf(s, b)
  }

  /** Short ATP with `amount` ADP to spare: exactly `amount` moves from ADP to ATP. */
  lemma EnsuredConvertsAdp(s: Store, amount: real)
    requires Bounded(s) && Atp in s && Adp in s
    requires s[Atp].quantity < amount <= s[Adp].quantity
    requires s[Atp].quantity + amount <= s[Atp].maxQuantity
    ensures Ensured(s, Atp, amount).error == None
    ensures Ensured(s, Atp, amount).state[Atp].quantity == s[Atp].quantity + amount
    ensures Ensured(s, Atp, amount).state[Adp].quantity == s[Adp].quantity - amount
  {
    assert Atp[1] != Adp[1];
  }

  /** consume_metabolites / produce_metabolites: every rejection is a MetaboliteError. */
  function Exchanged(s: Store, items: Items, produce: bool): (r: Result<Store>)
    ensures r.Ok? <==> forall i :: 0 <= i < |items| ==>
      (if produce then ProduceItemFault(s, items[i]) else ConsumeItemFault(s, items[i])) == None
    ensures r.Raise? ==> r.error == MetaboliteError
    ensures r.Ok? ==> r.value.Keys == s.Keys
  {
    FirstFaultNone(s, items, produce, 0);
    match ValidateThenApply(s, items, produce)
    case Applied(t) => Ok(t)
    case Rejected(_, _) => Raise(MetaboliteError)
  }

  /** A keyword call naming each metabolite with the same amount. */
  function Uniform(names: seq<string>, amount: real): (r: Items)
    ensures |r| == |names|
    ensures forall i :: 0 <= i < |r| ==> r[i] == (names[i], amount)
  {
    seq(|names|, i requires 0 <= i < |names| => (names[i], amount))
  }

  /** Python's `min(bound, q1, q2, ...)` over the quantities of `limits`, read in order. */
  function Limited(s: Store, limits: seq<string>, bound: real): (r: Result<real>)
    ensures r.Ok? <==> forall i :: 0 <= i < |limits| ==> limits[i] in s
    ensures r.Raise? ==> r.error == UnknownMetaboliteError
    ensures r.Ok? ==> r.value <= bound && forall i :: 0 <= i < |limits| ==> r.value <= s[limits[i]].quantity
    ensures r.Ok? ==> r.value == bound || exists i :: 0 <= i < |limits| && r.value == s[limits[i]].quantity
    decreases |limits|
  {
    if limits == [] then Ok(bound)
    else
      match Read(s, limits[0])
      case Raise(e) => Raise(e)
      case Ok(q) =>
        var r := Limited(s, limits[1..], Min(bound, q));
        assert forall i :: 1 <= i < |limits| ==> limits[i] == limits[1..][i - 1];
        r
  }

  /**
   * The actual rate of a step: the smallest of the enzyme's rate, the
   * substrate's quantity and the quantity of each limit.
   */
  function ActualRate(s: Store, rx: Reaction, rate: real): (r: Result<real>)
    ensures r.Ok? <==> rx.substrate in s && forall i :: 0 <= i < |rx.limits| ==> rx.limits[i] in s
    ensures r.Raise? ==> r.error == UnknownMetaboliteError
    ensures r.Ok? ==> (r.value <= rate && r.value <= s[rx.substrate].quantity &&
      forall i :: 0 <= i < |rx.limits| ==> r.value <= s[rx.limits[i]].quantity)
    ensures r.Ok? ==> (r.value == rate || r.value == s[rx.substrate].quantity ||
      exists i :: 0 <= i < |rx.limits| && r.value == s[rx.limits[i]].quantity)
  {
    match Read(s, rx.substrate)
    case Raise(e) => Raise(e)
    case Ok(q) => Limited(s, rx.limits, Min(rate, q))
  }

  /** One step method: the actual rate, then consume, then produce; a raise in produce keeps the consumption. */
  function Reacted(s: Store, rx: Reaction, rate: real): (r: Partial<Store>)
    ensures r.error.Some? ==> IsMetaboliteError(r.error.value)
  {
    match ActualRate(s, rx, rate)
    case Raise(e) => Partial(s, Some(e))
    case Ok(actual) =>
      match Exchanged(s, Uniform(rx.consumed, actual), false)
      case Raise(e) => Partial(s, Some(e))
      case Ok(t) =>
        match Exchanged(t, Uniform(rx.produced, actual), true)
        case Raise(e) => Partial(t, Some(e))
        case Ok(u) => Partial(u, None)
  }

  /** A run of step methods in order, stopping at the first raise. */
  function Scheduled(s: Store, steps: seq<Reaction>, rate: Kinetics): (r: Partial<Store>)
    ensures r.error.Some? ==> IsMetaboliteError(r.error.value)
  {
    if steps == [] then Partial(s, None)
    else
      var p := Reacted(s, steps[0], rate(steps[0], s));
      if p.error.Some? then p else Scheduled(p.state, steps[1..], rate)
  }

  /** `for _ in range(times)` around a run of steps. */
  function Repeated(s: Store, steps: seq<Reaction>, times: nat, rate: Kinetics): (r: Partial<Store>)
    ensures r.error.Some? ==> IsMetaboliteError(r.error.value)
    decreases times
  {
    if times == 0 then Partial(s, None)
    else
      var p := Scheduled(s, steps, rate);
      if p.error.Some? then p else Repeated(p.state, steps, times - 1, rate)
  }

  /**
   * The body of the glucose loop: the first steps, the middle step, the later
   * steps twice, then 2 ATP produced.
   */
  function UnitRun(s: Store, first: seq<Reaction>, middle: Reaction, later: seq<Reaction>, rate: Kinetics): (r: Partial<Store>)
    ensures r.error.Some? ==> IsMetaboliteError(r.error.value)
  {
    var a := Scheduled(s, first, rate);
    if a.error.Some? then a
    else
      var b := Reacted(a.state, middle, rate(middle, a.state));
      if b.error.Some? then b
      else
        var c := Repeated(b.state, later, 2, rate);
        if c.error.Some? then c
        else
          match Exchanged(c.state, [(Atp, 2.0)], true)
          case Raise(e) => Partial(c.state, Some(e))
          case Ok(t) => Partial(t, None)
  }

  /** A pass of the glucose loop, as a function of the store it starts from. */
  type LoopBody = Store -> Partial<Store>

  /** The body of the glucose loop for a step schedule. */
  function Body(first: seq<Reaction>, middle: Reaction, later: seq<Reaction>, rate: Kinetics): LoopBody
  {
    x => UnitRun(x, first, middle, later, rate)
  }

  /** The glucose loop: `units` passes of the body, stopping at the first raise. */
  function UnitsRun(s: Store, units: nat, body: LoopBody): Partial<Store>
    decreases units
  {
    if units == 0 then Partial(s, None)
    else
      var p := body(s);
      if p.error.Some? then p else UnitsRun(p.state, units - 1, body)
  }

  /** A loop whose body raises only metabolite errors raises only metabolite errors. */
  lemma {:induction false} UnitsRunErrors(s: Store, units: nat, body: LoopBody)
    requires forall x :: body(x).error.Some? ==> IsMetaboliteError(body(x).error.value)
    ensures UnitsRun(s, units, body).error.Some? ==> IsMetaboliteError(UnitsRun(s, units, body).error.value)
    decreases units
  {
    if units > 0 && body(s).error == None {
      UnitsRunErrors(body(s).state, units - 1, body);
    }
  }

  /** `except MetaboliteError`: the metabolite errors become a GlycolysisError. */
  function Caught(e: Error): Error
  {
    if IsMetaboliteError(e) then GlycolysisError else e
  }

  /**
   * `glycolysis` once the input is floored: GlycolysisError when negative, 0
   * when zero; otherwise glucose is ensured and taken, the glucose loop runs,
   * and the pyruvate on hand is returned. The store is what the run left.
   */
  function GlycolysedWith(s: Store, units: int, first: seq<Reaction>, middle: Reaction, later: seq<Reaction>, rate: Kinetics): (r: (Store, Result<real>))
    ensures r.1.Raise? ==> r.1.error == GlycolysisError
  {
    if units < 0 then (s, Raise(GlycolysisError))
    else if units == 0 then (s, Ok(0.0))
    else
      var e := Ensured(s, Glucose, units as real);
      if e.error.Some? then (e.state, Raise(Caught(e.error.value)))
      else
        match Exchanged(e.state, [(Glucose, units as real)], false)
        case Raise(err) => (e.state, Raise(Caught(err)))
        case Ok(t) =>
          UnitsRunErrors(t, units, Body(first, middle, later, rate));
          var p := UnitsRun(t, units, Body(first, middle, later, rate));
          if p.error.Some? then (p.state, Raise(Caught(p.error.value)))
          else
            match Read(p.state, Pyruvate)
            case Raise(err) => (p.state, Raise(Caught(err)))
            case Ok(q) => (p.state, Ok(q))
  }

  /** `glycolysis` with the pathway's own step schedule. */
  function Glycolysed(s: Store, glucoseUnits: real, rate: Kinetics): (r: (Store, Result<real>))
    ensures r.1.Raise? ==> r.1.error == GlycolysisError
    ensures glucoseUnits.Floor < 0 ==> r == (s, Raise(GlycolysisError))
    ensures glucoseUnits.Floor == 0 ==> r == (s, Ok(0.0))
  {
    GlycolysedWith(s, glucoseUnits.Floor, FirstSteps, TriosePhosphateIsomerase, LaterSteps, rate)
  }

  /**
   * Negative input raises GlycolysisError and zero returns 0, both with no
   * change; when the glucose is missing or short the call raises
   * GlycolysisError with no change either.
   */
  lemma GlycolysedGuards(s: Store, glucoseUnits: real, rate: Kinetics)
    ensures glucoseUnits.Floor < 0 ==> Glycolysed(s, glucoseUnits, rate) == (s, Raise(GlycolysisError))
    ensures glucoseUnits.Floor == 0 ==> Glycolysed(s, glucoseUnits, rate) == (s, Ok(0.0))
    ensures glucoseUnits.Floor > 0 && (Glucose !in s || s[Glucose].quantity < glucoseUnits.Floor as real) ==>
      Glycolysed(s, glucoseUnits, rate) == (s, Raise(GlycolysisError))
  {
    assert Glucose[0] != Atp[0] && Glucose[0] != Adp[0];
  }

  // ---------------------------------------------------------------------
  // What one step does

  /** Each keyword call of a step names a metabolite once, and no metabolite is both consumed and produced. */
  predicate WellFormedReaction(rx: Reaction)
  {
    Distinct(rx.consumed) && Distinct(rx.produced) &&
    forall k :: k in rx.consumed ==> k !in rx.produced
  }

  /** No name occurs twice. */
  predicate Distinct(names: seq<string>)
  {
    forall i, j :: 0 <= i < j < |names| ==> names[i] != names[j]
  }

  /** How much a run of `actual` adds to `k`: plus for a product, minus for a substrate. */
  function Delta(rx: Reaction, k: string, actual: real): real
  {
    (if k in rx.produced then actual else 0.0) - (if k in rx.consumed then actual else 0.0)
  }

  lemma UniformMentions(names: seq<string>, amount: real, k: string)
    ensures Mentions(Uniform(names, amount), k) <==> k in names
  {
    if k in names {
      var i :| 0 <= i < |names| && names[i] == k;
      assert Uniform(names, amount)[i].0 == k;
    }
  }

  /** One pass of a validate-then-apply call with the same amount for every name. */
  lemma ExchangedUniform(s: Store, names: seq<string>, amount: real, produce: bool)
    requires DistinctNames(Uniform(names, amount))
    requires Exchanged(s, Uniform(names, amount), produce).Ok?
    ensures forall i :: 0 <= i < |names| ==> names[i] in s
    ensures names != [] ==> amount >= 0.0
    ensures var t := Exchanged(s, Uniform(names, amount), produce).value;
      t.Keys == s.Keys &&
      forall k :: k in s ==> (t[k].maxQuantity == s[k].maxQuantity &&
        t[k].quantity == s[k].quantity + (if k in names then (if produce then amount else -amount) else 0.0))
  {
    var items := Uniform(names, amount);
    ValidateThenApplySpec(s, items, produce);
    var t := Exchanged(s, items, produce).value;
    forall i | 0 <= i < |names|
      ensures names[i] in s
    {
      assert items[i].0 == names[i];
      assert (if produce then ProduceItemFault(s, items[i]) else ConsumeItemFault(s, items[i])) == None;
    }
    forall k | k in s
      ensures t[k].maxQuantity == s[k].maxQuantity
      ensures t[k].quantity == s[k].quantity + (if k in names then (if produce then amount else -amount) else 0.0)
    {
      UniformMentions(names, amount, k);
      if k in names {
        var i :| 0 <= i < |names| && names[i] == k;
        assert items[i].0 == k;
      }
    }
  }

  /**
   * A completed step moves every consumed metabolite down and every produced
   * one up by the actual rate; every other metabolite, every key and every
   * capacity stays, and every name the step mentions was in the store.
   */
  lemma ReactedEffect(s: Store, rx: Reaction, rate: real)
    requires WellFormedReaction(rx)
    ensures Reacted(s, rx, rate).state.Keys == s.Keys
    ensures forall k :: k in s ==> Reacted(s, rx, rate).state[k].maxQuantity == s[k].maxQuantity
    ensures Reacted(s, rx, rate).error == None ==>
      var actual := ActualRate(s, rx, rate).value;
      ActualRate(s, rx, rate).Ok? &&
      (forall i :: 0 <= i < |rx.consumed| ==> rx.consumed[i] in s) &&
      (forall j :: 0 <= j < |rx.produced| ==> rx.produced[j] in s) &&
      (rx.consumed != [] ==> actual >= 0.0) &&
      forall k :: k in s ==> Reacted(s, rx, rate).state[k].quantity == s[k].quantity + Delta(rx, k, actual)
  {
    var a := ActualRate(s, rx, rate);
    if a.Ok? {
      var actual := a.value;
      var c := Exchanged(s, Uniform(rx.consumed, actual), false);
      if c.Ok? {
        ExchangedUniform(s, rx.consumed, actual, false);
        var p := Exchanged(c.value, Uniform(rx.produced, actual), true);
        if p.Ok? {
          ExchangedUniform(c.value, rx.produced, actual, true);
        } else {
          ExchangedUniform(s, rx.consumed, actual, false);
        }
      }
    }
  }

  /** A step whose products and substrates hold the same number of the pair `a`, `b`. */
  predicate Balanced(rx: Reaction, a: string, b: string)
  {
    (if a in rx.produced then 1 else 0) + (if b in rx.produced then 1 else 0) ==
    (if a in rx.consumed then 1 else 0) + (if b in rx.consumed then 1 else 0)
  }

  /** A completed balanced step keeps the pair's sum. */
  lemma ReactedKeepsPair(s: Store, rx: Reaction, rate: real, a: string, b: string)
    requires WellFormedReaction(rx) && Balanced(rx, a, b) && a != b
    requires Reacted(s, rx, rate).error == None
    ensures PairSum(Reacted(s, rx, rate).state, a, b) == PairSum(s, a, b)
  {
    ReactedEffect(s, rx, rate);
    var actual := ActualRate(s, rx, rate).value;
    assert a !in s ==> a !in rx.consumed && a !in rx.produced;
    assert b !in s ==> b !in rx.consumed && b !in rx.produced;
    assert Delta(rx, a, actual) + Delta(rx, b, actual) == 0.0;
  }

  /**
   * A step whose every substrate also bounds its actual rate never fails to
   * consume: with a non-negative enzyme rate on a store within bounds, the
   * actual rate is non-negative and no larger than any consumed quantity.
   */
  lemma ConsumeNeverFails(s: Store, rx: Reaction, rate: real)
    requires Bounded(s) && rate >= 0.0 && WellFormedReaction(rx)
    requires rx.substrate in s && forall i :: 0 <= i < |rx.limits| ==> rx.limits[i] in s
    requires forall i :: 0 <= i < |rx.consumed| ==> rx.consumed[i] == rx.substrate || rx.consumed[i] in rx.limits
    ensures ActualRate(s, rx, rate).Ok? && ActualRate(s, rx, rate).value >= 0.0
    ensures Exchanged(s, Uniform(rx.consumed, ActualRate(s, rx, rate).value), false).Ok?
  {
    var actual := ActualRate(s, rx, rate).value;
    if actual != rate && actual != s[rx.substrate].quantity {
      var j :| 0 <= j < |rx.limits| && actual == s[rx.limits[j]].quantity;
    }
    var items := Uniform(rx.consumed, actual);
    ValidateThenApplySpec(s, items, false);
    forall i | 0 <= i < |items|
      ensures ConsumeItemFault(s, items[i]) == None
    {
      if rx.consumed[i] != rx.substrate {
        var j :| 0 <= j < |rx.limits| && rx.limits[j] == rx.consumed[i];
      }
    }
  }

  /**
   * Step 1 (hexokinase): with a non-negative enzyme rate its consumption of
   * glucose and ATP never raises, and a completed step keeps both
   * glucose + glucose 6-phosphate and ATP + ADP.
   */
  lemma HexokinaseConsumes(s: Store, rate: real)
    requires Bounded(s) && rate >= 0.0 && Glucose in s && Atp in s
    ensures ActualRate(s, Hexokinase, rate).Ok?
    ensures Exchanged(s, Uniform(Hexokinase.consumed, ActualRate(s, Hexokinase, rate).value), false).Ok?
    ensures Reacted(s, Hexokinase, rate).error == None ==>
      PairSum(Reacted(s, Hexokinase, rate).state, Glucose, Glucose6Phosphate) == PairSum(s, Glucose, Glucose6Phosphate) &&
      PairSum(Reacted(s, Hexokinase, rate).state, Atp, Adp) == PairSum(s, Atp, Adp)
  {
    FirstStepsWellFormed();
    assert FirstSteps[0] == Hexokinase;
    assert Hexokinase.limits[0] == Atp;
    ConsumeNeverFails(s, Hexokinase, rate);
    if Reacted(s, Hexokinase, rate).error == None {
      assert Glucose[0] != Atp[0] && Glucose[0] != Adp[0];
      ReactedKeepsPair(s, Hexokinase, rate, Glucose, Glucose6Phosphate);
      ReactedKeepsPair(s, Hexokinase, rate, Atp, Adp);
    }
  }

  /**
   * Step 6 (glyceraldehyde 3-phosphate dehydrogenase): once every name is
   * known, its actual rate is at most G3P, NAD+ and Pi, with a non-negative
   * enzyme rate its consumption never raises, and a completed step 6 keeps
   * NAD+ + NADH.
   */
  lemma DehydrogenaseConsumes(s: Store, rate: real)
    requires Bounded(s) && rate >= 0.0 && Glyceraldehyde3Phosphate in s && Nad in s && Pi in s
    ensures ActualRate(s, Dehydrogenase, rate).Ok?
    ensures var actual := ActualRate(s, Dehydrogenase, rate).value;
      0.0 <= actual <= s[Glyceraldehyde3Phosphate].quantity && actual <= s[Nad].quantity && actual <= s[Pi].quantity
    ensures Exchanged(s, Uniform(Dehydrogenase.consumed, ActualRate(s, Dehydrogenase, rate).value), false).Ok?
    ensures Reacted(s, Dehydrogenase, rate).error == None ==>
      PairSum(Reacted(s, Dehydrogenase, rate).state, Nad, Nadh) == PairSum(s, Nad, Nadh)
  {
    LaterStepsWellFormed();
    NicotinamidesBalanced();
    assert LaterSteps[0] == Dehydrogenase;
    assert Dehydrogenase.limits[0] == Nad && Dehydrogenase.limits[1] == Pi;
    ConsumeNeverFails(s, Dehydrogenase, rate);
    if Reacted(s, Dehydrogenase, rate).error == None {
      assert |Nad| != |Nadh|;
      ReactedKeepsPair(s, Dehydrogenase, rate, Nad, Nadh);
    }
  }

  /** Every step of a run is well formed and balanced for the pair. */
  predicate AllBalanced(steps: seq<Reaction>, a: string, b: string)
  {
    forall i :: 0 <= i < |steps| ==> WellFormedReaction(steps[i]) && Balanced(steps[i], a, b)
  }

  /** A completed run of balanced steps keeps the pair's sum. */
  lemma {:induction false} ScheduledKeepsPair(s: Store, steps: seq<Reaction>, rate: Kinetics, a: string, b: string)
    requires AllBalanced(steps, a, b) && a != b
    requires Scheduled(s, steps, rate).error == None
    ensures PairSum(Scheduled(s, steps, rate).state, a, b) == PairSum(s, a, b)
    decreases |steps|
  {
    if steps != [] {
      var p := Reacted(s, steps[0], rate(steps[0], s));
      ReactedKeepsPair(s, steps[0], rate(steps[0], s), a, b);
      assert AllBalanced(steps[1..], a, b) by {
        forall i | 0 <= i < |steps[1..]|
          ensures WellFormedReaction(steps[1..][i]) && Balanced(steps[1..][i], a, b)
        {
          assert steps[1..][i] == steps[i + 1];
        }
      }
      ScheduledKeepsPair(p.state, steps[1..], rate, a, b);
    }
  }

  lemma {:induction false} RepeatedKeepsPair(s: Store, steps: seq<Reaction>, times: nat, rate: Kinetics, a: string, b: string)
    requires AllBalanced(steps, a, b) && a != b
    requires Repeated(s, steps, times, rate).error == None
    ensures PairSum(Repeated(s, steps, times, rate).state, a, b) == PairSum(s, a, b)
    decreases times
  {
    if times > 0 {
      var p := Scheduled(s, steps, rate);
      ScheduledKeepsPair(s, steps, rate, a, b);
      RepeatedKeepsPair(p.state, steps, times - 1, rate, a, b);
    }
  }

  /** Producing `amount` of one metabolite moves a pair's sum by `amount` iff the pair holds it. */
  lemma ProducedOne(s: Store, name: string, amount: real, a: string, b: string)
    requires a != b
    requires Exchanged(s, [(name, amount)], true).Ok?
    ensures PairSum(Exchanged(s, [(name, amount)], true).value, a, b) ==
      PairSum(s, a, b) + (if name == a || name == b then amount else 0.0)
  {
    assert Uniform([name], amount) == [(name, amount)];
    ExchangedUniform(s, [name], amount, true);
  }

  /** The ATP the loop body adds on its own: 2 for a pair holding ATP, else none. */
  function AtpShare(a: string, b: string): real
  {
    if a == Atp || b == Atp then 2.0 else 0.0
  }

  /**
   * A completed body of the glucose loop keeps every balanced pair's sum,
   * except for the 2 ATP it adds at the end.
   */
  lemma UnitRunPair(s: Store, first: seq<Reaction>, middle: Reaction, later: seq<Reaction>, rate: Kinetics, a: string, b: string)
    requires AllBalanced(first, a, b) && AllBalanced(later, a, b) && AllBalanced([middle], a, b) && a != b
    requires UnitRun(s, first, middle, later, rate).error == None
    ensures PairSum(UnitRun(s, first, middle, later, rate).state, a, b) == PairSum(s, a, b) + AtpShare(a, b)
  {
    var p := Scheduled(s, first, rate);
    ScheduledKeepsPair(s, first, rate, a, b);
    var q := Reacted(p.state, middle, rate(middle, p.state));
    assert WellFormedReaction([middle][0]) && Balanced([middle][0], a, b);
    ReactedKeepsPair(p.state, middle, rate(middle, p.state), a, b);
    var c := Repeated(q.state, later, 2, rate);
    RepeatedKeepsPair(q.state, later, 2, rate, a, b);
    ProducedOne(c.state, Atp, 2.0, a, b);
  }

  /** The glucose loop runs all its passes without a raise. */
  predicate Completes(s: Store, units: nat, body: LoopBody)
  {
    UnitsRun(s, units, body).error == None
  }

  /** The first pass of the glucose loop: a raise ends the loop, otherwise the remaining passes follow. */
  lemma UnitsRunFirst(s: Store, units: nat, rest: nat, body: LoopBody)
    requires units == rest + 1
    ensures UnitsRun(s, units, body) == if body(s).error.Some? then body(s) else UnitsRun(body(s).state, rest, body)
  {
  }

  /** A loop that completes is a completed body followed by the remaining passes. */
  lemma UnitsRunUnfold(s: Store, units: nat, rest: nat, body: LoopBody) returns (t: Store)
    requires units == rest + 1
    requires Completes(s, units, body)
    ensures body(s) == Partial(t, None)
    ensures Completes(t, rest, body)
    ensures UnitsRun(t, rest, body).state == UnitsRun(s, units, body).state
  {
    UnitsRunFirst(s, units, rest, body);
    t := body(s).state;
  }

  /** A completed loop whose body adds the pair's ATP share adds it once per pass. */
  lemma {:induction false} UnitsRunPair(s: Store, units: nat, body: LoopBody, a: string, b: string)
    requires forall x :: body(x).error == None ==> PairSum(body(x).state, a, b) == PairSum(x, a, b) + AtpShare(a, b)
    requires Completes(s, units, body)
    ensures PairSum(UnitsRun(s, units, body).state, a, b) ==
      PairSum(s, a, b) + (if a == Atp || b == Atp then 2.0 * units as real else 0.0)
    decreases units
  {
    if units > 0 {
      var rest: nat := units - 1;
      var t := UnitsRunUnfold(s, units, rest, body);
      UnitsRunPair(t, rest, body, a, b);
    }
  }

  /**
   * A `glycolysis` call that returns leaves every balanced pair (other than
   * glucose) as it found it, except for the 2 ATP per glucose unit the loop
   * adds: ATP + ADP rises by exactly 2 per unit.
   */
  lemma GlycolysedWithPair(s: Store, units: int, first: seq<Reaction>, middle: Reaction, later: seq<Reaction>, rate: Kinetics, a: string, b: string)
    requires AllBalanced(first, a, b) && AllBalanced(later, a, b) && AllBalanced([middle], a, b) && a != b
    requires a != Glucose && b != Glucose
    requires GlycolysedWith(s, units, first, middle, later, rate).1.Ok?
    ensures PairSum(GlycolysedWith(s, units, first, middle, later, rate).0, a, b) ==
      PairSum(s, a, b) + (if units > 0 && (a == Atp || b == Atp) then 2.0 * units as real else 0.0)
  {
    if units > 0 {
      assert Glucose[0] != Atp[0] && Glucose[0] != Adp[0];
      var e := Ensured(s, Glucose, units as real);
      assert e.state == s;
      assert Uniform([Glucose], units as real) == [(Glucose, units as real)];
      ExchangedUniform(s, [Glucose], units as real, false);
      var t := Exchanged(s, [(Glucose, units as real)], false).value;
      assert PairSum(t, a, b) == PairSum(s, a, b);
      var body := Body(first, middle, later, rate);
      forall x | body(x).error == None
        ensures PairSum(body(x).state, a, b) == PairSum(x, a, b) + AtpShare(a, b)
      {
        UnitRunPair(x, first, middle, later, rate, a, b);
      }
      UnitsRunPair(t, units, body, a, b);
    }
  }

  // ---------------------------------------------------------------------
  // The pathway's own steps

  /** No keyword call of steps 1-5 names a metabolite twice, and none consumes what it produces. */
  lemma FirstStepsWellFormed()
    ensures forall i :: 0 <= i < |FirstSteps| ==> WellFormedReaction(FirstSteps[i])
    ensures WellFormedReaction(TriosePhosphateIsomerase)
  {
    assert Adp[1] != Atp[1] && DihydroxyacetonePhosphate[0] != Glyceraldehyde3Phosphate[0];
  }

  /** No keyword call of steps 6-10 names a metabolite twice, and none consumes what it produces. */
  lemma LaterStepsWellFormed()
    ensures forall i :: 0 <= i < |LaterSteps| ==> WellFormedReaction(LaterSteps[i])
  {
    assert Adp[1] != Atp[1] && Phosphoglycerate2[17] != Phosphoglycerate3[17];
  }

  /** Every step that takes an ATP gives back an ADP and the other way round. */
  lemma AdenylatesBalanced()
    ensures AllBalanced(FirstSteps, Atp, Adp) && AllBalanced(LaterSteps, Atp, Adp)
    ensures AllBalanced([TriosePhosphateIsomerase], Atp, Adp)
  {
    FirstStepsWellFormed();
    LaterStepsWellFormed();
    assert Adp[1] != Atp[1];
    assert Adp[1] != Atp[1] && Adp[0] != H2o[0] && Adp[0] != Nad[0];
    assert Atp[0] != H2o[0] && Atp[0] != Nad[0];
  }

  /** Only step 6 touches NAD+ and NADH, and it turns one into the other. */
  lemma NicotinamidesBalanced()
    ensures AllBalanced(FirstSteps, Nad, Nadh) && AllBalanced(LaterSteps, Nad, Nadh)
    ensures AllBalanced([TriosePhosphateIsomerase], Nad, Nadh)
  {
    FirstStepsWellFormed();
    LaterStepsWellFormed();
    assert Adp[0] != Nad[0] && Atp[0] != Nad[0];
    assert Adp[0] != Nad[0] && Atp[0] != Nad[0] && H2o[0] != Nad[0];
  }

  /**
   * The net yield of a `glycolysis` call that returns: ATP + ADP rises by
   * exactly 2 per glucose unit processed, and NAD+ + NADH is what it was.
   */
  lemma GlycolysedYield(s: Store, glucoseUnits: real, rate: Kinetics)
    requires Glycolysed(s, glucoseUnits, rate).1.Ok?
    ensures PairSum(Glycolysed(s, glucoseUnits, rate).0, Atp, Adp) ==
      PairSum(s, Atp, Adp) + (if glucoseUnits.Floor > 0 then 2.0 * glucoseUnits.Floor as real else 0.0)
    ensures PairSum(Glycolysed(s, glucoseUnits, rate).0, Nad, Nadh) == PairSum(s, Nad, Nadh)
  {
    AdenylatesBalanced();
    NicotinamidesBalanced();
    var units := glucoseUnits.Floor;
    GlycolysedWithPair(s, units, FirstSteps, TriosePhosphateIsomerase, LaterSteps, rate, Atp, Adp);
    GlycolysedWithPair(s, units, FirstSteps, TriosePhosphateIsomerase, LaterSteps, rate, Nad, Nadh);
  }

  // ---------------------------------------------------------------------
  // Glucose is only ever taken

  /** No step of a run produces `k`. */
  predicate NeverMade(steps: seq<Reaction>, k: string)
  {
    forall i :: 0 <= i < |steps| ==> WellFormedReaction(steps[i]) && k !in steps[i].produced
  }

  /** A completed step that does not produce `k` cannot raise it. */
  lemma ReactedNoRise(s: Store, rx: Reaction, rate: real, k: string)
    requires WellFormedReaction(rx) && k !in rx.produced
    requires Reacted(s, rx, rate).error == None
    ensures QuantityOf(Reacted(s, rx, rate).state, k) <= QuantityOf(s, k)
  {
    ReactedEffect(s, rx, rate);
    if k in s && k in rx.consumed {
      assert rx.consumed != [];
    }
  }

  lemma {:induction false} ScheduledNoRise(s: Store, steps: seq<Reaction>, rate: Kinetics, k: string)
    requires NeverMade(steps, k)
    requires Scheduled(s, steps, rate).error == None
    ensures QuantityOf(Scheduled(s, steps, rate).state, k) <= QuantityOf(s, k)
    decreases |steps|
  {
    if steps != [] {
      var p := Reacted(s, steps[0], rate(steps[0], s));
      ReactedNoRise(s, steps[0], rate(steps[0], s), k);
      assert NeverMade(steps[1..], k) by {
        forall i | 0 <= i < |steps[1..]|
          ensures WellFormedReaction(steps[1..][i]) && k !in steps[1..][i].produced
        {
          assert steps[1..][i] == steps[i + 1];
        }
      }
      ScheduledNoRise(p.state, steps[1..], rate, k);
    }
  }

  lemma {:induction false} RepeatedNoRise(s: Store, steps: seq<Reaction>, times: nat, rate: Kinetics, k: string)
    requires NeverMade(steps, k)
    requires Repeated(s, steps, times, rate).error == None
    ensures QuantityOf(Repeated(s, steps, times, rate).state, k) <= QuantityOf(s, k)
    decreases times
  {
    if times > 0 {
      var p := Scheduled(s, steps, rate);
      ScheduledNoRise(s, steps, rate, k);
      RepeatedNoRise(p.state, steps, times - 1, rate, k);
    }
  }

  /** A completed body of the glucose loop cannot raise a metabolite no step makes, ATP aside. */
  lemma UnitRunNoRise(s: Store, first: seq<Reaction>, middle: Reaction, later: seq<Reaction>, rate: Kinetics, k: string)
    requires NeverMade(first, k) && NeverMade([middle], k) && NeverMade(later, k) && k != Atp
    requires UnitRun(s, first, middle, later, rate).error == None
    ensures QuantityOf(UnitRun(s, first, middle, later, rate).state, k) <= QuantityOf(s, k)
  {
    var p := Scheduled(s, first, rate);
    ScheduledNoRise(s, first, rate, k);
    var q := Reacted(p.state, middle, rate(middle, p.state));
    assert WellFormedReaction([middle][0]) && k !in [middle][0].produced;
    ReactedNoRise(p.state, middle, rate(middle, p.state), k);
    var c := Repeated(q.state, later, 2, rate);
    RepeatedNoRise(q.state, later, 2, rate, k);
    ProducedOther(c.state, Atp, 2.0, k);
  }

  /** Producing one metabolite leaves every other one as it was. */
  lemma ProducedOther(s: Store, name: string, amount: real, k: string)
    requires k != name
    requires Exchanged(s, [(name, amount)], true).Ok?
    ensures QuantityOf(Exchanged(s, [(name, amount)], true).value, k) == QuantityOf(s, k)
  {
    assert Uniform([name], amount) == [(name, amount)];
    ExchangedUniform(s, [name], amount, true);
  }

  /** A completed loop whose body cannot raise `k` cannot raise it either. */
  lemma {:induction false} UnitsRunNoRise(s: Store, units: nat, body: LoopBody, k: string)
    requires forall x :: body(x).error == None ==> QuantityOf(body(x).state, k) <= QuantityOf(x, k)
    requires Completes(s, units, body)
    ensures QuantityOf(UnitsRun(s, units, body).state, k) <= QuantityOf(s, k)
    decreases units
  {
    if units > 0 {
      var rest: nat := units - 1;
      var t := UnitsRunUnfold(s, units, rest, body);
      UnitsRunNoRise(t, rest, body, k);
    }
  }

  /** No step of the pathway makes glucose. */
  lemma GlucoseNeverMade()
    ensures NeverMade(FirstSteps, Glucose) && NeverMade([TriosePhosphateIsomerase], Glucose)
    ensures NeverMade(LaterSteps, Glucose)
  {
    FirstStepsWellFormed();
    LaterStepsWellFormed();
    assert Glucose[0] != Adp[0] && Glucose[0] != Atp[0];
  }

  /**
   * A `glycolysis` call that returns has taken the whole input from the
   * glucose up front, and hexokinase takes its share on top of that: the
   * glucose left is at most the glucose before less the units processed.
   */
  lemma GlycolysedTakesGlucose(s: Store, glucoseUnits: real, rate: Kinetics)
    requires glucoseUnits.Floor > 0
    requires Glycolysed(s, glucoseUnits, rate).1.Ok?
    ensures Glucose in s
    ensures QuantityOf(Glycolysed(s, glucoseUnits, rate).0, Glucose) <= s[Glucose].quantity - glucoseUnits.Floor as real
  {
    var units := glucoseUnits.Floor;
    GlucoseNeverMade();
    assert Glucose[0] != Atp[0] && Glucose[0] != Adp[0];
    assert Ensured(s, Glucose, units as real).state == s;
    assert Uniform([Glucose], units as real) == [(Glucose, units as real)];
    ExchangedUniform(s, [Glucose], units as real, false);
    var t := Exchanged(s, [(Glucose, units as real)], false).value;
    var body := Body(FirstSteps, TriosePhosphateIsomerase, LaterSteps, rate);
    forall x | body(x).error == None
      ensures QuantityOf(body(x).state, Glucose) <= QuantityOf(x, Glucose)
    {
      UnitRunNoRise(x, FirstSteps, TriosePhosphateIsomerase, LaterSteps, rate, Glucose);
    }
    UnitsRunNoRise(t, units, body, Glucose);
  }

  // ---------------------------------------------------------------------
  // The pathway object

  /**
   * `GlycolysisPathway`: it keeps the organelle it was built with and
   * changes that organelle's metabolites. The enzyme table and the time step
   * are folded into the `rate` argument of the methods that run steps.
   */
  class GlycolysisPathway {
    const organelle: PyologyOrganelle.Organelle

    constructor(organelle: PyologyOrganelle.Organelle)
      ensures this.organelle == organelle
    {
      this.organelle := organelle;
    }

    /** `glycolysis`: the input is floored, then the pathway's own schedule runs. */
    method Glycolysis(glucoseUnits: real, rate: Kinetics) returns (r: Result<real>)
      modifies organelle
      ensures organelle.glycolysisRate == old(organelle.glycolysisRate)
      ensures organelle.metabolites == Glycolysed(old(organelle.metabolites), glucoseUnits, rate).0
      ensures r == Glycolysed(old(organelle.metabolites), glucoseUnits, rate).1
    {
      r := GlycolysisWith(glucoseUnits.Floor, FirstSteps, TriosePhosphateIsomerase, LaterSteps, rate);
    }

    /** The body of `glycolysis` over a step schedule, once the input is a whole number. */
    method GlycolysisWith(units: int, first: seq<Reaction>, middle: Reaction, later: seq<Reaction>, rate: Kinetics)
      returns (r: Result<real>)
      modifies organelle
      ensures organelle.glycolysisRate == old(organelle.glycolysisRate)
      ensures organelle.metabolites == GlycolysedWith(old(organelle.metabolites), units, first, middle, later, rate).0
      ensures r == GlycolysedWith(old(organelle.metabolites), units, first, middle, later, rate).1
    {
      if units < 0 {
        return Raise(GlycolysisError);
      }
      if units == 0 {
        return Ok(0.0);
      }
      var e := EnsureMetaboliteAvailability(Glucose, units as real);
      if e.Raised? {
        return Raise(Caught(e.error));
      }
      var c := ConsumeMetabolites([(Glucose, units as real)]);
      if c.Raised? {
        return Raise(Caught(c.error));
      }
      var o := RunUnits(units, first, middle, later, rate);
      if o.Raised? {
        return Raise(Caught(o.error));
      }
      r := MetaboliteQuantity(Pyruvate);
      if r.Raise? {
        r := Raise(Caught(r.error));
      }
    }

    /** `for _ in range(units)` around the loop body, stopping at the first raise. */
    method RunUnits(units: nat, first: seq<Reaction>, middle: Reaction, later: seq<Reaction>, rate: Kinetics) returns (r: Outcome)
      modifies organelle
      ensures organelle.glycolysisRate == old(organelle.glycolysisRate)
      ensures organelle.metabolites == UnitsRun(old(organelle.metabolites), units, Body(first, middle, later, rate)).state
      ensures r == OutcomeOf(UnitsRun(old(organelle.metabolites), units, Body(first, middle, later, rate)).error)
    {
      ghost var left: nat := units;
      var i := 0;
      while i < units
        invariant 0 <= i <= units && left == units - i
        invariant organelle.glycolysisRate == old(organelle.glycolysisRate)
        invariant UnitsRun(old(organelle.metabolites), units, Body(first, middle, later, rate)) ==
          UnitsRun(organelle.metabolites, left, Body(first, middle, later, rate))
      {
        ghost var rest: nat := left - 1;
        UnitsRunFirst(organelle.metabolites, left, rest, Body(first, middle, later, rate));
        r := RunUnit(first, middle, later, rate);
        if r.Raised? {
          return;
        }
        left := rest;
        i := i + 1;
      }
      return Done;
    }

    /** One pass of the glucose loop: steps 1-4, step 5, steps 6-10 twice, then 2 ATP. */
    method RunUnit(first: seq<Reaction>, middle: Reaction, later: seq<Reaction>, rate: Kinetics) returns (r: Outcome)
      modifies organelle
      ensures organelle.glycolysisRate == old(organelle.glycolysisRate)
      ensures organelle.metabolites == UnitRun(old(organelle.metabolites), first, middle, later, rate).state
      ensures r == OutcomeOf(UnitRun(old(organelle.metabolites), first, middle, later, rate).error)
    {
      r := RunSchedule(first, rate);
      if r.Raised? {
        return;
      }
      r := RunStep(middle, rate);
      if r.Raised? {
        return;
      }
      ghost var mid := organelle.metabolites;
      for j := 0 to 2
        invariant organelle.glycolysisRate == old(organelle.glycolysisRate)
        invariant Repeated(mid, later, 2, rate) == Repeated(organelle.metabolites, later, 2 - j, rate)
      {
        r := RunSchedule(later, rate);
        if r.Raised? {
          return;
        }
      }
      r := ProduceMetabolites([(Atp, 2.0)]);
    }

    /** The steps of a schedule in order, stopping at the first raise. */
    method RunSchedule(steps: seq<Reaction>, rate: Kinetics) returns (r: Outcome)
      modifies organelle
      ensures organelle.glycolysisRate == old(organelle.glycolysisRate)
      ensures organelle.metabolites == Scheduled(old(organelle.metabolites), steps, rate).state
      ensures r == OutcomeOf(Scheduled(old(organelle.metabolites), steps, rate).error)
    {
      for i := 0 to |steps|
        invariant organelle.glycolysisRate == old(organelle.glycolysisRate)
        invariant Scheduled(old(organelle.metabolites), steps, rate) == Scheduled(organelle.metabolites, steps[i..], rate)
      {
        assert steps[i..][0] == steps[i] && steps[i..][1..] == steps[i + 1..];
        r := RunStep(steps[i], rate);
        if r.Raised? {
          return;
        }
      }
      assert steps[|steps|..] == [];
      return Done;
    }

    /**
     * One step method: read the substrate, ask the enzyme for its rate, bound
     * it by the substrate and the limits, consume, then produce.
     */
    method RunStep(rx: Reaction, rate: Kinetics) returns (r: Outcome)
      modifies organelle
      ensures organelle.glycolysisRate == old(organelle.glycolysisRate)
      ensures organelle.metabolites == Reacted(old(organelle.metabolites), rx, rate(rx, old(organelle.metabolites))).state
      ensures r == OutcomeOf(Reacted(old(organelle.metabolites), rx, rate(rx, old(organelle.metabolites))).error)
    {
      var q := MetaboliteQuantity(rx.substrate);
      if q.Raise? {
        return Raised(q.error);
      }
      var reactionRate := rate(rx, organelle.metabolites);
      var actual := LimitedRate(rx.limits, Min(reactionRate, q.value));
      if actual.Raise? {
        return Raised(actual.error);
      }
      r := ConsumeMetabolites(Uniform(rx.consumed, actual.value));
      if r.Raised? {
        return;
      }
      r := ProduceMetabolites(Uniform(rx.produced, actual.value));
    }

    /** `min(bound, ...)` over the quantities of the limits, each read in turn. */
    method LimitedRate(limits: seq<string>, bound: real) returns (r: Result<real>)
      ensures r == Limited(organelle.metabolites, limits, bound)
    {
      var b := bound;
      for i := 0 to |limits|
        invariant Limited(organelle.metabolites, limits, bound) == Limited(organelle.metabolites, limits[i..], b)
      {
        assert limits[i..][0] == limits[i] && limits[i..][1..] == limits[i + 1..];
        var q := MetaboliteQuantity(limits[i]);
        if q.Raise? {
          return Raise(q.error);
        }
        b := Min(b, q.value);
      }
      assert limits[|limits|..] == [];
      return Ok(b);
    }

    /** The organelle's `get_metabolite_quantity`: an unknown name raises UnknownMetaboliteError. */
    method MetaboliteQuantity(name: string) returns (r: Result<real>)
      ensures r == Read(organelle.metabolites, name)
      ensures r.Ok? <==> name in organelle.metabolites
    {
      if name !in organelle.metabolites {
        return Raise(UnknownMetaboliteError);
      }
      return Ok(organelle.metabolites[name].quantity);
    }

    /** `is_metabolite_available`: an unknown name raises MetaboliteError. */
    method IsMetaboliteAvailable(name: string, amount: real) returns (r: Result<bool>)
      ensures r == Available(organelle.metabolites, name, amount)
      ensures r.Ok? ==> (r.value <==> organelle.metabolites[name].quantity >= amount)
    {
      if name in organelle.metabolites {
        return Ok(organelle.metabolites[name].quantity >= amount);
      }
      return Raise(MetaboliteError);
    }

    /** `ensure_metabolite_availability`, through the organelle's `change_metabolite_quantity`. */
    method EnsureMetaboliteAvailability(name: string, amount: real) returns (r: Outcome)
      modifies organelle
      ensures organelle.glycolysisRate == old(organelle.glycolysisRate)
      ensures organelle.metabolites == Ensured(old(organelle.metabolites), name, amount).state
      ensures r == OutcomeOf(Ensured(old(organelle.metabolites), name, amount).error)
    {
      var a := IsMetaboliteAvailable(name, amount);
      if a.Raise? {
        return Raised(a.error);
      }
      if a.value {
        return Done;
      }
      if name == Atp {
        var b := IsMetaboliteAvailable(Adp, amount);
        if b.Raise? {
          return Raised(b.error);
        }
        if b.value {
          r := Convert(Adp, Atp, amount);
          return;
        }
      } else if name == Adp {
        var b := IsMetaboliteAvailable(Atp, amount);
        if b.Raise? {
          return Raised(b.error);
        }
        if b.value {
          r := Convert(Atp, Adp, amount);
          return;
        }
      }
      return Raised(MetaboliteError);
    }

    /** The two `change_metabolite_quantity` calls that turn `amount` of `source` into `target`. */
    method Convert(source: string, target: string, amount: real) returns (r: Outcome)
      modifies organelle
      ensures organelle.glycolysisRate == old(organelle.glycolysisRate)
      ensures organelle.metabolites == Converted(old(organelle.metabolites), source, target, amount).state
      ensures r == OutcomeOf(Converted(old(organelle.metabolites), source, target, amount).error)
    {
      r := organelle.ChangeMetaboliteQuantity(source, -amount);
      if r.Raised? {
        return;
      }
      r := organelle.ChangeMetaboliteQuantity(target, amount);
    }

    /** `consume_metabolites`: every item is checked (negative, unknown, short) before any is taken. */
    method ConsumeMetabolites(items: Items) returns (r: Outcome)
      modifies organelle
      ensures organelle.glycolysisRate == old(organelle.glycolysisRate)
      ensures var a := Exchanged(old(organelle.metabolites), items, false);
        (a.Ok? ==> organelle.metabolites == a.value && r == Done) &&
        (a.Raise? ==> organelle.metabolites == old(organelle.metabolites) && r == Raised(MetaboliteError))
    {
      var f := FindFault(organelle.metabolites, items, false);
      if f.Some? {
        return Raised(MetaboliteError);
      }
      FirstFaultNone(organelle.metabolites, items, false, 0);
      organelle.metabolites := ApplyEach(organelle.metabolites, items, -1.0);
      return Done;
    }

    /** `produce_metabolites`: every item is checked (negative, unknown, over capacity) before any is added. */
    method ProduceMetabolites(items: Items) returns (r: Outcome)
      modifies organelle
      ensures organelle.glycolysisRate == old(organelle.glycolysisRate)
      ensures var a := Exchanged(old(organelle.metabolites), items, true);
        (a.Ok? ==> organelle.metabolites == a.value && r == Done) &&
        (a.Raise? ==> organelle.metabolites == old(organelle.metabolites) && r == Raised(MetaboliteError))
    {
      var f := FindFault(organelle.metabolites, items, true);
      if f.Some? {
        return Raised(MetaboliteError);
      }
      FirstFaultNone(organelle.metabolites, items, true, 0);
      organelle.metabolites := ApplyEach(organelle.metabolites, items, 1.0);
      return Done;
    }
  }
}
