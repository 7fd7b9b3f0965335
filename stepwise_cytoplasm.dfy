/**
 * cell_modeling/pyology/cytoplasm.py and its older copy
 * cell_modeling/cell_modeling/organelles/cytoplasm.py: a cytoplasm that runs
 * glycolysis as ten step methods over its metabolite store. Each active step
 * first makes one metabolite available (turning ADP into ATP or back when
 * that one is short), then consumes and produces with all-or-nothing
 * validation. The pyology copy floors its input and has ten active steps;
 * the older copy takes an integer and leaves five steps empty.
 */
module StepwiseCytoplasm {
  import opened Common
  import opened Stores

  const Glucose: string := "glucose"
  const Atp: string := "atp"
  const Adp: string := "adp"
  const Nad: string := "nad"
  const Nadh: string := "nadh"
  const Pyruvate: string := "pyruvate"
  const Fructose6Phosphate: string := "fructose_6_phosphate"
  const Glyceraldehyde3Phosphate: string := "glyceraldehyde_3_phosphate"
  const DihydroxyacetonePhosphate: string := "dihydroxyacetone_phosphate"
  const Phosphoenolpyruvate: string := "phosphoenolpyruvate"

  /** The store both constructors build: four metabolites at 100, two at 0, capacity 1000. */
  const InitialStore: Store := map[
    Glucose := Entry(Glucose, 100.0, 1000.0),
    Atp := Entry(Atp, 100.0, 1000.0),
    Adp := Entry(Adp, 100.0, 1000.0),
    Nad := Entry(Nad, 100.0, 1000.0),
    Nadh := Entry(Nadh, 0.0, 1000.0),
    Pyruvate := Entry(Pyruvate, 0.0, 1000.0)]

  /**
   * One step method: `Pass` is a step whose body is `pass`; `Transfer`
   * ensures `amount` of `ensure`, consumes `consumed` and then produces
   * `produced`.
   */
  datatype Step = Pass | Transfer(ensure: string, amount: real, consumed: Items, produced: Items)

  const Hexokinase: Step := Transfer(Atp, 1.0, [(Glucose, 1.0), (Atp, 1.0)], [(Adp, 1.0)])
  const Phosphofructokinase: Step := Transfer(Atp, 1.0, [(Atp, 1.0)], [(Adp, 1.0)])
  const Aldolase: Step :=
    Transfer(Fructose6Phosphate, 1.0, [(Fructose6Phosphate, 1.0)], [(Glyceraldehyde3Phosphate, 2.0)])
  const TriosePhosphateIsomerase: Step :=
    Transfer(Glyceraldehyde3Phosphate, 2.0, [(Glyceraldehyde3Phosphate, 2.0)], [(DihydroxyacetonePhosphate, 2.0)])
  const Dehydrogenase: Step := Transfer(Nad, 2.0, [(Nad, 2.0)], [(Nadh, 2.0)])
  const PhosphoglycerateKinase: Step := Transfer(Adp, 2.0, [(Adp, 2.0)], [(Atp, 2.0)])
  const PhosphoglycerateMutase: Step :=
    Transfer(Phosphoenolpyruvate, 2.0, [(Phosphoenolpyruvate, 2.0)], [(Pyruvate, 2.0)])
  /** Enolase and pyruvate kinase have the same body in the pyology copy. */
  const PyruvateKinase: Step := Transfer(Adp, 2.0, [(Adp, 2.0)], [(Atp, 2.0), (Pyruvate, 2.0)])

  /** The ten steps of cell_modeling/pyology/cytoplasm.py, in enum order. */
  const PyologySteps: seq<Step> := [
    Hexokinase, Pass, Phosphofructokinase, Aldolase, TriosePhosphateIsomerase,
    Dehydrogenase, PhosphoglycerateKinase, PhosphoglycerateMutase, PyruvateKinase, PyruvateKinase]

  /** The ten steps of the older copy, where steps 2, 4, 5, 8 and 9 are empty. */
  const OrganelleSteps: seq<Step> := [
    Hexokinase, Pass, Phosphofructokinase, Pass, Pass,
    Dehydrogenase, PhosphoglycerateKinase, Pass, Pass, PyruvateKinase]

  /** Every keyword call of a step names each metabolite once. */
  predicate WellFormed(steps: seq<Step>)
  {
    forall i :: 0 <= i < |steps| ==> steps[i].Transfer? ==>
      DistinctNames(steps[i].consumed) && DistinctNames(steps[i].produced)
  }

  /** ATP plus ADP, the pair the availability fix-up trades between. */
  function AdenineSum(s: Store): real
  {
    QuantityOf(s, Atp) + QuantityOf(s, Adp)
  }

  /** `is_metabolite_available`: an unknown name is a ValueError. */
  function Available(s: Store, name: string, amount: real): (r: Result<bool>)
    ensures name !in s <==> r == Raise(ValueError)
    ensures name in s ==> (r == Ok(true) <==> s[name].quantity >= amount)
  {
    Availability(s, name, amount, ValueError)
  }

  /** consume_metabolites / produce_metabolites: every rejected item is a ValueError. */
  function Exchanged(s: Store, items: Items, produce: bool): (r: Result<Store>)
    ensures r.Ok? <==> forall i :: 0 <= i < |items| ==>
      (if produce then ProduceItemFault(s, items[i]) else ConsumeItemFault(s, items[i])) == None
    ensures r.Raise? ==> r.error == ValueError
    ensures r.Ok? ==> r.value.Keys == s.Keys
  {
    FirstFaultNone(s, items, produce, 0);
    match ValidateThenApply(s, items, produce)
    case Applied(t) => Ok(t)
    case Rejected(_, _) => Raise(ValueError)
  }

  /**
   * `ensure_metabolite_availability`: nothing happens when the metabolite is
   * already there; short ATP is made from ADP and short ADP from ATP when the
   * other has `amount`; anything else is a ValueError. Only ATP and ADP ever
   * change, and a completed conversion keeps their sum.
   */
  function Ensured(s: Store, name: string, amount: real): (r: Partial<Store>)
    ensures name !in s ==> r == Partial(s, Some(ValueError))
    ensures name in s && s[name].quantity >= amount ==> r == Partial(s, None)
    ensures (name in s && s[name].quantity < amount &&
        !(name == Atp && Adp in s && s[Adp].quantity >= amount) &&
        !(name == Adp && Atp in s && s[Atp].quantity >= amount)) ==>
      r == Partial(s, Some(ValueError))
    ensures r.state.Keys == s.Keys
    ensures forall k :: k in s ==> r.state[k].maxQuantity == s[k].maxQuantity
    ensures forall k :: k in s && k != Atp && k != Adp ==> r.state[k] == s[k]
    ensures r.error == None ==> AdenineSum(r.state) == AdenineSum(s)
    ensures r.error == Some(ValueError) ==> r.state == s
  {
    match Available(s, name, amount)
    case Raise(e) => Partial(s, Some(e))
    case Ok(present) =>
      if present then Partial(s, None)
      else if name == Atp && Available(s, Adp, amount) == Ok(true) then Converted(s, Adp, Atp, amount)
      else if name == Adp && Available(s, Atp, amount) == Ok(true) then Converted(s, Atp, Adp, amount)
      else Partial(s, Some(ValueError))
  }

  /** A completed conversion moves exactly `amount` from the plentiful one to the short one. */
  lemma EnsuredConverts(s: Store, name: string, amount: real)
    requires name == Atp || name == Adp
    requires Atp in s && Adp in s
    requires s[name].quantity < amount
    requires Ensured(s, name, amount).error == None
    ensures var other := if name == Atp then Adp else Atp;
      var r := Ensured(s, name, amount).state;
      r[name].quantity == s[name].quantity + amount &&
      r[other].quantity == s[other].quantity - amount
  {
    assert Atp[1] != Adp[1];
  }

  /**
   * One step method: the availability fix-up, then consume, then produce;
   * each raise keeps what came before it. (consume_metabolites returns True
   * whenever it does not raise, so step 1's `else` branch cannot run.)
   */
  function Stepped(s: Store, st: Step): (r: Partial<Store>)
    ensures st.Pass? ==> r == Partial(s, None)
    ensures r.error.Some? ==> r.error.value == ValueError || r.error.value == QuantityError
    ensures st.Transfer? && r.error == None ==>
      (forall i :: 0 <= i < |st.consumed| ==> st.consumed[i].0 in s) &&
      (forall i :: 0 <= i < |st.produced| ==> st.produced[i].0 in s)
  {
    if st.Pass? then Partial(s, None)
    else
      var e := Ensured(s, st.ensure, st.amount);
      if e.error.Some? then e
      else
        match Exchanged(e.state, st.consumed, false)
        case Raise(err) => Partial(e.state, Some(err))
        case Ok(t) =>
          match Exchanged(t, st.produced, true)
          case Raise(err) => Partial(t, Some(err))
          case Ok(u) => Partial(u, None)
  }

  /** The step loop of `glycolysis`: the steps in order, stopping at the first raise. */
  function SteppedAll(s: Store, steps: seq<Step>): (r: Partial<Store>)
    ensures r.state.Keys == s.Keys
    ensures r.error.Some? ==> r.error.value == ValueError || r.error.value == QuantityError
  {
    if steps == [] then Partial(s, None)
    else
      var p := Stepped(s, steps[0]);
      if p.error.Some? then p else SteppedAll(p.state, steps[1..])
  }

  /** `except ValueError`: only a ValueError becomes a GlycolysisError. */
  function Caught(e: Error): Error
  {
    if e == ValueError then GlycolysisError else e
  }

  /**
   * `glycolysis` on a whole number of glucose units: ValueError when
   * negative, 0 when zero; otherwise the glucose is taken, the steps run, and
   * the pyruvate on hand is returned. The store is what the steps left.
   */
  function Glycolysed(s: Store, units: int, steps: seq<Step>): (r: (Store, Result<real>))
    ensures units < 0 ==> r == (s, Raise(ValueError))
    ensures units == 0 ==> r == (s, Ok(0.0))
    ensures r.0.Keys == s.Keys
    ensures units > 0 && r.1.Ok? ==> Pyruvate in r.0 && r.1.value == r.0[Pyruvate].quantity
    ensures units > 0 && r.1.Ok? ==> Glucose in s && s[Glucose].quantity >= units as real
  {
    if units < 0 then (s, Raise(ValueError))
    else if units == 0 then (s, Ok(0.0))
    else
      match CheckedChange(s, Glucose, -(units as real))
      case Raise(e) => (s, Raise(Caught(e)))
      case Ok(t) =>
        var p := SteppedAll(t, steps);
        if p.error.Some? then (p.state, Raise(Caught(p.error.value)))
        else if Pyruvate in p.state then (p.state, Ok(p.state[Pyruvate].quantity))
        else (p.state, Raise(GlycolysisError))
  }

  /** Negative input is refused and zero is a no-op, on any store. */
  lemma GlycolysedGuards(s: Store, units: int, steps: seq<Step>)
    ensures units < 0 ==> Glycolysed(s, units, steps) == (s, Raise(ValueError))
    ensures units == 0 ==> Glycolysed(s, units, steps) == (s, Ok(0.0))
    ensures units > 0 && Glucose !in s ==> Glycolysed(s, units, steps) == (s, Raise(UnknownMetaboliteError))
  {
  }

  // ---------------------------------------------------------------------
  // Net amounts of a step and of a run

  /** The total amount a keyword call names for `k` (0 when it does not name it). */
  function Amount(items: Items, k: string): real
  {
    if items == [] then 0.0
    else (if items[0].0 == k then items[0].1 else 0.0) + Amount(items[1..], k)
  }

  /** What one step adds to `k` once its fix-up is done. */
  function Net(st: Step, k: string): real
  {
    if st.Pass? then 0.0 else Amount(st.produced, k) - Amount(st.consumed, k)
  }

  /** What a run of steps adds to `k`. */
  function Total(steps: seq<Step>, k: string): real
  {
    if steps == [] then 0.0 else Net(steps[0], k) + Total(steps[1..], k)
  }

  lemma {:induction false} AmountUnmentioned(items: Items, k: string)
    requires !Mentions(items, k)
    ensures Amount(items, k) == 0.0
  {
    if items != [] {
      assert !Mentions(items[1..], k) by {
        forall i | 0 <= i < |items[1..]| ensures items[1..][i].0 != k {
          assert items[1..][i] == items[i + 1];
        }
      }
      AmountUnmentioned(items[1..], k);
    }
  }

  lemma {:induction false} AmountOfNamed(items: Items, i: nat)
    requires DistinctNames(items) && i < |items|
    ensures Amount(items, items[i].0) == items[i].1
  {
    var k := items[i].0;
    if i == 0 {
      assert !Mentions(items[1..], k) by {
        forall j | 0 <= j < |items[1..]| ensures items[1..][j].0 != k {
          assert items[1..][j] == items[j + 1];
        }
      }
      AmountUnmentioned(items[1..], k);
    } else {
      assert items[1..][i - 1] == items[i];
      assert DistinctNames(items[1..]) by {
        forall a, b | 0 <= a < b < |items[1..]| ensures items[1..][a].0 != items[1..][b].0 {
          assert items[1..][a] == items[a + 1] && items[1..][b] == items[b + 1];
        }
      }
      AmountOfNamed(items[1..], i - 1);
    }
  }

  /**
   * An accepted consume or produce call moves every metabolite by exactly
   * the amount it names, and names only known metabolites.
   */
  lemma ExchangedAmounts(s: Store, items: Items, produce: bool)
    requires DistinctNames(items)
    requires Exchanged(s, items, produce).Ok?
    ensures var r := Exchanged(s, items, produce).value;
      r.Keys == s.Keys &&
      (forall k :: k in s ==> r[k].maxQuantity == s[k].maxQuantity) &&
      (forall k :: k in s ==>
        r[k].quantity == s[k].quantity + (if produce then Amount(items, k) else -Amount(items, k))) &&
      (forall k :: k !in s ==> Amount(items, k) == 0.0)
  {
    ValidateThenApplySpec(s, items, produce);
    var r := Exchanged(s, items, produce).value;
    forall k | k in s
      ensures r[k].quantity == s[k].quantity + (if produce then Amount(items, k) else -Amount(items, k))
    {
      if Mentions(items, k) {
        var i :| 0 <= i < |items| && items[i].0 == k;
        AmountOfNamed(items, i);
      } else {
        AmountUnmentioned(items, k);
      }
    }
    forall k | k !in s ensures Amount(items, k) == 0.0 {
      assert !Mentions(items, k) by {
        forall i | 0 <= i < |items| ensures items[i].0 != k {
          assert (if produce then ProduceItemFault(s, items[i]) else ConsumeItemFault(s, items[i])) == None;
        }
      }
      AmountUnmentioned(items, k);
    }
  }

  /**
   * A step that completes keeps the metabolite names, moves every other
   * metabolite by its net amount, and moves ATP plus ADP by their combined
   * net amount (the fix-up only trades between the two). When the fix-up had
   * nothing to do, ATP and ADP move by their own net amounts too.
   */
  lemma StepEffect(s: Store, st: Step)
    requires st.Transfer? ==> DistinctNames(st.consumed) && DistinctNames(st.produced)
    requires Stepped(s, st).error == None
    ensures var r := Stepped(s, st).state;
      r.Keys == s.Keys &&
      (forall k :: k in s && k != Atp && k != Adp ==> r[k].quantity == s[k].quantity + Net(st, k)) &&
      AdenineSum(r) == AdenineSum(s) + Net(st, Atp) + Net(st, Adp) &&
      (forall k :: k !in s ==> Net(st, k) == 0.0)
    ensures st.Transfer? ==> forall k :: k in s ==>
      Stepped(s, st).state[k].quantity == Ensured(s, st.ensure, st.amount).state[k].quantity + Net(st, k)
  {
    if st.Transfer? {
      var e := Ensured(s, st.ensure, st.amount);
      var t := Exchanged(e.state, st.consumed, false).value;
      ExchangedAmounts(e.state, st.consumed, false);
      ExchangedAmounts(t, st.produced, true);
    }
  }

  /** A run that completes moves every metabolite other than ATP and ADP by its total. */
  lemma {:induction false} RunEffect(s: Store, steps: seq<Step>)
    requires WellFormed(steps)
    requires SteppedAll(s, steps).error == None
    ensures var r := SteppedAll(s, steps).state;
      r.Keys == s.Keys &&
      (forall k :: k in s && k != Atp && k != Adp ==> r[k].quantity == s[k].quantity + Total(steps, k)) &&
      AdenineSum(r) == AdenineSum(s) + Total(steps, Atp) + Total(steps, Adp) &&
      (forall k :: k !in s ==> Total(steps, k) == 0.0)
  {
    if steps != [] {
      StepEffect(s, steps[0]);
      var p := Stepped(s, steps[0]);
      assert WellFormed(steps[1..]) by {
        forall i | 0 <= i < |steps[1..]| ensures steps[1..][i] == steps[i + 1] { }
      }
      RunEffect(p.state, steps[1..]);
    }
  }

  /**
   * A glycolysis that returns a value takes the input glucose plus what the
   * steps consume, moves every other metabolite but ATP and ADP by the steps'
   * totals, and returns the pyruvate it leaves.
   */
  lemma GlycolysedEffect(s: Store, units: int, steps: seq<Step>)
    requires WellFormed(steps)
    requires units > 0 && Glycolysed(s, units, steps).1.Ok?
    ensures var (r, v) := Glycolysed(s, units, steps);
      r.Keys == s.Keys && Glucose in s &&
      r[Glucose].quantity == s[Glucose].quantity - units as real + Total(steps, Glucose) &&
      (forall k :: k in s && k != Atp && k != Adp && k != Glucose ==>
        r[k].quantity == s[k].quantity + Total(steps, k)) &&
      AdenineSum(r) == AdenineSum(s) + Total(steps, Atp) + Total(steps, Adp) &&
      Pyruvate in r && v.value == r[Pyruvate].quantity
  {
    var t := CheckedChange(s, Glucose, -(units as real)).value;
    assert Glucose != Atp && Glucose != Adp;
    RunEffect(t, steps);
  }

  // ---------------------------------------------------------------------
  // The two step tables

  lemma StepTablesWellFormed()
    ensures WellFormed(PyologySteps) && WellFormed(OrganelleSteps)
  {
    assert Glucose[0] != Atp[0] && Atp[0] != Pyruvate[0];
  }

  lemma TotalSplitAt(steps: seq<Step>, k: string, i: nat)
    requires i < |steps|
    ensures Total(steps[i..], k) == Net(steps[i], k) + Total(steps[i + 1..], k)
  {
    assert steps[i..][1..] == steps[i + 1..];
  }

  /** A ten-step run adds the ten net amounts. */
  lemma TotalTen(steps: seq<Step>, k: string)
    requires |steps| == 10
    ensures Total(steps, k) ==
      Net(steps[0], k) + Net(steps[1], k) + Net(steps[2], k) + Net(steps[3], k) + Net(steps[4], k) +
      Net(steps[5], k) + Net(steps[6], k) + Net(steps[7], k) + Net(steps[8], k) + Net(steps[9], k)
  {
    assert steps[0..] == steps;
    TotalSplitAt(steps, k, 0); TotalSplitAt(steps, k, 1); TotalSplitAt(steps, k, 2);
    TotalSplitAt(steps, k, 3); TotalSplitAt(steps, k, 4); TotalSplitAt(steps, k, 5);
    TotalSplitAt(steps, k, 6); TotalSplitAt(steps, k, 7); TotalSplitAt(steps, k, 8);
    TotalSplitAt(steps, k, 9);
    assert steps[10..] == [];
  }

  /** The net amounts of the steps in closed form. */
  lemma StepNets(k: string)
    ensures Net(Pass, k) == 0.0
    ensures Net(Hexokinase, k) == (if k == Adp then 1.0 else 0.0) - ((if k == Glucose then 1.0 else 0.0) + (if k == Atp then 1.0 else 0.0))
    ensures Net(Phosphofructokinase, k) == (if k == Adp then 1.0 else 0.0) - (if k == Atp then 1.0 else 0.0)
    ensures Net(Dehydrogenase, k) == (if k == Nadh then 2.0 else 0.0) - (if k == Nad then 2.0 else 0.0)
    ensures Net(PhosphoglycerateKinase, k) == (if k == Atp then 2.0 else 0.0) - (if k == Adp then 2.0 else 0.0)
    ensures Net(PyruvateKinase, k) ==
      ((if k == Atp then 2.0 else 0.0) + (if k == Pyruvate then 2.0 else 0.0)) - (if k == Adp then 2.0 else 0.0)
    ensures Net(Aldolase, k) ==
      (if k == Glyceraldehyde3Phosphate then 2.0 else 0.0) - (if k == Fructose6Phosphate then 1.0 else 0.0)
    ensures Net(TriosePhosphateIsomerase, k) ==
      (if k == DihydroxyacetonePhosphate then 2.0 else 0.0) - (if k == Glyceraldehyde3Phosphate then 2.0 else 0.0)
    ensures Net(PhosphoglycerateMutase, k) ==
      (if k == Pyruvate then 2.0 else 0.0) - (if k == Phosphoenolpyruvate then 2.0 else 0.0)
  {
    AmountTwo(Glucose, 1.0, Atp, 1.0, k); AmountOne(Adp, 1.0, k); AmountOne(Atp, 1.0, k);
    AmountOne(Nad, 2.0, k); AmountOne(Nadh, 2.0, k); AmountOne(Adp, 2.0, k); AmountOne(Atp, 2.0, k);
    AmountTwo(Atp, 2.0, Pyruvate, 2.0, k);
    AmountOne(Fructose6Phosphate, 1.0, k); AmountOne(Glyceraldehyde3Phosphate, 2.0, k);
    AmountOne(Glyceraldehyde3Phosphate, 2.0, k); AmountOne(DihydroxyacetonePhosphate, 2.0, k);
    AmountOne(Phosphoenolpyruvate, 2.0, k); AmountOne(Pyruvate, 2.0, k);
  }

  lemma AmountOne(x: string, a: real, k: string)
    ensures Amount([(x, a)], k) == if x == k then a else 0.0
  {
    var items: Items := [(x, a)];
    assert items[1..] == [];
  }

  lemma AmountTwo(x: string, a: real, y: string, b: real, k: string)
    ensures Amount([(x, a), (y, b)], k) == (if x == k then a else 0.0) + (if y == k then b else 0.0)
  {
    var items: Items := [(x, a), (y, b)];
    assert items[1..] == [(y, b)];
    AmountOne(y, b, k);
  }

  /** The older copy's steps take 1 glucose, add 2 pyruvate and 2 NADH, and keep ATP plus ADP. */
  lemma OrganelleTotals()
    ensures Total(OrganelleSteps, Glucose) == -1.0
    ensures Total(OrganelleSteps, Pyruvate) == 2.0
    ensures Total(OrganelleSteps, Nad) == -2.0 && Total(OrganelleSteps, Nadh) == 2.0
    ensures Total(OrganelleSteps, Atp) + Total(OrganelleSteps, Adp) == 0.0
  {
    StepNets(Glucose); StepNets(Pyruvate); StepNets(Nad); StepNets(Nadh); StepNets(Atp); StepNets(Adp);
    TotalTen(OrganelleSteps, Glucose); TotalTen(OrganelleSteps, Pyruvate); TotalTen(OrganelleSteps, Nad);
    TotalTen(OrganelleSteps, Nadh); TotalTen(OrganelleSteps, Atp); TotalTen(OrganelleSteps, Adp);
    assert Glucose[0] != Atp[0] && Glucose[0] != Adp[0] && Glucose[0] != Nad[0] && Glucose[0] != Nadh[0] && Glucose[0] != Pyruvate[0];
    assert Pyruvate[0] != Atp[0] && Pyruvate[0] != Adp[0] && Pyruvate[0] != Nad[0] && Pyruvate[0] != Nadh[0];
    assert |Nad| != |Nadh| && Atp[1] != Adp[1] && Atp[0] != Nad[0] && Adp[0] != Nad[0] && Atp[0] != Nadh[0] && Adp[0] != Nadh[0];
  }

  /** The pyology copy's steps take 1 glucose, add 6 pyruvate and 2 NADH, and keep ATP plus ADP. */
  lemma PyologyTotals()
    ensures Total(PyologySteps, Glucose) == -1.0
    ensures Total(PyologySteps, Pyruvate) == 6.0
    ensures Total(PyologySteps, Nad) == -2.0 && Total(PyologySteps, Nadh) == 2.0
    ensures Total(PyologySteps, Atp) + Total(PyologySteps, Adp) == 0.0
  {
    StepNets(Glucose); StepNets(Pyruvate); StepNets(Nad); StepNets(Nadh); StepNets(Atp); StepNets(Adp);
    TotalTen(PyologySteps, Glucose); TotalTen(PyologySteps, Pyruvate); TotalTen(PyologySteps, Nad);
    TotalTen(PyologySteps, Nadh); TotalTen(PyologySteps, Atp); TotalTen(PyologySteps, Adp);
    DistinctFromIntermediates();
    assert Glucose[0] != Atp[0] && Glucose[0] != Adp[0] && Glucose[0] != Nad[0] && Glucose[0] != Nadh[0] && Glucose[0] != Pyruvate[0];
    assert Pyruvate[0] != Atp[0] && Pyruvate[0] != Adp[0] && Pyruvate[0] != Nad[0] && Pyruvate[0] != Nadh[0];
    assert |Nad| != |Nadh| && Atp[1] != Adp[1] && Atp[0] != Nad[0] && Adp[0] != Nad[0] && Atp[0] != Nadh[0] && Adp[0] != Nadh[0];
  }

  /** None of the four intermediates is one of the six metabolites a new store holds. */
  lemma DistinctFromIntermediates()
    ensures forall k :: k in InitialStore ==>
      k != Fructose6Phosphate && k != Glyceraldehyde3Phosphate &&
      k != DihydroxyacetonePhosphate && k != Phosphoenolpyruvate
  {
    assert Fructose6Phosphate[0] == 'f' && Glyceraldehyde3Phosphate[0] == 'g' && Glyceraldehyde3Phosphate[1] == 'l';
    assert DihydroxyacetonePhosphate[0] == 'd' && Phosphoenolpyruvate[0] == 'p' && Phosphoenolpyruvate[1] == 'h';
    assert Glucose[1] == 'l' && Pyruvate[1] == 'y' && Atp[0] == 'a' && Adp[0] == 'a' && Nad[0] == 'n' && Nadh[0] == 'n';
  }

  /** Each step of either table names its metabolites once per call. */
  lemma TableStepDistinct(st: Step)
    requires st in PyologySteps || st in OrganelleSteps
    ensures st.Transfer? ==> DistinctNames(st.consumed) && DistinctNames(st.produced)
  {
    assert Glucose[0] != Atp[0] && Atp[0] != Pyruvate[0];
  }

  /** No step of either table changes ATP plus ADP by itself. */
  lemma TableStepAdenineNeutral(st: Step)
    requires st in PyologySteps || st in OrganelleSteps
    ensures Net(st, Atp) + Net(st, Adp) == 0.0
  {
    StepNets(Atp); StepNets(Adp);
    assert Atp[1] != Adp[1] && Atp[0] != Glucose[0] && Adp[0] != Glucose[0] && Atp[0] != Nad[0] && Adp[0] != Nad[0];
    assert Atp[0] != Nadh[0] && Adp[0] != Nadh[0] && Atp[0] != Pyruvate[0] && Adp[0] != Pyruvate[0];
    assert Fructose6Phosphate[0] == 'f' && Glyceraldehyde3Phosphate[0] == 'g' && DihydroxyacetonePhosphate[0] == 'd';
    assert Phosphoenolpyruvate[0] == 'p';
  }

  /** Every step method of either copy that completes keeps ATP plus ADP. */
  lemma EveryStepKeepsAtpPlusAdp(s: Store, st: Step)
    requires st in PyologySteps || st in OrganelleSteps
    requires Stepped(s, st).error == None
    ensures AdenineSum(Stepped(s, st).state) == AdenineSum(s)
  {
    TableStepDistinct(st);
    TableStepAdenineNeutral(st);
    StepEffect(s, st);
  }

  /**
   * Step 1 with ATP on hand: one glucose and one ATP become one ADP, nothing
   * else changes.
   */
  lemma HexokinaseEffect(s: Store)
    requires Atp in s && s[Atp].quantity >= 1.0
    requires Stepped(s, Hexokinase).error == None
    ensures var r := Stepped(s, Hexokinase).state;
      r.Keys == s.Keys && Glucose in s && Adp in s &&
      r[Glucose].quantity == s[Glucose].quantity - 1.0 &&
      r[Atp].quantity == s[Atp].quantity - 1.0 &&
      r[Adp].quantity == s[Adp].quantity + 1.0 &&
      forall k :: k in s && k != Glucose && k != Atp && k != Adp ==> r[k].quantity == s[k].quantity
  {
    StepTablesWellFormed();
    assert Hexokinase == PyologySteps[0];
    assert Glucose[0] != Atp[0] && Glucose[0] != Adp[0] && Atp[1] != Adp[1];
    forall k ensures Net(Hexokinase, k) ==
      (if k == Adp then 1.0 else 0.0) - ((if k == Glucose then 1.0 else 0.0) + (if k == Atp then 1.0 else 0.0))
    {
      AmountTwo(Glucose, 1.0, Atp, 1.0, k); AmountOne(Adp, 1.0, k);
    }
    StepEffect(s, Hexokinase);
  }

  /**
   * Step 10 with ADP on hand: two ADP become two ATP, two pyruvate are
   * added, nothing else changes.
   */
  lemma PyruvateKinaseEffect(s: Store)
    requires Adp in s && s[Adp].quantity >= 2.0
    requires Stepped(s, PyruvateKinase).error == None
    ensures var r := Stepped(s, PyruvateKinase).state;
      r.Keys == s.Keys && Atp in s && Pyruvate in s &&
      r[Adp].quantity == s[Adp].quantity - 2.0 &&
      r[Atp].quantity == s[Atp].quantity + 2.0 &&
      r[Pyruvate].quantity == s[Pyruvate].quantity + 2.0 &&
      forall k :: k in s && k != Pyruvate && k != Atp && k != Adp ==> r[k].quantity == s[k].quantity
  {
    StepTablesWellFormed();
    assert PyruvateKinase == PyologySteps[9];
    assert Pyruvate[0] != Atp[0] && Pyruvate[0] != Adp[0] && Atp[1] != Adp[1];
    forall k ensures Net(PyruvateKinase, k) ==
      ((if k == Atp then 2.0 else 0.0) + (if k == Pyruvate then 2.0 else 0.0)) - (if k == Adp then 2.0 else 0.0)
    {
      AmountTwo(Atp, 2.0, Pyruvate, 2.0, k); AmountOne(Adp, 2.0, k);
    }
    StepEffect(s, PyruvateKinase);
  }

  /** Step 6 turns two NAD into two NADH and changes nothing else. */
  lemma DehydrogenaseEffect(s: Store)
    requires Stepped(s, Dehydrogenase).error == None
    ensures var r := Stepped(s, Dehydrogenase).state;
      r.Keys == s.Keys && Nad in s && Nadh in s &&
      r[Nad].quantity == s[Nad].quantity - 2.0 &&
      r[Nadh].quantity == s[Nadh].quantity + 2.0 &&
      forall k :: k in s && k != Nad && k != Nadh ==> r[k].quantity == s[k].quantity
  {
    StepTablesWellFormed();
    assert Dehydrogenase == PyologySteps[5];
    assert |Nad| != |Nadh| && Nad[0] != Atp[0] && Nad[0] != Adp[0] && Nadh[0] != Atp[0] && Nadh[0] != Adp[0];
    forall k ensures Net(Dehydrogenase, k) == (if k == Nadh then 2.0 else 0.0) - (if k == Nad then 2.0 else 0.0) {
      AmountOne(Nad, 2.0, k); AmountOne(Nadh, 2.0, k);
    }
    StepEffect(s, Dehydrogenase);
  }

  /**
   * A completed glycolysis in the older copy takes `units` plus one glucose,
   * turns two NAD into NADH, keeps ATP plus ADP, and adds exactly two
   * pyruvate whatever `units` is; the pyruvate on hand is returned.
   */
  lemma OrganelleGlycolysisEffect(s: Store, units: int)
    requires units > 0 && Glycolysed(s, units, OrganelleSteps).1.Ok?
    ensures var r := Glycolysed(s, units, OrganelleSteps).0;
      r.Keys == s.Keys && Glucose in s && Pyruvate in s && Nad in s && Nadh in s &&
      r[Glucose].quantity == s[Glucose].quantity - (units as real + 1.0) &&
      r[Pyruvate].quantity == s[Pyruvate].quantity + 2.0 &&
      r[Nad].quantity == s[Nad].quantity - 2.0 && r[Nadh].quantity == s[Nadh].quantity + 2.0 &&
      AdenineSum(r) == AdenineSum(s) &&
      Glycolysed(s, units, OrganelleSteps).1.value == s[Pyruvate].quantity + 2.0
  {
    StepTablesWellFormed();
    OrganelleTotals();
    GlycolysedEffect(s, units, OrganelleSteps);
    assert Pyruvate[0] != Atp[0] && Pyruvate[0] != Adp[0] && Pyruvate[0] != Glucose[0];
    assert Nad[0] != Atp[0] && Nad[0] != Adp[0] && Nad[0] != Glucose[0];
    assert Nadh[0] != Atp[0] && Nadh[0] != Adp[0] && Nadh[0] != Glucose[0];
    RunEffect(CheckedChange(s, Glucose, -(units as real)).value, OrganelleSteps);
  }

  /**
   * A completed glycolysis in the pyology copy takes `units` plus one
   * glucose, keeps ATP plus ADP, and adds six pyruvate.
   */
  lemma PyologyGlycolysisEffect(s: Store, units: int)
    requires units > 0 && Glycolysed(s, units, PyologySteps).1.Ok?
    ensures var r := Glycolysed(s, units, PyologySteps).0;
      r.Keys == s.Keys && Glucose in s && Pyruvate in s &&
      r[Glucose].quantity == s[Glucose].quantity - (units as real + 1.0) &&
      r[Pyruvate].quantity == s[Pyruvate].quantity + 6.0 &&
      AdenineSum(r) == AdenineSum(s) &&
      Glycolysed(s, units, PyologySteps).1.value == s[Pyruvate].quantity + 6.0
  {
    StepTablesWellFormed();
    PyologyTotals();
    GlycolysedEffect(s, units, PyologySteps);
    assert Pyruvate[0] != Atp[0] && Pyruvate[0] != Adp[0] && Pyruvate[0] != Glucose[0];
  }

  /**
   * Without fructose 6-phosphate, and with ATP for steps 1 and 3, the
   * pyology steps never complete: they raise ValueError at step 4 at the
   * latest, since its fix-up cannot make fructose 6-phosphate available
   * (an earlier step, such as step 1 short of glucose, may raise first).
   */
  lemma PyologyStepsNeedFructose(s: Store)
    requires Fructose6Phosphate !in s
    requires Atp in s && s[Atp].quantity >= 2.0
    ensures SteppedAll(s, PyologySteps).error == Some(ValueError)
  {
    var st0 := PyologySteps;
    var st1 := st0[1..];
    var st2 := st1[1..];
    var st3 := st2[1..];
    assert st0[0] == Hexokinase && st1[0] == Pass && st2[0] == Phosphofructokinase && st3[0] == Aldolase;
    var p1 := Stepped(s, Hexokinase);
    if p1.error == None {
      HexokinaseEffect(s);
      assert SteppedAll(s, st0) == SteppedAll(p1.state, st1) == SteppedAll(p1.state, st2);
      var p3 := Stepped(p1.state, Phosphofructokinase);
      if p3.error == None {
        TableStepDistinct(Phosphofructokinase);
        StepEffect(p1.state, Phosphofructokinase);
        assert SteppedAll(p1.state, st2) == SteppedAll(p3.state, st3);
        assert Stepped(p3.state, Aldolase).error == Some(ValueError);
      }
    }
  }

  /**
   * On a new pyology cytoplasm glycolysis of any positive amount fails. Up to
   * 100 units it ends with a GlycolysisError: the ValueError of step 4, or at
   * 100 units that of step 1's glucose consume, since the input change has
   * already taken all the glucose. Beyond 100 units the glucose change itself
   * raises QuantityError.
   */
  lemma FreshPyologyGlycolysisFails(units: int)
    requires units > 0
    ensures Glycolysed(InitialStore, units, PyologySteps).1 ==
      Raise(if units <= 100 then GlycolysisError else QuantityError)
  {
    if units <= 100 {
      var t := CheckedChange(InitialStore, Glucose, -(units as real)).value;
      DistinctFromIntermediates();
      assert Glucose[0] != Atp[0];
      PyologyStepsNeedFructose(t);
    }
  }

  /** Step 1 completes when ATP is short but one ADP can be turned into ATP. */
  lemma HexokinaseCompletesByConversion(s: Store)
    requires Glucose in s && Atp in s && Adp in s
    requires 0.0 <= s[Atp].quantity < 1.0 && s[Atp].quantity + 1.0 <= s[Atp].maxQuantity
    requires 1.0 <= s[Adp].quantity <= s[Adp].maxQuantity
    requires s[Glucose].quantity >= 1.0
    ensures Stepped(s, Hexokinase).error == None
  {
    assert Glucose[0] != Atp[0] && Glucose[0] != Adp[0] && Atp[1] != Adp[1];
    assert Ensured(s, Atp, 1.0).error == None;
    EnsuredConverts(s, Atp, 1.0);
    var e := Ensured(s, Atp, 1.0).state;
    var c: Items := [(Glucose, 1.0), (Atp, 1.0)];
    TableStepDistinct(Hexokinase);
    ValidateThenApplySpec(e, c, false);
    assert ConsumeItemFault(e, c[0]) == None && ConsumeItemFault(e, c[1]) == None;
    var t := Exchanged(e, c, false).value;
    ExchangedAmounts(e, c, false);
    AmountTwo(Glucose, 1.0, Atp, 1.0, Adp);
    var d: Items := [(Adp, 1.0)];
    ValidateThenApplySpec(t, d, true);
    assert ProduceItemFault(t, d[0]) == None;
    assert Exchanged(t, d, true).Ok?;
  }

  /**
   * Step 1 with no ATP but ADP to spare does not raise: it first turns one
   * ADP into ATP, so it ends with ATP and ADP where they started and one
   * glucose fewer.
   */
  lemma HexokinaseConvertsFirst(s: Store)
    requires Glucose in s && Atp in s && Adp in s
    requires 0.0 <= s[Atp].quantity < 1.0 && s[Atp].quantity + 1.0 <= s[Atp].maxQuantity
    requires 1.0 <= s[Adp].quantity <= s[Adp].maxQuantity
    requires s[Glucose].quantity >= 1.0
    ensures Stepped(s, Hexokinase).error == None
    ensures var r := Stepped(s, Hexokinase).state;
      r[Glucose].quantity == s[Glucose].quantity - 1.0 &&
      r[Atp].quantity == s[Atp].quantity && r[Adp].quantity == s[Adp].quantity
  {
    HexokinaseCompletesByConversion(s);
    assert Glucose[0] != Atp[0] && Glucose[0] != Adp[0] && Atp[1] != Adp[1];
    EnsuredConverts(s, Atp, 1.0);
    TableStepDistinct(Hexokinase);
    StepEffect(s, Hexokinase);
    AmountTwo(Glucose, 1.0, Atp, 1.0, Glucose); AmountOne(Adp, 1.0, Glucose);
    AmountTwo(Glucose, 1.0, Atp, 1.0, Atp); AmountOne(Adp, 1.0, Atp);
    AmountTwo(Glucose, 1.0, Atp, 1.0, Adp); AmountOne(Adp, 1.0, Adp);
  }

  /** cell_modeling/pyology/cytoplasm.py */
  class Cytoplasm {
    var metabolites: Store
    var glycolysisRate: real

    constructor(glycolysisRate: real := 1.0)
      ensures metabolites == InitialStore && this.glycolysisRate == glycolysisRate
    {
      metabolites := InitialStore;
      this.glycolysisRate := glycolysisRate;
    }

    /**
     * `glycolysis`: the input is floored, then refused when negative and a
     * no-op when zero; otherwise the glucose is taken and the ten steps run.
     */
    method Glycolysis(glucoseUnits: real) returns (r: Result<real>)
      modifies this
      ensures glycolysisRate == old(glycolysisRate)
      ensures metabolites == Glycolysed(old(metabolites), glucoseUnits.Floor, PyologySteps).0
      ensures r == Glycolysed(old(metabolites), glucoseUnits.Floor, PyologySteps).1
    {
      r := GlycolysisWith(glucoseUnits.Floor, PyologySteps);
    }

    /** The body of `glycolysis` once the input is a whole number, over a step table. */
    method GlycolysisWith(units: int, steps: seq<Step>) returns (r: Result<real>)
      modifies this
      ensures glycolysisRate == old(glycolysisRate)
      ensures metabolites == Glycolysed(old(metabolites), units, steps).0
      ensures r == Glycolysed(old(metabolites), units, steps).1
    {
      if units < 0 {
        return Raise(ValueError);
      }
      if units == 0 {
        return Ok(0.0);
      }
      var c := ChangeMetaboliteQuantity(Glucose, -(units as real));
      if c.Raised? {
        return Raise(Caught(c.error));
      }
      var o := RunSteps(steps);
      if o.Raised? {
        return Raise(Caught(o.error));
      }
      r := GetMetaboliteQuantity(Pyruvate);
      if r.Raise? {
        r := Raise(Caught(r.error));
      }
    }

    /** The loop over the step enum, stopping at the first raise. */
    method RunSteps(steps: seq<Step>) returns (r: Outcome)
      modifies this
      ensures glycolysisRate == old(glycolysisRate)
      ensures metabolites == SteppedAll(old(metabolites), steps).state
      ensures r == OutcomeOf(SteppedAll(old(metabolites), steps).error)
    {
      for i := 0 to |steps|
        invariant glycolysisRate == old(glycolysisRate)
        invariant SteppedAll(old(metabolites), steps) == SteppedAll(metabolites, steps[i..])
      {
        assert steps[i..][1..] == steps[i + 1..];
        r := RunStep(steps[i]);
        if r.Raised? {
          return;
        }
      }
      assert steps[|steps|..] == [];
      return Done;
    }

    /** One step method, as the table entry describes it. */
    method RunStep(st: Step) returns (r: Outcome)
      modifies this
      ensures glycolysisRate == old(glycolysisRate)
      ensures metabolites == Stepped(old(metabolites), st).state
      ensures r == OutcomeOf(Stepped(old(metabolites), st).error)
    {
      if st.Pass? {
        return Done;
      }
      r := EnsureMetaboliteAvailability(st.ensure, st.amount);
      if r.Raised? {
        return;
      }
      var c := ConsumeMetabolites(st.consumed);
      if c.Raise? {
        return Raised(c.error);
      }
      var p := ProduceMetabolites(st.produced);
      if p.Raise? {
        return Raised(p.error);
      }
      return Done;
    }

    method EnsureMetaboliteAvailability(name: string, amount: real) returns (r: Outcome)
      modifies this
      ensures glycolysisRate == old(glycolysisRate)
      ensures metabolites == Ensured(old(metabolites), name, amount).state
      ensures r == OutcomeOf(Ensured(old(metabolites), name, amount).error)
    {
      var a := IsMetaboliteAvailable(name, amount);
      if a.Raise? {
        return Raised(a.error);
      }
      if a.value {
        return Done;
      }
      if name == Atp {
        var b := IsMetaboliteAvailable(Adp, amount);
        if b == Ok(true) {
          r := Convert(Adp, Atp, amount);
          return;
        }
      } else if name == Adp {
        var b := IsMetaboliteAvailable(Atp, amount);
        if b == Ok(true) {
          r := Convert(Atp, Adp, amount);
          return;
        }
      }
      return Raised(ValueError);
    }

    /** The two change_metabolite_quantity calls of a conversion. */
    method Convert(source: string, target: string, amount: real) returns (r: Outcome)
      modifies this
      ensures glycolysisRate == old(glycolysisRate)
      ensures metabolites == Converted(old(metabolites), source, target, amount).state
      ensures r == OutcomeOf(Converted(old(metabolites), source, target, amount).error)
    {
      r := ChangeMetaboliteQuantity(source, -amount);
      if r.Raised? {
        return;
      }
      r := ChangeMetaboliteQuantity(target, amount);
    }

    /** The inherited change_metabolite_quantity: unknown names and out-of-range results raise. */
    method ChangeMetaboliteQuantity(name: string, amount: real) returns (r: Outcome)
      modifies this
      ensures glycolysisRate == old(glycolysisRate)
      ensures var c := CheckedChange(old(metabolites), name, amount);
        (c.Ok? ==> metabolites == c.value && r == Done) &&
        (c.Raise? ==> metabolites == old(metabolites) && r == Raised(c.error))
    {
      var c := CheckedChange(metabolites, name, amount);
      if c.Raise? {
        return Raised(c.error);
      }
      metabolites := c.value;
      return Done;
    }

    method IsMetaboliteAvailable(name: string, amount: real) returns (r: Result<bool>)
      ensures r == Available(metabolites, name, amount)
    {
      if name in metabolites {
        return Ok(metabolites[name].quantity >= amount);
      }
      return Raise(ValueError);
    }

    /** Every item is checked (negative, unknown, short) before any is taken. */
    method ConsumeMetabolites(items: Items) returns (r: Result<bool>)
      modifies this
      ensures glycolysisRate == old(glycolysisRate)
      ensures var a := Exchanged(old(metabolites), items, false);
        (a.Ok? ==> metabolites == a.value && r == Ok(true)) &&
        (a.Raise? ==> metabolites == old(metabolites) && r == Raise(ValueError))
    {
      var f := FindFault(metabolites, items, false);
      if f.Some? {
        return Raise(ValueError);
      }
      FirstFaultNone(metabolites, items, false, 0);
      metabolites := ApplyEach(metabolites, items, -1.0);
      return Ok(true);
    }

    /** Every item is checked (negative, unknown, over capacity) before any is added. */
    method ProduceMetabolites(items: Items) returns (r: Result<bool>)
      modifies this
      ensures glycolysisRate == old(glycolysisRate)
      ensures var a := Exchanged(old(metabolites), items, true);
        (a.Ok? ==> metabolites == a.value && r == Ok(true)) &&
        (a.Raise? ==> metabolites == old(metabolites) && r == Raise(ValueError))
    {
      var f := FindFault(metabolites, items, true);
      if f.Some? {
        return Raise(ValueError);
      }
      FirstFaultNone(metabolites, items, true, 0);
      metabolites := ApplyEach(metabolites, items, 1.0);
      return Ok(true);
    }

    /** `reset` re-runs the constructor with its default rate. */
    method Reset()
      modifies this
      ensures metabolites == InitialStore && glycolysisRate == 1.0
    {
      metabolites := InitialStore;
      glycolysisRate := 1.0;
    }

    method GetMetaboliteQuantity(name: string) returns (r: Result<real>)
      ensures name in metabolites ==> r == Ok(metabolites[name].quantity)
      ensures name !in metabolites ==> r == Raise(ValueError)
    {
      if name in metabolites {
        return Ok(metabolites[name].quantity);
      }
      return Raise(ValueError);
    }
  }

  /** cell_modeling/cell_modeling/organelles/cytoplasm.py */
  class OrganelleCytoplasm {
    var metabolites: Store
    var glycolysisRate: real

    constructor()
      ensures metabolites == InitialStore && glycolysisRate == 1.0
    {
      metabolites := InitialStore;
      glycolysisRate := 1.0;
    }

    /**
     * `glycolysis` on an integer: refused when negative, a no-op when zero;
     * otherwise the glucose is taken and the ten steps (five of them empty)
     * run.
     */
    method Glycolysis(glucoseUnits: int) returns (r: Result<real>)
      modifies this
      ensures glycolysisRate == old(glycolysisRate)
      ensures metabolites == Glycolysed(old(metabolites), glucoseUnits, OrganelleSteps).0
      ensures r == Glycolysed(old(metabolites), glucoseUnits, OrganelleSteps).1
    {
      r := GlycolysisWith(glucoseUnits, OrganelleSteps);
    }

    /** The body of `glycolysis` once the input is a whole number, over a step table. */
    method GlycolysisWith(units: int, steps: seq<Step>) returns (r: Result<real>)
      modifies this
      ensures glycolysisRate == old(glycolysisRate)
      ensures metabolites == Glycolysed(old(metabolites), units, steps).0
      ensures r == Glycolysed(old(metabolites), units, steps).1
    {
      if units < 0 {
        return Raise(ValueError);
      }
      if units == 0 {
        return Ok(0.0);
      }
      var c := ChangeMetaboliteQuantity(Glucose, -(units as real));
      if c.Raised? {
        return Raise(Caught(c.error));
      }
      var o := RunSteps(steps);
      if o.Raised? {
        return Raise(Caught(o.error));
      }
      r := GetMetaboliteQuantity(Pyruvate);
      if r.Raise? {
        r := Raise(Caught(r.error));
      }
    }

    /** The loop over the step enum, stopping at the first raise. */
    method RunSteps(steps: seq<Step>) returns (r: Outcome)
      modifies this
      ensures glycolysisRate == old(glycolysisRate)
      ensures metabolites == SteppedAll(old(metabolites), steps).state
      ensures r == OutcomeOf(SteppedAll(old(metabolites), steps).error)
    {
      for i := 0 to |steps|
        invariant glycolysisRate == old(glycolysisRate)
        invariant SteppedAll(old(metabolites), steps) == SteppedAll(metabolites, steps[i..])
      {
        assert steps[i..][1..] == steps[i + 1..];
        r := RunStep(steps[i]);
        if r.Raised? {
          return;
        }
      }
      assert steps[|steps|..] == [];
      return Done;
    }

    /** One step method, as the table entry describes it. */
    method RunStep(st: Step) returns (r: Outcome)
      modifies this
      ensures glycolysisRate == old(glycolysisRate)
      ensures metabolites == Stepped(old(metabolites), st).state
      ensures r == OutcomeOf(Stepped(old(metabolites), st).error)
    {
      if st.Pass? {
        return Done;
      }
      r := EnsureMetaboliteAvailability(st.ensure, st.amount);
      if r.Raised? {
        return;
      }
      var c := ConsumeMetabolites(st.consumed);
      if c.Raise? {
        return Raised(c.error);
      }
      var p := ProduceMetabolites(st.produced);
      if p.Raise? {
        return Raised(p.error);
      }
      return Done;
    }

    method EnsureMetaboliteAvailability(name: string, amount: real) returns (r: Outcome)
      modifies this
      ensures glycolysisRate == old(glycolysisRate)
      ensures metabolites == Ensured(old(metabolites), name, amount).state
      ensures r == OutcomeOf(Ensured(old(metabolites), name, amount).error)
    {
      var a := IsMetaboliteAvailable(name, amount);
      if a.Raise? {
        return Raised(a.error);
      }
      if a.value {
        return Done;
      }
      if name == Atp {
        var b := IsMetaboliteAvailable(Adp, amount);
        if b == Ok(true) {
          r := Convert(Adp, Atp, amount);
          return;
        }
      } else if name == Adp {
        var b := IsMetaboliteAvailable(Atp, amount);
        if b == Ok(true) {
          r := Convert(Atp, Adp, amount);
          return;
        }
      }
      return Raised(ValueError);
    }

    /** The two change_metabolite_quantity calls of a conversion. */
    method Convert(source: string, target: string, amount: real) returns (r: Outcome)
      modifies this
      ensures glycolysisRate == old(glycolysisRate)
      ensures metabolites == Converted(old(metabolites), source, target, amount).state
      ensures r == OutcomeOf(Converted(old(metabolites), source, target, amount).error)
    {
      r := ChangeMetaboliteQuantity(source, -amount);
      if r.Raised? {
        return;
      }
      r := ChangeMetaboliteQuantity(target, amount);
    }

    /** The inherited change_metabolite_quantity: unknown names and out-of-range results raise. */
    method ChangeMetaboliteQuantity(name: string, amount: real) returns (r: Outcome)
      modifies this
      ensures glycolysisRate == old(glycolysisRate)
      ensures var c := CheckedChange(old(metabolites), name, amount);
        (c.Ok? ==> metabolites == c.value && r == Done) &&
        (c.Raise? ==> metabolites == old(metabolites) && r == Raised(c.error))
    {
      var c := CheckedChange(metabolites, name, amount);
      if c.Raise? {
        return Raised(c.error);
      }
      metabolites := c.value;
      return Done;
    }

    method IsMetaboliteAvailable(name: string, amount: real) returns (r: Result<bool>)
      ensures r == Available(metabolites, name, amount)
    {
      if name in metabolites {
        return Ok(metabolites[name].quantity >= amount);
      }
      return Raise(ValueError);
    }

    /** Every item is checked (negative, unknown, short) before any is taken. */
    method ConsumeMetabolites(items: Items) returns (r: Result<bool>)
      modifies this
      ensures glycolysisRate == old(glycolysisRate)
      ensures var a := Exchanged(old(metabolites), items, false);
        (a.Ok? ==> metabolites == a.value && r == Ok(true)) &&
        (a.Raise? ==> metabolites == old(metabolites) && r == Raise(ValueError))
    {
      var f := FindFault(metabolites, items, false);
      if f.Some? {
        return Raise(ValueError);
      }
      FirstFaultNone(metabolites, items, false, 0);
      metabolites := ApplyEach(metabolites, items, -1.0);
      return Ok(true);
    }

    /** Every item is checked (negative, unknown, over capacity) before any is added. */
    method ProduceMetabolites(items: Items) returns (r: Result<bool>)
      modifies this
      ensures glycolysisRate == old(glycolysisRate)
      ensures var a := Exchanged(old(metabolites), items, true);
        (a.Ok? ==> metabolites == a.value && r == Ok(true)) &&
        (a.Raise? ==> metabolites == old(metabolites) && r == Raise(ValueError))
    {
      var f := FindFault(metabolites, items, true);
      if f.Some? {
        return Raise(ValueError);
      }
      FirstFaultNone(metabolites, items, true, 0);
      metabolites := ApplyEach(metabolites, items, 1.0);
      return Ok(true);
    }

    /** `reset` re-runs the constructor with its default rate. */
    method Reset()
      modifies this
      ensures metabolites == InitialStore && glycolysisRate == 1.0
    {
      metabolites := InitialStore;
      glycolysisRate := 1.0;
    }

    method GetMetaboliteQuantity(name: string) returns (r: Result<real>)
      ensures name in metabolites ==> r == Ok(metabolites[name].quantity)
      ensures name !in metabolites ==> r == Raise(ValueError)
    {
      if name in metabolites {
        return Ok(metabolites[name].quantity);
      }
      return Raise(ValueError);
    }
  }
}
