/**
 * pyology/reaction.py: a reaction consumes and produces metabolites of an
 * organelle in fixed proportions, at a rate limited by the enzyme and by
 * every consumed metabolite. The enzyme's rate is an input: the value
 * `calculate_rate` returned for this call.
 */
module Reactions {
  import opened Common
  import opened Stores
  import PyologyOrganelle

  /** `get_metabolite_quantity`: the quantity of a known metabolite; an unknown one raises ValueError. */
  function QuantityLookup(s: Store, name: string): (r: Result<real>)
    ensures name in s <==> r.Ok?
    ensures r.Ok? ==> r.value == s[name].quantity
    ensures r.Raise? ==> r.error == ValueError
  {
    if name in s then Ok(s[name].quantity) else Raise(ValueError)
  }

  /** Every amount multiplied by `k`, names kept. */
  function Scaled(items: Items, k: real): (r: Items)
    ensures |r| == |items|
    ensures forall i :: 0 <= i < |items| ==> r[i].0 == items[i].0 && r[i].1 == items[i].1 * k
  {
    seq(|items|, i requires 0 <= i < |items| => (items[i].0, items[i].1 * k))
  }

  lemma ScaledDistinct(items: Items, k: real)
    requires DistinctNames(items)
    ensures DistinctNames(Scaled(items, k))
  {
  }

  /**
   * `min(bound, *[quantity(m) / amount for m, amount in consume])`, from
   * index `from` on: an unknown name raises ValueError, a zero amount
   * ZeroDivisionError, in list order.
   */
  function Limit(s: Store, items: Items, from: nat, bound: real): (r: Result<real>)
    requires from <= |items|
    ensures r.Raise? ==> r.error == ValueError || r.error == ZeroDivisionError
    decreases |items| - from
  {
    if from == |items| then Ok(bound)
    else
      var (name, amount) := items[from];
      match QuantityLookup(s, name)
      case Raise(e) => Raise(e)
      case Ok(q) =>
        if amount == 0.0 then Raise(ZeroDivisionError)
        else Limit(s, items, from + 1, Min(bound, q / amount))
  }

  /** The ratio quantity/amount of a consumed metabolite. */
  function Ratio(s: Store, item: (string, real)): real
    requires item.0 in s && item.1 != 0.0
  {
    s[item.0].quantity / item.1
  }

  /**
   * The limit is computed iff every name is known and every amount is
   * non-zero; it is then at most the bound and every ratio, and equal to
   * one of them.
   */
  lemma {:induction false} LimitSpec(s: Store, items: Items, from: nat, bound: real)
    requires from <= |items|
    ensures Limit(s, items, from, bound).Ok? <==>
      forall i :: from <= i < |items| ==> items[i].0 in s && items[i].1 != 0.0
    ensures Limit(s, items, from, bound).Ok? ==>
      var v := Limit(s, items, from, bound).value;
      v <= bound &&
      (forall i :: from <= i < |items| ==> v <= Ratio(s, items[i])) &&
      (v == bound || exists i :: from <= i < |items| && v == Ratio(s, items[i]))
    ensures Limit(s, items, from, bound).Raise? ==>
      Limit(s, items, from, bound).error in {ValueError, ZeroDivisionError}
    decreases |items| - from
  {
    if from < |items| {
      var (name, amount) := items[from];
      if name in s && amount != 0.0 {
        LimitSpec(s, items, from + 1, Min(bound, s[name].quantity / amount));
      }
    }
  }

  /** The exceptions `execute` can raise: the ones it raises itself and the organelle's. */
  predicate IsExecuteError(e: Error)
  {
    e == IndexError || e == ValueError || e == ZeroDivisionError || e == UnknownMetaboliteError || e == QuantityError
  }

  /** The reaction: its name and its consume and produce stoichiometry, in dict order. */
  datatype Reaction = Reaction(name: string, consume: Items, produce: Items)

  /** What `execute` leaves behind: the store, and the rate returned or the exception raised. */
  datatype Run = Run(store: Store, result: Result<real>)

  /**
   * `execute`: the first consumed metabolite is the substrate; the rate is
   * the smallest of enzymeRate·timeStep, the substrate quantity and every
   * quantity/amount; then every consumed metabolite is decreased, and after
   * that every produced one increased, each by amount·rate through the
   * organelle's checked change. A raise stops the run where it happens.
   */
  function Executed(s: Store, reaction: Reaction, enzymeRate: real, timeStep: real): (r: Run)
    ensures reaction.consume == [] ==> r == Run(s, Raise(IndexError))
    ensures r.result.Raise? ==> IsExecuteError(r.result.error)
  {
    if reaction.consume == [] then Run(s, Raise(IndexError))
    else
      match QuantityLookup(s, reaction.consume[0].0)
      case Raise(e) => Run(s, Raise(e))
      case Ok(substrate) =>
        match Limit(s, reaction.consume, 0, Min(enzymeRate * timeStep, substrate))
        case Raise(e) => Run(s, Raise(e))
        case Ok(actual) => Transfer(s, reaction, actual)
  }

  /**
   * The two loops of `execute` at rate `actual`: every consumed metabolite
   * decreased, then every produced one increased, by amount·actual.
   */
  function Transfer(s: Store, reaction: Reaction, actual: real): (r: Run)
    ensures r.result.Ok? ==> r.result.value == actual
    ensures r.result.Raise? ==> r.result.error == UnknownMetaboliteError || r.result.error == QuantityError
  {
    var c := PyologyOrganelle.ProduceInOrder(s, Scaled(reaction.consume, -actual), 0);
    if c.error.Some? then Run(c.state, Raise(c.error.value))
    else
      var p := PyologyOrganelle.ProduceInOrder(c.state, Scaled(reaction.produce, actual), 0);
      if p.error.Some? then Run(p.state, Raise(p.error.value))
      else Run(p.state, Ok(actual))
  }

  /** `execute` never adds or removes a metabolite, whatever it raises. */
  lemma ExecutedKeepsKeys(s: Store, reaction: Reaction, enzymeRate: real, timeStep: real)
    ensures Executed(s, reaction, enzymeRate, timeStep).store.Keys == s.Keys
  {
    if reaction.consume != [] && reaction.consume[0].0 in s {
      var l := Limit(s, reaction.consume, 0, Min(enzymeRate * timeStep, s[reaction.consume[0].0].quantity));
      if l.Ok? {
        TransferKeepsKeys(s, reaction, l.value);
      }
    }
  }

  /** Both passes of checked changes keep the set of metabolites. */
  lemma TransferKeepsKeys(s: Store, reaction: Reaction, actual: real)
    ensures Transfer(s, reaction, actual).store.Keys == s.Keys
  {
    var c := PyologyOrganelle.ProduceInOrder(s, Scaled(reaction.consume, -actual), 0);
    var p := PyologyOrganelle.ProduceInOrder(c.state, Scaled(reaction.produce, actual), 0);
  }

  /**
   * A returned rate is at most the enzyme rate times the time step, at most
   * the substrate quantity, and at most quantity/amount of every consumed
   * metabolite (all read before anything changes).
   */
  lemma ExecutedRateBounds(s: Store, reaction: Reaction, enzymeRate: real, timeStep: real)
    requires Executed(s, reaction, enzymeRate, timeStep).result.Ok?
    ensures reaction.consume != [] && reaction.consume[0].0 in s
    ensures forall i :: 0 <= i < |reaction.consume| ==>
      reaction.consume[i].0 in s && reaction.consume[i].1 != 0.0
    ensures var v := Executed(s, reaction, enzymeRate, timeStep).result.value;
      v <= enzymeRate * timeStep && v <= s[reaction.consume[0].0].quantity &&
      forall i :: 0 <= i < |reaction.consume| ==> v <= Ratio(s, reaction.consume[i])
  {
    var substrate := s[reaction.consume[0].0].quantity;
    LimitSpec(s, reaction.consume, 0, Min(enzymeRate * timeStep, substrate));
  }

  /** Every item from `from` on is known, positive, and has at least `actual` times its amount. */
  predicate Drainable(s: Store, items: Items, actual: real, from: nat)
    requires from <= |items|
  {
    forall i :: from <= i < |items| ==>
      items[i].0 in s && items[i].1 > 0.0 && actual <= Ratio(s, items[i])
  }

  /**
   * Consuming amount·actual of each metabolite in turn, with actual between
   * zero and every quantity/amount, never raises when names are distinct and
   * amounts positive.
   */
  lemma {:induction false} ConsumePhaseSucceeds(s: Store, items: Items, actual: real, from: nat)
    requires from <= |items| && Bounded(s) && DistinctNames(items) && actual >= 0.0
    requires Drainable(s, items, actual, from)
    ensures PyologyOrganelle.ProduceInOrder(s, Scaled(items, -actual), from).error == None
    decreases |items| - from
  {
    if from < |items| {
      var s' := ConsumeOneScaled(s, items, actual, from);
      ConsumePhaseSucceeds(s', items, actual, from + 1);
    }
  }

  /**
   * The first step of the consume phase goes through, and the later items
   * still satisfy the phase's precondition in the store it leaves.
   */
  lemma ConsumeOneScaled(s: Store, items: Items, actual: real, from: nat) returns (s': Store)
    requires from < |items| && Bounded(s) && DistinctNames(items) && actual >= 0.0
    requires Drainable(s, items, actual, from)
    ensures CheckedChange(s, items[from].0, items[from].1 * -actual) == Ok(s')
    ensures PyologyOrganelle.ProduceInOrder(s, Scaled(items, -actual), from) ==
      PyologyOrganelle.ProduceInOrder(s', Scaled(items, -actual), from + 1)
    ensures Bounded(s')
    ensures Drainable(s', items, actual, from + 1)
  {
    ConsumeBound(items[from].1, actual, s[items[from].0].quantity);
    s' := CheckedChange(s, items[from].0, items[from].1 * -actual).value;
    CheckedChangeKeepsBounded(s, items[from].0, items[from].1 * -actual);
    forall i | from < i < |items|
      ensures items[i].0 in s' && actual <= Ratio(s', items[i])
    {
      assert items[i].0 != items[from].0;
    }
  }

  /** Taking amount·actual, with actual at most quantity/amount, leaves between zero and the quantity. */
  lemma ConsumeBound(amount: real, actual: real, q: real)
    requires amount > 0.0 && actual >= 0.0 && q >= 0.0 && actual <= q / amount
    ensures 0.0 <= q + amount * -actual <= q
  {
    MulLeft(amount, actual, q / amount);
    MulNonneg(amount, actual);
  }

  lemma MulLeft(a: real, x: real, y: real)
    requires a > 0.0 && x <= y
    ensures a * x <= a * y
  {
  }

  /**
   * With non-negative rates, quantities within bounds, distinct consumed
   * names that are all known and positive amounts: the rate is computed and
   * non-negative, the consume phase raises nothing, and whatever the produce
   * phase does the store stays within bounds; any raise is the produce
   * phase's checked change failing.
   */
  lemma ExecutedSafe(s: Store, reaction: Reaction, enzymeRate: real, timeStep: real)
    requires Bounded(s) && enzymeRate >= 0.0 && timeStep >= 0.0
    requires reaction.consume != [] && DistinctNames(reaction.consume)
    requires forall i :: 0 <= i < |reaction.consume| ==>
      reaction.consume[i].0 in s && reaction.consume[i].1 > 0.0
    ensures var r := Executed(s, reaction, enzymeRate, timeStep);
      Bounded(r.store) &&
      (r.result.Ok? ==> r.result.value >= 0.0) &&
      (r.result.Raise? ==> r.result.error in {QuantityError, UnknownMetaboliteError})
  {
    var consume := reaction.consume;
    var substrate := s[consume[0].0].quantity;
    var bound := Min(enzymeRate * timeStep, substrate);
    MulNonneg(enzymeRate, timeStep);
    LimitSpec(s, consume, 0, bound);
    var actual := Limit(s, consume, 0, bound).value;
    assert actual >= 0.0 by {
      forall i | 0 <= i < |consume| ensures Ratio(s, consume[i]) >= 0.0 {
        var amount := consume[i].1;
        assert s[consume[i].0].quantity >= 0.0;
      }
    }
    assert Executed(s, reaction, enzymeRate, timeStep) == Transfer(s, reaction, actual);
    TransferSafe(s, reaction, actual);
  }

  /**
   * At a rate between zero and every quantity/amount, the consume pass
   * raises nothing and the store stays within bounds whatever the produce
   * pass does; a raise comes from the produce pass's checked change.
   */
  lemma TransferSafe(s: Store, reaction: Reaction, actual: real)
    requires Bounded(s) && DistinctNames(reaction.consume) && actual >= 0.0
    requires forall i :: 0 <= i < |reaction.consume| ==>
      reaction.consume[i].0 in s && reaction.consume[i].1 > 0.0 && actual <= Ratio(s, reaction.consume[i])
    ensures var r := Transfer(s, reaction, actual);
      Bounded(r.store) &&
      (r.result.Raise? ==> r.result.error in {QuantityError, UnknownMetaboliteError})
  {
    var consume := reaction.consume;
    ConsumePhaseSucceeds(s, consume, actual, 0);
    PyologyOrganelle.ProduceInOrderKeepsBounded(s, Scaled(consume, -actual), 0);
    var c := PyologyOrganelle.ProduceInOrder(s, Scaled(consume, -actual), 0);
    PyologyOrganelle.ProduceInOrderKeepsBounded(c.state, Scaled(reaction.produce, actual), 0);
    ProduceInOrderErrors(c.state, Scaled(reaction.produce, actual), 0);
  }

  /** The checked changes raise only UnknownMetaboliteError or QuantityError. */
  lemma {:induction false} ProduceInOrderErrors(s: Store, items: Items, from: nat)
    requires from <= |items|
    ensures var p := PyologyOrganelle.ProduceInOrder(s, items, from);
      p.error.Some? ==> p.error.value in {QuantityError, UnknownMetaboliteError}
    decreases |items| - from
  {
    if from < |items| {
      var c := CheckedChange(s, items[from].0, items[from].1);
      if c.Ok? {
        ProduceInOrderErrors(c.value, items, from + 1);
      }
    }
  }

  /** The checked changes never touch a metabolite none of the items names. */
  lemma {:induction false} ProduceInOrderUntouched(s: Store, items: Items, from: nat, k: string)
    requires from <= |items| && k in s
    requires forall i :: from <= i < |items| ==> items[i].0 != k
    ensures var p := PyologyOrganelle.ProduceInOrder(s, items, from);
      k in p.state && p.state[k] == s[k]
    decreases |items| - from
  {
    if from < |items| {
      var c := CheckedChange(s, items[from].0, items[from].1);
      if c.Ok? {
        ProduceInOrderUntouched(c.value, items, from + 1, k);
      }
    }
  }

  /** Whatever happens, a metabolite in neither map is left as it was. */
  lemma ExecutedUntouched(s: Store, reaction: Reaction, enzymeRate: real, timeStep: real, k: string)
    requires k in s && !Mentions(reaction.consume, k) && !Mentions(reaction.produce, k)
    ensures var r := Executed(s, reaction, enzymeRate, timeStep);
      k in r.store && r.store[k] == s[k]
  {
    if reaction.consume != [] && reaction.consume[0].0 in s {
      var bound := Min(enzymeRate * timeStep, s[reaction.consume[0].0].quantity);
      var l := Limit(s, reaction.consume, 0, bound);
      if l.Ok? {
        var cs, ps := Scaled(reaction.consume, -l.value), Scaled(reaction.produce, l.value);
        ProduceInOrderUntouched(s, cs, 0, k);
        var c := PyologyOrganelle.ProduceInOrder(s, cs, 0);
        ProduceInOrderUntouched(c.state, ps, 0, k);
      }
    }
  }

  /** Each named metabolite was in `s` and is in `r`, moved by amount·k and otherwise unchanged. */
  predicate MovedBy(s: Store, r: Store, items: Items, k: real)
  {
    forall i :: 0 <= i < |items| ==>
      var (m, a) := items[i];
      m in s && m in r && r[m] == s[m].(quantity := s[m].quantity + a * k)
  }

  /** No metabolite is both consumed and produced, and neither list repeats a name. */
  predicate Disjoint(reaction: Reaction)
  {
    DistinctNames(reaction.consume) && DistinctNames(reaction.produce) &&
    forall i, j :: 0 <= i < |reaction.consume| && 0 <= j < |reaction.produce| ==>
      reaction.consume[i].0 != reaction.produce[j].0
  }

  /**
   * A successful run with distinct names, and no name both consumed and
   * produced, lowers each consumed metabolite by amount·rate and raises each
   * produced one by amount·rate.
   */
  lemma ExecutedExact(s: Store, reaction: Reaction, enzymeRate: real, timeStep: real)
    requires Disjoint(reaction)
    requires Executed(s, reaction, enzymeRate, timeStep).result.Ok?
    ensures var r := Executed(s, reaction, enzymeRate, timeStep);
      MovedBy(s, r.store, reaction.consume, -r.result.value) &&
      MovedBy(s, r.store, reaction.produce, r.result.value)
  {
    var r := Executed(s, reaction, enzymeRate, timeStep);
    ExecutedOkIsTransfer(s, reaction, enzymeRate, timeStep);
    var v := r.result.value;
    assert r == Transfer(s, reaction, v);
    TransferConsumes(s, reaction, v);
    TransferProduces(s, reaction, v);
  }

  /** A run that returns a rate is the transfer at that rate. */
  lemma ExecutedOkIsTransfer(s: Store, reaction: Reaction, enzymeRate: real, timeStep: real)
    requires Executed(s, reaction, enzymeRate, timeStep).result.Ok?
    ensures Executed(s, reaction, enzymeRate, timeStep) ==
      Transfer(s, reaction, Executed(s, reaction, enzymeRate, timeStep).result.value)
  {
  }

  /** A successful transfer at rate `v` lowers each consumed metabolite by amount·v. */
  lemma TransferConsumes(s: Store, reaction: Reaction, v: real)
    requires Disjoint(reaction)
    requires Transfer(s, reaction, v).result.Ok?
    ensures MovedBy(s, Transfer(s, reaction, v).store, reaction.consume, -v)
  {
    var cs, ps := Scaled(reaction.consume, -v), Scaled(reaction.produce, v);
    ScaledDistinct(reaction.consume, -v);
    ScaledDistinct(reaction.produce, v);
    assert PyologyOrganelle.ProduceInOrder(s, cs, 0).error == None;
    TwoPhasesFirst(s, cs, ps);
  }

  /** A successful transfer at rate `v` raises each produced metabolite by amount·v. */
  lemma TransferProduces(s: Store, reaction: Reaction, v: real)
    requires Disjoint(reaction)
    requires Transfer(s, reaction, v).result.Ok?
    ensures MovedBy(s, Transfer(s, reaction, v).store, reaction.produce, v)
  {
    var cs, ps := Scaled(reaction.consume, -v), Scaled(reaction.produce, v);
    ScaledDistinct(reaction.consume, -v);
    ScaledDistinct(reaction.produce, v);
    assert PyologyOrganelle.ProduceInOrder(s, cs, 0).error == None;
    TwoPhasesSecond(s, cs, ps);
  }

  /**
   * Two successful passes of checked changes over disjoint, distinct names:
   * each item of the first pass moves its metabolite by exactly its amount.
   */
  lemma TwoPhasesFirst(s: Store, first: Items, second: Items)
    requires DistinctNames(first) && DistinctNames(second)
    requires forall i, j :: 0 <= i < |first| && 0 <= j < |second| ==> first[i].0 != second[j].0
    requires PyologyOrganelle.ProduceInOrder(s, first, 0).error == None
    requires PyologyOrganelle.ProduceInOrder(PyologyOrganelle.ProduceInOrder(s, first, 0).state, second, 0).error == None
    ensures var r := PyologyOrganelle.ProduceInOrder(PyologyOrganelle.ProduceInOrder(s, first, 0).state, second, 0).state;
      forall i :: 0 <= i < |first| ==>
        first[i].0 in s && first[i].0 in r && r[first[i].0] == s[first[i].0].(quantity := s[first[i].0].quantity + first[i].1)
  {
    PyologyOrganelle.ProduceInOrderExact(s, first, 0);
    var c := PyologyOrganelle.ProduceInOrder(s, first, 0).state;
    PyologyOrganelle.ProduceInOrderExact(c, second, 0);
    AddAllEffect(s, first, 1.0, 0);
    forall i | 0 <= i < |first|
      ensures first[i].0 in c && AddAll(c, second, 1.0, 0)[first[i].0] == c[first[i].0]
    {
      AddAllUntouched(c, second, 1.0, 0, first[i].0);
    }
  }

  /** Likewise, each item of the second pass moves its metabolite by exactly its amount. */
  lemma TwoPhasesSecond(s: Store, first: Items, second: Items)
    requires DistinctNames(first) && DistinctNames(second)
    requires forall i, j :: 0 <= i < |first| && 0 <= j < |second| ==> first[i].0 != second[j].0
    requires PyologyOrganelle.ProduceInOrder(s, first, 0).error == None
    requires PyologyOrganelle.ProduceInOrder(PyologyOrganelle.ProduceInOrder(s, first, 0).state, second, 0).error == None
    ensures var r := PyologyOrganelle.ProduceInOrder(PyologyOrganelle.ProduceInOrder(s, first, 0).state, second, 0).state;
      forall j :: 0 <= j < |second| ==>
        second[j].0 in s && second[j].0 in r && r[second[j].0] == s[second[j].0].(quantity := s[second[j].0].quantity + second[j].1)
  {
    PyologyOrganelle.ProduceInOrderExact(s, first, 0);
    var c := PyologyOrganelle.ProduceInOrder(s, first, 0).state;
    PyologyOrganelle.ProduceInOrderExact(c, second, 0);
    AddAllEffect(c, second, 1.0, 0);
    forall j | 0 <= j < |second|
      ensures second[j].0 in s && c[second[j].0] == s[second[j].0]
    {
      AddAllUntouched(s, first, 1.0, 0, second[j].0);
    }
  }

  /** The store of the limiting-reagent example: 1.5 of A and none of B. */
  const LimitingStore: Store := map["A" := Entry("A", 1.5, 100.0), "B" := Entry("B", 0.0, 100.0)]

  /** 2A → B with 1.5 of A and enzyme rate 1: A limits the rate to 0.75, all of A is used. */
  lemma LimitingReagentExample()
    ensures Executed(LimitingStore, Reaction("2A to B", [("A", 2.0)], [("B", 1.0)]), 1.0, 1.0) ==
      Run(map["A" := Entry("A", 0.0, 100.0), "B" := Entry("B", 0.75, 100.0)], Ok(0.75))
  {
    var reaction := Reaction("2A to B", [("A", 2.0)], [("B", 1.0)]);
    assert Limit(LimitingStore, reaction.consume, 1, 0.75) == Ok(0.75);
    assert Limit(LimitingStore, reaction.consume, 0, Min(1.0 * 1.0, 1.5)) == Ok(0.75);
    var s1 := LimitingStore["A" := Entry("A", 0.0, 100.0)];
    assert Scaled(reaction.consume, -0.75) == [("A", -1.5)];
    assert CheckedChange(LimitingStore, "A", -1.5) == Ok(s1);
    assert PyologyOrganelle.ProduceInOrder(s1, [("A", -1.5)], 1) == Partial(s1, None);
    var s2 := s1["B" := Entry("B", 0.75, 100.0)];
    assert Scaled(reaction.produce, 0.75) == [("B", 0.75)];
    assert CheckedChange(s1, "B", 0.75) == Ok(s2);
    assert PyologyOrganelle.ProduceInOrder(s2, [("B", 0.75)], 1) == Partial(s2, None);
    assert s2 == map["A" := Entry("A", 0.0, 100.0), "B" := Entry("B", 0.75, 100.0)];
  }

  /**
   * The run is not atomic: a product over capacity raises after the
   * substrate has already been consumed.
   */
  lemma ExecutedNotAtomic()
    ensures Executed(map["A" := Entry("A", 10.0, 100.0), "B" := Entry("B", 99.5, 100.0)],
                     Reaction("A to B", [("A", 1.0)], [("B", 1.0)]), 1.0, 1.0) ==
      Run(map["A" := Entry("A", 9.0, 100.0), "B" := Entry("B", 99.5, 100.0)], Raise(QuantityError))
  {
    var s := map["A" := Entry("A", 10.0, 100.0), "B" := Entry("B", 99.5, 100.0)];
    var reaction := Reaction("A to B", [("A", 1.0)], [("B", 1.0)]);
    assert Limit(s, reaction.consume, 1, 1.0) == Ok(1.0);
    assert Limit(s, reaction.consume, 0, Min(1.0 * 1.0, 10.0)) == Ok(1.0);
    var s1 := s["A" := Entry("A", 9.0, 100.0)];
    assert Scaled(reaction.consume, -1.0) == [("A", -1.0)];
    assert CheckedChange(s, "A", -1.0) == Ok(s1);
    assert PyologyOrganelle.ProduceInOrder(s1, [("A", -1.0)], 1) == Partial(s1, None);
    assert Scaled(reaction.produce, 1.0) == [("B", 1.0)];
    assert CheckedChange(s1, "B", 1.0) == Raise(QuantityError);
    assert s1 == map["A" := Entry("A", 9.0, 100.0), "B" := Entry("B", 99.5, 100.0)];
  }

  /**
   * `Reaction.execute` on the organelle, with the consume and produce loops;
   * the time step defaults to 1.0.
   */
  method Execute(reaction: Reaction, o: PyologyOrganelle.Organelle, enzymeRate: real, timeStep: real := 1.0)
    returns (r: Result<real>)
    modifies o
    ensures var run := Executed(old(o.metabolites), reaction, enzymeRate, timeStep);
      o.metabolites == run.store && r == run.result
    ensures o.glycolysisRate == old(o.glycolysisRate)
  {
    if reaction.consume == [] {
      return Raise(IndexError);
    }
    var substrate := QuantityLookup(o.metabolites, reaction.consume[0].0);
    if substrate.Raise? {
      return Raise(substrate.error);
    }
    var bound := Min(enzymeRate * timeStep, substrate.value);
    var i := 0;
    while i < |reaction.consume|
      invariant 0 <= i <= |reaction.consume|
      invariant Limit(o.metabolites, reaction.consume, i, bound) ==
        Limit(o.metabolites, reaction.consume, 0, Min(enzymeRate * timeStep, substrate.value))
    {
      var (name, amount) := reaction.consume[i];
      var q := QuantityLookup(o.metabolites, name);
      if q.Raise? {
        return Raise(q.error);
      }
      if amount == 0.0 {
        return Raise(ZeroDivisionError);
      }
      bound := Min(bound, q.value / amount);
      i := i + 1;
    }
    var actual := bound;
    ghost var start := o.metabolites;
    var consumed := Scaled(reaction.consume, -actual);
    i := 0;
    while i < |consumed|
      invariant 0 <= i <= |consumed|
      invariant o.glycolysisRate == old(o.glycolysisRate)
      invariant PyologyOrganelle.ProduceInOrder(o.metabolites, consumed, i) ==
        PyologyOrganelle.ProduceInOrder(start, consumed, 0)
    {
      var c := o.ChangeMetaboliteQuantity(consumed[i].0, consumed[i].1);
      if c.Raised? {
        return Raise(c.error);
      }
      i := i + 1;
    }
    ghost var middle := o.metabolites;
    var produced := Scaled(reaction.produce, actual);
    i := 0;
    while i < |produced|
      invariant 0 <= i <= |produced|
      invariant o.glycolysisRate == old(o.glycolysisRate)
      invariant PyologyOrganelle.ProduceInOrder(o.metabolites, produced, i) ==
        PyologyOrganelle.ProduceInOrder(middle, produced, 0)
    {
      var c := o.ChangeMetaboliteQuantity(produced[i].0, produced[i].1);
      if c.Raised? {
        return Raise(c.error);
      }
      i := i + 1;
    }
    return Ok(actual);
  }
}
