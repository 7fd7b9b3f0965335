/**
 * pyology/organelle.py: the base Organelle. add_metabolite merges into an
 * existing entry, change_metabolite_quantity rejects any out-of-range
 * result, and consume/produce apply their items one at a time, so a raise
 * part-way leaves the earlier items applied.
 */
module PyologyOrganelle {
  import opened Common
  import opened Stores

  /** The six metabolites every organelle starts with, each with capacity 1000. */
  const InitialStore: Store := map[
    "glucose" := Entry("glucose", 0.0, 1000.0),
    "atp" := Entry("atp", 100.0, 1000.0),
    "adp" := Entry("adp", 0.0, 1000.0),
    "nad" := Entry("nad", 10.0, 1000.0),
    "nadh" := Entry("nadh", 0.0, 1000.0),
    "pyruvate" := Entry("pyruvate", 0.0, 1000.0)]

  const InitialGlycolysisRate: real := 1.0

  /**
   * `add_metabolite`: ValueError for a negative quantity or one above
   * `maxQuantity`; an existing name gains the quantity, capped at the
   * `maxQuantity` argument, and keeps its stored capacity; a new name gets a
   * fresh entry.
   */
  function Merge(s: Store, name: string, quantity: real, maxQuantity: real): (r: Result<Store>)
    ensures r.Raise? <==> quantity < 0.0 || quantity > maxQuantity
    ensures r.Raise? ==> r.error == ValueError
    ensures r.Ok? ==> r.value.Keys == s.Keys + {name}
    ensures r.Ok? && name in s ==>
      r.value == WithQuantity(s, name, Min(s[name].quantity + quantity, maxQuantity))
    ensures r.Ok? && name !in s ==> r.value == s[name := Entry(name, quantity, maxQuantity)]
  {
    if quantity < 0.0 then Raise(ValueError)
    else if quantity > maxQuantity then Raise(ValueError)
    else if name in s then Ok(WithQuantity(s, name, Min(s[name].quantity + quantity, maxQuantity)))
    else Ok(s[name := Entry(name, quantity, maxQuantity)])
  }

  /** The constructor's six add_metabolite calls build exactly the initial store. */
  lemma InitialStoreBuilt()
    ensures var s1 := Merge(map[], "glucose", 0.0, 1000.0).value;
      var s2 := Merge(s1, "atp", 100.0, 1000.0).value;
      var s3 := Merge(s2, "adp", 0.0, 1000.0).value;
      var s4 := Merge(s3, "nad", 10.0, 1000.0).value;
      var s5 := Merge(s4, "nadh", 0.0, 1000.0).value;
      Merge(s5, "pyruvate", 0.0, 1000.0) == Ok(InitialStore)
  {
  }

  /** Merging with a smaller stored capacity than the argument can overfill an entry. */
  lemma MergeMayExceedStoredCapacity()
    ensures var s := map["atp" := Entry("atp", 90.0, 100.0)];
      Bounded(s) && Merge(s, "atp", 20.0, 1000.0) == Ok(map["atp" := Entry("atp", 110.0, 100.0)])
  {
    var s := map["atp" := Entry("atp", 90.0, 100.0)];
    assert Min(90.0 + 20.0, 1000.0) == 110.0;
    assert WithQuantity(s, "atp", 110.0) == map["atp" := Entry("atp", 110.0, 100.0)];
  }

  /** Merging keeps the store within bounds when the argument's capacity is no larger than the stored one. */
  lemma MergeKeepsBounded(s: Store, name: string, quantity: real, maxQuantity: real)
    requires Bounded(s)
    requires name in s ==> maxQuantity <= s[name].maxQuantity
    ensures Merge(s, name, quantity, maxQuantity).Ok? ==> Bounded(Merge(s, name, quantity, maxQuantity).value)
  {
  }

  /** `validate_initial_state`: ValueError iff some quantity is outside [0, max] or the rate is not positive. */
  function ValidateInitialState(s: Store, glycolysisRate: real): (r: Outcome)
    ensures r == Done <==> Bounded(s) && glycolysisRate > 0.0
    ensures r != Done ==> r == Raised(ValueError)
  {
    if (exists k :: k in s && !(0.0 <= s[k].quantity <= s[k].maxQuantity)) then Raised(ValueError)
    else if glycolysisRate <= 0.0 then Raised(ValueError)
    else Done
  }

  /** A freshly constructed organelle passes its own validation. */
  lemma InitialStateValid()
    ensures ValidateInitialState(InitialStore, InitialGlycolysisRate) == Done
  {
    assert Bounded(InitialStore);
  }

  /**
   * `consume_metabolites`: for each item in order, raise if it is unknown or
   * short, else decrement it through the checked change.
   */
  function ConsumeInOrder(s: Store, items: Items, from: nat): (r: Partial<Store>)
    requires from <= |items|
    ensures r.state.Keys == s.Keys
    ensures r.error.Some? ==>
      r.error.value == UnknownMetaboliteError || r.error.value == InsufficientMetaboliteError || r.error.value == QuantityError
    decreases |items| - from
  {
    if from == |items| then Partial(s, None)
    else
      match ConsumeOne(s, items[from])
      case Raise(e) => Partial(s, Some(e))
      case Ok(s') => ConsumeInOrder(s', items, from + 1)
  }

  /** One item of `consume_metabolites`: the availability check, then the checked decrement. */
  function ConsumeOne(s: Store, item: (string, real)): (r: Result<Store>)
    ensures r.Ok? <==> item.0 in s && s[item.0].quantity >= item.1 && CheckedChange(s, item.0, -item.1).Ok?
    ensures r.Ok? ==> r == CheckedChange(s, item.0, -item.1)
  {
    var (name, amount) := item;
    match Availability(s, name, amount, UnknownMetaboliteError)
    case Raise(e) => Raise(e)
    case Ok(available) =>
      if !available then Raise(InsufficientMetaboliteError)
      else CheckedChange(s, name, -amount)
  }

  /** `produce_metabolites`: the checked change for each item in order. */
  function ProduceInOrder(s: Store, items: Items, from: nat): (r: Partial<Store>)
    requires from <= |items|
    ensures r.state.Keys == s.Keys
    ensures r.error.Some? ==> r.error.value == UnknownMetaboliteError || r.error.value == QuantityError
    decreases |items| - from
  {
    if from == |items| then Partial(s, None)
    else
      match CheckedChange(s, items[from].0, items[from].1)
      case Raise(e) => Partial(s, Some(e))
      case Ok(s') => ProduceInOrder(s', items, from + 1)
  }

  /** Whatever consume raises, the store it leaves behind is still within bounds. */
  lemma {:induction false} ConsumeInOrderKeepsBounded(s: Store, items: Items, from: nat)
    requires from <= |items| && Bounded(s)
    ensures Bounded(ConsumeInOrder(s, items, from).state)
    ensures ConsumeInOrder(s, items, from).state.Keys == s.Keys
    decreases |items| - from
  {
    if from < |items| {
      var c := ConsumeOne(s, items[from]);
      if c.Ok? {
        CheckedChangeKeepsBounded(s, items[from].0, -items[from].1);
        ConsumeInOrderKeepsBounded(c.value, items, from + 1);
      }
    }
  }

  lemma {:induction false} ProduceInOrderKeepsBounded(s: Store, items: Items, from: nat)
    requires from <= |items| && Bounded(s)
    ensures Bounded(ProduceInOrder(s, items, from).state)
    ensures ProduceInOrder(s, items, from).state.Keys == s.Keys
    decreases |items| - from
  {
    if from < |items| {
      match CheckedChange(s, items[from].0, items[from].1)
      case Raise(e) =>
      case Ok(s') =>
        CheckedChangeKeepsBounded(s, items[from].0, items[from].1);
        ProduceInOrderKeepsBounded(s', items, from + 1);
    }
  }

  /**
   * With distinct names and non-negative amounts, consuming in order succeeds
   * iff every item passes the all-items-first validation, and then it ends in
   * the same store: the two Organelle classes differ only on failure.
   */
  lemma ConsumeInOrderMatchesAtomic(s: Store, items: Items, from: nat)
    requires from <= |items| && Bounded(s) && DistinctNames(items)
    requires forall i :: from <= i < |items| ==> items[i].1 >= 0.0
    ensures ConsumeInOrder(s, items, from).error == None <==>
      forall i :: from <= i < |items| ==> ConsumeItemFault(s, items[i]) == None
    ensures ConsumeInOrder(s, items, from).error == None ==>
      (forall i :: from <= i < |items| ==> items[i].0 in s) &&
      ConsumeInOrder(s, items, from).state == AddAll(s, items, -1.0, from)
  {
    ConsumeInOrderSucceedsIff(s, items, from);
    if ConsumeInOrder(s, items, from).error == None {
      ConsumeInOrderState(s, items, from);
    }
  }

  lemma {:induction false} ConsumeInOrderSucceedsIff(s: Store, items: Items, from: nat)
    requires from <= |items| && Bounded(s) && DistinctNames(items)
    requires forall i :: from <= i < |items| ==> items[i].1 >= 0.0
    ensures ConsumeInOrder(s, items, from).error == None <==>
      forall i :: from <= i < |items| ==> ConsumeItemFault(s, items[i]) == None
    decreases |items| - from
  {
    if from < |items| {
      ConsumeOneMatchesFault(s, items[from]);
      var c := ConsumeOne(s, items[from]);
      if c.Ok? {
        ConsumeInOrderSucceedsIff(c.value, items, from + 1);
        LaterFaultsUnchanged(s, c.value, items, from);
      }
    }
  }

  lemma {:induction false} ConsumeInOrderState(s: Store, items: Items, from: nat)
    requires from <= |items| && Bounded(s)
    requires forall i :: from <= i < |items| ==> items[i].1 >= 0.0
    requires ConsumeInOrder(s, items, from).error == None
    ensures forall i :: from <= i < |items| ==> items[i].0 in s
    ensures ConsumeInOrder(s, items, from).state == AddAll(s, items, -1.0, from)
    decreases |items| - from
  {
    if from < |items| {
      ConsumeOneMatchesFault(s, items[from]);
      var s' := ConsumeOne(s, items[from]).value;
      ConsumeInOrderState(s', items, from + 1);
      assert AddAll(s, items, -1.0, from) == AddAll(s', items, -1.0, from + 1);
    }
  }

  /** For a non-negative amount, one consume step goes through iff the validation accepts it. */
  lemma ConsumeOneMatchesFault(s: Store, item: (string, real))
    requires Bounded(s) && item.1 >= 0.0
    ensures ConsumeOne(s, item).Ok? <==> ConsumeItemFault(s, item) == None
    ensures ConsumeOne(s, item).Ok? ==>
      Bounded(ConsumeOne(s, item).value) &&
      ConsumeOne(s, item).value == WithQuantity(s, item.0, s[item.0].quantity + -1.0 * item.1)
  {
    CheckedChangeKeepsBounded(s, item.0, -item.1);
    assert -1.0 * item.1 == -item.1;
  }

  /** Changing the item at `from` leaves the later, differently named items' checks as they were. */
  lemma LaterFaultsUnchanged(s: Store, s': Store, items: Items, from: nat)
    requires from < |items| && DistinctNames(items) && items[from].0 in s
    requires s' == WithQuantity(s, items[from].0, s[items[from].0].quantity + -1.0 * items[from].1)
    ensures forall i :: from < i < |items| ==> ConsumeItemFault(s', items[i]) == ConsumeItemFault(s, items[i])
  {
    forall i | from < i < |items|
      ensures ConsumeItemFault(s', items[i]) == ConsumeItemFault(s, items[i])
    {
      assert items[i].0 != items[from].0;
    }
  }

  /**
   * Not atomic: when a later item is short, the earlier ones stay consumed
   * (here 10 ATP are gone although the glucose check raised).
   */
  lemma ConsumeInOrderPartial()
    ensures ConsumeInOrder(InitialStore, [("atp", 10.0), ("glucose", 5.0)], 0) ==
      Partial(InitialStore["atp" := Entry("atp", 90.0, 1000.0)], Some(InsufficientMetaboliteError))
  {
    var s' := InitialStore["atp" := Entry("atp", 90.0, 1000.0)];
    assert CheckedChange(InitialStore, "atp", -10.0) == Ok(s');
    assert ConsumeInOrder(s', [("atp", 10.0), ("glucose", 5.0)], 1) == Partial(s', Some(InsufficientMetaboliteError));
  }

  /** Not atomic: an over-capacity item raises after earlier increments were applied. */
  lemma ProduceInOrderPartial()
    ensures ProduceInOrder(InitialStore, [("atp", 10.0), ("glucose", 2000.0)], 0) ==
      Partial(InitialStore["atp" := Entry("atp", 110.0, 1000.0)], Some(QuantityError))
  {
    var s' := InitialStore["atp" := Entry("atp", 110.0, 1000.0)];
    assert CheckedChange(InitialStore, "atp", 10.0) == Ok(s');
    assert ProduceInOrder(s', [("atp", 10.0), ("glucose", 2000.0)], 1) == Partial(s', Some(QuantityError));
  }

  /** With distinct names, a successful produce adds exactly each amount. */
  lemma {:induction false} ProduceInOrderExact(s: Store, items: Items, from: nat)
    requires from <= |items| && DistinctNames(items)
    requires ProduceInOrder(s, items, from).error == None
    ensures forall i :: from <= i < |items| ==> items[i].0 in s
    ensures ProduceInOrder(s, items, from).state == AddAll(s, items, 1.0, from)
    decreases |items| - from
  {
    if from < |items| {
      var (name, amount) := items[from];
      var s' := CheckedChange(s, name, amount).value;
      assert 1.0 * amount == amount;
      ProduceInOrderExact(s', items, from + 1);
    }
  }

  class Organelle {
    var metabolites: Store
    var glycolysisRate: real

    constructor()
      ensures metabolites == InitialStore && glycolysisRate == InitialGlycolysisRate
    {
      InitialStoreBuilt();
      metabolites := InitialStore;
      glycolysisRate := InitialGlycolysisRate;
    }

    method ValidateInitialState() returns (r: Outcome)
      ensures r == Done <==> Bounded(metabolites) && glycolysisRate > 0.0
      ensures r != Done ==> r == Raised(ValueError)
    {
      var keys := metabolites.Keys;
      while keys != {}
        invariant keys <= metabolites.Keys
        invariant forall k :: k in metabolites && k !in keys ==>
          0.0 <= metabolites[k].quantity <= metabolites[k].maxQuantity
        decreases keys
      {
        var k :| k in keys;
        if metabolites[k].quantity < 0.0 || metabolites[k].quantity > metabolites[k].maxQuantity {
          return Raised(ValueError);
        }
        keys := keys - {k};
      }
      if glycolysisRate <= 0.0 {
        return Raised(ValueError);
      }
      return Done;
    }

    /** `set_glycolysis_rate`: a rate ≤ 0 raises ValueError and keeps the old rate. */
    method SetGlycolysisRate(rate: real) returns (r: Outcome)
      modifies this
      ensures metabolites == old(metabolites)
      ensures rate <= 0.0 ==> r == Raised(ValueError) && glycolysisRate == old(glycolysisRate)
      ensures rate > 0.0 ==> r == Done && glycolysisRate == rate
    {
      if rate <= 0.0 {
        return Raised(ValueError);
      }
      glycolysisRate := rate;
      return Done;
    }

    method AddMetabolite(name: string, quantity: real, maxQuantity: real) returns (r: Outcome)
      modifies this
      ensures glycolysisRate == old(glycolysisRate)
      ensures var a := Merge(old(metabolites), name, quantity, maxQuantity);
        (a.Ok? ==> metabolites == a.value && r == Done) &&
        (a.Raise? ==> metabolites == old(metabolites) && r == Raised(a.error))
    {
      var a := Merge(metabolites, name, quantity, maxQuantity);
      if a.Raise? {
        return Raised(a.error);
      }
      metabolites := a.value;
      return Done;
    }

    method ChangeMetaboliteQuantity(name: string, amount: real) returns (r: Outcome)
      modifies this
      ensures glycolysisRate == old(glycolysisRate)
      ensures var c := CheckedChange(old(metabolites), name, amount);
        (c.Ok? ==> metabolites == c.value && r == Done) &&
        (c.Raise? ==> metabolites == old(metabolites) && r == Raised(c.error))
    {
      var c := CheckedChange(metabolites, name, amount);
      if c.Raise? {
        return Raised(c.error);
      }
      metabolites := c.value;
      return Done;
    }

    method IsMetaboliteAvailable(name: string, amount: real) returns (r: Result<bool>)
      ensures r == Availability(metabolites, name, amount, UnknownMetaboliteError)
    {
      r := Availability(metabolites, name, amount, UnknownMetaboliteError);
    }

    method ConsumeMetabolites(items: Items) returns (r: Outcome)
      modifies this
      ensures glycolysisRate == old(glycolysisRate)
      ensures var p := ConsumeInOrder(old(metabolites), items, 0);
        metabolites == p.state && r == (if p.error.Some? then Raised(p.error.value) else Done)
    {
      var i := 0;
      while i < |items|
        invariant 0 <= i <= |items|
        invariant glycolysisRate == old(glycolysisRate)
        invariant ConsumeInOrder(metabolites, items, i) == ConsumeInOrder(old(metabolites), items, 0)
      {
        var (name, amount) := items[i];
        var available := IsMetaboliteAvailable(name, amount);
        if available.Raise? {
          return Raised(available.error);
        }
        if !available.value {
          return Raised(InsufficientMetaboliteError);
        }
        var c := ChangeMetaboliteQuantity(name, -amount);
        if c.Raised? {
          return c;
        }
        i := i + 1;
      }
      return Done;
    }

    method ProduceMetabolites(items: Items) returns (r: Outcome)
      modifies this
      ensures glycolysisRate == old(glycolysisRate)
      ensures var p := ProduceInOrder(old(metabolites), items, 0);
        metabolites == p.state && r == (if p.error.Some? then Raised(p.error.value) else Done)
    {
      var i := 0;
      while i < |items|
        invariant 0 <= i <= |items|
        invariant glycolysisRate == old(glycolysisRate)
        invariant ProduceInOrder(metabolites, items, i) == ProduceInOrder(old(metabolites), items, 0)
      {
        var c := ChangeMetaboliteQuantity(items[i].0, items[i].1);
        if c.Raised? {
          return c;
        }
        i := i + 1;
      }
      return Done;
    }
  }
}
