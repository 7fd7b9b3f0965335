/**
 * pyology/metabolite.py: a metabolite with a quantity kept between a minimum
 * and a maximum, and `Metabolites`, a dictionary of them whose keys are
 * lower-cased on every access.
 */
module MetaboliteStore {
  import opened Common

  /**
   * A metabolite. `hasOnChange` records whether an `on_change` callback was
   * supplied; the callback's own effect lies outside the model.
   */
  datatype Metabolite = Metabolite(
    name: string,
    mtype: string,
    quantity: real,
    maxQuantity: real,
    minQuantity: real,
    unit: string,
    metadata: map<string, string>,
    hasOnChange: bool)

  predicate InRange(m: Metabolite)
  {
    m.minQuantity <= m.quantity <= m.maxQuantity
  }

  /** `Metabolite(...)` with the constructor's defaults; the name is lower-cased. */
  function NewMetabolite(
    name: string, quantity: real, maxQuantity: real, minQuantity: real := 0.0,
    unit: string := "mM", metadata: map<string, string> := map[],
    hasOnChange: bool := false, mtype: string := "default"): (m: Metabolite)
    ensures m.name == Lower(name) && Lower(m.name) == m.name
    ensures m.quantity == quantity && m.maxQuantity == maxQuantity && m.minQuantity == minQuantity
    ensures m.unit == unit && m.metadata == metadata && m.mtype == mtype && m.hasOnChange == hasOnChange
  {
    LowerIdempotent(name);
    Metabolite(Lower(name), mtype, quantity, maxQuantity, minQuantity, unit, metadata, hasOnChange)
  }

  /** A metabolite after a change, and how many times `on_change` fired. */
  datatype Adjusted = Adjusted(metabolite: Metabolite, callbacks: nat)

  /**
   * `adjust_quantity`: succeeds iff the new quantity stays within
   * [min_quantity, max_quantity]; then the quantity moves by exactly
   * `amount` and the callback fires once, else QuantityError is raised and
   * the callback does not fire.
   */
  function AdjustQuantity(m: Metabolite, amount: real): (r: Result<Adjusted>)
    ensures r.Ok? <==> m.minQuantity <= m.quantity + amount <= m.maxQuantity
    ensures r.Raise? ==> r.error == QuantityError
    ensures r.Ok? ==> r.value.metabolite == m.(quantity := m.quantity + amount)
    ensures r.Ok? ==> r.value.callbacks == (if m.hasOnChange then 1 else 0)
  {
    var q := m.quantity + amount;
    if q < m.minQuantity || q > m.maxQuantity then Raise(QuantityError)
    else Ok(Adjusted(m.(quantity := q), if m.hasOnChange then 1 else 0))
  }

  /** An accepted adjustment is undone by adjusting back. */
  lemma AdjustRoundTrip(m: Metabolite, amount: real)
    requires InRange(m) && AdjustQuantity(m, amount).Ok?
    ensures InRange(AdjustQuantity(m, amount).value.metabolite)
    ensures AdjustQuantity(AdjustQuantity(m, amount).value.metabolite, -amount).Ok?
    ensures AdjustQuantity(AdjustQuantity(m, amount).value.metabolite, -amount).value.metabolite == m
  {
  }

  /** `reset`: the quantity becomes exactly min_quantity and the callback fires. */
  function ResetMetabolite(m: Metabolite): (r: Adjusted)
    ensures r.metabolite == m.(quantity := m.minQuantity)
    ensures r.callbacks == (if m.hasOnChange then 1 else 0)
    ensures m.minQuantity <= m.maxQuantity ==> InRange(r.metabolite)
  {
    Adjusted(m.(quantity := m.minQuantity), if m.hasOnChange then 1 else 0)
  }

  /** `percentage_filled`; a zero capacity raises ZeroDivisionError. */
  function PercentageFilled(m: Metabolite): (r: Result<real>)
    ensures r.Raise? <==> m.maxQuantity == 0.0
    ensures r.Ok? ==> r.value * m.maxQuantity == m.quantity * 100.0
    ensures r.Ok? && m.maxQuantity > 0.0 && 0.0 <= m.quantity <= m.maxQuantity ==> 0.0 <= r.value <= 100.0
  {
    if m.maxQuantity == 0.0 then Raise(ZeroDivisionError)
    else Ok(m.quantity / m.maxQuantity * 100.0)
  }

  /** The dictionary `to_dict` builds; optional keys are the ones `from_dict` defaults. */
  datatype Record = Record(
    name: string,
    quantity: real,
    maxQuantity: real,
    mtype: Option<string>,
    minQuantity: Option<real>,
    unit: Option<string>,
    metadata: Option<map<string, string>>)

  function ToDict(m: Metabolite): (d: Record)
    ensures d.name == m.name && d.quantity == m.quantity && d.maxQuantity == m.maxQuantity
    ensures d.mtype == Some(m.mtype) && d.minQuantity == Some(m.minQuantity)
    ensures d.unit == Some(m.unit) && d.metadata == Some(m.metadata)
  {
    Record(m.name, m.quantity, m.maxQuantity, Some(m.mtype), Some(m.minQuantity), Some(m.unit), Some(m.metadata))
  }

  /** `from_dict` passes name, quantities, unit and metadata, but never the type. */
  function FromDict(d: Record): (m: Metabolite)
    ensures m.mtype == "default" && !m.hasOnChange
    ensures m.minQuantity == d.minQuantity.GetOr(0.0) && m.unit == d.unit.GetOr("mM")
  {
    NewMetabolite(d.name, d.quantity, d.maxQuantity, d.minQuantity.GetOr(0.0), d.unit.GetOr("mM"), d.metadata.GetOr(map[]))
  }

  /**
   * from_dict(to_dict(m)) gives back m except its type (reset to "default")
   * and its callback (not serialised). Every constructed metabolite has a
   * lower-case name, which the round trip needs.
   */
  lemma {:induction false} DictRoundTrip(m: Metabolite)
    requires Lower(m.name) == m.name
    ensures FromDict(ToDict(m)) == m.(mtype := "default", hasOnChange := false)
  {
  }

  /** A metabolite built by the constructor survives the round trip. */
  lemma {:induction false} ConstructedRoundTrip(name: string, quantity: real, maxQuantity: real)
    ensures FromDict(ToDict(NewMetabolite(name, quantity, maxQuantity))) == NewMetabolite(name, quantity, maxQuantity)
  {
    LowerIdempotent(name);
  }

  type Data = map<string, Metabolite>

  /** within_range check of `validate_all`. */
  predicate AllInRange(d: Data)
  {
    forall k :: k in d ==> InRange(d[k])
  }

  /**
   * `_register` as written: the membership test uses the name as given, but
   * a new entry is stored under the lower-cased name.
   */
  function RegisterAsWritten(d: Data, name: string, quantity: real, maxQuantity: real): (r: Result<Data>)
    ensures quantity < 0.0 || quantity > maxQuantity <==> r == Raise(ValueError)
  {
    if quantity < 0.0 then Raise(ValueError)
    else if quantity > maxQuantity then Raise(ValueError)
    else if name in d then
      Ok(d[name := d[name].(quantity := Min(d[name].quantity + quantity, d[name].maxQuantity))])
    else Ok(d[Lower(name) := NewMetabolite(name, quantity, maxQuantity)])
  }

  /** `_register` with the membership test on the lower-cased key. */
  function RegisterOne(d: Data, name: string, quantity: real, maxQuantity: real): (r: Result<Data>)
    ensures quantity < 0.0 || quantity > maxQuantity <==> r == Raise(ValueError)
    ensures r.Ok? ==> r.value.Keys == d.Keys + {Lower(name)}
  {
    if quantity < 0.0 then Raise(ValueError)
    else if quantity > maxQuantity then Raise(ValueError)
    else if Lower(name) in d then
      var m := d[Lower(name)];
      Ok(d[Lower(name) := m.(quantity := Min(m.quantity + quantity, m.maxQuantity))])
    else Ok(d[Lower(name) := NewMetabolite(name, quantity, maxQuantity)])
  }

  /**
   * Registering merges: an existing entry (in any letter case) gains the
   * quantity, capped at its stored max_quantity, and keeps everything else;
   * a new name gets a fresh entry; no other entry changes.
   */
  lemma RegisterOneSpec(d: Data, name: string, quantity: real, maxQuantity: real)
    requires 0.0 <= quantity <= maxQuantity
    ensures RegisterOne(d, name, quantity, maxQuantity).Ok?
    ensures var r := RegisterOne(d, name, quantity, maxQuantity).value;
      r.Keys == d.Keys + {Lower(name)} &&
      (forall k :: k in d && k != Lower(name) ==> r[k] == d[k]) &&
      (Lower(name) in d ==>
        r[Lower(name)] == d[Lower(name)].(quantity := Min(d[Lower(name)].quantity + quantity, d[Lower(name)].maxQuantity))) &&
      (Lower(name) !in d ==> r[Lower(name)] == NewMetabolite(name, quantity, maxQuantity))
    ensures AllInRange(d) && (forall k :: k in d ==> d[k].minQuantity <= 0.0) ==>
      AllInRange(RegisterOne(d, name, quantity, maxQuantity).value)
  {
  }

  /** On an already lower-cased name, `_register` as written is the corrected one. */
  lemma {:induction false} RegisterLoweredAgrees(d: Data, name: string, quantity: real, maxQuantity: real)
    ensures RegisterAsWritten(d, Lower(name), quantity, maxQuantity) == RegisterOne(d, Lower(name), quantity, maxQuantity)
  {
    LowerIdempotent(name);
  }

  /**
   * As written, registering a name whose lower-cased form is stored but which
   * is not itself stored (say "Glucose" when "glucose" holds 100) replaces the
   * entry with the new quantity alone; the corrected test merges into it.
   */
  lemma RegisterCaseCounterexample(d: Data, name: string, quantity: real, maxQuantity: real)
    requires 0.0 <= quantity <= maxQuantity && name !in d && Lower(name) in d
    requires 0.0 < d[Lower(name)].quantity && d[Lower(name)].quantity + quantity <= d[Lower(name)].maxQuantity
    ensures RegisterAsWritten(d, name, quantity, maxQuantity).Ok?
    ensures RegisterAsWritten(d, name, quantity, maxQuantity).value[Lower(name)].quantity == quantity
    ensures RegisterOne(d, name, quantity, maxQuantity).Ok?
    ensures RegisterOne(d, name, quantity, maxQuantity).value[Lower(name)].quantity == d[Lower(name)].quantity + quantity
  {
  }

  /** The keyword form of `register`: each name lower-cased, registered in order. */
  function RegisterAll(d: Data, kwargs: seq<(string, (real, real))>, from: nat): (r: Partial<Data>)
    requires from <= |kwargs|
    ensures r.error.Some? ==> r.error.value == ValueError
    decreases |kwargs| - from
  {
    if from == |kwargs| then Partial(d, None)
    else
      var (name, (q, mx)) := kwargs[from];
      LowerIdempotent(name);
      match RegisterOne(d, Lower(name), q, mx)
      case Raise(e) => Partial(d, Some(e))
      case Ok(d') => RegisterAll(d', kwargs, from + 1)
  }

  /** Registering never removes a key, even when a later item raises. */
  lemma {:induction false} RegisterAllKeepsKeys(d: Data, kwargs: seq<(string, (real, real))>, from: nat)
    requires from <= |kwargs|
    ensures d.Keys <= RegisterAll(d, kwargs, from).state.Keys
    ensures RegisterAll(d, kwargs, from).error.Some? <==>
      exists i :: from <= i < |kwargs| && (kwargs[i].1.0 < 0.0 || kwargs[i].1.0 > kwargs[i].1.1)
    decreases |kwargs| - from
  {
    if from < |kwargs| {
      var (name, (q, mx)) := kwargs[from];
      if 0.0 <= q <= mx {
        RegisterOneSpec(d, Lower(name), q, mx);
        RegisterAllKeepsKeys(RegisterOne(d, Lower(name), q, mx).value, kwargs, from + 1);
      }
    }
  }

  /** Registering only names already held (in any letter case) adds no key. */
  lemma {:induction false} RegisterAllKnownKeepsKeys(d: Data, kwargs: seq<(string, (real, real))>, from: nat)
    requires from <= |kwargs|
    requires forall i :: from <= i < |kwargs| ==> Lower(kwargs[i].0) in d
    ensures RegisterAll(d, kwargs, from).state.Keys == d.Keys
    decreases |kwargs| - from
  {
    if from < |kwargs| {
      var (name, (q, mx)) := kwargs[from];
      LowerIdempotent(name);
      if 0.0 <= q <= mx {
        var d' := RegisterOne(d, Lower(name), q, mx).value;
        assert d'.Keys == d.Keys;
        RegisterAllKnownKeepsKeys(d', kwargs, from + 1);
      }
    }
  }

  /**
   * `register`: the individual form when a non-empty name and both numbers
   * are given, else the keyword form when keywords are given, else ValueError.
   */
  function RegisterCall(d: Data, name: Option<string>, quantity: Option<real>, maxQuantity: Option<real>,
                    kwargs: seq<(string, (real, real))>): (r: Partial<Data>)
    ensures name.None? && kwargs == [] ==> r == Partial(d, Some(ValueError))
  {
    if name.Some? && name.value != "" && quantity.Some? && maxQuantity.Some? then
      match RegisterOne(d, name.value, quantity.value, maxQuantity.value)
      case Raise(e) => Partial(d, Some(e))
      case Ok(d') => Partial(d', None)
    else if kwargs != [] then RegisterAll(d, kwargs, 0)
    else Partial(d, Some(ValueError))
  }

  /**
   * What `register` does with each form: a valid individual call merges one
   * entry (raising ValueError, with nothing changed, when the quantity is out
   * of range); otherwise a keyword call registers its items in order and
   * raises iff one of them is out of range; a call with neither raises.
   */
  lemma RegisterCallSpec(d: Data, name: Option<string>, quantity: Option<real>, maxQuantity: Option<real>,
                         kwargs: seq<(string, (real, real))>)
    ensures var r := RegisterCall(d, name, quantity, maxQuantity, kwargs);
      name.Some? && name.value != "" && quantity.Some? && maxQuantity.Some? ==>
        var (n, q, mx) := (name.value, quantity.value, maxQuantity.value);
        (r.error.Some? <==> q < 0.0 || q > mx) &&
        (r.error.Some? ==> r == Partial(d, Some(ValueError))) &&
        (r.error.None? ==>
          r.state.Keys == d.Keys + {Lower(n)} &&
          (forall k :: k in d && k != Lower(n) ==> r.state[k] == d[k]) &&
          (Lower(n) in d ==>
            r.state[Lower(n)] == d[Lower(n)].(quantity := Min(d[Lower(n)].quantity + q, d[Lower(n)].maxQuantity))) &&
          (Lower(n) !in d ==> r.state[Lower(n)] == NewMetabolite(n, q, mx)))
    ensures var r := RegisterCall(d, name, quantity, maxQuantity, kwargs);
      !(name.Some? && name.value != "" && quantity.Some? && maxQuantity.Some?) && kwargs != [] ==>
        r == RegisterAll(d, kwargs, 0) && d.Keys <= r.state.Keys &&
        (r.error.Some? <==> exists i :: 0 <= i < |kwargs| && (kwargs[i].1.0 < 0.0 || kwargs[i].1.0 > kwargs[i].1.1))
    ensures var r := RegisterCall(d, name, quantity, maxQuantity, kwargs);
      !(name.Some? && name.value != "" && quantity.Some? && maxQuantity.Some?) && kwargs == [] ==>
        r == Partial(d, Some(ValueError))
  {
    if name.Some? && name.value != "" && quantity.Some? && maxQuantity.Some? {
      if 0.0 <= quantity.value <= maxQuantity.value {
        RegisterOneSpec(d, name.value, quantity.value, maxQuantity.value);
      }
    } else if kwargs != [] {
      RegisterAllKeepsKeys(d, kwargs, 0);
    }
  }

  /**
   * `change_quantity`: UnknownMetaboliteError for an absent name,
   * QuantityError if the result would leave [min_quantity, max_quantity],
   * otherwise the quantity rises by exactly `amount`.
   */
  function QuantityChange(d: Data, name: string, amount: real): (r: Result<Data>)
    ensures r == Raise(UnknownMetaboliteError) <==> Lower(name) !in d
    ensures r.Ok? <==> (Lower(name) in d &&
      d[Lower(name)].minQuantity <= d[Lower(name)].quantity + amount <= d[Lower(name)].maxQuantity)
    ensures r.Raise? && Lower(name) in d ==> r.error == QuantityError
    ensures r.Ok? ==> r.value == d[Lower(name) := d[Lower(name)].(quantity := d[Lower(name)].quantity + amount)]
  {
    var key := Lower(name);
    if key !in d then Raise(UnknownMetaboliteError)
    else
      var q := d[key].quantity + amount;
      if q < d[key].minQuantity then Raise(QuantityError)
      else if q > d[key].maxQuantity then Raise(QuantityError)
      else Ok(d[key := d[key].(quantity := q)])
  }

  lemma QuantityChangeKeepsRange(d: Data, name: string, amount: real)
    requires AllInRange(d)
    ensures QuantityChange(d, name, amount).Ok? ==> AllInRange(QuantityChange(d, name, amount).value)
  {
  }

  /** `is_available`: UnknownMetaboliteError for an absent name, else quantity ≥ amount. */
  function Availability(d: Data, name: string, amount: real): (r: Result<bool>)
    ensures r.Raise? <==> Lower(name) !in d
    ensures r.Raise? ==> r.error == UnknownMetaboliteError
    ensures r.Ok? ==> (r.value <==> d[Lower(name)].quantity >= amount)
  {
    if Lower(name) !in d then Raise(UnknownMetaboliteError)
    else Ok(d[Lower(name)].quantity >= amount)
  }

  /** The first check of `consume` to fail, from item `from` on. */
  function ConsumeChecks(d: Data, items: seq<(string, real)>, from: nat): (r: Option<Error>)
    requires from <= |items|
    decreases |items| - from
  {
    if from == |items| then None
    else
      match Availability(d, items[from].0, items[from].1)
      case Raise(e) => Some(e)
      case Ok(available) => if !available then Some(InsufficientMetaboliteError) else ConsumeChecks(d, items, from + 1)
  }

  lemma {:induction false} ConsumeChecksNone(d: Data, items: seq<(string, real)>, from: nat)
    requires from <= |items|
    ensures ConsumeChecks(d, items, from) == None <==>
      forall i :: from <= i < |items| ==> Lower(items[i].0) in d && d[Lower(items[i].0)].quantity >= items[i].1
    decreases |items| - from
  {
    if from < |items| {
      ConsumeChecksNone(d, items, from + 1);
    }
  }

  /** `change_quantity(name, sign * amount)` for each item in turn, stopping at the first raise. */
  function ChangeAll(d: Data, items: seq<(string, real)>, sign: real, from: nat): (r: Partial<Data>)
    requires from <= |items|
    ensures r.state.Keys == d.Keys
    ensures r.error.Some? ==> r.error.value == UnknownMetaboliteError || r.error.value == QuantityError
    ensures AllInRange(d) ==> AllInRange(r.state)
    decreases |items| - from
  {
    if from == |items| then Partial(d, None)
    else
      match QuantityChange(d, items[from].0, sign * items[from].1)
      case Raise(e) => Partial(d, Some(e))
      case Ok(d') => ChangeAll(d', items, sign, from + 1)
  }

  /** `consume` calling `is_available` and `change_quantity`. */
  function Consumption(d: Data, items: seq<(string, real)>): (r: Partial<Data>)
    ensures ConsumeChecks(d, items, 0).Some? ==> r == Partial(d, ConsumeChecks(d, items, 0))
  {
    var e := ConsumeChecks(d, items, 0);
    if e.Some? then Partial(d, e) else ChangeAll(d, items, -1.0, 0)
  }

  /**
   * `consume` as written: its first loop calls `is_metabolite_available`,
   * which Metabolites does not define, so any non-empty call raises
   * AttributeError before changing anything.
   */
  function ConsumeAsWritten(d: Data, items: seq<(string, real)>): (r: Partial<Data>)
    ensures r.state == d
    ensures r.error.Some? <==> items != []
  {
    if items == [] then Partial(d, None) else Partial(d, Some(AttributeError))
  }

  /** Keyword names that differ even after lower-casing. */
  predicate DistinctKeys(items: seq<(string, real)>)
  {
    forall i, j :: 0 <= i < j < |items| ==> Lower(items[i].0) != Lower(items[j].0)
  }

  /** Every item from `from` on names a stored entry that can give its non-negative amount. */
  predicate Consumable(d: Data, items: seq<(string, real)>, from: nat)
    requires from <= |items|
  {
    forall i :: from <= i < |items| ==> ConsumableItem(d, items[i])
  }

  predicate ConsumableItem(d: Data, item: (string, real))
  {
    var k := Lower(item.0);
    k in d && item.1 >= 0.0 && d[k].quantity >= item.1 && d[k].minQuantity <= 0.0 && d[k].quantity <= d[k].maxQuantity
  }

  /** The entry under `k` after consuming `amount` of it. */
  function Drained(d: Data, k: string, amount: real): (r: Data)
    requires k in d
  {
    d[k := d[k].(quantity := d[k].quantity - amount)]
  }

  lemma ConsumeStep(d: Data, item: (string, real))
    requires ConsumableItem(d, item)
    ensures QuantityChange(d, item.0, -1.0 * item.1) == Ok(Drained(d, Lower(item.0), item.1))
  {
  }

  /** Changing items one at a time never adds or removes a key, nor touches an unnamed entry. */
  lemma {:induction false} ChangeAllUntouched(d: Data, items: seq<(string, real)>, sign: real, from: nat, k: string)
    requires from <= |items|
    requires forall i :: from <= i < |items| ==> Lower(items[i].0) != k
    ensures ChangeAll(d, items, sign, from).state.Keys == d.Keys
    ensures k in d ==> ChangeAll(d, items, sign, from).state[k] == d[k]
    decreases |items| - from
  {
    if from < |items| {
      match QuantityChange(d, items[from].0, sign * items[from].1)
      case Raise(e) =>
      case Ok(d') => ChangeAllUntouched(d', items, sign, from + 1, k);
    }
  }

  /** Applying distinct, non-negative consumptions that the checks passed. */
  lemma {:induction false} ChangeAllConsumes(d: Data, items: seq<(string, real)>, from: nat)
    requires from <= |items|
    requires DistinctKeys(items)
    requires Consumable(d, items, from)
    ensures ChangeAll(d, items, -1.0, from).error == None
    ensures ChangeAll(d, items, -1.0, from).state.Keys == d.Keys
    ensures forall i :: from <= i < |items| ==>
      var k := Lower(items[i].0);
      k in ChangeAll(d, items, -1.0, from).state &&
      ChangeAll(d, items, -1.0, from).state[k] == d[k].(quantity := d[k].quantity - items[i].1)
    decreases |items| - from
  {
    if from < |items| {
      var k := Lower(items[from].0);
      var d' := Drained(d, k, items[from].1);
      ConsumeStep(d, items[from]);
      assert forall i :: from < i < |items| ==> Lower(items[i].0) != k;
      ChangeAllUntouched(d', items, -1.0, from + 1, k);
      assert Consumable(d', items, from + 1) by {
        forall i | from < i < |items|
          ensures ConsumableItem(d', items[i])
        {
          assert ConsumableItem(d, items[i]);
        }
      }
      ChangeAllConsumes(d', items, from + 1);
      var rest := ChangeAll(d', items, -1.0, from + 1);
      assert ChangeAll(d, items, -1.0, from) == rest;
      forall i | from <= i < |items|
        ensures var k' := Lower(items[i].0);
          k' in rest.state && rest.state[k'] == d[k'].(quantity := d[k'].quantity - items[i].1)
      {
        if i > from {
          assert d'[Lower(items[i].0)] == d[Lower(items[i].0)];
        }
      }
    }
  }

  /**
   * `consume` is all-or-nothing when every named entry has a floor of 0 and
   * lies within its capacity (what `_register` creates): a failed check
   * raises with the store untouched, and otherwise every named quantity
   * drops by exactly its amount and nothing else changes.
   */
  lemma ConsumeAllOrNothing(d: Data, items: seq<(string, real)>)
    requires DistinctKeys(items)
    requires forall i :: 0 <= i < |items| ==> items[i].1 >= 0.0
    requires forall k :: k in d ==> d[k].minQuantity <= 0.0 && d[k].quantity <= d[k].maxQuantity
    ensures Consumption(d, items).error.Some? ==> Consumption(d, items).state == d
    ensures Consumption(d, items).error == None <==>
      forall i :: 0 <= i < |items| ==> Lower(items[i].0) in d && d[Lower(items[i].0)].quantity >= items[i].1
    ensures Consumption(d, items).error == None ==>
      forall i :: 0 <= i < |items| ==>
        Lower(items[i].0) in Consumption(d, items).state &&
        Consumption(d, items).state[Lower(items[i].0)].quantity == d[Lower(items[i].0)].quantity - items[i].1
  {
    ConsumeChecksNone(d, items, 0);
    if ConsumeChecks(d, items, 0) == None {
      assert Consumable(d, items, 0);
      ChangeAllConsumes(d, items, 0);
    }
  }

  /**
   * The availability check ignores min_quantity, so with a positive floor a
   * later decrement can raise after an earlier one was applied.
   */
  lemma ConsumeFloorNotAtomic()
    ensures var a := Metabolite("a", "default", 10.0, 100.0, 0.0, "mM", map[], false);
      var b := Metabolite("b", "default", 10.0, 100.0, 8.0, "mM", map[], false);
      Consumption(map["a" := a, "b" := b], [("a", 5.0), ("b", 5.0)]) ==
        Partial(map["a" := a.(quantity := 5.0), "b" := b], Some(QuantityError))
  {
    var a := Metabolite("a", "default", 10.0, 100.0, 0.0, "mM", map[], false);
    var b := Metabolite("b", "default", 10.0, 100.0, 8.0, "mM", map[], false);
    var d := map["a" := a, "b" := b];
    assert Lower("a") == "a" && Lower("b") == "b";
    var items := [("a", 5.0), ("b", 5.0)];
    assert ConsumeChecks(d, items, 2) == None;
    assert ConsumeChecks(d, items, 1) == None;
    assert ConsumeChecks(d, items, 0) == None;
    var d' := map["a" := a.(quantity := 5.0), "b" := b];
    assert d["a" := a.(quantity := 5.0)] == d';
    assert QuantityChange(d, "a", -1.0 * 5.0) == Ok(d');
    assert QuantityChange(d', "b", -1.0 * 5.0) == Raise(QuantityError);
    assert ChangeAll(d', items, -1.0, 1) == Partial(d', Some(QuantityError));
  }

  /**
   * `produce` calling `change_quantity`: an absent name raises
   * UnknownMetaboliteError, and items are applied one at a time.
   */
  function Production(d: Data, items: seq<(string, real)>, from: nat): (r: Partial<Data>)
    requires from <= |items|
    ensures r.state.Keys == d.Keys
    ensures r.error.Some? ==> r.error.value == UnknownMetaboliteError || r.error.value == QuantityError
    ensures (exists i :: from <= i < |items| && Lower(items[i].0) !in d) ==> r.error.Some?
    decreases |items| - from
  {
    if from == |items| then Partial(d, None)
    else if Lower(items[from].0) !in d then Partial(d, Some(UnknownMetaboliteError))
    else
      match QuantityChange(d, items[from].0, items[from].1)
      case Raise(e) => Partial(d, Some(e))
      case Ok(d') => Production(d', items, from + 1)
  }

  /**
   * `produce` as written: a known name reaches `change_metabolite_quantity`,
   * which Metabolites does not define, so it raises AttributeError; the first
   * item decides, and nothing changes.
   */
  function ProduceAsWritten(d: Data, items: seq<(string, real)>): (r: Partial<Data>)
    ensures r.state == d
    ensures r.error.Some? <==> items != []
  {
    if items == [] then Partial(d, None)
    else if Lower(items[0].0) !in d then Partial(d, Some(UnknownMetaboliteError))
    else Partial(d, Some(AttributeError))
  }

  /** The explicit membership test of `produce` only repeats `change_quantity`'s own. */
  lemma {:induction false} ProduceIsChangeAll(d: Data, items: seq<(string, real)>, from: nat)
    requires from <= |items|
    ensures Production(d, items, from) == ChangeAll(d, items, 1.0, from)
    decreases |items| - from
  {
    if from < |items| && Lower(items[from].0) in d {
      assert 1.0 * items[from].1 == items[from].1;
      match QuantityChange(d, items[from].0, items[from].1)
      case Raise(e) =>
      case Ok(d') => ProduceIsChangeAll(d', items, from + 1);
    }
  }

  /** Producing keeps every quantity within its range, whatever it raises. */
  lemma {:induction false} ChangeAllKeepsRange(d: Data, items: seq<(string, real)>, sign: real, from: nat)
    requires from <= |items|
    requires AllInRange(d)
    ensures AllInRange(ChangeAll(d, items, sign, from).state)
    decreases |items| - from
  {
    if from < |items| {
      match QuantityChange(d, items[from].0, sign * items[from].1)
      case Raise(e) =>
      case Ok(d') => ChangeAllKeepsRange(d', items, sign, from + 1);
    }
  }

  /** Every metabolite after `Metabolites.reset`. */
  function ResetAll(d: Data): (r: Data)
    ensures r.Keys == d.Keys
    ensures forall k :: k in d ==> r[k] == ResetMetabolite(d[k]).metabolite
    ensures (forall k :: k in d ==> d[k].minQuantity <= d[k].maxQuantity) ==> AllInRange(r)
  {
    map k | k in d :: ResetMetabolite(d[k]).metabolite
  }

  /** `get`, `[]` and `in` all look the key up lower-cased. */
  function Lookup(d: Data, key: string): (r: Option<Metabolite>)
    ensures r.Some? <==> Lower(key) in d
    ensures r.Some? ==> r.value == d[Lower(key)]
  {
    if Lower(key) in d then Some(d[Lower(key)]) else None
  }

  /** Keys that differ only in letter case reach the same entry. */
  lemma {:induction false} LookupCaseInsensitive(d: Data, key: string, v: Metabolite)
    ensures Lookup(d[Lower(key) := v], Lower(key)) == Some(v)
    ensures forall other :: Lower(other) == Lower(key) ==> Lookup(d, other) == Lookup(d, key)
  {
    LowerIdempotent(key);
  }

  /** The Metabolites manager. */
  class Metabolites {
    var data: Data

    constructor()
      ensures data == map[]
    {
      data := map[];
    }

    method Register(name: Option<string>, quantity: Option<real>, maxQuantity: Option<real>,
                    kwargs: seq<(string, (real, real))>) returns (r: Outcome)
      modifies this
      ensures var p := RegisterCall(old(data), name, quantity, maxQuantity, kwargs);
        data == p.state && r == (if p.error.Some? then Raised(p.error.value) else Done)
    {
      if name.Some? && name.value != "" && quantity.Some? && maxQuantity.Some? {
        var res := RegisterOne(data, name.value, quantity.value, maxQuantity.value);
        if res.Raise? {
          return Raised(res.error);
        }
        data := res.value;
        return Done;
      }
      if kwargs == [] {
        return Raised(ValueError);
      }
      var i := 0;
      while i < |kwargs|
        invariant 0 <= i <= |kwargs|
        invariant RegisterAll(data, kwargs, i) == RegisterAll(old(data), kwargs, 0)
      {
        var (n, (q, mx)) := kwargs[i];
        var res := RegisterOne(data, Lower(n), q, mx);
        if res.Raise? {
          return Raised(res.error);
        }
        data := res.value;
        i := i + 1;
      }
      return Done;
    }

    method ChangeQuantity(name: string, amount: real) returns (r: Outcome)
      modifies this
      ensures var c := QuantityChange(old(data), name, amount);
        (c.Ok? ==> data == c.value && r == Done) &&
        (c.Raise? ==> data == old(data) && r == Raised(c.error))
    {
      var c := QuantityChange(data, name, amount);
      if c.Raise? {
        return Raised(c.error);
      }
      data := c.value;
      return Done;
    }

    method IsAvailable(name: string, amount: real) returns (r: Result<bool>)
      ensures r.Raise? <==> Lower(name) !in data
      ensures r.Raise? ==> r.error == UnknownMetaboliteError
      ensures r.Ok? ==> (r.value <==> data[Lower(name)].quantity >= amount)
    {
      var key := Lower(name);
      if key !in data {
        return Raise(UnknownMetaboliteError);
      }
      return Ok(data[key].quantity >= amount);
    }

    /** All checks first, then every decrement in order. */
    method Consume(items: seq<(string, real)>) returns (r: Outcome)
      modifies this
      ensures var p := Consumption(old(data), items);
        data == p.state && r == (if p.error.Some? then Raised(p.error.value) else Done)
    {
      var i := 0;
      while i < |items|
        invariant 0 <= i <= |items|
        invariant ConsumeChecks(data, items, i) == ConsumeChecks(data, items, 0)
        invariant data == old(data)
      {
        var available := IsAvailable(items[i].0, items[i].1);
        if available.Raise? {
          return Raised(available.error);
        }
        if !available.value {
          return Raised(InsufficientMetaboliteError);
        }
        i := i + 1;
      }
      i := 0;
      while i < |items|
        invariant 0 <= i <= |items|
        invariant ChangeAll(data, items, -1.0, i) == Consumption(old(data), items)
      {
        var c := QuantityChange(data, items[i].0, -1.0 * items[i].1);
        if c.Raise? {
          return Raised(c.error);
        }
        data := c.value;
        i := i + 1;
      }
      return Done;
    }

    method Produce(items: seq<(string, real)>) returns (r: Outcome)
      modifies this
      ensures var p := Production(old(data), items, 0);
        data == p.state && r == (if p.error.Some? then Raised(p.error.value) else Done)
    {
      var i := 0;
      while i < |items|
        invariant 0 <= i <= |items|
        invariant Production(data, items, i) == Production(old(data), items, 0)
      {
        if Lower(items[i].0) !in data {
          return Raised(UnknownMetaboliteError);
        }
        var c := QuantityChange(data, items[i].0, items[i].1);
        if c.Raise? {
          return Raised(c.error);
        }
        data := c.value;
        i := i + 1;
      }
      return Done;
    }

    /** `validate_all` raises ValueError iff some quantity lies outside its range. */
    method ValidateAll() returns (r: Outcome)
      ensures r == Done <==> AllInRange(data)
      ensures r != Done ==> r == Raised(ValueError)
    {
      var keys := data.Keys;
      while keys != {}
        invariant keys <= data.Keys
        invariant forall k :: k in data && k !in keys ==> InRange(data[k])
        decreases keys
      {
        var k :| k in keys;
        if !InRange(data[k]) {
          return Raised(ValueError);
        }
        keys := keys - {k};
      }
      return Done;
    }

    /** `reset` resets every metabolite to its min_quantity. */
    method Reset()
      modifies this
      ensures data == ResetAll(old(data))
    {
      var keys := data.Keys;
      while keys != {}
        invariant keys <= data.Keys && data.Keys == old(data).Keys
        invariant forall k :: k in data ==>
          data[k] == if k in keys then old(data)[k] else ResetMetabolite(old(data)[k]).metabolite
        decreases keys
      {
        var k :| k in keys;
        data := data[k := ResetMetabolite(data[k]).metabolite];
        keys := keys - {k};
      }
    }

    /** `get(key)`: the entry under the lower-cased key, if any. */
    function Get(key: string): (r: Option<Metabolite>)
      reads this
      ensures r == Lookup(data, key)
    {
      if Lower(key) in data then Some(data[Lower(key)]) else None
    }

    /** `self[key]`: KeyError when the lower-cased key is absent. */
    function GetItem(key: string): (r: Result<Metabolite>)
      reads this
      ensures r.Raise? <==> Lookup(data, key).None?
      ensures r.Raise? ==> r.error == KeyError
      ensures r.Ok? ==> Lookup(data, key) == Some(r.value)
    {
      if Lower(key) in data then Ok(data[Lower(key)]) else Raise(KeyError)
    }

    function Contains(key: string): (r: bool)
      reads this
      ensures r <==> Lookup(data, key).Some?
    {
      Lower(key) in data
    }

    method SetItem(key: string, value: Metabolite)
      modifies this
      ensures data == old(data)[Lower(key) := value]
      ensures forall other :: Lower(other) == Lower(key) ==> Get(other) == Some(value)
    {
      data := data[Lower(key) := value];
    }

    method DelItem(key: string) returns (r: Outcome)
      modifies this
      ensures Lower(key) in old(data) ==> r == Done && data == old(data) - {Lower(key)}
      ensures Lower(key) !in old(data) ==> r == Raised(KeyError) && data == old(data)
      ensures !Contains(key)
    {
      if Lower(key) !in data {
        return Raised(KeyError);
      }
      data := data - {Lower(key)};
      return Done;
    }
  }
}
