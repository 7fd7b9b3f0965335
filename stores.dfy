/**
 * The metabolite store shared by the organelles: a map from metabolite name
 * to its quantity and capacity, the checked single change both Organelle
 * classes implement, and the validate-every-item-then-apply-every-item
 * consume and produce passes that several classes repeat verbatim.
 */
module Stores {
  import opened Common

  /** One metabolite held by an organelle. */
  datatype Entry = Entry(name: string, quantity: real, maxQuantity: real)

  type Store = map<string, Entry>

  /** Keyword arguments `name=amount`, in call order. */
  type Items = seq<(string, real)>

  /** Every quantity lies between zero and its capacity. */
  ghost predicate Bounded(s: Store)
  {
    forall k :: k in s ==> 0.0 <= s[k].quantity <= s[k].maxQuantity
  }

  /** Keyword arguments never repeat a name. */
  predicate DistinctNames(items: Items)
  {
    forall i, j :: 0 <= i < j < |items| ==> items[i].0 != items[j].0
  }

  predicate Mentions(items: Items, k: string)
  {
    exists i :: 0 <= i < |items| && items[i].0 == k
  }

  function QuantityOf(s: Store, k: string): (r: real)
    ensures k in s ==> r == s[k].quantity
    ensures k !in s ==> r == 0.0
  {
    if k in s then s[k].quantity else 0.0
  }

  function WithQuantity(s: Store, k: string, q: real): (r: Store)
    requires k in s
    ensures r.Keys == s.Keys
    ensures r[k] == s[k].(quantity := q)
    ensures forall j :: j in s && j != k ==> r[j] == s[j]
  {
    s[k := s[k].(quantity := q)]
  }

  /**
   * `is_metabolite_available`: the named metabolite is known and holds at
   * least `amount`; an unknown name raises `unknown`.
   */
  function Availability(s: Store, name: string, amount: real, unknown: Error): (r: Result<bool>)
    ensures name !in s <==> r == Raise(unknown)
    ensures name in s ==> (r == Ok(true) <==> s[name].quantity >= amount)
  {
    if name !in s then Raise(unknown) else Ok(s[name].quantity >= amount)
  }

  /**
   * `change_metabolite_quantity` of both Organelle classes: an unknown name
   * raises UnknownMetaboliteError, a result below zero or above capacity
   * raises QuantityError, and otherwise exactly `amount` is added.
   */
  function CheckedChange(s: Store, name: string, amount: real): (r: Result<Store>)
    ensures r.Ok? <==> name in s && 0.0 <= s[name].quantity + amount <= s[name].maxQuantity
    ensures name !in s ==> r == Raise(UnknownMetaboliteError)
    ensures name in s && r.Raise? ==> r.error == QuantityError
    ensures r.Ok? ==> r.value == WithQuantity(s, name, s[name].quantity + amount)
  {
    if name !in s then Raise(UnknownMetaboliteError)
    else
      var q := s[name].quantity + amount;
      if q < 0.0 then Raise(QuantityError)
      else if q > s[name].maxQuantity then Raise(QuantityError)
      else Ok(WithQuantity(s, name, q))
  }

  lemma CheckedChangeKeepsBounded(s: Store, name: string, amount: real)
    requires Bounded(s)
    ensures CheckedChange(s, name, amount).Ok? ==> Bounded(CheckedChange(s, name, amount).value)
  {
  }

  /**
   * Two change_metabolite_quantity calls moving `amount` from `source` to
   * `target`; a raise in the second leaves the first applied.
   */
  function Converted(s: Store, source: string, target: string, amount: real): Partial<Store>
  {
    match CheckedChange(s, source, -amount)
    case Raise(e) => Partial(s, Some(e))
    case Ok(t) =>
      match CheckedChange(t, target, amount)
      case Raise(e) => Partial(t, Some(e))
      case Ok(u) => Partial(u, None)
  }

  /** Why a validation pass rejects an item. */
  datatype Fault = Negative | Unknown | Insufficient | OverCapacity

  /** The consume validation of one item: sign, then existence, then supply. */
  function ConsumeItemFault(s: Store, item: (string, real)): (r: Option<Fault>)
    ensures r == None <==> item.1 >= 0.0 && item.0 in s && s[item.0].quantity >= item.1
  {
    if item.1 < 0.0 then Some(Negative)
    else if item.0 !in s then Some(Unknown)
    else if s[item.0].quantity < item.1 then Some(Insufficient)
    else None
  }

  /** The produce validation of one item: sign, then existence, then capacity. */
  function ProduceItemFault(s: Store, item: (string, real)): (r: Option<Fault>)
    ensures r == None <==> item.1 >= 0.0 && item.0 in s && s[item.0].quantity + item.1 <= s[item.0].maxQuantity
  {
    if item.1 < 0.0 then Some(Negative)
    else if item.0 !in s then Some(Unknown)
    else if s[item.0].quantity + item.1 > s[item.0].maxQuantity then Some(OverCapacity)
    else None
  }

  /** The first item, from index `from` on, that a validation pass rejects. */
  function FirstFault(s: Store, items: Items, produce: bool, from: nat): (r: Option<(string, Fault)>)
    requires from <= |items|
    decreases |items| - from
  {
    if from == |items| then None
    else
      var f := if produce then ProduceItemFault(s, items[from]) else ConsumeItemFault(s, items[from]);
      if f.Some? then Some((items[from].0, f.value)) else FirstFault(s, items, produce, from + 1)
  }

  lemma {:induction false} FirstFaultNone(s: Store, items: Items, produce: bool, from: nat)
    requires from <= |items|
    ensures FirstFault(s, items, produce, from) == None <==>
      forall i :: from <= i < |items| ==>
        (if produce then ProduceItemFault(s, items[i]) else ConsumeItemFault(s, items[i])) == None
    decreases |items| - from
  {
    if from < |items| {
      FirstFaultNone(s, items, produce, from + 1);
    }
  }

  /** Adds `sign * amount` to each item in turn, from index `from` on. */
  function AddAll(s: Store, items: Items, sign: real, from: nat): (r: Store)
    requires from <= |items|
    requires forall i :: from <= i < |items| ==> items[i].0 in s
    ensures r.Keys == s.Keys
    decreases |items| - from
  {
    if from == |items| then s
    else
      var k := items[from].0;
      AddAll(WithQuantity(s, k, s[k].quantity + sign * items[from].1), items, sign, from + 1)
  }

  /**
   * With distinct names, every named metabolite moves by exactly
   * `sign * amount`, capacities and names are kept, and unnamed metabolites
   * are untouched.
   */
  lemma {:induction false} AddAllEffect(s: Store, items: Items, sign: real, from: nat)
    requires from <= |items|
    requires forall i :: from <= i < |items| ==> items[i].0 in s
    requires DistinctNames(items)
    ensures forall i :: from <= i < |items| ==>
      AddAll(s, items, sign, from)[items[i].0] == s[items[i].0].(quantity := s[items[i].0].quantity + sign * items[i].1)
    ensures forall k :: k in s && (forall i :: from <= i < |items| ==> items[i].0 != k) ==>
      AddAll(s, items, sign, from)[k] == s[k]
    decreases |items| - from
  {
    if from < |items| {
      var k := items[from].0;
      var s' := WithQuantity(s, k, s[k].quantity + sign * items[from].1);
      AddAllEffect(s', items, sign, from + 1);
      assert forall i :: from < i < |items| ==> items[i].0 != k;
    }
  }

  /** Applying items never touches a metabolite none of them names. */
  lemma {:induction false} AddAllUntouched(s: Store, items: Items, sign: real, from: nat, k: string)
    requires from <= |items|
    requires forall i :: from <= i < |items| ==> items[i].0 in s
    requires k in s && forall i :: from <= i < |items| ==> items[i].0 != k
    ensures AddAll(s, items, sign, from)[k] == s[k]
    decreases |items| - from
  {
    if from < |items| {
      var j := items[from].0;
      AddAllUntouched(WithQuantity(s, j, s[j].quantity + sign * items[from].1), items, sign, from + 1, k);
    }
  }

  /** The outcome of a validate-then-apply pass. */
  datatype Checked = Applied(store: Store) | Rejected(name: string, fault: Fault)

  /**
   * Validate every item against the unchanged store; only if all pass, apply
   * every item. `produce` selects the capacity check and the sign.
   */
  function ValidateThenApply(s: Store, items: Items, produce: bool): (r: Checked)
  {
    var f := FirstFault(s, items, produce, 0);
    if f.Some? then Rejected(f.value.0, f.value.1)
    else
      FirstFaultNone(s, items, produce, 0);
      Applied(AddAll(s, items, if produce then 1.0 else -1.0, 0))
  }

  /**
   * The pass is all-or-nothing: it applies iff every item passes its check,
   * and then (names being distinct) each named quantity moves by exactly its
   * amount, nothing else changes, and the store stays within bounds.
   */
  lemma ValidateThenApplySpec(s: Store, items: Items, produce: bool)
    requires DistinctNames(items)
    ensures ValidateThenApply(s, items, produce).Applied? <==>
      forall i :: 0 <= i < |items| ==>
        (if produce then ProduceItemFault(s, items[i]) else ConsumeItemFault(s, items[i])) == None
    ensures ValidateThenApply(s, items, produce).Applied? ==>
      var r := ValidateThenApply(s, items, produce).store;
      r.Keys == s.Keys &&
      (forall i :: 0 <= i < |items| ==>
        r[items[i].0] == s[items[i].0].(quantity := s[items[i].0].quantity + (if produce then items[i].1 else -items[i].1))) &&
      (forall k :: k in s && !Mentions(items, k) ==> r[k] == s[k])
    ensures ValidateThenApply(s, items, produce).Applied? && Bounded(s) ==> Bounded(ValidateThenApply(s, items, produce).store)
  {
    FirstFaultNone(s, items, produce, 0);
    if FirstFault(s, items, produce, 0) == None {
      var sign := if produce then 1.0 else -1.0;
      AddAllEffect(s, items, sign, 0);
      var r := AddAll(s, items, sign, 0);
      if Bounded(s) {
        forall k | k in r
          ensures 0.0 <= r[k].quantity <= r[k].maxQuantity
        {
          if Mentions(items, k) {
            var i :| 0 <= i < |items| && items[i].0 == k;
            assert (if produce then ProduceItemFault(s, items[i]) else ConsumeItemFault(s, items[i])) == None;
          }
        }
      }
    }
  }

  /** Producing exactly what was just consumed restores the store. */
  lemma ConsumeThenProduceRestores(s: Store, items: Items)
    requires Bounded(s) && DistinctNames(items)
    requires ValidateThenApply(s, items, false).Applied?
    ensures ValidateThenApply(ValidateThenApply(s, items, false).store, items, true) == Applied(s)
  {
    ValidateThenApplySpec(s, items, false);
    var s' := ValidateThenApply(s, items, false).store;
    forall i | 0 <= i < |items|
      ensures ProduceItemFault(s', items[i]) == None
    {
      assert ConsumeItemFault(s, items[i]) == None;
    }
    ValidateThenApplySpec(s', items, true);
    var r := ValidateThenApply(s', items, true).store;
    forall k | k in s
      ensures r[k] == s[k]
    {
      if Mentions(items, k) {
        var i :| 0 <= i < |items| && items[i].0 == k;
        assert r[k] == s'[k].(quantity := s'[k].quantity + items[i].1);
      }
    }
    assert r == s;
  }

  /** The validation loop of consume/produce: the first item that fails its check. */
  method FindFault(s: Store, items: Items, produce: bool) returns (f: Option<(string, Fault)>)
    ensures f == FirstFault(s, items, produce, 0)
  {
    var i := 0;
    while i < |items|
      invariant 0 <= i <= |items|
      invariant FirstFault(s, items, produce, i) == FirstFault(s, items, produce, 0)
    {
      var g := if produce then ProduceItemFault(s, items[i]) else ConsumeItemFault(s, items[i]);
      if g.Some? {
        return Some((items[i].0, g.value));
      }
      i := i + 1;
    }
    return None;
  }

  /** The update loop of consume/produce: every item's amount, times `sign`, added in turn. */
  method ApplyEach(s: Store, items: Items, sign: real) returns (t: Store)
    requires forall i :: 0 <= i < |items| ==> items[i].0 in s
    ensures t == AddAll(s, items, sign, 0)
  {
    t := s;
    var i := 0;
    while i < |items|
      invariant 0 <= i <= |items|
      invariant t.Keys == s.Keys
      invariant AddAll(t, items, sign, i) == AddAll(s, items, sign, 0)
    {
      var k := items[i].0;
      t := WithQuantity(t, k, t[k].quantity + sign * items[i].1);
      i := i + 1;
    }
  }
}
