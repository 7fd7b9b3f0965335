/**
 * pyology/mitochondrion.py and cell_modeling/pyology/mitochondrion.py: the
 * electron transport chain over a metabolite map whose changes clamp at zero
 * instead of raising, a proton gradient, ATP synthase, replenishment of the
 * electron carriers and calcium buffering. The two copies share every method
 * body modelled here except transfer_cytoplasmic_nadh; they differ in the
 * Organelle they extend, which decides the initial store.
 */
module Mitochondria {
  import opened Common
  import opened Stores
  import PyologyOrganelle
  import AtomicOrganelle

  const ProtonsPerNadh: real := 4.0
  const ProtonsPerFadh2: real := 2.0
  const ProtonsPerAtp: real := 4.0
  const ShuttleEfficiency: real := 0.67

  /**
   * Capacity of an entry that a change creates for an absent name
   * (`Metabolite(name, 0)`). The Metabolite class used there comes from a
   * `data` module that is not part of this model, so its default capacity is
   * not known; 1000.0 is assumed, and no contract depends on the value.
   */
  const CreatedCapacity: real := 1000.0

  function Abs(x: real): (r: real)
    ensures r >= 0.0 && (r == x || r == -x)
  {
    if x < 0.0 then -x else x
  }

  /** Every quantity is at least zero. */
  ghost predicate NonNegative(s: Store)
  {
    forall k :: k in s ==> s[k].quantity >= 0.0
  }

  // ---------------------------------------------------------------------------
  // change / consume / produce

  /**
   * `change_metabolite_quantity`: an absent name is first created at 0, the
   * new quantity is max(q + amount, 0), and the change actually made is
   * returned. Nothing else in the store moves.
   */
  function Clamp(s: Store, name: string, amount: real): (r: (Store, real))
    ensures r.0.Keys == s.Keys + {name}
    ensures r.0[name].quantity == Max(QuantityOf(s, name) + amount, 0.0)
    ensures r.1 == r.0[name].quantity - QuantityOf(s, name)
    ensures name in s ==> r.0[name] == s[name].(quantity := r.0[name].quantity)
    ensures forall k :: k in s && k != name ==> r.0[k] == s[k]
  {
    var base := if name in s then s else s[name := Entry(name, 0.0, CreatedCapacity)];
    var q := base[name].quantity;
    var q' := Max(q + amount, 0.0);
    (WithQuantity(base, name, q'), q' - q)
  }

  /**
   * The clamped change never leaves a negative quantity and has no upper
   * cap: it makes exactly the requested change iff that keeps the quantity
   * non-negative, and otherwise empties the metabolite.
   */
  lemma ClampSpec(s: Store, name: string, amount: real)
    ensures Clamp(s, name, amount).0[name].quantity >= 0.0
    ensures Clamp(s, name, amount).1 == amount <==> QuantityOf(s, name) + amount >= 0.0
    ensures QuantityOf(s, name) + amount < 0.0 ==> Clamp(s, name, amount).0[name].quantity == 0.0
    ensures Clamp(s, name, amount).1 >= amount
  {
  }

  /** A decrease by `a` falls short iff less than `a` is held. */
  lemma ClampShortfall(s: Store, name: string, a: real)
    requires a >= 0.0 && QuantityOf(s, name) >= 0.0
    ensures Abs(Clamp(s, name, -a).1) < Abs(-a) <==> QuantityOf(s, name) < a
  {
  }

  /** How the consume pass undoes its recorded changes when an item falls short. */
  datatype Rollback =
    | Reapply  // as written: each recorded change is applied once more
    | Restore  // as intended: each recorded change, and the failing one, is reversed

  /** The rollback loop over the recorded (name, actual change) pairs, from index `from` on. */
  function RolledBack(s: Store, log: Items, from: nat, mode: Rollback): (r: Store)
    requires from <= |log|
    ensures r.Keys >= s.Keys
    decreases |log| - from
  {
    if from == |log| then s
    else
      var delta := if mode == Reapply then log[from].1 else -log[from].1;
      RolledBack(Clamp(s, log[from].0, delta).0, log, from + 1, mode)
  }

  /**
   * `consume_metabolites` from item `from` on, with `log` the changes made
   * so far: each item is decreased through the clamped change; the first
   * one whose change falls short triggers the rollback and returns False.
   */
  function Consumed(s: Store, items: Items, from: nat, log: Items, mode: Rollback): (r: (Store, bool))
    requires from <= |items|
    ensures r.0.Keys >= s.Keys
    decreases |items| - from
  {
    if from == |items| then (s, true)
    else
      var (name, amount) := items[from];
      var c := Clamp(s, name, -amount);
      if Abs(c.1) < Abs(amount) then
        (RolledBack(c.0, if mode == Reapply then log else log + [(name, c.1)], 0, mode), false)
      else Consumed(c.0, items, from + 1, log + [(name, c.1)], mode)
  }

  /** The whole consume call, with the intended rollback. */
  function Consume(s: Store, items: Items): (r: (Store, bool))
    ensures r.0.Keys >= s.Keys
  {
    Consumed(s, items, 0, [], Restore)
  }

  /** `produce_metabolites` from item `from` on: each item increased through the clamped change. */
  function Produced(s: Store, items: Items, from: nat): (r: Store)
    requires from <= |items|
    ensures r.Keys >= s.Keys
    decreases |items| - from
  {
    if from == |items| then s
    else Produced(Clamp(s, items[from].0, items[from].1).0, items, from + 1)
  }

  /**
   * With distinct names and non-negative amounts, the consume pass returns
   * True iff every amount is at most what is held (an absent name holding
   * 0), whichever rollback it uses.
   */
  lemma {:induction false} ConsumedSucceedsIff(s: Store, items: Items, from: nat, log: Items, mode: Rollback)
    requires from <= |items| && DistinctNames(items)
    requires forall i :: from <= i < |items| ==> items[i].1 >= 0.0 && QuantityOf(s, items[i].0) >= 0.0
    ensures Consumed(s, items, from, log, mode).1 <==>
      forall i :: from <= i < |items| ==> items[i].1 <= QuantityOf(s, items[i].0)
    decreases |items| - from
  {
    if from < |items| {
      var (name, amount) := items[from];
      var c := Clamp(s, name, -amount);
      ClampShortfall(s, name, amount);
      if !(Abs(c.1) < Abs(amount)) {
        forall i | from < i < |items|
          ensures QuantityOf(c.0, items[i].0) == QuantityOf(s, items[i].0)
        {
          assert items[i].0 != name;
        }
        ConsumedSucceedsIff(c.0, items, from + 1, log + [(name, c.1)], mode);
      }
    }
  }

  /** One met item of the consume pass: that item is lowered exactly and the later items see unchanged quantities. */
  lemma MetStep(s: Store, items: Items, from: nat, log: Items, mode: Rollback)
    requires from < |items| && DistinctNames(items)
    requires forall i :: from <= i < |items| ==> items[i].1 >= 0.0 && QuantityOf(s, items[i].0) >= 0.0
    requires Consumed(s, items, from, log, mode).1
    ensures var c := Clamp(s, items[from].0, -items[from].1);
      && c.0[items[from].0].quantity == QuantityOf(s, items[from].0) - items[from].1
      && Consumed(c.0, items, from + 1, log + [(items[from].0, c.1)], mode) == Consumed(s, items, from, log, mode)
      && forall i :: from < i < |items| ==> items[i].0 != items[from].0 && QuantityOf(c.0, items[i].0) == QuantityOf(s, items[i].0)
  {
    ClampShortfall(s, items[from].0, items[from].1);
  }

  /** A consume pass that returns True has lowered each named metabolite by exactly its amount. */
  lemma {:induction false} ConsumedExact(s: Store, items: Items, from: nat, log: Items, mode: Rollback)
    requires from <= |items| && DistinctNames(items)
    requires forall i :: from <= i < |items| ==> items[i].1 >= 0.0 && QuantityOf(s, items[i].0) >= 0.0
    requires Consumed(s, items, from, log, mode).1
    ensures var r := Consumed(s, items, from, log, mode).0;
      forall i :: from <= i < |items| ==>
        items[i].0 in r && r[items[i].0].quantity == QuantityOf(s, items[i].0) - items[i].1
    decreases |items| - from
  {
    if from < |items| {
      var c := Clamp(s, items[from].0, -items[from].1);
      var log' := log + [(items[from].0, c.1)];
      MetStep(s, items, from, log, mode);
      ConsumedExact(c.0, items, from + 1, log', mode);
      ConsumedUntouched(c.0, items, from + 1, log', mode);
    }
  }

  /** A consume pass that returns True leaves every metabolite it does not name as it was. */
  lemma {:induction false} ConsumedUntouched(s: Store, items: Items, from: nat, log: Items, mode: Rollback)
    requires from <= |items|
    requires Consumed(s, items, from, log, mode).1
    ensures var r := Consumed(s, items, from, log, mode).0;
      forall k :: k in s && (forall i :: from <= i < |items| ==> items[i].0 != k) ==> r[k] == s[k]
    decreases |items| - from
  {
    if from < |items| {
      var c := Clamp(s, items[from].0, -items[from].1);
      ConsumedUntouched(c.0, items, from + 1, log + [(items[from].0, c.1)], mode);
    }
  }

  /** The names recorded in `log` from index `from` on. */
  function Names(log: Items, from: nat): (r: set<string>)
    requires from <= |log|
    ensures forall i :: from <= i < |log| ==> log[i].0 in r
    decreases |log| - from
  {
    if from == |log| then {} else {log[from].0} + Names(log, from + 1)
  }

  lemma {:induction false} NamesAppend(log: Items, x: (string, real), from: nat)
    requires from <= |log|
    ensures Names(log + [x], from) == Names(log, from) + {x.0}
    decreases |log| - from
  {
    if from < |log| {
      assert (log + [x])[from] == log[from];
      NamesAppend(log, x, from + 1);
    } else {
      assert (log + [x])[from] == x;
    }
  }

  lemma NamesOfOne(a: (string, real))
    ensures Names([a], 0) == {a.0}
  {
    assert Names([a], 1) == {};
  }

  lemma NamesOfTwo(a: (string, real), b: (string, real))
    ensures Names([a, b], 0) == {a.0, b.0}
  {
    assert Names([a, b], 2) == {};
    assert Names([a, b], 1) == {b.0};
  }

  /**
   * The store `cur` is `orig` with the changes of `log`, from index `from`
   * on, applied: each recorded name occurs once, and a name of `orig` holds
   * its original entry shifted by its recorded change, or is untouched.
   */
  ghost predicate Applied(orig: Store, cur: Store, log: Items, from: nat)
    requires from <= |log|
  {
    (forall i :: from <= i < |log| ==> log[i].0 !in Names(log, i + 1)) &&
    (forall k :: k in orig && k !in Names(log, from) ==> k in cur && cur[k] == orig[k]) &&
    (forall i :: from <= i < |log| && log[i].0 in orig ==>
      log[i].0 in cur && cur[log[i].0] == orig[log[i].0].(quantity := orig[log[i].0].quantity + log[i].1))
  }

  /** Reversing the first recorded change of `log[from..]` leaves the rest of the log applied. */
  lemma RollbackStep(orig: Store, cur: Store, log: Items, from: nat)
    requires from < |log| && NonNegative(orig) && Applied(orig, cur, log, from)
    ensures Applied(orig, Clamp(cur, log[from].0, -log[from].1).0, log, from + 1)
  {
    var n := log[from].0;
    assert n !in Names(log, from + 1);
    assert n in orig ==> cur[n] == orig[n].(quantity := orig[n].quantity + log[from].1);
  }

  /** The intended rollback reverses every recorded change. */
  lemma {:induction false} RolledBackRestores(orig: Store, cur: Store, log: Items, from: nat)
    requires from <= |log| && NonNegative(orig) && Applied(orig, cur, log, from)
    ensures var r := RolledBack(cur, log, from, Restore);
      forall k :: k in orig ==> k in r && r[k] == orig[k]
    decreases |log| - from
  {
    if from < |log| {
      RollbackStep(orig, cur, log, from);
      RolledBackRestores(orig, Clamp(cur, log[from].0, -log[from].1).0, log, from + 1);
    }
  }

  /** Recording a name not yet logged keeps every recorded name unique. */
  lemma LogStepDistinct(log: Items, x: (string, real))
    requires x.0 !in Names(log, 0)
    requires forall i :: 0 <= i < |log| ==> log[i].0 !in Names(log, i + 1)
    ensures var log' := log + [x];
      forall i :: 0 <= i < |log'| ==> log'[i].0 !in Names(log', i + 1)
  {
    var log' := log + [x];
    forall i | 0 <= i < |log'|
      ensures log'[i].0 !in Names(log', i + 1)
    {
      NamesAppend(log, x, i);
      if i < |log| {
        assert log'[i] == log[i];
        NamesAppend(log, x, i + 1);
      } else {
        assert Names(log', i + 1) == {};
      }
    }
  }

  /** A decrease of a name not yet logged, recorded at the end of the log, keeps the log applied. */
  lemma LogStep(orig: Store, cur: Store, log: Items, name: string, amount: real)
    requires Applied(orig, cur, log, 0) && name !in Names(log, 0)
    ensures Applied(orig, Clamp(cur, name, -amount).0, log + [(name, Clamp(cur, name, -amount).1)], 0)
  {
    var c := Clamp(cur, name, -amount);
    var log' := log + [(name, c.1)];
    LogStepDistinct(log, (name, c.1));
    NamesAppend(log, (name, c.1), 0);
    forall i | 0 <= i < |log'| && log'[i].0 in orig
      ensures log'[i].0 in c.0 && c.0[log'[i].0] == orig[log'[i].0].(quantity := orig[log'[i].0].quantity + log'[i].1)
    {
      if i < |log| {
        assert log'[i] == log[i];
      } else {
        assert log'[i] == (name, c.1);
      }
    }
  }

  /** The consume step at item `from` when that item falls short: the intended rollback restores `orig`. */
  lemma ShortfallRestores(orig: Store, cur: Store, items: Items, from: nat, log: Items)
    requires from < |items| && NonNegative(orig)
    requires items[from].0 !in Names(log, 0) && Applied(orig, cur, log, 0)
    requires Abs(Clamp(cur, items[from].0, -items[from].1).1) < Abs(items[from].1)
    ensures var r := Consumed(cur, items, from, log, Restore);
      forall k :: k in orig ==> k in r.0 && r.0[k] == orig[k]
  {
    var c := Clamp(cur, items[from].0, -items[from].1);
    LogStep(orig, cur, log, items[from].0, items[from].1);
    RolledBackRestores(orig, c.0, log + [(items[from].0, c.1)], 0);
  }

  /** The consume step at item `from` when that item is met: the rest of the pass starts from a log still applied. */
  lemma MetStepApplied(orig: Store, cur: Store, items: Items, from: nat, log: Items)
    requires from < |items| && DistinctNames(items)
    requires forall i :: from <= i < |items| ==> items[i].0 !in Names(log, 0)
    requires Applied(orig, cur, log, 0)
    ensures var c := Clamp(cur, items[from].0, -items[from].1);
      var log' := log + [(items[from].0, c.1)];
      Applied(orig, c.0, log', 0) && forall i :: from + 1 <= i < |items| ==> items[i].0 !in Names(log', 0)
  {
    var c := Clamp(cur, items[from].0, -items[from].1);
    LogStep(orig, cur, log, items[from].0, items[from].1);
    NamesAppend(log, (items[from].0, c.1), 0);
    assert forall i :: from < i < |items| ==> items[i].0 != items[from].0;
  }

  /**
   * With the intended rollback, a consume pass that returns False leaves
   * every metabolite that was in the store as it was.
   */
  lemma {:induction false} ConsumedRestores(orig: Store, cur: Store, items: Items, from: nat, log: Items)
    requires from <= |items| && DistinctNames(items) && NonNegative(orig)
    requires forall i :: from <= i < |items| ==> items[i].0 !in Names(log, 0)
    requires Applied(orig, cur, log, 0)
    ensures var r := Consumed(cur, items, from, log, Restore);
      !r.1 ==> forall k :: k in orig ==> k in r.0 && r.0[k] == orig[k]
    decreases |items| - from
  {
    if from < |items| {
      var c := Clamp(cur, items[from].0, -items[from].1);
      if Abs(c.1) < Abs(items[from].1) {
        ShortfallRestores(orig, cur, items, from, log);
      } else {
        MetStepApplied(orig, cur, items, from, log);
        ConsumedRestores(orig, c.0, items, from + 1, log + [(items[from].0, c.1)]);
      }
    }
  }

  /** `consume_metabolites` as intended: a False return leaves the store's metabolites as they were. */
  lemma ConsumeFailureRestores(s: Store, items: Items)
    requires DistinctNames(items) && NonNegative(s)
    ensures !Consume(s, items).1 ==> forall k :: k in s ==> k in Consume(s, items).0 && Consume(s, items).0[k] == s[k]
  {
    ConsumedRestores(s, s, items, 0, []);
  }

  /** The clamped change on a name already held, spelled out as a map update. */
  lemma ClampHeld(s: Store, name: string, amount: real)
    requires name in s
    ensures Clamp(s, name, amount).0 == s[name := s[name].(quantity := Max(s[name].quantity + amount, 0.0))]
    ensures Clamp(s, name, amount).1 == Max(s[name].quantity + amount, 0.0) - s[name].quantity
  {
  }

  /** The store and items of the rollback examples. */
  const ExampleStore: Store := map["nadh" := Entry("nadh", 20.0, 1000.0), "ubiquinone" := Entry("ubiquinone", 30.0, 1000.0)]
  const ExampleItems: Items := [("nadh", 10.0), ("ubiquinone", 50.0)]

  /** Both rollbacks start the same way: 10 of the 20 NADH are taken, then only 30 of the 50 ubiquinone are there. */
  lemma ExampleFirstItem(mode: Rollback)
    ensures Consumed(ExampleStore, ExampleItems, 0, [], mode) ==
      Consumed(ExampleStore["nadh" := Entry("nadh", 10.0, 1000.0)], ExampleItems, 1, [("nadh", -10.0)], mode)
    ensures var s1 := ExampleStore["nadh" := Entry("nadh", 10.0, 1000.0)];
      Clamp(s1, "ubiquinone", -50.0) == (s1["ubiquinone" := Entry("ubiquinone", 0.0, 1000.0)], -30.0)
  {
    var s := ExampleStore;
    var s1 := s["nadh" := Entry("nadh", 10.0, 1000.0)];
    ClampHeld(s, "nadh", -10.0);
    assert Clamp(s, "nadh", -10.0) == (s1, -10.0);
    assert [] + [("nadh", -10.0)] == [("nadh", -10.0)];
    ClampHeld(s1, "ubiquinone", -50.0);
  }

  /**
   * As written, the rollback applies each recorded decrease a second time
   * and leaves the failing item emptied: with 20 NADH and 30 ubiquinone,
   * consuming 10 NADH and 50 ubiquinone leaves both at 0.
   */
  lemma RollbackAsWrittenExample()
    ensures Consumed(ExampleStore, ExampleItems, 0, [], Reapply) ==
      (map["nadh" := Entry("nadh", 0.0, 1000.0), "ubiquinone" := Entry("ubiquinone", 0.0, 1000.0)], false)
  {
    var s1 := ExampleStore["nadh" := Entry("nadh", 10.0, 1000.0)];
    var s2 := s1["ubiquinone" := Entry("ubiquinone", 0.0, 1000.0)];
    var log1 := [("nadh", -10.0)];
    ExampleFirstItem(Reapply);
    ClampHeld(s2, "nadh", -10.0);
    assert RolledBack(s2, log1, 0, Reapply) == RolledBack(s2["nadh" := Entry("nadh", 0.0, 1000.0)], log1, 1, Reapply);
    assert s2["nadh" := Entry("nadh", 0.0, 1000.0)] ==
      map["nadh" := Entry("nadh", 0.0, 1000.0), "ubiquinone" := Entry("ubiquinone", 0.0, 1000.0)];
  }

  /** The intended rollback reverses both recorded changes and returns the example store unchanged. */
  lemma RollbackIntendedExample()
    ensures Consume(ExampleStore, ExampleItems) == (ExampleStore, false)
  {
    var s1 := ExampleStore["nadh" := Entry("nadh", 10.0, 1000.0)];
    var s2 := s1["ubiquinone" := Entry("ubiquinone", 0.0, 1000.0)];
    var log2 := [("nadh", -10.0)] + [("ubiquinone", -30.0)];
    var s3 := s2["nadh" := Entry("nadh", 20.0, 1000.0)];
    ExampleFirstItem(Restore);
    ClampHeld(s2, "nadh", 10.0);
    assert RolledBack(s2, log2, 0, Restore) == RolledBack(s3, log2, 1, Restore);
    ClampHeld(s3, "ubiquinone", 30.0);
    assert RolledBack(s3, log2, 1, Restore) == RolledBack(s3["ubiquinone" := Entry("ubiquinone", 30.0, 1000.0)], log2, 2, Restore);
    assert s3["ubiquinone" := Entry("ubiquinone", 30.0, 1000.0)] == ExampleStore;
  }

  /**
   * With 30 NADH, consuming 50 returns False; as written the NADH is left at
   * 0, while the behaviour the test suite expects keeps it at 30.
   */
  lemma InsufficientConsumeExample()
    ensures var s := map["nadh" := Entry("nadh", 30.0, 1000.0)];
      && Consumed(s, [("nadh", 50.0)], 0, [], Reapply) == (map["nadh" := Entry("nadh", 0.0, 1000.0)], false)
      && Consume(s, [("nadh", 50.0)]) == (s, false)
  {
    var s := map["nadh" := Entry("nadh", 30.0, 1000.0)];
    var s1 := s["nadh" := Entry("nadh", 0.0, 1000.0)];
    ClampHeld(s, "nadh", -50.0);
    assert Clamp(s, "nadh", -50.0) == (s1, -30.0);
    assert s1 == map["nadh" := Entry("nadh", 0.0, 1000.0)];
    var log := [] + [("nadh", -30.0)];
    ClampHeld(s1, "nadh", 30.0);
    assert RolledBack(s1, log, 0, Restore) == RolledBack(s1["nadh" := Entry("nadh", 30.0, 1000.0)], log, 1, Restore);
    assert s1["nadh" := Entry("nadh", 30.0, 1000.0)] == s;
  }

  /**
   * `produce_metabolites` with distinct names: each named metabolite gains
   * exactly its (non-negative) amount, creating it if absent.
   */
  lemma {:induction false} ProducedExact(s: Store, items: Items, from: nat)
    requires from <= |items| && DistinctNames(items)
    requires forall i :: from <= i < |items| ==> items[i].1 >= 0.0 && QuantityOf(s, items[i].0) >= 0.0
    ensures var r := Produced(s, items, from);
      forall i :: from <= i < |items| ==>
        items[i].0 in r && r[items[i].0].quantity == QuantityOf(s, items[i].0) + items[i].1
    decreases |items| - from
  {
    if from < |items| {
      var c := Clamp(s, items[from].0, items[from].1).0;
      assert forall i :: from < i < |items| ==> items[i].0 != items[from].0 && QuantityOf(c, items[i].0) == QuantityOf(s, items[i].0);
      ProducedExact(c, items, from + 1);
      ProducedUntouched(c, items, from + 1);
    }
  }

  /** `produce_metabolites` leaves every metabolite it does not name as it was. */
  lemma {:induction false} ProducedUntouched(s: Store, items: Items, from: nat)
    requires from <= |items|
    ensures var r := Produced(s, items, from);
      forall k :: k in s && (forall i :: from <= i < |items| ==> items[i].0 != k) ==> r[k] == s[k]
    decreases |items| - from
  {
    if from < |items| {
      ProducedUntouched(Clamp(s, items[from].0, items[from].1).0, items, from + 1);
    }
  }

  // ---------------------------------------------------------------------------
  // non-negativity

  /** Every clamped change keeps all quantities non-negative. */
  lemma ClampKeepsNonNegative(s: Store, name: string, amount: real)
    requires NonNegative(s)
    ensures NonNegative(Clamp(s, name, amount).0)
  {
  }

  lemma {:induction false} RolledBackKeepsNonNegative(s: Store, log: Items, from: nat, mode: Rollback)
    requires from <= |log| && NonNegative(s)
    ensures NonNegative(RolledBack(s, log, from, mode))
    decreases |log| - from
  {
    if from < |log| {
      var delta := if mode == Reapply then log[from].1 else -log[from].1;
      ClampKeepsNonNegative(s, log[from].0, delta);
      RolledBackKeepsNonNegative(Clamp(s, log[from].0, delta).0, log, from + 1, mode);
    }
  }

  /** Whatever it returns, the consume pass never leaves a quantity negative. */
  lemma {:induction false} ConsumedKeepsNonNegative(s: Store, items: Items, from: nat, log: Items, mode: Rollback)
    requires from <= |items| && NonNegative(s)
    ensures NonNegative(Consumed(s, items, from, log, mode).0)
    decreases |items| - from
  {
    if from < |items| {
      var c := Clamp(s, items[from].0, -items[from].1);
      ClampKeepsNonNegative(s, items[from].0, -items[from].1);
      if Abs(c.1) < Abs(items[from].1) {
        RolledBackKeepsNonNegative(c.0, if mode == Reapply then log else log + [(items[from].0, c.1)], 0, mode);
      } else {
        ConsumedKeepsNonNegative(c.0, items, from + 1, log + [(items[from].0, c.1)], mode);
      }
    }
  }

  lemma {:induction false} ProducedKeepsNonNegative(s: Store, items: Items, from: nat)
    requires from <= |items| && NonNegative(s)
    ensures NonNegative(Produced(s, items, from))
    decreases |items| - from
  {
    if from < |items| {
      ClampKeepsNonNegative(s, items[from].0, items[from].1);
      ProducedKeepsNonNegative(Clamp(s, items[from].0, items[from].1).0, items, from + 1);
    }
  }

  // ---------------------------------------------------------------------------
  // capacities

  /** Every entry of `s` is still in `s'`, with the same capacity. */
  ghost predicate SameCapacities(s: Store, s': Store)
  {
    forall k :: k in s ==> k in s' && s'[k].maxQuantity == s[k].maxQuantity
  }


  lemma SameCapacitiesTrans(s: Store, s': Store, s'': Store)
    requires SameCapacities(s, s') && SameCapacities(s', s'')
    ensures SameCapacities(s, s'')
  {
  }

  lemma {:induction false} RolledBackKeepsCapacities(s: Store, log: Items, from: nat, mode: Rollback)
    requires from <= |log|
    ensures SameCapacities(s, RolledBack(s, log, from, mode))
    decreases |log| - from
  {
    if from < |log| {
      var delta := if mode == Reapply then log[from].1 else -log[from].1;
      var c := Clamp(s, log[from].0, delta).0;
      RolledBackKeepsCapacities(c, log, from + 1, mode);
      SameCapacitiesTrans(s, c, RolledBack(c, log, from + 1, mode));
    }
  }

  /** The clamped changes the consume pass makes, and its rollback, never alter a capacity. */
  lemma {:induction false} ConsumedKeepsCapacities(s: Store, items: Items, from: nat, log: Items, mode: Rollback)
    requires from <= |items|
    ensures SameCapacities(s, Consumed(s, items, from, log, mode).0)
    decreases |items| - from
  {
    if from < |items| {
      var c := Clamp(s, items[from].0, -items[from].1);
      var log' := log + [(items[from].0, c.1)];
      if Abs(c.1) < Abs(items[from].1) {
        var l := if mode == Reapply then log else log';
        RolledBackKeepsCapacities(c.0, l, 0, mode);
        SameCapacitiesTrans(s, c.0, RolledBack(c.0, l, 0, mode));
      } else {
        ConsumedKeepsCapacities(c.0, items, from + 1, log', mode);
        SameCapacitiesTrans(s, c.0, Consumed(c.0, items, from + 1, log', mode).0);
      }
    }
  }

  lemma {:induction false} ProducedKeepsCapacities(s: Store, items: Items, from: nat)
    requires from <= |items|
    ensures SameCapacities(s, Produced(s, items, from))
    decreases |items| - from
  {
    if from < |items| {
      var c := Clamp(s, items[from].0, items[from].1).0;
      ProducedKeepsCapacities(c, items, from + 1);
      SameCapacitiesTrans(s, c, Produced(c, items, from + 1));
    }
  }

  /** No exchange alters a capacity. */
  lemma ExchangesKeepCapacities(s: Store)
    ensures forall consume, produce :: SameCapacities(s, Exchange(s, consume, produce).0)
  {
    forall consume, produce
      ensures SameCapacities(s, Exchange(s, consume, produce).0)
    {
      var c := Consume(s, consume);
      ConsumedKeepsCapacities(s, consume, 0, [], Restore);
      if c.1 {
        ProducedKeepsCapacities(c.0, produce, 0);
        SameCapacitiesTrans(s, c.0, Produced(c.0, produce, 0));
      }
    }
  }

  // ---------------------------------------------------------------------------
  // the consume-then-produce exchange every complex performs

  /** A complex's `consume_metabolites` call and, when it returns True, its `produce_metabolites` call. */
  function Exchange(s: Store, consume: Items, produce: Items): (r: (Store, bool))
    ensures r.0.Keys >= s.Keys
  {
    var c := Consume(s, consume);
    if c.1 then (Produced(c.0, produce, 0), true) else c
  }

  /** Every item is named in `s`. */
  ghost predicate NamedIn(items: Items, s: Store)
  {
    forall i :: 0 <= i < |items| ==> items[i].0 in s
  }

  /**
   * When every consumed amount is at most what is held, the exchange
   * succeeds, moves every named quantity by exactly its amount, leaves the
   * rest of the store alone and keeps it non-negative.
   */
  lemma Exchanged(s: Store, consume: Items, produce: Items)
    requires NonNegative(s) && NamedIn(consume, s) && NamedIn(produce, s)
    requires DistinctNames(consume) && DistinctNames(produce)
    requires forall i, j :: 0 <= i < |consume| && 0 <= j < |produce| ==> consume[i].0 != produce[j].0
    requires forall i :: 0 <= i < |consume| ==> 0.0 <= consume[i].1 <= s[consume[i].0].quantity
    requires forall j :: 0 <= j < |produce| ==> produce[j].1 >= 0.0
    ensures var r := Exchange(s, consume, produce);
      && r.1 && NonNegative(r.0)
      && (forall i :: 0 <= i < |consume| ==> r.0[consume[i].0].quantity == s[consume[i].0].quantity - consume[i].1)
      && (forall j :: 0 <= j < |produce| ==> r.0[produce[j].0].quantity == s[produce[j].0].quantity + produce[j].1)
      && (forall k :: k in s && k !in Names(consume, 0) && k !in Names(produce, 0) ==> r.0[k] == s[k])
  {
    ConsumedSucceedsIff(s, consume, 0, [], Restore);
    ConsumedExact(s, consume, 0, [], Restore);
    ConsumedUntouched(s, consume, 0, [], Restore);
    ConsumedKeepsNonNegative(s, consume, 0, [], Restore);
    var c := Consume(s, consume).0;
    assert forall j :: 0 <= j < |produce| ==> QuantityOf(c, produce[j].0) == s[produce[j].0].quantity;
    ProducedExact(c, produce, 0);
    ProducedUntouched(c, produce, 0);
    ProducedKeepsNonNegative(c, produce, 0);
    var r := Produced(c, produce, 0);
    assert Exchange(s, consume, produce) == (r, true);
    forall i | 0 <= i < |consume|
      ensures r[consume[i].0].quantity == s[consume[i].0].quantity - consume[i].1
    {
      assert forall j :: 0 <= j < |produce| ==> produce[j].0 != consume[i].0;
    }
  }

  /** The exchange of two consumed metabolites for one produced one, quantity by quantity. */
  lemma TwoForOne(s: Store, a: string, x: real, b: string, y: real, c: string, z: real)
    requires NonNegative(s) && a in s && b in s && c in s && a != b && a != c && b != c
    requires 0.0 <= x <= s[a].quantity && 0.0 <= y <= s[b].quantity && z >= 0.0
    ensures var r := Exchange(s, [(a, x), (b, y)], [(c, z)]);
      && r.1 && NonNegative(r.0)
      && r.0[a].quantity == s[a].quantity - x
      && r.0[b].quantity == s[b].quantity - y
      && r.0[c].quantity == s[c].quantity + z
      && forall k :: k in s && k != a && k != b && k != c ==> r.0[k] == s[k]
  {
    var consume := [(a, x), (b, y)];
    var produce := [(c, z)];
    Exchanged(s, consume, produce);
    NamesOfTwo(consume[0], consume[1]);
    NamesOfOne(produce[0]);
  }

  /** The exchange of two for one goes through. */
  lemma TwoForOneRuns(s: Store, a: string, x: real, b: string, y: real, c: string, z: real)
    requires NonNegative(s) && a in s && b in s && c in s && a != b && a != c && b != c
    requires 0.0 <= x <= s[a].quantity && 0.0 <= y <= s[b].quantity && z >= 0.0
    ensures Exchange(s, [(a, x), (b, y)], [(c, z)]).1
  {
    TwoForOne(s, a, x, b, y, c, z);
  }

  /** The exchange of two consumed metabolites for two produced ones, quantity by quantity. */
  lemma TwoForTwo(s: Store, a: string, x: real, b: string, y: real, c: string, z: real, d: string, w: real)
    requires NonNegative(s) && a in s && b in s && c in s && d in s
    requires a != b && a != c && a != d && b != c && b != d && c != d
    requires 0.0 <= x <= s[a].quantity && 0.0 <= y <= s[b].quantity && z >= 0.0 && w >= 0.0
    ensures var r := Exchange(s, [(a, x), (b, y)], [(c, z), (d, w)]);
      && r.1 && NonNegative(r.0)
      && r.0[a].quantity == s[a].quantity - x
      && r.0[b].quantity == s[b].quantity - y
      && r.0[c].quantity == s[c].quantity + z
      && r.0[d].quantity == s[d].quantity + w
      && forall k :: k in s && k != a && k != b && k != c && k != d ==> r.0[k] == s[k]
  {
    var consume := [(a, x), (b, y)];
    var produce := [(c, z), (d, w)];
    Exchanged(s, consume, produce);
    NamesOfTwo(consume[0], consume[1]);
    NamesOfTwo(produce[0], produce[1]);
  }

  /** The exchange of two for two goes through. */
  lemma TwoForTwoRuns(s: Store, a: string, x: real, b: string, y: real, c: string, z: real, d: string, w: real)
    requires NonNegative(s) && a in s && b in s && c in s && d in s
    requires a != b && a != c && a != d && b != c && b != d && c != d
    requires 0.0 <= x <= s[a].quantity && 0.0 <= y <= s[b].quantity && z >= 0.0 && w >= 0.0
    ensures Exchange(s, [(a, x), (b, y)], [(c, z), (d, w)]).1
  {
    TwoForTwo(s, a, x, b, y, c, z, d, w);
  }

  /** The exchange of one consumed metabolite for one produced one. */
  lemma OneForOne(s: Store, a: string, x: real, c: string, z: real)
    requires NonNegative(s) && a in s && c in s && a != c
    requires 0.0 <= x <= s[a].quantity && z >= 0.0
    ensures var r := Exchange(s, [(a, x)], [(c, z)]);
      && r.1 && NonNegative(r.0)
      && r.0[a].quantity == s[a].quantity - x
      && r.0[c].quantity == s[c].quantity + z
      && forall k :: k in s && k != a && k != c ==> r.0[k] == s[k]
  {
    var consume := [(a, x)];
    var produce := [(c, z)];
    Exchanged(s, consume, produce);
    NamesOfOne(consume[0]);
    NamesOfOne(produce[0]);
  }

  // ---------------------------------------------------------------------------
  // availability

  /**
   * `is_metabolite_available` as written: it asks whether the object has an
   * attribute of that name, and then reads that attribute's `quantity`. The
   * metabolites live in the `metabolites` dict, not in attributes, so a
   * metabolite name is never found; a name that is an attribute holds no
   * `quantity` (a number, the dict, a method) and the read raises.
   */
  function AvailableAsWritten(attributes: set<string>, name: string, amount: real): (r: Result<bool>)
    ensures name !in attributes ==> r == Ok(false)
    ensures name in attributes ==> r == Raise(AttributeError)
  {
    if name in attributes then Raise(AttributeError) else Ok(false)
  }

  /** The attributes the constructor gives a Mitochondrion (with those of its base Organelle). */
  const InstanceAttributes: set<string> := {
    "metabolites", "glycolysis_rate", "name", "proton_gradient", "atp_per_nadh", "atp_per_fadh2",
    "atp_per_substrate_phosphorylation", "oxygen_per_nadh", "oxygen_per_fadh2", "calcium_threshold",
    "calcium_boost_factor", "max_proton_gradient", "leak_rate", "leak_steepness", "leak_midpoint", "krebs_cycle"}

  /** The metabolites the electron transport chain reads. */
  const ChainNames: set<string> := {
    "nadh", "fadh2", "atp", "adp", "oxygen", "ubiquinone", "ubiquinol",
    "cytochrome_c_oxidized", "cytochrome_c_reduced", "co2", "calcium", "oxaloacetate"}

  /** `is_metabolite_available` as intended: a look-up in the metabolites dict. */
  function Available(s: Store, name: string, amount: real): (r: bool)
    ensures r <==> name in s && s[name].quantity >= amount
  {
    name in s && s[name].quantity >= amount
  }

  /**
   * As written, no metabolite of the chain is ever available, however much
   * of it is held, so every complex takes its return-0 branch; the intended
   * look-up finds them.
   */
  lemma AvailabilityAsWrittenNeverHolds(s: Store, name: string, amount: real)
    requires name in ChainNames
    ensures AvailableAsWritten(InstanceAttributes, name, amount) == Ok(false)
    ensures name in s && s[name].quantity >= amount ==> Available(s, name, amount)
  {
  }

  // ---------------------------------------------------------------------------
  // the proton gradient and the complexes

  datatype Mito = Mito(metabolites: Store, protonGradient: real)

  /**
   * `update_proton_gradient`: the pumped protons are added first, then the
   * leak — a function of the gradient reached at that point, whose logistic
   * formula is left to the caller — is taken off, never below zero.
   */
  function UpdatedGradient(g: real, pumped: real, leak: real -> real): (r: real)
    ensures r >= 0.0 && r >= g + pumped - leak(g + pumped)
    ensures r == g + pumped - leak(g + pumped) || r == 0.0
  {
    Max(0.0, g + pumped - leak(g + pumped))
  }

  /** `complex_I`: when NADH and ubiquinone are both available it runs at min(NADH, ubiquinone). */
  function ComplexI(m: Mito, leak: real -> real): (r: (Mito, real))
    ensures r.0.metabolites.Keys >= m.metabolites.Keys
  {
    var s := m.metabolites;
    if Available(s, "nadh", 1.0) && Available(s, "ubiquinone", 1.0) then
      ComplexIAt(m, Min(s["nadh"].quantity, s["ubiquinone"].quantity), leak)
    else (m, 0.0)
  }

  /** Complex I at a fixed rate: NADH and ubiquinone to ubiquinol, pumping PROTONS_PER_NADH protons per NADH. */
  function ComplexIAt(m: Mito, rate: real, leak: real -> real): (r: (Mito, real))
    ensures r.0.metabolites.Keys >= m.metabolites.Keys
  {
    var e := Exchange(m.metabolites, [("nadh", rate), ("ubiquinone", rate)], [("ubiquinol", rate)]);
    if e.1 then (Mito(e.0, UpdatedGradient(m.protonGradient, ProtonsPerNadh * rate, leak)), rate) else (Mito(e.0, m.protonGradient), 0.0)
  }

  /** `complex_II`: when FADH2 and ubiquinone are both available it runs at min(FADH2, ubiquinone). */
  function ComplexII(m: Mito): (r: (Mito, real))
    ensures r.0.metabolites.Keys >= m.metabolites.Keys
  {
    var s := m.metabolites;
    if Available(s, "fadh2", 1.0) && Available(s, "ubiquinone", 1.0) then
      ComplexIIAt(m, Min(s["fadh2"].quantity, s["ubiquinone"].quantity))
    else (m, 0.0)
  }

  /** Complex II at a fixed rate: FADH2 and ubiquinone to ubiquinol; it pumps nothing. */
  function ComplexIIAt(m: Mito, rate: real): (r: (Mito, real))
    ensures r.0.metabolites.Keys >= m.metabolites.Keys
  {
    var e := Exchange(m.metabolites, [("fadh2", rate), ("ubiquinone", rate)], [("ubiquinol", rate)]);
    if e.1 then (Mito(e.0, m.protonGradient), rate) else (Mito(e.0, m.protonGradient), 0.0)
  }

  /** `complex_III`: when ubiquinol and oxidised cytochrome c are both available it runs at min(ubiquinol, oxidised cytochrome c). */
  function ComplexIII(m: Mito, leak: real -> real): (r: (Mito, real))
    ensures r.0.metabolites.Keys >= m.metabolites.Keys
  {
    var s := m.metabolites;
    if Available(s, "ubiquinol", 1.0) && Available(s, "cytochrome_c_oxidized", 1.0) then
      ComplexIIIAt(m, Min(s["ubiquinol"].quantity, s["cytochrome_c_oxidized"].quantity), leak)
    else (m, 0.0)
  }

  /** Complex III at a fixed rate: ubiquinol and oxidised cytochrome c to ubiquinone and reduced cytochrome c, pumping PROTONS_PER_FADH2 protons per pair. */
  function ComplexIIIAt(m: Mito, rate: real, leak: real -> real): (r: (Mito, real))
    ensures r.0.metabolites.Keys >= m.metabolites.Keys
  {
    var e := Exchange(m.metabolites, [("ubiquinol", rate), ("cytochrome_c_oxidized", rate)], [("ubiquinone", rate), ("cytochrome_c_reduced", rate)]);
    if e.1 then (Mito(e.0, UpdatedGradient(m.protonGradient, ProtonsPerFadh2 * rate, leak)), rate) else (Mito(e.0, m.protonGradient), 0.0)
  }

  /** `complex_IV`: when reduced cytochrome c (at least 1) and oxygen (at least 0.5) are available it runs at min(reduced cytochrome c, 2·oxygen), two cytochromes per O2. Its failure branch reads the oxygen entry, which must therefore be present. */
  function ComplexIV(m: Mito, leak: real -> real): (r: (Mito, real))
    requires "oxygen" in m.metabolites
    ensures r.0.metabolites.Keys >= m.metabolites.Keys
  {
    var s := m.metabolites;
    if Available(s, "cytochrome_c_reduced", 1.0) && Available(s, "oxygen", 0.5) then
      ComplexIVAt(m, Min(s["cytochrome_c_reduced"].quantity, s["oxygen"].quantity * 2.0), leak)
    else (m, 0.0)
  }

  /** Complex IV at a fixed rate: `rate` reduced cytochrome c and rate/2 oxygen to oxidised cytochrome c, pumping PROTONS_PER_FADH2 protons per cytochrome. */
  function ComplexIVAt(m: Mito, rate: real, leak: real -> real): (r: (Mito, real))
    ensures r.0.metabolites.Keys >= m.metabolites.Keys
  {
    var e := Exchange(m.metabolites, [("cytochrome_c_reduced", rate), ("oxygen", rate / 2.0)], [("cytochrome_c_oxidized", rate)]);
    if e.1 then (Mito(e.0, UpdatedGradient(m.protonGradient, ProtonsPerFadh2 * rate, leak)), rate) else (Mito(e.0, m.protonGradient), 0.0)
  }

  /** The quantity held of `a` and `b` together. */
  function Total(s: Store, a: string, b: string): (r: real)
    ensures r == QuantityOf(s, a) + QuantityOf(s, b)
  {
    QuantityOf(s, a) + QuantityOf(s, b)
  }

  /** The three pools the chain moves material within: ubiquinone, cytochrome c and adenine nucleotides. */
  ghost predicate Conserved(s: Store, s': Store)
  {
    && Total(s', "ubiquinone", "ubiquinol") == Total(s, "ubiquinone", "ubiquinol")
    && Total(s', "cytochrome_c_oxidized", "cytochrome_c_reduced") == Total(s, "cytochrome_c_oxidized", "cytochrome_c_reduced")
    && Total(s', "adp", "atp") == Total(s, "adp", "atp")
  }

  /** The pools are conserved when each pool's two quantities sum as before. */
  lemma ConservedWhen(s: Store, s': Store)
    requires ChainNames <= s.Keys && ChainNames <= s'.Keys
    requires s'["ubiquinone"].quantity + s'["ubiquinol"].quantity == s["ubiquinone"].quantity + s["ubiquinol"].quantity
    requires s'["cytochrome_c_oxidized"].quantity + s'["cytochrome_c_reduced"].quantity
      == s["cytochrome_c_oxidized"].quantity + s["cytochrome_c_reduced"].quantity
    requires s'["adp"].quantity + s'["atp"].quantity == s["adp"].quantity + s["atp"].quantity
    ensures Conserved(s, s')
  {
  }

  /**
   * What every step of oxidative phosphorylation keeps: the three pools,
   * non-negative quantities and a non-negative gradient.
   */
  ghost predicate Preserved(m: Mito, m': Mito)
  {
    && Conserved(m.metabolites, m'.metabolites)
    && NonNegative(m'.metabolites)
    && (m.protonGradient >= 0.0 ==> m'.protonGradient >= 0.0)
  }

  /**
   * Complex I runs exactly when its guard holds, at a rate of at least 1
   * that neither substrate bound exceeds; otherwise it changes nothing and
   * returns 0.
   */
  lemma ComplexISpec(m: Mito, leak: real -> real)
    ensures var s := m.metabolites;
      if Available(s, "nadh", 1.0) && Available(s, "ubiquinone", 1.0) then
        var rate := Min(s["nadh"].quantity, s["ubiquinone"].quantity);
        && 1.0 <= rate <= s["nadh"].quantity && rate <= s["ubiquinone"].quantity
        && ComplexI(m, leak) == ComplexIAt(m, rate, leak)
      else ComplexI(m, leak) == (m, 0.0)
  {
  }

  /**
   * At any rate its substrates cover, complex I goes through and reports
   * the rate: each substrate falls by its share, each product rises by its
   * share, PROTONS_PER_NADH·rate protons are
   * pumped through update_proton_gradient, and nothing else moves.
   */
  lemma ComplexIAtSpec(m: Mito, rate: real, leak: real -> real)
    requires NonNegative(m.metabolites) && ChainNames <= m.metabolites.Keys
    requires 0.0 <= rate <= m.metabolites["nadh"].quantity && rate <= m.metabolites["ubiquinone"].quantity
    ensures var s := m.metabolites; var r := ComplexIAt(m, rate, leak);
      && r.1 == rate
      && r.0.protonGradient == UpdatedGradient(m.protonGradient, ProtonsPerNadh * rate, leak)
      && r.0.metabolites["nadh"].quantity == s["nadh"].quantity - rate
      && r.0.metabolites["ubiquinone"].quantity == s["ubiquinone"].quantity - rate
      && r.0.metabolites["ubiquinol"].quantity == s["ubiquinol"].quantity + rate
      && (forall k :: k in s && k != "nadh" && k != "ubiquinone" && k != "ubiquinol" ==> r.0.metabolites[k] == s[k])
  {
    TwoForOne(m.metabolites, "nadh", rate, "ubiquinone", rate, "ubiquinol", rate);
  }

  /**
   * At any such rate complex I conserves the pools and leaves no quantity
   * or gradient negative.
   */
  lemma ComplexIAtPreserves(m: Mito, rate: real, leak: real -> real)
    requires NonNegative(m.metabolites) && ChainNames <= m.metabolites.Keys
    requires 0.0 <= rate <= m.metabolites["nadh"].quantity && rate <= m.metabolites["ubiquinone"].quantity
    ensures Preserved(m, ComplexIAt(m, rate, leak).0)
  {
    TwoForOne(m.metabolites, "nadh", rate, "ubiquinone", rate, "ubiquinol", rate);
    ConservedWhen(m.metabolites, ComplexIAt(m, rate, leak).0.metabolites);
  }

  /**
   * Whether or not it runs, complex I conserves the three pools, leaves
   * no quantity negative and keeps the gradient non-negative.
   */
  lemma ComplexIPreserves(m: Mito, leak: real -> real)
    requires NonNegative(m.metabolites) && ChainNames <= m.metabolites.Keys
    ensures Preserved(m, ComplexI(m, leak).0)
  {
    var s := m.metabolites;
    ComplexISpec(m, leak);
    if Available(s, "nadh", 1.0) && Available(s, "ubiquinone", 1.0) {
      ComplexIAtPreserves(m, Min(s["nadh"].quantity, s["ubiquinone"].quantity), leak);
    }
  }

  /**
   * Complex II runs exactly when its guard holds, at a rate of at least 1
   * that neither substrate bound exceeds; otherwise it changes nothing and
   * returns 0.
   */
  lemma ComplexIISpec(m: Mito)
    ensures var s := m.metabolites;
      if Available(s, "fadh2", 1.0) && Available(s, "ubiquinone", 1.0) then
        var rate := Min(s["fadh2"].quantity, s["ubiquinone"].quantity);
        && 1.0 <= rate <= s["fadh2"].quantity && rate <= s["ubiquinone"].quantity
        && ComplexII(m) == ComplexIIAt(m, rate)
      else ComplexII(m) == (m, 0.0)
  {
  }

  /**
   * At any rate its substrates cover, complex II goes through and reports
   * the rate: each substrate falls by its share, each product rises by its
   * share, the gradient is left alone, and nothing else moves.
   */
  lemma ComplexIIAtSpec(m: Mito, rate: real)
    requires NonNegative(m.metabolites) && ChainNames <= m.metabolites.Keys
    requires 0.0 <= rate <= m.metabolites["fadh2"].quantity && rate <= m.metabolites["ubiquinone"].quantity
    ensures var s := m.metabolites; var r := ComplexIIAt(m, rate);
      && r.1 == rate
      && r.0.protonGradient == m.protonGradient
      && r.0.metabolites["fadh2"].quantity == s["fadh2"].quantity - rate
      && r.0.metabolites["ubiquinone"].quantity == s["ubiquinone"].quantity - rate
      && r.0.metabolites["ubiquinol"].quantity == s["ubiquinol"].quantity + rate
      && (forall k :: k in s && k != "fadh2" && k != "ubiquinone" && k != "ubiquinol" ==> r.0.metabolites[k] == s[k])
  {
    TwoForOne(m.metabolites, "fadh2", rate, "ubiquinone", rate, "ubiquinol", rate);
  }

  /**
   * At any such rate complex II conserves the pools and leaves no quantity
   * or gradient negative.
   */
  lemma ComplexIIAtPreserves(m: Mito, rate: real)
    requires NonNegative(m.metabolites) && ChainNames <= m.metabolites.Keys
    requires 0.0 <= rate <= m.metabolites["fadh2"].quantity && rate <= m.metabolites["ubiquinone"].quantity
    ensures Preserved(m, ComplexIIAt(m, rate).0)
  {
    TwoForOne(m.metabolites, "fadh2", rate, "ubiquinone", rate, "ubiquinol", rate);
    ConservedWhen(m.metabolites, ComplexIIAt(m, rate).0.metabolites);
  }

  /**
   * Whether or not it runs, complex II conserves the three pools, leaves
   * no quantity negative and keeps the gradient non-negative.
   */
  lemma ComplexIIPreserves(m: Mito)
    requires NonNegative(m.metabolites) && ChainNames <= m.metabolites.Keys
    ensures Preserved(m, ComplexII(m).0)
  {
    var s := m.metabolites;
    ComplexIISpec(m);
    if Available(s, "fadh2", 1.0) && Available(s, "ubiquinone", 1.0) {
      ComplexIIAtPreserves(m, Min(s["fadh2"].quantity, s["ubiquinone"].quantity));
    }
  }

  /**
   * Complex III runs exactly when its guard holds, at a rate of at least 1
   * that neither substrate bound exceeds; otherwise it changes nothing and
   * returns 0.
   */
  lemma ComplexIIISpec(m: Mito, leak: real -> real)
    ensures var s := m.metabolites;
      if Available(s, "ubiquinol", 1.0) && Available(s, "cytochrome_c_oxidized", 1.0) then
        var rate := Min(s["ubiquinol"].quantity, s["cytochrome_c_oxidized"].quantity);
        && 1.0 <= rate <= s["ubiquinol"].quantity && rate <= s["cytochrome_c_oxidized"].quantity
        && ComplexIII(m, leak) == ComplexIIIAt(m, rate, leak)
      else ComplexIII(m, leak) == (m, 0.0)
  {
  }

  /**
   * At any rate its substrates cover, complex III goes through and reports
   * the rate: each substrate falls by its share, each product rises by its
   * share, PROTONS_PER_FADH2·rate protons are
   * pumped through update_proton_gradient, and nothing else moves.
   */
  lemma ComplexIIIAtSpec(m: Mito, rate: real, leak: real -> real)
    requires NonNegative(m.metabolites) && ChainNames <= m.metabolites.Keys
    requires 0.0 <= rate <= m.metabolites["ubiquinol"].quantity && rate <= m.metabolites["cytochrome_c_oxidized"].quantity
    ensures var s := m.metabolites; var r := ComplexIIIAt(m, rate, leak);
      && r.1 == rate
      && r.0.protonGradient == UpdatedGradient(m.protonGradient, ProtonsPerFadh2 * rate, leak)
      && r.0.metabolites["ubiquinol"].quantity == s["ubiquinol"].quantity - rate
      && r.0.metabolites["cytochrome_c_oxidized"].quantity == s["cytochrome_c_oxidized"].quantity - rate
      && r.0.metabolites["ubiquinone"].quantity == s["ubiquinone"].quantity + rate
      && r.0.metabolites["cytochrome_c_reduced"].quantity == s["cytochrome_c_reduced"].quantity + rate
      && (forall k :: k in s && k != "ubiquinol" && k != "cytochrome_c_oxidized" && k != "ubiquinone" && k != "cytochrome_c_reduced" ==> r.0.metabolites[k] == s[k])
  {
    TwoForTwo(m.metabolites, "ubiquinol", rate, "cytochrome_c_oxidized", rate, "ubiquinone", rate, "cytochrome_c_reduced", rate);
  }

  /**
   * At any such rate complex III conserves the pools and leaves no quantity
   * or gradient negative.
   */
  lemma ComplexIIIAtPreserves(m: Mito, rate: real, leak: real -> real)
    requires NonNegative(m.metabolites) && ChainNames <= m.metabolites.Keys
    requires 0.0 <= rate <= m.metabolites["ubiquinol"].quantity && rate <= m.metabolites["cytochrome_c_oxidized"].quantity
    ensures Preserved(m, ComplexIIIAt(m, rate, leak).0)
  {
    TwoForTwo(m.metabolites, "ubiquinol", rate, "cytochrome_c_oxidized", rate, "ubiquinone", rate, "cytochrome_c_reduced", rate);
    ConservedWhen(m.metabolites, ComplexIIIAt(m, rate, leak).0.metabolites);
  }

  /**
   * Whether or not it runs, complex III conserves the three pools, leaves
   * no quantity negative and keeps the gradient non-negative.
   */
  lemma ComplexIIIPreserves(m: Mito, leak: real -> real)
    requires NonNegative(m.metabolites) && ChainNames <= m.metabolites.Keys
    ensures Preserved(m, ComplexIII(m, leak).0)
  {
    var s := m.metabolites;
    ComplexIIISpec(m, leak);
    if Available(s, "ubiquinol", 1.0) && Available(s, "cytochrome_c_oxidized", 1.0) {
      ComplexIIIAtPreserves(m, Min(s["ubiquinol"].quantity, s["cytochrome_c_oxidized"].quantity), leak);
    }
  }

  /**
   * Complex IV runs exactly when its guard holds, at a rate of at least 1
   * that neither substrate bound exceeds; otherwise it changes nothing and
   * returns 0.
   */
  lemma ComplexIVSpec(m: Mito, leak: real -> real)
    requires "oxygen" in m.metabolites
    ensures var s := m.metabolites;
      if Available(s, "cytochrome_c_reduced", 1.0) && Available(s, "oxygen", 0.5) then
        var rate := Min(s["cytochrome_c_reduced"].quantity, s["oxygen"].quantity * 2.0);
        && 1.0 <= rate <= s["cytochrome_c_reduced"].quantity && rate <= s["oxygen"].quantity * 2.0
        && ComplexIV(m, leak) == ComplexIVAt(m, rate, leak)
      else ComplexIV(m, leak) == (m, 0.0)
  {
  }

  /**
   * At any rate its substrates cover, complex IV goes through and reports
   * the rate: each substrate falls by its share, each product rises by its
   * share, PROTONS_PER_FADH2·rate protons are
   * pumped through update_proton_gradient, and nothing else moves.
   */
  lemma ComplexIVAtSpec(m: Mito, rate: real, leak: real -> real)
    requires NonNegative(m.metabolites) && ChainNames <= m.metabolites.Keys
    requires 0.0 <= rate <= m.metabolites["cytochrome_c_reduced"].quantity && rate <= m.metabolites["oxygen"].quantity * 2.0
    ensures var s := m.metabolites; var r := ComplexIVAt(m, rate, leak);
      && r.1 == rate
      && r.0.protonGradient == UpdatedGradient(m.protonGradient, ProtonsPerFadh2 * rate, leak)
      && r.0.metabolites["cytochrome_c_reduced"].quantity == s["cytochrome_c_reduced"].quantity - rate
      && r.0.metabolites["oxygen"].quantity == s["oxygen"].quantity - rate / 2.0
      && r.0.metabolites["cytochrome_c_oxidized"].quantity == s["cytochrome_c_oxidized"].quantity + rate
      && r.0.metabolites["oxygen"].quantity >= 0.0
      && (forall k :: k in s && k != "cytochrome_c_reduced" && k != "oxygen" && k != "cytochrome_c_oxidized" ==> r.0.metabolites[k] == s[k])
  {
    TwoForOne(m.metabolites, "cytochrome_c_reduced", rate, "oxygen", rate / 2.0, "cytochrome_c_oxidized", rate);
  }

  /**
   * At any such rate complex IV conserves the pools and leaves no quantity
   * or gradient negative.
   */
  lemma ComplexIVAtPreserves(m: Mito, rate: real, leak: real -> real)
    requires NonNegative(m.metabolites) && ChainNames <= m.metabolites.Keys
    requires 0.0 <= rate <= m.metabolites["cytochrome_c_reduced"].quantity && rate <= m.metabolites["oxygen"].quantity * 2.0
    ensures Preserved(m, ComplexIVAt(m, rate, leak).0)
  {
    TwoForOne(m.metabolites, "cytochrome_c_reduced", rate, "oxygen", rate / 2.0, "cytochrome_c_oxidized", rate);
    ConservedWhen(m.metabolites, ComplexIVAt(m, rate, leak).0.metabolites);
  }

  /**
   * Whether or not it runs, complex IV conserves the three pools, leaves
   * no quantity negative and keeps the gradient non-negative.
   */
  lemma ComplexIVPreserves(m: Mito, leak: real -> real)
    requires NonNegative(m.metabolites) && ChainNames <= m.metabolites.Keys
    ensures Preserved(m, ComplexIV(m, leak).0)
  {
    var s := m.metabolites;
    ComplexIVSpec(m, leak);
    if Available(s, "cytochrome_c_reduced", 1.0) && Available(s, "oxygen", 0.5) {
      ComplexIVAtPreserves(m, Min(s["cytochrome_c_reduced"].quantity, s["oxygen"].quantity * 2.0), leak);
    }
  }

  /** No complex alters a capacity. */
  lemma ComplexIKeepsCapacities(m: Mito, leak: real -> real)
    ensures SameCapacities(m.metabolites, ComplexI(m, leak).0.metabolites)
  {
    ExchangesKeepCapacities(m.metabolites);
  }

  lemma ComplexIIKeepsCapacities(m: Mito)
    ensures SameCapacities(m.metabolites, ComplexII(m).0.metabolites)
  {
    ExchangesKeepCapacities(m.metabolites);
  }

  lemma ComplexIIIKeepsCapacities(m: Mito, leak: real -> real)
    ensures SameCapacities(m.metabolites, ComplexIII(m, leak).0.metabolites)
  {
    ExchangesKeepCapacities(m.metabolites);
  }

  lemma ComplexIVKeepsCapacities(m: Mito, leak: real -> real)
    requires "oxygen" in m.metabolites
    ensures SameCapacities(m.metabolites, ComplexIV(m, leak).0.metabolites)
  {
    ExchangesKeepCapacities(m.metabolites);
  }

  /** Each step carries the pools, non-negativity and the gradient's sign over to the next. */
  lemma PreservedTrans(a: Mito, b: Mito, c: Mito)
    requires Preserved(a, b) && Preserved(b, c)
    ensures Preserved(a, c)
  {
  }

  // ---------------------------------------------------------------------------
  // ATP synthase

  /**
   * `atp_synthase`: int(gradient / PROTONS_PER_ATP) ATP could be made, at
   * most the ADP held is; that much ADP is consumed and turned into ATP, and
   * the gradient pays PROTONS_PER_ATP protons for each.
   */
  function AtpSynthase(m: Mito): (r: (Mito, real))
    requires "adp" in m.metabolites
    ensures r.0.metabolites.Keys >= m.metabolites.Keys
  {
    var s := m.metabolites;
    var possible := Int(m.protonGradient / ProtonsPerAtp) as real;
    var produced := Min(possible, s["adp"].quantity);
    var e := Exchange(s, [("adp", produced)], [("atp", produced)]);
    if e.1 then (Mito(e.0, m.protonGradient - produced * ProtonsPerAtp), produced)
    else (Mito(e.0, m.protonGradient), 0.0)
  }

  /**
   * With a non-negative gradient the synthase makes
   * min(floor(gradient / PROTONS_PER_ATP), ADP) ATP out of as much ADP, so
   * ADP + ATP is conserved, and the gradient falls by PROTONS_PER_ATP per
   * ATP without going negative; nothing else moves.
   */
  lemma AtpSynthaseSpec(m: Mito)
    requires NonNegative(m.metabolites) && ChainNames <= m.metabolites.Keys && m.protonGradient >= 0.0
    ensures var s := m.metabolites; var r := AtpSynthase(m);
      var produced := Min((m.protonGradient / ProtonsPerAtp).Floor as real, s["adp"].quantity);
      && r.1 == produced && produced >= 0.0
      && r.0.metabolites["adp"].quantity == s["adp"].quantity - produced
      && r.0.metabolites["atp"].quantity == s["atp"].quantity + produced
      && r.0.protonGradient == m.protonGradient - produced * ProtonsPerAtp
      && r.0.protonGradient >= 0.0
      && NonNegative(r.0.metabolites)
      && forall k :: k in s && k != "adp" && k != "atp" ==> r.0.metabolites[k] == s[k]
  {
    var s := m.metabolites;
    var produced := Min(Int(m.protonGradient / ProtonsPerAtp) as real, s["adp"].quantity);
    OneForOne(s, "adp", produced, "atp", produced);
  }

  /** The synthase keeps the pools, non-negativity and the gradient's sign. */
  lemma AtpSynthasePreserves(m: Mito)
    requires NonNegative(m.metabolites) && ChainNames <= m.metabolites.Keys && m.protonGradient >= 0.0
    ensures Preserved(m, AtpSynthase(m).0)
  {
    var s := m.metabolites;
    var produced := Min(Int(m.protonGradient / ProtonsPerAtp) as real, s["adp"].quantity);
    AtpSynthaseSpec(m);
    ConservedWhen(s, AtpSynthase(m).0.metabolites);
  }

  /** Without ADP the synthase makes nothing and leaves the gradient alone. */
  lemma AtpSynthaseWithoutAdp(m: Mito)
    requires NonNegative(m.metabolites) && ChainNames <= m.metabolites.Keys && m.protonGradient >= 0.0
    requires m.metabolites["adp"].quantity == 0.0
    ensures AtpSynthase(m).1 == 0.0 && AtpSynthase(m).0.protonGradient == m.protonGradient
  {
    AtpSynthaseSpec(m);
  }

  // ---------------------------------------------------------------------------
  // replenishing the carriers

  /**
   * `replenish_ubiquinone` / `replenish_cytochrome_c`: move
   * min(source, target headroom) from `source` to `target` through two
   * clamped changes.
   */
  function Replenish(s: Store, target: string, source: string): (r: Store)
    requires target in s && source in s
    ensures r.Keys == s.Keys
  {
    var amount := Min(s[source].quantity, s[target].maxQuantity - s[target].quantity);
    Clamp(Clamp(s, target, amount).0, source, -amount).0
  }

  /**
   * The target ends at min(target + source, its capacity), so it never
   * exceeds its capacity, the pair's sum is conserved, the source stays
   * non-negative, and nothing else moves — even when the target started
   * above its capacity (then the surplus goes back to the source).
   */
  lemma ReplenishSpec(s: Store, target: string, source: string)
    requires target in s && source in s && target != source
    requires NonNegative(s) && s[target].maxQuantity >= 0.0
    ensures var r := Replenish(s, target, source);
      && r[target].quantity == Min(s[target].quantity + s[source].quantity, s[target].maxQuantity)
      && r[target].quantity <= r[target].maxQuantity == s[target].maxQuantity
      && r[target].quantity + r[source].quantity == s[target].quantity + s[source].quantity
      && NonNegative(r)
      && forall k :: k in s && k != target && k != source ==> r[k] == s[k]
  {
    var amount := Min(s[source].quantity, s[target].maxQuantity - s[target].quantity);
    var a := Clamp(s, target, amount).0;
    assert a[target].quantity == s[target].quantity + amount;
    var b := Clamp(a, source, -amount).0;
    assert b[source].quantity == s[source].quantity - amount;
  }

  /** Replenishing either carrier keeps the pools and non-negativity. */
  lemma ReplenishPreserves(m: Mito, target: string, source: string)
    requires || (target == "ubiquinone" && source == "ubiquinol")
             || (target == "cytochrome_c_oxidized" && source == "cytochrome_c_reduced")
    requires NonNegative(m.metabolites) && ChainNames <= m.metabolites.Keys
    requires m.metabolites[target].maxQuantity >= 0.0
    ensures Preserved(m, Mito(Replenish(m.metabolites, target, source), m.protonGradient))
  {
    var s := m.metabolites;
    var r := Replenish(s, target, source);
    ReplenishSpec(s, target, source);
    if target == "ubiquinone" {
      assert r["cytochrome_c_oxidized"] == s["cytochrome_c_oxidized"] && r["cytochrome_c_reduced"] == s["cytochrome_c_reduced"];
    } else {
      assert r["ubiquinone"] == s["ubiquinone"] && r["ubiquinol"] == s["ubiquinol"];
    }
    assert r["adp"] == s["adp"] && r["atp"] == s["atp"];
    ConservedWhen(s, r);
  }

  // ---------------------------------------------------------------------------
  // oxidative phosphorylation

  /** The four complexes in order; the electrons each reports only feed a log line. */
  function Chain(m: Mito, leak: real -> real): (r: Mito)
    requires "oxygen" in m.metabolites
    ensures r.metabolites.Keys >= m.metabolites.Keys
  {
    ComplexIV(ComplexIII(ComplexII(ComplexI(m, leak).0).0, leak).0, leak).0
  }

  /**
   * `oxidative_phosphorylation`: without oxygen it does nothing and returns
   * 0; otherwise it runs the chain, then ATP synthase, then replenishes
   * ubiquinone and oxidised cytochrome c, and returns the ATP made.
   */
  function OxPhos(m: Mito, leak: real -> real): (r: (Mito, real))
    requires ChainNames <= m.metabolites.Keys
    ensures r.0.metabolites.Keys >= m.metabolites.Keys
  {
    if m.metabolites["oxygen"].quantity <= 0.0 then (m, 0.0)
    else
      var made := AtpSynthase(Chain(m, leak));
      var s := Replenish(Replenish(made.0.metabolites, "ubiquinone", "ubiquinol"), "cytochrome_c_oxidized", "cytochrome_c_reduced");
      (Mito(s, made.0.protonGradient), made.1)
  }

  /** The chain keeps the pools, non-negativity and the gradient's sign. */
  lemma ChainPreserves(m: Mito, leak: real -> real)
    requires NonNegative(m.metabolites) && ChainNames <= m.metabolites.Keys
    ensures Preserved(m, Chain(m, leak))
  {
    var m1 := ComplexI(m, leak).0;
    ComplexIPreserves(m, leak);
    var m2 := ComplexII(m1).0;
    ComplexIIPreserves(m1);
    PreservedTrans(m, m1, m2);
    var m3 := ComplexIII(m2, leak).0;
    ComplexIIIPreserves(m2, leak);
    PreservedTrans(m, m2, m3);
    ComplexIVPreserves(m3, leak);
    PreservedTrans(m, m3, Chain(m, leak));
  }

  /** The chain never alters a capacity. */
  lemma ChainKeepsCapacities(m: Mito, leak: real -> real)
    requires "oxygen" in m.metabolites
    ensures SameCapacities(m.metabolites, Chain(m, leak).metabolites)
  {
    var m1 := ComplexI(m, leak).0;
    ComplexIKeepsCapacities(m, leak);
    var m2 := ComplexII(m1).0;
    ComplexIIKeepsCapacities(m1);
    var m3 := ComplexIII(m2, leak).0;
    ComplexIIIKeepsCapacities(m2, leak);
    ComplexIVKeepsCapacities(m3, leak);
    SameCapacitiesTrans(m.metabolites, m1.metabolites, m2.metabolites);
    SameCapacitiesTrans(m.metabolites, m2.metabolites, m3.metabolites);
    SameCapacitiesTrans(m.metabolites, m3.metabolites, Chain(m, leak).metabolites);
  }

  /** One replenishment after earlier steps: everything they kept is still kept, and the target is within its capacity. */
  lemma ReplenishStep(m: Mito, c: Mito, target: string, source: string)
    requires || (target == "ubiquinone" && source == "ubiquinol")
             || (target == "cytochrome_c_oxidized" && source == "cytochrome_c_reduced")
    requires NonNegative(c.metabolites) && ChainNames <= c.metabolites.Keys && Preserved(m, c)
    requires c.metabolites[target].maxQuantity >= 0.0
    ensures var s := Replenish(c.metabolites, target, source);
      && Preserved(m, Mito(s, c.protonGradient))
      && s[target].quantity <= s[target].maxQuantity
      && forall k :: k in c.metabolites && k != target && k != source ==> s[k] == c.metabolites[k]
  {
    ReplenishPreserves(c, target, source);
    ReplenishSpec(c.metabolites, target, source);
    PreservedTrans(m, c, Mito(Replenish(c.metabolites, target, source), c.protonGradient));
  }

  /** Both replenishments after earlier steps: everything those kept is still kept, and both carriers end within capacity. */
  lemma ReplenishBoth(m: Mito, c: Mito)
    requires NonNegative(c.metabolites) && ChainNames <= c.metabolites.Keys && Preserved(m, c)
    requires c.metabolites["ubiquinone"].maxQuantity >= 0.0 && c.metabolites["cytochrome_c_oxidized"].maxQuantity >= 0.0
    ensures var s1 := Replenish(c.metabolites, "ubiquinone", "ubiquinol");
      var s2 := Replenish(s1, "cytochrome_c_oxidized", "cytochrome_c_reduced");
      && Preserved(m, Mito(s2, c.protonGradient))
      && s2["ubiquinone"].quantity <= s2["ubiquinone"].maxQuantity
      && s2["cytochrome_c_oxidized"].quantity <= s2["cytochrome_c_oxidized"].maxQuantity
  {
    ReplenishStep(m, c, "ubiquinone", "ubiquinol");
    var s1 := Replenish(c.metabolites, "ubiquinone", "ubiquinol");
    ReplenishStep(m, Mito(s1, c.protonGradient), "cytochrome_c_oxidized", "cytochrome_c_reduced");
  }

  /** The synthase after the chain keeps what the chain kept, capacities included. */
  lemma SynthaseStep(m: Mito, c: Mito)
    requires NonNegative(c.metabolites) && ChainNames <= c.metabolites.Keys && c.protonGradient >= 0.0
    requires Preserved(m, c) && SameCapacities(m.metabolites, c.metabolites)
    ensures Preserved(m, AtpSynthase(c).0) && SameCapacities(m.metabolites, AtpSynthase(c).0.metabolites)
  {
    AtpSynthasePreserves(c);
    PreservedTrans(m, c, AtpSynthase(c).0);
    ExchangesKeepCapacities(c.metabolites);
    SameCapacitiesTrans(m.metabolites, c.metabolites, AtpSynthase(c).0.metabolites);
  }

  /**
   * Oxidative phosphorylation conserves ubiquinone + ubiquinol, cytochrome
   * c and ADP + ATP, keeps every quantity and the gradient non-negative and
   * every capacity as it was, and leaves both carriers within capacity; the
   * ATP it returns is what the synthase makes from the state the chain
   * leaves. Without oxygen nothing changes.
   */
  lemma OxPhosSpec(m: Mito, leak: real -> real)
    requires NonNegative(m.metabolites) && ChainNames <= m.metabolites.Keys && m.protonGradient >= 0.0
    requires m.metabolites["ubiquinone"].maxQuantity >= 0.0 && m.metabolites["cytochrome_c_oxidized"].maxQuantity >= 0.0
    ensures var r := OxPhos(m, leak);
      && Preserved(m, r.0) && r.0.protonGradient >= 0.0
      && (m.metabolites["oxygen"].quantity <= 0.0 ==> r == (m, 0.0))
      && (m.metabolites["oxygen"].quantity > 0.0 ==>
            && r.0.metabolites["ubiquinone"].quantity <= r.0.metabolites["ubiquinone"].maxQuantity
            && r.0.metabolites["cytochrome_c_oxidized"].quantity <= r.0.metabolites["cytochrome_c_oxidized"].maxQuantity
            && var c := Chain(m, leak);
               r.1 == Min((c.protonGradient / ProtonsPerAtp).Floor as real, c.metabolites["adp"].quantity))
  {
    if m.metabolites["oxygen"].quantity > 0.0 {
      var c := Chain(m, leak);
      ChainPreserves(m, leak);
      ChainKeepsCapacities(m, leak);
      AtpSynthaseSpec(c);
      SynthaseStep(m, c);
      ReplenishBoth(m, AtpSynthase(c).0);
    } else {
      assert Conserved(m.metabolites, m.metabolites);
    }
  }

  // ---------------------------------------------------------------------------
  // calcium

  /**
   * `buffer_calcium`: takes up min(request, calcium headroom) through the
   * clamped change and returns that uptake.
   */
  function BufferCalcium(s: Store, request: real): (r: (Store, real))
    requires "calcium" in s
    ensures r.0.Keys == s.Keys
  {
    var uptake := Min(request, s["calcium"].maxQuantity - s["calcium"].quantity);
    (Clamp(s, "calcium", uptake).0, uptake)
  }

  /**
   * Calcium held within its capacity stays within it whatever the request;
   * a non-negative request is met up to the headroom, exactly.
   */
  lemma BufferCalciumSpec(s: Store, request: real)
    requires "calcium" in s && 0.0 <= s["calcium"].quantity <= s["calcium"].maxQuantity
    ensures var r := BufferCalcium(s, request);
      && 0.0 <= r.0["calcium"].quantity <= r.0["calcium"].maxQuantity == s["calcium"].maxQuantity
      && r.1 <= request
      && (request >= 0.0 ==>
            && 0.0 <= r.1
            && r.0["calcium"].quantity == s["calcium"].quantity + r.1
            && r.0["calcium"].quantity == Min(s["calcium"].quantity + request, s["calcium"].maxQuantity))
      && forall k :: k in s && k != "calcium" ==> r.0[k] == s[k]
  {
  }

  /**
   * `release_calcium`: releases min(amount, calcium held) through the
   * clamped change and returns it.
   */
  function ReleaseCalcium(s: Store, amount: real): (r: (Store, real))
    requires "calcium" in s
    ensures r.0.Keys == s.Keys
  {
    var released := Min(amount, s["calcium"].quantity);
    (Clamp(s, "calcium", -released).0, released)
  }

  /**
   * Calcium never goes negative; a non-negative request releases at most
   * what is held, exactly.
   */
  lemma ReleaseCalciumSpec(s: Store, amount: real)
    requires "calcium" in s && s["calcium"].quantity >= 0.0
    ensures var r := ReleaseCalcium(s, amount);
      && r.0["calcium"].quantity >= 0.0
      && r.1 <= amount && r.1 <= s["calcium"].quantity
      && (amount >= 0.0 ==> r.1 >= 0.0 && r.0["calcium"].quantity == s["calcium"].quantity - r.1)
      && forall k :: k in s && k != "calcium" ==> r.0[k] == s[k]
  {
  }

  // ---------------------------------------------------------------------------
  // NADH shuttle and pyruvate

  /**
   * `transfer_cytoplasmic_nadh` of cell_modeling/pyology/mitochondrion.py:
   * int(n · SHUTTLE_EFFICIENCY) NADH is added through the clamped change and
   * returned.
   */
  function TransferNadh(s: Store, n: real): (r: (Store, int))
    ensures r.0.Keys == s.Keys + {"nadh"}
    ensures n >= 0.0 ==> 0 <= r.1 && r.1 as real <= n
    ensures r.0["nadh"].quantity >= 0.0
    ensures QuantityOf(s, "nadh") + r.1 as real >= 0.0 ==> r.0["nadh"].quantity == QuantityOf(s, "nadh") + r.1 as real
    ensures forall k :: k in s && k != "nadh" ==> r.0[k] == s[k]
  {
    var made := Int(n * ShuttleEfficiency);
    (Clamp(s, "nadh", made as real).0, made)
  }

  /**
   * `transfer_cytoplasmic_nadh` of pyology/mitochondrion.py adds the same
   * amount straight to the quantity, without the clamp.
   */
  function TransferNadhDirect(s: Store, n: real): (r: (Store, int))
    requires "nadh" in s
    ensures r.0.Keys == s.Keys
    ensures n >= 0.0 ==> 0 <= r.1 && r.1 as real <= n
    ensures r.0["nadh"] == s["nadh"].(quantity := s["nadh"].quantity + r.1 as real)
    ensures forall k :: k in s && k != "nadh" ==> r.0[k] == s[k]
  {
    var made := Int(n * ShuttleEfficiency);
    (WithQuantity(s, "nadh", s["nadh"].quantity + made as real), made)
  }

  /**
   * For a non-negative transfer both versions add floor(0.67 · n) NADH,
   * never more than n, and agree; nothing else moves.
   */
  lemma TransferNadhSpec(s: Store, n: real)
    requires "nadh" in s && s["nadh"].quantity >= 0.0 && n >= 0.0
    ensures var r := TransferNadh(s, n);
      && r.1 == (n * ShuttleEfficiency).Floor
      && 0.0 <= r.1 as real <= n
      && r.0["nadh"].quantity == s["nadh"].quantity + r.1 as real
      && r == TransferNadhDirect(s, n)
      && forall k :: k in s && k != "nadh" ==> r.0[k] == s[k]
  {
  }

  /** With a negative transfer the direct version can leave NADH negative; the clamped one cannot. */
  lemma TransferNadhDirectNegative()
    ensures var s := map["nadh" := Entry("nadh", 0.0, 1000.0)];
      && TransferNadhDirect(s, -10.0).0["nadh"].quantity == -6.0
      && TransferNadh(s, -10.0).0["nadh"].quantity == 0.0
  {
    var s := map["nadh" := Entry("nadh", 0.0, 1000.0)];
    assert Int(-10.0 * ShuttleEfficiency) == -6;
  }

  /**
   * `pyruvate_to_acetyl_coa`: NADH and CO2 each change by the pyruvate
   * amount through the clamped change, and the amount is returned as the
   * acetyl-CoA made.
   */
  function PyruvateToAcetylCoa(s: Store, pyruvate: real): (r: (Store, real))
    ensures r.1 == pyruvate
    ensures r.0.Keys == s.Keys + {"nadh", "co2"}
    ensures r.0["nadh"].quantity >= 0.0 && r.0["co2"].quantity >= 0.0
    ensures forall k :: k in s && k != "nadh" && k != "co2" ==> r.0[k] == s[k]
  {
    (Clamp(Clamp(s, "nadh", pyruvate).0, "co2", pyruvate).0, pyruvate)
  }

  /** A non-negative amount of pyruvate adds exactly that much NADH and CO2. */
  lemma PyruvateToAcetylCoaSpec(s: Store, pyruvate: real)
    requires NonNegative(s) && pyruvate >= 0.0
    ensures var r := PyruvateToAcetylCoa(s, pyruvate);
      && r.1 == pyruvate
      && r.0["nadh"].quantity == QuantityOf(s, "nadh") + pyruvate
      && r.0["co2"].quantity == QuantityOf(s, "co2") + pyruvate
      && NonNegative(r.0)
      && forall k :: k in s && k != "nadh" && k != "co2" ==> r.0[k] == s[k]
  {
    var a := Clamp(s, "nadh", pyruvate).0;
    assert a["nadh"].quantity == QuantityOf(s, "nadh") + pyruvate;
    assert QuantityOf(a, "co2") == QuantityOf(s, "co2");
  }

}
