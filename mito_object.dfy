/**
 * The Mitochondrion object of pyology/mitochondrion.py and of
 * cell_modeling/pyology/mitochondrion.py: the metabolites dict and the proton
 * gradient are fields that every method updates in place, step by step,
 * through change_metabolite_quantity. Each method is proved to leave exactly
 * the state the corresponding function of module Mitochondria computes, so
 * everything proved there holds of the object.
 *
 * The two copies differ in their base Organelle: the pyology copy inherits
 * the merging add_metabolite of pyology/organelle.py, the cell_modeling copy
 * the replacing one of cell_modeling/pyology/organelle.py. They also differ
 * in transfer_cytoplasmic_nadh. `Base` selects the copy.
 */
module MitochondrionObject {
  import opened Common
  import opened Stores
  import PyologyOrganelle
  import AtomicOrganelle
  import opened Mitochondria

  datatype Base =
    | Merging    // pyology/mitochondrion.py over pyology/organelle.py
    | Replacing  // cell_modeling/pyology/mitochondrion.py over cell_modeling/pyology/organelle.py

  /** The six metabolites the base Organelle constructor adds. */
  function BaseStore(base: Base): (r: Store)
    ensures base == Merging ==> r == PyologyOrganelle.InitialStore
    ensures base == Replacing ==> r == AtomicOrganelle.InitialStore
  {
    if base == Merging then PyologyOrganelle.InitialStore else AtomicOrganelle.InitialStore
  }

  /**
   * One valid `add_metabolite` call of the base class: merging adds the
   * quantity to an existing entry (capped at the argument's capacity, the
   * stored capacity kept); replacing overwrites the entry.
   */
  function Added(s: Store, name: string, q: real, max: real, base: Base): (r: Store)
    requires 0.0 <= q <= max
    ensures r.Keys == s.Keys + {name}
    ensures forall k :: k in s && k != name ==> r[k] == s[k]
    ensures base == Replacing || name !in s ==> r[name] == Entry(name, q, max)
    ensures base == Merging && name in s ==> r[name] == s[name].(quantity := Min(s[name].quantity + q, max))
  {
    if base == Merging then PyologyOrganelle.Merge(s, name, q, max).value
    else s[name := Entry(name, q, max)]
  }

  /** The first six of the constructor's twelve `add_metabolite` calls: NADH, FADH2, the adenine nucleotides, oxygen, ubiquinone. */
  function FirstAdditions(s: Store, base: Base): (r: Store)
  {
    var s := Added(s, "nadh", 0.0, 1000.0, base);
    var s := Added(s, "fadh2", 0.0, 1000.0, base);
    var s := Added(s, "atp", 0.0, 1000.0, base);
    var s := Added(s, "adp", 100.0, 1000.0, base);
    var s := Added(s, "oxygen", 1000.0, 1000.0, base);
    Added(s, "ubiquinone", 100.0, 1000.0, base)
  }

  /** The last six: ubiquinol, both cytochrome c forms, CO2, calcium, oxaloacetate. */
  function LastAdditions(s: Store, base: Base): (r: Store)
  {
    var s := Added(s, "ubiquinol", 0.0, 1000.0, base);
    var s := Added(s, "cytochrome_c_oxidized", 100.0, 1000.0, base);
    var s := Added(s, "cytochrome_c_reduced", 0.0, 1000.0, base);
    var s := Added(s, "co2", 0.0, 1000000.0, base);
    var s := Added(s, "calcium", 0.0, 1000.0, base);
    Added(s, "oxaloacetate", 0.0, 1000.0, base)
  }

  /** The store after the constructor's twelve `add_metabolite` calls, in their order. */
  function Initial(base: Base): (r: Store)
  {
    LastAdditions(FirstAdditions(BaseStore(base), base), base)
  }

  /** A fresh mitochondrion holds every metabolite the electron transport chain reads. */
  lemma InitialHasChain(base: Base)
    ensures ChainNames <= Initial(base).Keys
  {
  }

  lemma AddedKeepsNonNegative(s: Store, name: string, q: real, max: real, base: Base)
    requires 0.0 <= q <= max && NonNegative(s)
    ensures NonNegative(Added(s, name, q, max, base))
  {
  }

  /** No quantity of a fresh mitochondrion is negative. */
  lemma InitialNonNegative(base: Base)
    ensures NonNegative(Initial(base))
  {
    var s0 := BaseStore(base);
    var s1 := Added(s0, "nadh", 0.0, 1000.0, base); AddedKeepsNonNegative(s0, "nadh", 0.0, 1000.0, base);
    var s2 := Added(s1, "fadh2", 0.0, 1000.0, base); AddedKeepsNonNegative(s1, "fadh2", 0.0, 1000.0, base);
    var s3 := Added(s2, "atp", 0.0, 1000.0, base); AddedKeepsNonNegative(s2, "atp", 0.0, 1000.0, base);
    var s4 := Added(s3, "adp", 100.0, 1000.0, base); AddedKeepsNonNegative(s3, "adp", 100.0, 1000.0, base);
    var s5 := Added(s4, "oxygen", 1000.0, 1000.0, base); AddedKeepsNonNegative(s4, "oxygen", 1000.0, 1000.0, base);
    var s6 := Added(s5, "ubiquinone", 100.0, 1000.0, base); AddedKeepsNonNegative(s5, "ubiquinone", 100.0, 1000.0, base);
    var s7 := Added(s6, "ubiquinol", 0.0, 1000.0, base); AddedKeepsNonNegative(s6, "ubiquinol", 0.0, 1000.0, base);
    var s8 := Added(s7, "cytochrome_c_oxidized", 100.0, 1000.0, base);
    AddedKeepsNonNegative(s7, "cytochrome_c_oxidized", 100.0, 1000.0, base);
    var s9 := Added(s8, "cytochrome_c_reduced", 0.0, 1000.0, base);
    AddedKeepsNonNegative(s8, "cytochrome_c_reduced", 0.0, 1000.0, base);
    var s10 := Added(s9, "co2", 0.0, 1000000.0, base); AddedKeepsNonNegative(s9, "co2", 0.0, 1000000.0, base);
    var s11 := Added(s10, "calcium", 0.0, 1000.0, base); AddedKeepsNonNegative(s10, "calcium", 0.0, 1000.0, base);
    AddedKeepsNonNegative(s11, "oxaloacetate", 0.0, 1000.0, base);
  }

  lemma AddedElsewhere(s: Store, name: string, q: real, max: real, base: Base, k: string)
    requires 0.0 <= q <= max && k in s && k != name
    ensures k in Added(s, name, q, max, base) && Added(s, name, q, max, base)[k] == s[k]
  {
  }

  /**
   * The copies start with different ATP: the merging base class keeps the
   * 100 ATP its own constructor added (the mitochondrion's `atp` call adds
   * 0), while the replacing one overwrites it with 0.
   */
  lemma InitialAtp(base: Base)
    ensures "atp" in Initial(base)
    ensures Initial(base)["atp"] == Entry("atp", if base == Merging then 100.0 else 0.0, 1000.0)
  {
    var s0 := BaseStore(base);
    var s1 := Added(s0, "nadh", 0.0, 1000.0, base);
    var s2 := Added(s1, "fadh2", 0.0, 1000.0, base);
    var s3 := Added(s2, "atp", 0.0, 1000.0, base);
    assert s3["atp"] == Entry("atp", if base == Merging then 100.0 else 0.0, 1000.0) by {
      AddedElsewhere(s0, "nadh", 0.0, 1000.0, base, "atp");
      AddedElsewhere(s1, "fadh2", 0.0, 1000.0, base, "atp");
    }
    var s4 := Added(s3, "adp", 100.0, 1000.0, base); AddedElsewhere(s3, "adp", 100.0, 1000.0, base, "atp");
    var s5 := Added(s4, "oxygen", 1000.0, 1000.0, base); AddedElsewhere(s4, "oxygen", 1000.0, 1000.0, base, "atp");
    var s6 := Added(s5, "ubiquinone", 100.0, 1000.0, base); AddedElsewhere(s5, "ubiquinone", 100.0, 1000.0, base, "atp");
    var s7 := Added(s6, "ubiquinol", 0.0, 1000.0, base); AddedElsewhere(s6, "ubiquinol", 0.0, 1000.0, base, "atp");
    var s8 := Added(s7, "cytochrome_c_oxidized", 100.0, 1000.0, base);
    AddedElsewhere(s7, "cytochrome_c_oxidized", 100.0, 1000.0, base, "atp");
    var s9 := Added(s8, "cytochrome_c_reduced", 0.0, 1000.0, base);
    AddedElsewhere(s8, "cytochrome_c_reduced", 0.0, 1000.0, base, "atp");
    var s10 := Added(s9, "co2", 0.0, 1000000.0, base); AddedElsewhere(s9, "co2", 0.0, 1000000.0, base, "atp");
    var s11 := Added(s10, "calcium", 0.0, 1000.0, base); AddedElsewhere(s10, "calcium", 0.0, 1000.0, base, "atp");
    AddedElsewhere(s11, "oxaloacetate", 0.0, 1000.0, base, "atp");
  }

  /** `calculate_oxygen_needed`: 2.5 oxygen per pyruvate. */
  function OxygenNeeded(pyruvate: real): (r: real)
  {
    pyruvate * 2.5
  }

  /** The oxygen needed is proportional to the pyruvate, so it adds up over batches and is never negative for a non-negative amount. */
  lemma OxygenNeededAdditive(a: real, b: real)
    ensures OxygenNeeded(a + b) == OxygenNeeded(a) + OxygenNeeded(b)
    ensures a >= 0.0 ==> OxygenNeeded(a) >= 0.0
    ensures a <= b ==> OxygenNeeded(a) <= OxygenNeeded(b)
  {
  }

  /** A consume step that is met moves on to the next item with the change recorded. */
  lemma ConsumedContinues(s: Store, items: Items, from: nat, log: Items, c: (Store, real))
    requires from < |items| && c == Clamp(s, items[from].0, -items[from].1)
    requires Abs(c.1) >= Abs(items[from].1)
    ensures Consumed(s, items, from, log, Restore) == Consumed(c.0, items, from + 1, log + [(items[from].0, c.1)], Restore)
  {
  }

  /** A consume step that falls short rolls back every recorded change and the failing one. */
  lemma ConsumedStops(s: Store, items: Items, from: nat, log: Items, c: (Store, real))
    requires from < |items| && c == Clamp(s, items[from].0, -items[from].1)
    requires Abs(c.1) < Abs(items[from].1)
    ensures Consumed(s, items, from, log, Restore) == (RolledBack(c.0, log + [(items[from].0, c.1)], 0, Restore), false)
  {
  }

  class Mitochondrion {
    const base: Base
    var metabolites: Store
    var protonGradient: real
    var glycolysisRate: real

    /** The part of the state the chain functions of module Mitochondria act on. */
    function State(): (r: Mito)
      reads this
      ensures r.metabolites == metabolites && r.protonGradient == protonGradient
    {
      Mito(metabolites, protonGradient)
    }

    /** Every metabolite the chain reads is present; no method ever removes one. */
    ghost predicate Valid()
      reads this
    {
      ChainNames <= metabolites.Keys
    }

    constructor(base: Base)
      ensures this.base == base && Valid()
      ensures metabolites == Initial(base) && protonGradient == 0.0 && glycolysisRate == 1.0
    {
      this.base := base;
      new;
      Initialize();
    }

    /** `reset` runs the constructor again. */
    method Reset()
      modifies this
      ensures Valid()
      ensures metabolites == Initial(base) && protonGradient == 0.0 && glycolysisRate == 1.0
    {
      Initialize();
    }

    /** The body of the constructor: the base class's, then the twelve additions, then a zero gradient. */
    method Initialize()
      modifies this
      ensures Valid()
      ensures metabolites == Initial(base) && protonGradient == 0.0 && glycolysisRate == 1.0
    {
      metabolites := BaseStore(base);
      glycolysisRate := 1.0;
      AddFirst();
      AddLast();
      protonGradient := 0.0;
      InitialHasChain(base);
    }

    /** The first six additions of the constructor. */
    method AddFirst()
      modifies this
      ensures metabolites == FirstAdditions(old(metabolites), base)
      ensures protonGradient == old(protonGradient) && glycolysisRate == old(glycolysisRate)
    {
      ghost var s := metabolites;
      var r;
      r := AddMetabolite("nadh", 0.0, 1000.0);
      s := Added(s, "nadh", 0.0, 1000.0, base);
      assert metabolites == s;
      r := AddMetabolite("fadh2", 0.0, 1000.0);
      s := Added(s, "fadh2", 0.0, 1000.0, base);
      assert metabolites == s;
      r := AddMetabolite("atp", 0.0, 1000.0);
      s := Added(s, "atp", 0.0, 1000.0, base);
      assert metabolites == s;
      r := AddMetabolite("adp", 100.0, 1000.0);
      s := Added(s, "adp", 100.0, 1000.0, base);
      assert metabolites == s;
      r := AddMetabolite("oxygen", 1000.0, 1000.0);
      s := Added(s, "oxygen", 1000.0, 1000.0, base);
      assert metabolites == s;
      r := AddMetabolite("ubiquinone", 100.0, 1000.0);
      s := Added(s, "ubiquinone", 100.0, 1000.0, base);
      assert metabolites == s;
    }

    /** The last six additions of the constructor. */
    method AddLast()
      modifies this
      ensures metabolites == LastAdditions(old(metabolites), base)
      ensures protonGradient == old(protonGradient) && glycolysisRate == old(glycolysisRate)
    {
      ghost var s := metabolites;
      var r;
      r := AddMetabolite("ubiquinol", 0.0, 1000.0);
      s := Added(s, "ubiquinol", 0.0, 1000.0, base);
      assert metabolites == s;
      r := AddMetabolite("cytochrome_c_oxidized", 100.0, 1000.0);
      s := Added(s, "cytochrome_c_oxidized", 100.0, 1000.0, base);
      assert metabolites == s;
      r := AddMetabolite("cytochrome_c_reduced", 0.0, 1000.0);
      s := Added(s, "cytochrome_c_reduced", 0.0, 1000.0, base);
      assert metabolites == s;
      r := AddMetabolite("co2", 0.0, 1000000.0);
      s := Added(s, "co2", 0.0, 1000000.0, base);
      assert metabolites == s;
      r := AddMetabolite("calcium", 0.0, 1000.0);
      s := Added(s, "calcium", 0.0, 1000.0, base);
      assert metabolites == s;
      r := AddMetabolite("oxaloacetate", 0.0, 1000.0);
      s := Added(s, "oxaloacetate", 0.0, 1000.0, base);
      assert metabolites == s;
    }

    /**
     * The inherited `add_metabolite`: the merging base class raises
     * ValueError for a quantity outside [0, max_quantity] and changes
     * nothing; the replacing one never checks.
     */
    method AddMetabolite(name: string, quantity: real, maxQuantity: real) returns (r: Outcome)
      modifies this
      ensures protonGradient == old(protonGradient) && glycolysisRate == old(glycolysisRate)
      ensures 0.0 <= quantity <= maxQuantity ==>
        r == Done && metabolites == Added(old(metabolites), name, quantity, maxQuantity, base)
      ensures !(0.0 <= quantity <= maxQuantity) && base == Merging ==>
        r == Raised(ValueError) && metabolites == old(metabolites)
      ensures !(0.0 <= quantity <= maxQuantity) && base == Replacing ==>
        r == Done && metabolites == old(metabolites)[name := Entry(name, quantity, maxQuantity)]
    {
      if base == Merging {
        var m := PyologyOrganelle.Merge(metabolites, name, quantity, maxQuantity);
        if m.Raise? {
          return Raised(m.error);
        }
        metabolites := m.value;
      } else {
        metabolites := metabolites[name := Entry(name, quantity, maxQuantity)];
      }
      r := Done;
    }

    /** `change_metabolite_quantity`: create at 0 if absent, clamp at 0, return the change made. */
    method ChangeMetaboliteQuantity(name: string, amount: real) returns (r: real)
      modifies this
      ensures metabolites == Clamp(old(metabolites), name, amount).0
      ensures r == Clamp(old(metabolites), name, amount).1
      ensures protonGradient == old(protonGradient) && glycolysisRate == old(glycolysisRate)
    {
      if name !in metabolites {
        metabolites := metabolites[name := Entry(name, 0.0, CreatedCapacity)];
      }
      var current := metabolites[name].quantity;
      var q := Max(current + amount, 0.0);
      r := q - current;
      metabolites := metabolites[name := metabolites[name].(quantity := q)];
    }

    /**
     * `consume_metabolites`: decrease each item in order, recording the
     * change made; at the first shortfall undo every recorded change and the
     * failing one, and answer False.
     */
    method ConsumeMetabolites(items: Items) returns (ok: bool)
      modifies this
      ensures (metabolites, ok) == Consume(old(metabolites), items)
      ensures protonGradient == old(protonGradient) && glycolysisRate == old(glycolysisRate)
    {
      ghost var goal := Consume(old(metabolites), items);
      var log: Items := [];
      var i := 0;
      while i < |items|
        invariant 0 <= i <= |items|
        invariant Consumed(metabolites, items, i, log, Restore) == goal
        invariant protonGradient == old(protonGradient) && glycolysisRate == old(glycolysisRate)
        decreases |items| - i
      {
        var name, amount := items[i].0, items[i].1;
        ghost var before := metabolites;
        var change := ChangeMetaboliteQuantity(name, -amount);
        ghost var c := (metabolites, change);
        if Abs(change) < Abs(amount) {
          ConsumedStops(before, items, i, log, c);
          log := log + [(name, change)];
          RollBack(log);
          return false;
        }
        ConsumedContinues(before, items, i, log, c);
        log := log + [(name, change)];
        i := i + 1;
      }
      ok := true;
    }

    /** The revert loop: every recorded change is reversed, in the order recorded. */
    method RollBack(log: Items)
      modifies this
      ensures metabolites == RolledBack(old(metabolites), log, 0, Restore)
      ensures protonGradient == old(protonGradient) && glycolysisRate == old(glycolysisRate)
    {
      var i := 0;
      while i < |log|
        invariant 0 <= i <= |log|
        invariant RolledBack(metabolites, log, i, Restore) == RolledBack(old(metabolites), log, 0, Restore)
        invariant protonGradient == old(protonGradient) && glycolysisRate == old(glycolysisRate)
        decreases |log| - i
      {
        var _ := ChangeMetaboliteQuantity(log[i].0, -log[i].1);
        i := i + 1;
      }
    }

    /** `produce_metabolites`: increase each item in order through the clamped change. */
    method ProduceMetabolites(items: Items)
      modifies this
      ensures metabolites == Produced(old(metabolites), items, 0)
      ensures protonGradient == old(protonGradient) && glycolysisRate == old(glycolysisRate)
    {
      var i := 0;
      while i < |items|
        invariant 0 <= i <= |items|
        invariant Produced(metabolites, items, i) == Produced(old(metabolites), items, 0)
        invariant protonGradient == old(protonGradient) && glycolysisRate == old(glycolysisRate)
        decreases |items| - i
      {
        var _ := ChangeMetaboliteQuantity(items[i].0, items[i].1);
        i := i + 1;
      }
    }

    /** `is_metabolite_available` as intended: a look-up in the metabolites dict. */
    method IsMetaboliteAvailable(name: string, amount: real) returns (r: bool)
      ensures r == Available(metabolites, name, amount)
    {
      r := name in metabolites && metabolites[name].quantity >= amount;
    }

    /**
     * `update_proton_gradient`: add the pumped protons, then take off the leak
     * at that gradient, never below 0. The pyology copy returns the new
     * gradient; the cell_modeling copy returns None.
     */
    method UpdateProtonGradient(pumped: real, leak: real -> real) returns (r: Option<real>)
      modifies this
      ensures protonGradient == UpdatedGradient(old(protonGradient), pumped, leak)
      ensures r == if base == Merging then Some(protonGradient) else None
      ensures metabolites == old(metabolites) && glycolysisRate == old(glycolysisRate)
    {
      protonGradient := protonGradient + pumped;
      var l := leak(protonGradient);
      protonGradient := Max(0.0, protonGradient - l);
      r := if base == Merging then Some(protonGradient) else None;
    }

    method ComplexI(leak: real -> real) returns (r: real)
      modifies this
      ensures (State(), r) == Mitochondria.ComplexI(old(State()), leak)
      ensures glycolysisRate == old(glycolysisRate)
    {
      var a := IsMetaboliteAvailable("nadh", 1.0);
      var b := a;
      if a {
        b := IsMetaboliteAvailable("ubiquinone", 1.0);
      }
      if b {
        var rate := Min(metabolites["nadh"].quantity, metabolites["ubiquinone"].quantity);
        r := ComplexIAt(rate, leak);
        return;
      }
      r := 0.0;
    }

    /** Complex I at a fixed rate: one consume call, and on success the produce call and the gradient update. */
    method ComplexIAt(rate: real, leak: real -> real) returns (r: real)
      modifies this
      ensures (State(), r) == Mitochondria.ComplexIAt(old(State()), rate, leak)
      ensures glycolysisRate == old(glycolysisRate)
    {
      var ok := ConsumeMetabolites([("nadh", rate), ("ubiquinone", rate)]);
      if ok {
        ProduceMetabolites([("ubiquinol", rate)]);
        var _ := UpdateProtonGradient(ProtonsPerNadh * rate, leak);
        return rate;
      }
      r := 0.0;
    }

    method ComplexII() returns (r: real)
      modifies this
      ensures (State(), r) == Mitochondria.ComplexII(old(State()))
      ensures glycolysisRate == old(glycolysisRate)
    {
      var a := IsMetaboliteAvailable("fadh2", 1.0);
      var b := a;
      if a {
        b := IsMetaboliteAvailable("ubiquinone", 1.0);
      }
      if b {
        var rate := Min(metabolites["fadh2"].quantity, metabolites["ubiquinone"].quantity);
        r := ComplexIIAt(rate);
        return;
      }
      r := 0.0;
    }

    /** Complex II at a fixed rate: one consume call, and on success the produce call. */
    method ComplexIIAt(rate: real) returns (r: real)
      modifies this
      ensures (State(), r) == Mitochondria.ComplexIIAt(old(State()), rate)
      ensures glycolysisRate == old(glycolysisRate)
    {
      var ok := ConsumeMetabolites([("fadh2", rate), ("ubiquinone", rate)]);
      if ok {
        ProduceMetabolites([("ubiquinol", rate)]);
        return rate;
      }
      r := 0.0;
    }

    method ComplexIII(leak: real -> real) returns (r: real)
      modifies this
      ensures (State(), r) == Mitochondria.ComplexIII(old(State()), leak)
      ensures glycolysisRate == old(glycolysisRate)
    {
      var a := IsMetaboliteAvailable("ubiquinol", 1.0);
      var b := a;
      if a {
        b := IsMetaboliteAvailable("cytochrome_c_oxidized", 1.0);
      }
      if b {
        var rate := Min(metabolites["ubiquinol"].quantity, metabolites["cytochrome_c_oxidized"].quantity);
        r := ComplexIIIAt(rate, leak);
        return;
      }
      r := 0.0;
    }

    /** Complex III at a fixed rate: one consume call, and on success the produce call and the gradient update. */
    method ComplexIIIAt(rate: real, leak: real -> real) returns (r: real)
      modifies this
      ensures (State(), r) == Mitochondria.ComplexIIIAt(old(State()), rate, leak)
      ensures glycolysisRate == old(glycolysisRate)
    {
      var ok := ConsumeMetabolites([("ubiquinol", rate), ("cytochrome_c_oxidized", rate)]);
      if ok {
        ProduceMetabolites([("ubiquinone", rate), ("cytochrome_c_reduced", rate)]);
        var _ := UpdateProtonGradient(ProtonsPerFadh2 * rate, leak);
        return rate;
      }
      r := 0.0;
    }

    /** `complex_IV`: its failure branch reads the oxygen entry, so oxygen must be present. */
    method ComplexIV(leak: real -> real) returns (r: real)
      requires "oxygen" in metabolites
      modifies this
      ensures (State(), r) == Mitochondria.ComplexIV(old(State()), leak)
      ensures glycolysisRate == old(glycolysisRate)
    {
      var a := IsMetaboliteAvailable("cytochrome_c_reduced", 1.0);
      var b := a;
      if a {
        b := IsMetaboliteAvailable("oxygen", 0.5);
      }
      if b {
        var rate := Min(metabolites["cytochrome_c_reduced"].quantity, metabolites["oxygen"].quantity * 2.0);
        r := ComplexIVAt(rate, leak);
        return;
      }
      r := 0.0;
    }

    /** Complex IV at a fixed rate: one consume call, and on success the produce call and the gradient update. */
    method ComplexIVAt(rate: real, leak: real -> real) returns (r: real)
      modifies this
      ensures (State(), r) == Mitochondria.ComplexIVAt(old(State()), rate, leak)
      ensures glycolysisRate == old(glycolysisRate)
    {
      var ok := ConsumeMetabolites([("cytochrome_c_reduced", rate), ("oxygen", rate / 2.0)]);
      if ok {
        ProduceMetabolites([("cytochrome_c_oxidized", rate)]);
        var _ := UpdateProtonGradient(ProtonsPerFadh2 * rate, leak);
        return rate;
      }
      r := 0.0;
    }

    method AtpSynthase() returns (r: real)
      requires "adp" in metabolites
      modifies this
      ensures (State(), r) == Mitochondria.AtpSynthase(old(State()))
      ensures glycolysisRate == old(glycolysisRate)
    {
      var possible := Int(protonGradient / ProtonsPerAtp) as real;
      var produced := Min(possible, metabolites["adp"].quantity);
      var ok := ConsumeMetabolites([("adp", produced)]);
      if ok {
        ProduceMetabolites([("atp", produced)]);
        protonGradient := protonGradient - produced * ProtonsPerAtp;
        return produced;
      }
      r := 0.0;
    }

    method ReplenishUbiquinone()
      requires "ubiquinone" in metabolites && "ubiquinol" in metabolites
      modifies this
      ensures metabolites == Replenish(old(metabolites), "ubiquinone", "ubiquinol")
      ensures protonGradient == old(protonGradient) && glycolysisRate == old(glycolysisRate)
    {
      var amount := Min(metabolites["ubiquinol"].quantity,
        metabolites["ubiquinone"].maxQuantity - metabolites["ubiquinone"].quantity);
      var _ := ChangeMetaboliteQuantity("ubiquinone", amount);
      var _ := ChangeMetaboliteQuantity("ubiquinol", -amount);
    }

    method ReplenishCytochromeC()
      requires "cytochrome_c_oxidized" in metabolites && "cytochrome_c_reduced" in metabolites
      modifies this
      ensures metabolites == Replenish(old(metabolites), "cytochrome_c_oxidized", "cytochrome_c_reduced")
      ensures protonGradient == old(protonGradient) && glycolysisRate == old(glycolysisRate)
    {
      var amount := Min(metabolites["cytochrome_c_reduced"].quantity,
        metabolites["cytochrome_c_oxidized"].maxQuantity - metabolites["cytochrome_c_oxidized"].quantity);
      var _ := ChangeMetaboliteQuantity("cytochrome_c_oxidized", amount);
      var _ := ChangeMetaboliteQuantity("cytochrome_c_reduced", -amount);
    }

    /**
     * `oxidative_phosphorylation`: without oxygen nothing happens; otherwise
     * the four complexes run, then the synthase, then both replenishments,
     * and the ATP made is returned. The unused `cytoplasmic_nadh_used`
     * parameter of both copies is left out.
     */
    method OxidativePhosphorylation(leak: real -> real) returns (r: real)
      requires Valid()
      modifies this
      ensures Valid()
      ensures (State(), r) == OxPhos(old(State()), leak)
      ensures glycolysisRate == old(glycolysisRate)
    {
      if metabolites["oxygen"].quantity <= 0.0 {
        return 0.0;
      }
      var _ := ComplexI(leak);
      var _ := ComplexII();
      var _ := ComplexIII(leak);
      var _ := ComplexIV(leak);
      r := AtpSynthase();
      ReplenishUbiquinone();
      ReplenishCytochromeC();
    }

    method BufferCalcium(request: real) returns (r: real)
      requires "calcium" in metabolites
      modifies this
      ensures (metabolites, r) == Mitochondria.BufferCalcium(old(metabolites), request)
      ensures protonGradient == old(protonGradient) && glycolysisRate == old(glycolysisRate)
    {
      r := Min(request, metabolites["calcium"].maxQuantity - metabolites["calcium"].quantity);
      var _ := ChangeMetaboliteQuantity("calcium", r);
    }

    method ReleaseCalcium(amount: real) returns (r: real)
      requires "calcium" in metabolites
      modifies this
      ensures (metabolites, r) == Mitochondria.ReleaseCalcium(old(metabolites), amount)
      ensures protonGradient == old(protonGradient) && glycolysisRate == old(glycolysisRate)
    {
      r := Min(amount, metabolites["calcium"].quantity);
      var _ := ChangeMetaboliteQuantity("calcium", -r);
    }

    /** `transfer_cytoplasmic_nadh`: the cell_modeling copy goes through the clamped change, the pyology copy adds directly. */
    method TransferCytoplasmicNadh(n: real) returns (r: int)
      requires base == Merging ==> "nadh" in metabolites
      modifies this
      ensures base == Replacing ==> (metabolites, r) == TransferNadh(old(metabolites), n)
      ensures base == Merging ==> (metabolites, r) == TransferNadhDirect(old(metabolites), n)
      ensures protonGradient == old(protonGradient) && glycolysisRate == old(glycolysisRate)
    {
      r := Int(n * ShuttleEfficiency);
      if base == Replacing {
        var _ := ChangeMetaboliteQuantity("nadh", r as real);
      } else {
        metabolites := metabolites["nadh" := metabolites["nadh"].(quantity := metabolites["nadh"].quantity + r as real)];
      }
    }

    method PyruvateToAcetylCoa(pyruvate: real) returns (r: real)
      modifies this
      ensures (metabolites, r) == Mitochondria.PyruvateToAcetylCoa(old(metabolites), pyruvate)
      ensures protonGradient == old(protonGradient) && glycolysisRate == old(glycolysisRate)
    {
      var _ := ChangeMetaboliteQuantity("nadh", pyruvate);
      var _ := ChangeMetaboliteQuantity("co2", pyruvate);
      r := pyruvate;
    }
  }
}
