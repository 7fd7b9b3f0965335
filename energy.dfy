/**
 * pyology/energy_calculations.py: energy states are weighted sums over an
 * energy table, reading each metabolite with a default of 0 and accepting
 * plain numbers or objects that carry a quantity.
 */
module Energy {
  import opened Common

  /** A store value: a plain number, an object with a `quantity`, or anything else. */
  datatype Value = Number(x: real) | HasQuantity(quantity: real) | Unsupported

  type Store = map<string, Value>

  /** An energy table, in its dictionary's order: metabolite name and energy per unit. */
  type Table = seq<(string, real)>

  const CellTable: Table := [("ATP", 50.0), ("proton_gradient", 5.0)]
  const ProtonGradientEnergy: real := 5.0

  const GlycolysisTable: Table := [
    ("ATP", 50.0), ("ADP", 30.0), ("glucose", 686.0), ("glucose_6_phosphate", 916.0),
    ("fructose_6_phosphate", 916.0), ("fructose_1_6_bisphosphate", 1146.0),
    ("glyceraldehyde_3_phosphate", 573.0), ("bisphosphoglycerate_1_3", 803.0),
    ("phosphoglycerate_3", 573.0), ("phosphoglycerate_2", 573.0),
    ("phosphoenolpyruvate", 803.0), ("pyruvate", 343.0)]

  /** `get_quantity`: numbers as they are, objects through `.quantity`, TypeError for anything else. */
  function GetQuantity(v: Value): (r: Result<real>)
    ensures r.Raise? <==> v.Unsupported?
    ensures r.Raise? ==> r.error == TypeError
    ensures r.Ok? ==> r.value == if v.Number? then v.x else v.quantity
  {
    match v
    case Number(x) => Ok(x)
    case HasQuantity(q) => Ok(q)
    case Unsupported => Raise(TypeError)
  }

  /** `metabolites.get(name, 0)`. */
  function Lookup(m: Store, name: string): Value
  {
    if name in m then m[name] else Number(0.0)
  }

  /** One term of the sum: the value's quantity times the energy per unit. */
  function Weighted(v: Value, energy: real): Result<real>
  {
    var q := GetQuantity(v);
    if q.Raise? then q else Ok(Times(q.value, energy))
  }

  /** `calculate_base_energy_state`: the sum, in table order, of quantity times energy. */
  function BaseEnergy(m: Store, table: Table): (r: Result<real>)
    ensures table == [] ==> r == Ok(0.0)
    ensures r.Raise? ==> r.error == TypeError
  {
    if table == [] then Ok(0.0)
    else
      var n := |table| - 1;
      var rest := BaseEnergy(m, table[..n]);
      var term := Weighted(Lookup(m, table[n].0), table[n].1);
      if rest.Raise? then rest
      else if term.Raise? then term
      else Ok(rest.value + term.value)
  }

  predicate SupportedFor(m: Store, table: Table)
  {
    forall i :: 0 <= i < |table| ==> !Lookup(m, table[i].0).Unsupported?
  }

  /** The sum raises, with TypeError, exactly when some table metabolite holds an unsupported value. */
  lemma {:induction false} BaseEnergyRaises(m: Store, table: Table)
    ensures BaseEnergy(m, table).Raise? <==> !SupportedFor(m, table)
    ensures BaseEnergy(m, table).Raise? ==> BaseEnergy(m, table).error == TypeError
  {
    if table != [] {
      var n := |table| - 1;
      BaseEnergyRaises(m, table[..n]);
      assert forall i :: 0 <= i < n ==> table[..n][i] == table[i];
    }
  }

  /** An empty store has energy 0 under any table (absent metabolites count as 0). */
  lemma {:induction false} EmptyStoreEnergy(table: Table)
    ensures BaseEnergy(map[], table) == Ok(0.0)
  {
    if table != [] {
      EmptyStoreEnergy(table[..|table| - 1]);
    }
  }

  /** An empty table gives 0 whatever the store. */
  lemma EmptyTableEnergy(m: Store)
    ensures BaseEnergy(m, []) == Ok(0.0)
  {
  }

  /** Only the table's metabolites matter: stores that agree on them have the same energy. */
  lemma {:induction false} OnlyTableMatters(m1: Store, m2: Store, table: Table)
    requires forall i :: 0 <= i < |table| ==> Lookup(m1, table[i].0) == Lookup(m2, table[i].0)
    ensures BaseEnergy(m1, table) == BaseEnergy(m2, table)
  {
    if table != [] {
      var n := |table| - 1;
      assert forall i :: 0 <= i < n ==> table[..n][i] == table[i];
      OnlyTableMatters(m1, m2, table[..n]);
      assert Lookup(m1, table[n].0) == Lookup(m2, table[n].0);
    }
  }

  predicate DistinctNames(table: Table)
  {
    forall i, j :: 0 <= i < j < |table| ==> table[i].0 != table[j].0
  }

  /**
   * Linearity: raising the table metabolite at position j by `delta` raises the
   * energy by `delta` times its energy per unit.
   */
  lemma {:induction false} RaiseOneMetabolite(m: Store, table: Table, j: nat, q: real, delta: real)
    requires DistinctNames(table) && j < |table|
    requires GetQuantity(Lookup(m, table[j].0)) == Ok(q)
    requires BaseEnergy(m, table).Ok?
    ensures BaseEnergy(m[table[j].0 := Number(q + delta)], table)
      == Ok(BaseEnergy(m, table).value + Times(delta, table[j].1))
  {
    var k := table[j].0;
    var m' := m[k := Number(q + delta)];
    var n := |table| - 1;
    var init := table[..n];
    assert forall i :: 0 <= i < n ==> init[i] == table[i];
    BaseEnergyRaises(m, table);
    BaseEnergyRaises(m, init);
    if j < n {
      RaiseOneMetabolite(m, init, j, q, delta);
      assert table[n].0 != k;
      assert Lookup(m', table[n].0) == Lookup(m, table[n].0);
    } else {
      assert forall i :: 0 <= i < n ==> init[i].0 != k;
      OnlyTableMatters(m, m', init);
      var e := table[n].1;
      assert Lookup(m', k) == Number(q + delta);
      assert Weighted(Lookup(m', k), e) == Ok(Times(q + delta, e));
      assert Weighted(Lookup(m, k), e) == Ok(Times(q, e));
      assert Times(q + delta, e) == Times(q, e) + Times(delta, e);
    }
  }

  /** `calculate_cell_energy_state`: both compartments under the cell table, plus 5 per gradient unit. */
  function CellEnergy(cytoplasm: Store, mitochondrion: Store, protonGradient: Value): (r: Result<real>)
    ensures r.Raise? <==>
      !SupportedFor(cytoplasm, CellTable) || !SupportedFor(mitochondrion, CellTable) || protonGradient.Unsupported?
    ensures r.Raise? ==> r.error == TypeError
  {
    BaseEnergyRaises(cytoplasm, CellTable);
    BaseEnergyRaises(mitochondrion, CellTable);
    var c := BaseEnergy(cytoplasm, CellTable);
    var m := BaseEnergy(mitochondrion, CellTable);
    var g := GetQuantity(protonGradient);
    if c.Raise? then c
    else if m.Raise? then m
    else if g.Raise? then Raise(g.error)
    else Ok(c.value + m.value + g.value * ProtonGradientEnergy)
  }

  /**
   * With numeric ATP in each compartment and no proton-gradient entries in
   * either store, the cell energy is 50 per ATP plus 5 per gradient unit.
   */
  lemma CellEnergyValue(cytoplasm: Store, mitochondrion: Store, a1: real, a2: real, gradient: real)
    requires GetQuantity(Lookup(cytoplasm, "ATP")) == Ok(a1)
    requires GetQuantity(Lookup(mitochondrion, "ATP")) == Ok(a2)
    requires "proton_gradient" !in cytoplasm && "proton_gradient" !in mitochondrion
    ensures CellEnergy(cytoplasm, mitochondrion, Number(gradient)) == Ok(50.0 * a1 + 50.0 * a2 + 5.0 * gradient)
  {
    CellTableEnergy(cytoplasm, a1);
    CellTableEnergy(mitochondrion, a2);
  }

  lemma CellTableEnergy(m: Store, a: real)
    requires GetQuantity(Lookup(m, "ATP")) == Ok(a) && "proton_gradient" !in m
    ensures BaseEnergy(m, CellTable) == Ok(50.0 * a)
  {
    assert CellTable[..1] == [("ATP", 50.0)] && [("ATP", 50.0)][..0] == [];
    assert BaseEnergy(m, [("ATP", 50.0)]) == Ok(0.0 + a * 50.0);
    assert Weighted(Lookup(m, "proton_gradient"), 5.0) == Ok(0.0);
  }

  /** `calculate_glycolysis_energy_state`. */
  function GlycolysisEnergy(organelle: Store): (r: Result<real>)
    ensures r.Raise? <==> !SupportedFor(organelle, GlycolysisTable)
    ensures r.Raise? ==> r.error == TypeError
  {
    BaseEnergyRaises(organelle, GlycolysisTable);
    BaseEnergy(organelle, GlycolysisTable)
  }

  /** An organelle holding none of the glycolysis metabolites has glycolysis energy 0. */
  lemma GlycolysisEnergyOfOthers(organelle: Store)
    requires forall i :: 0 <= i < |GlycolysisTable| ==> GlycolysisTable[i].0 !in organelle
    ensures GlycolysisEnergy(organelle) == Ok(0.0)
  {
    OnlyTableMatters(organelle, map[], GlycolysisTable);
    EmptyStoreEnergy(GlycolysisTable);
  }

  /** `calculate_total_adenine_nucleotides`: ATP + ADP + AMP, absent ones as 0. */
  function TotalAdenineNucleotides(m: Store): (r: Result<real>)
    ensures r.Raise? <==> Lookup(m, "ATP").Unsupported? || Lookup(m, "ADP").Unsupported? || Lookup(m, "AMP").Unsupported?
    ensures r.Raise? ==> r.error == TypeError
    ensures "ATP" !in m && "ADP" !in m && "AMP" !in m ==> r == Ok(0.0)
  {
    var atp := GetQuantity(Lookup(m, "ATP"));
    var adp := GetQuantity(Lookup(m, "ADP"));
    var amp := GetQuantity(Lookup(m, "AMP"));
    if atp.Raise? then atp
    else if adp.Raise? then adp
    else if amp.Raise? then amp
    else Ok(atp.value + adp.value + amp.value)
  }

  /** Moving an amount from ATP to ADP (or back, with a negative amount) leaves the total unchanged. */
  lemma AdenineTransfer(m: Store, atp: real, adp: real, amount: real)
    requires GetQuantity(Lookup(m, "ATP")) == Ok(atp) && GetQuantity(Lookup(m, "ADP")) == Ok(adp)
    ensures TotalAdenineNucleotides(m["ATP" := Number(atp - amount)]["ADP" := Number(adp + amount)])
      == TotalAdenineNucleotides(m)
  {
    assert "ATP" != "ADP" && "ATP" != "AMP" && "ADP" != "AMP";
  }
}
