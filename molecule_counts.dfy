/**
 * cell_modeling/cell_modeling/cytoplasm.py: the cytoplasm as integer counts
 * of named molecules. Adding treats an absent molecule as 0; removing
 * succeeds only when enough is held, deletes an entry that reaches 0, and
 * otherwise changes nothing; a reaction removes one of each reactant, then
 * adds one of each product.
 */
module MoleculeCounts {
  type Counts = map<string, int>

  /** `molecules.get(molecule, 0)`. */
  function Get(m: Counts, molecule: string): int
  {
    if molecule in m then m[molecule] else 0
  }

  /** The counts after `add_molecule`. */
  function Added(m: Counts, molecule: string, quantity: int): (r: Counts)
    ensures r.Keys == m.Keys + {molecule}
    ensures Get(r, molecule) == Get(m, molecule) + quantity
    ensures forall k :: k != molecule ==> Get(r, k) == Get(m, k)
  {
    m[molecule := Get(m, molecule) + quantity]
  }

  /** The guard of `remove_molecule`. */
  predicate Enough(m: Counts, molecule: string, quantity: int)
  {
    molecule in m && m[molecule] >= quantity
  }

  /** The counts after `remove_molecule`. */
  function Removed(m: Counts, molecule: string, quantity: int): (r: Counts)
    ensures r.Keys <= m.Keys
    ensures Enough(m, molecule, quantity) ==> Get(r, molecule) == m[molecule] - quantity
    ensures !Enough(m, molecule, quantity) ==> r == m
    ensures forall k :: k != molecule ==> Get(r, k) == Get(m, k)
  {
    if Enough(m, molecule, quantity) then
      if m[molecule] - quantity == 0 then m - {molecule} else m[molecule := m[molecule] - quantity]
    else m
  }

  predicate NonNegative(m: Counts)
  {
    forall k :: k in m ==> m[k] >= 0
  }

  /** Adding raises the molecule's count (absent meaning 0) by the quantity and touches nothing else. */
  lemma AddedCounts(m: Counts, molecule: string, quantity: int)
    ensures Added(m, molecule, quantity).Keys == m.Keys + {molecule}
    ensures Added(m, molecule, quantity)[molecule] == Get(m, molecule) + quantity
    ensures forall k :: k in m && k != molecule ==> Added(m, molecule, quantity)[k] == m[k]
  {
  }

  /**
   * Removing with enough held lowers the count by the quantity, dropping the
   * entry when it reaches 0; an absent or insufficient molecule leaves the map as it was.
   */
  lemma RemovedCounts(m: Counts, molecule: string, quantity: int)
    ensures !Enough(m, molecule, quantity) ==> Removed(m, molecule, quantity) == m
    ensures Enough(m, molecule, quantity) ==>
      Get(Removed(m, molecule, quantity), molecule) == m[molecule] - quantity
      && (molecule in Removed(m, molecule, quantity) <==> m[molecule] != quantity)
    ensures forall k :: k != molecule ==>
      (k in Removed(m, molecule, quantity) <==> k in m)
      && (k in m ==> Removed(m, molecule, quantity)[k] == m[k])
  {
  }

  /** Counts never go negative for non-negative quantities. */
  lemma StaysNonNegative(m: Counts, molecule: string, quantity: int)
    requires NonNegative(m) && quantity >= 0
    ensures NonNegative(Added(m, molecule, quantity))
    ensures NonNegative(Removed(m, molecule, quantity))
  {
  }

  /**
   * Adding a quantity and then removing it restores the map, unless the
   * molecule was held with a count of 0 (an entry `add_molecule(m, 0)` leaves),
   * which the removal deletes.
   */
  lemma AddThenRemoveRestores(m: Counts, molecule: string, quantity: int)
    requires NonNegative(m)
    requires molecule in m ==> m[molecule] > 0
    ensures Removed(Added(m, molecule, quantity), molecule, quantity) == m
  {
    var a := Added(m, molecule, quantity);
    assert Enough(a, molecule, quantity);
    if molecule !in m {
      assert a - {molecule} == m;
    } else {
      assert a[molecule := m[molecule]] == m;
    }
  }

  /** The excluded case: a zero entry does not survive adding then removing one. */
  lemma ZeroEntryNotRestored()
    ensures Removed(Added(map["x" := 0], "x", 1), "x", 1) == map[]
  {
    assert map["x" := 0]["x" := 1] - {"x"} == map[];
  }

  /** The removal loop of `simulate_reaction`: one of each reactant, in order. */
  function RemovedEach(m: Counts, reactants: seq<string>): Counts
  {
    if reactants == [] then m else Removed(RemovedEach(m, reactants[..|reactants| - 1]), reactants[|reactants| - 1], 1)
  }

  /** The addition loop of `simulate_reaction`: one of each product, in order. */
  function AddedEach(m: Counts, products: seq<string>): Counts
  {
    if products == [] then m else Added(AddedEach(m, products[..|products| - 1]), products[|products| - 1], 1)
  }

  /** A whole reaction keeps counts non-negative: first the removals, then the additions. */
  lemma {:induction false} RemovedEachNonNegative(m: Counts, reactants: seq<string>)
    requires NonNegative(m)
    ensures NonNegative(RemovedEach(m, reactants))
  {
    if reactants != [] {
      RemovedEachNonNegative(m, reactants[..|reactants| - 1]);
      StaysNonNegative(RemovedEach(m, reactants[..|reactants| - 1]), reactants[|reactants| - 1], 1);
    }
  }

  lemma {:induction false} AddedEachNonNegative(m: Counts, products: seq<string>)
    requires NonNegative(m)
    ensures NonNegative(AddedEach(m, products))
  {
    if products != [] {
      AddedEachNonNegative(m, products[..|products| - 1]);
      StaysNonNegative(AddedEach(m, products[..|products| - 1]), products[|products| - 1], 1);
    }
  }

  /** Each product gains exactly its number of occurrences among the products, missing reactants or not. */
  lemma {:induction false} AddedEachCounts(m: Counts, products: seq<string>, k: string)
    ensures Get(AddedEach(m, products), k) == Get(m, k) + multiset(products)[k]
  {
    if products != [] {
      var init := products[..|products| - 1];
      AddedEachCounts(m, init, k);
      assert products == init + [products[|products| - 1]];
    }
  }

  /** A missing reactant is skipped, and the products are still made. */
  lemma MissingReactantStillProduces()
    ensures AddedEach(RemovedEach(map[], ["A"]), ["B"]) == map["B" := 1]
  {
    assert ["A"][..0] == [] && ["B"][..0] == [];
  }

  class Cytoplasm {
    var molecules: Counts

    constructor()
      ensures molecules == map[]
    {
      molecules := map[];
    }

    /** `add_molecule`; the quantity defaults to 1. */
    method AddMolecule(molecule: string, quantity: int := 1)
      modifies this
      ensures molecules == Added(old(molecules), molecule, quantity)
    {
      molecules := molecules[molecule := (if molecule in molecules then molecules[molecule] else 0) + quantity];
    }

    /** `remove_molecule`; the quantity defaults to 1. */
    method RemoveMolecule(molecule: string, quantity: int := 1)
      modifies this
      ensures molecules == Removed(old(molecules), molecule, quantity)
    {
      if molecule in molecules && molecules[molecule] >= quantity {
        molecules := molecules[molecule := molecules[molecule] - quantity];
        if molecules[molecule] == 0 {
          molecules := molecules - {molecule};
        }
      }
    }

    /** `simulate_reaction`: the rate constant is not used. */
    method SimulateReaction(reactants: seq<string>, products: seq<string>, rateConstant: real)
      modifies this
      ensures molecules == AddedEach(RemovedEach(old(molecules), reactants), products)
    {
      for i := 0 to |reactants|
        invariant molecules == RemovedEach(old(molecules), reactants[..i])
      {
        assert reactants[..i + 1][..i] == reactants[..i];
        RemoveMolecule(reactants[i]);
      }
      assert reactants[..|reactants|] == reactants;
      ghost var afterRemoval := molecules;
      for i := 0 to |products|
        invariant molecules == AddedEach(afterRemoval, products[..i])
      {
        assert products[..i + 1][..i] == products[..i];
        AddMolecule(products[i]);
      }
      assert products[..|products|] == products;
    }
  }
}
