/**
 * pyology/observers.py: one observer clamps negative metabolite quantities to
 * zero in both compartments of a cell; the other records the cell's adenine
 * nucleotide total on its first call and warns whenever a later total drifts
 * from it by more than 1e-6.
 */
module Observers {
  import opened Common

  /** A compartment's metabolites, by name, as their quantities. */
  type Quantities = map<string, real>

  /** The two compartments an observer looks at. */
  class Cell {
    var cytoplasm: Quantities
    var mitochondrion: Quantities

    constructor(cytoplasm: Quantities, mitochondrion: Quantities)
      ensures this.cytoplasm == cytoplasm && this.mitochondrion == mitochondrion
    {
      this.cytoplasm := cytoplasm;
      this.mitochondrion := mitochondrion;
    }
  }

  /** A compartment after the negative-quantity observer. */
  function Clamped(m: Quantities): (r: Quantities)
    ensures r.Keys == m.Keys
    ensures forall k :: k in r ==> r[k] >= 0.0
  {
    map k | k in m :: if m[k] < 0.0 then 0.0 else m[k]
  }

  /** The metabolites the observer warns about. */
  function Negatives(m: Quantities): set<string>
  {
    set k | k in m && m[k] < 0.0
  }

  /** Afterwards every quantity is non-negative, and the same metabolites are held. */
  lemma ClampedNonNegative(m: Quantities)
    ensures Clamped(m).Keys == m.Keys
    ensures forall k :: k in Clamped(m) ==> Clamped(m)[k] >= 0.0
  {
  }

  /** Negative quantities become exactly 0; the others are untouched. */
  lemma ClampedExactly(m: Quantities)
    ensures forall k :: k in m && m[k] < 0.0 ==> Clamped(m)[k] == 0.0
    ensures forall k :: k in m && m[k] >= 0.0 ==> Clamped(m)[k] == m[k]
  {
  }

  /** Observing twice leaves the same state as observing once, and the second pass warns about nothing. */
  lemma ClampedIdempotent(m: Quantities)
    ensures Clamped(Clamped(m)) == Clamped(m)
    ensures Negatives(Clamped(m)) == {}
  {
  }

  /** The loop over one compartment's items, clamping each negative quantity in place. */
  method ClampCompartment(m: Quantities) returns (clamped: Quantities, warned: set<string>)
    ensures clamped == Clamped(m)
    ensures warned == Negatives(m)
  {
    clamped, warned := m, {};
    var remaining := m.Keys;
    while remaining != {}
      invariant remaining <= m.Keys && clamped.Keys == m.Keys
      invariant forall k :: k in remaining ==> clamped[k] == m[k]
      invariant forall k :: k in m && k !in remaining ==> clamped[k] == Clamped(m)[k]
      invariant warned == Negatives(m) - remaining
      decreases |remaining|
    {
      var k :| k in remaining;
      if clamped[k] < 0.0 {
        warned := warned + {k};
        clamped := clamped[k := 0.0];
      }
      remaining := remaining - {k};
    }
  }

  /** `NegativeMetaboliteObserver.observe`: the cytoplasm, then the mitochondrion. */
  method ObserveNegatives(cell: Cell) returns (cytoplasmWarnings: set<string>, mitochondrionWarnings: set<string>)
    modifies cell
    ensures cell.cytoplasm == Clamped(old(cell.cytoplasm))
    ensures cell.mitochondrion == Clamped(old(cell.mitochondrion))
    ensures cytoplasmWarnings == Negatives(old(cell.cytoplasm))
    ensures mitochondrionWarnings == Negatives(old(cell.mitochondrion))
  {
    cell.cytoplasm, cytoplasmWarnings := ClampCompartment(cell.cytoplasm);
    cell.mitochondrion, mitochondrionWarnings := ClampCompartment(cell.mitochondrion);
  }

  const Tolerance: real := 0.000001

  /** One compartment's ATP + ADP + AMP; a missing entry raises KeyError. */
  function CompartmentTotal(m: Quantities): (r: Result<real>)
    ensures r.Raise? <==> !("ATP" in m && "ADP" in m && "AMP" in m)
    ensures r.Raise? ==> r.error == KeyError
  {
    if "ATP" in m && "ADP" in m && "AMP" in m then Ok(m["ATP"] + m["ADP"] + m["AMP"]) else Raise(KeyError)
  }

  /** `_calculate_total_adenine_nucleotides`: the sum over both compartments. */
  function TotalAdenine(cytoplasm: Quantities, mitochondrion: Quantities): (r: Result<real>)
    ensures r.Raise? <==> CompartmentTotal(cytoplasm).Raise? || CompartmentTotal(mitochondrion).Raise?
    ensures r.Ok? ==> r.value == CompartmentTotal(cytoplasm).value + CompartmentTotal(mitochondrion).value
  {
    var c := CompartmentTotal(cytoplasm);
    var m := CompartmentTotal(mitochondrion);
    if c.Raise? then c else if m.Raise? then m else Ok(c.value + m.value)
  }

  /** Converting an amount of ADP into ATP (or back) inside a compartment keeps its total. */
  lemma ConversionKeepsTotal(m: Quantities, amount: real)
    requires "ATP" in m && "ADP" in m && "AMP" in m
    ensures CompartmentTotal(m["ATP" := m["ATP"] + amount]["ADP" := m["ADP"] - amount]) == CompartmentTotal(m)
  {
    assert "ATP" != "ADP" && "ADP" != "AMP" && "ATP" != "AMP";
  }

  /** The warning condition `abs(current - initial) > 1e-6`. */
  function Imbalanced(current: real, initial: real): (r: bool)
    ensures r <==> current - initial > Tolerance || initial - current > Tolerance
  {
    (if current >= initial then current - initial else initial - current) > Tolerance
  }

  /** The first observation, which records its own total, never warns; nor does a drift within tolerance. */
  lemma NoWarningWithinTolerance(current: real, initial: real)
    requires -Tolerance <= current - initial <= Tolerance
    ensures !Imbalanced(current, initial)
  {
  }

  class AdenineNucleotideBalanceObserver {
    var initialBalance: Option<real>

    constructor()
      ensures initialBalance == None
    {
      initialBalance := None;
    }

    /**
     * `observe`: a KeyError from the total changes nothing; otherwise the first
     * call records the total, later calls keep the recorded one, and the
     * result says whether a warning is logged.
     */
    method Observe(cell: Cell) returns (warning: Result<bool>)
      modifies this
      ensures TotalAdenine(cell.cytoplasm, cell.mitochondrion).Raise? ==>
        warning == Raise(KeyError) && initialBalance == old(initialBalance)
      ensures TotalAdenine(cell.cytoplasm, cell.mitochondrion).Ok? ==>
        var current := TotalAdenine(cell.cytoplasm, cell.mitochondrion).value;
        initialBalance == (if old(initialBalance).None? then Some(current) else old(initialBalance))
        && warning == Ok(Imbalanced(current, initialBalance.value))
    {
      var total := TotalAdenine(cell.cytoplasm, cell.mitochondrion);
      if total.Raise? {
        return Raise(total.error);
      }
      if initialBalance.None? {
        initialBalance := Some(total.value);
      }
      warning := Ok(Imbalanced(total.value, initialBalance.value));
    }
  }
}
