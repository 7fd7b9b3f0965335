/**
 * pyology/cytoplasm.py: glycolysis records the adenine nucleotides, runs the
 * external glycolysis routine, and then takes the net ATP gained out of ADP,
 * topping ADP up from AMP when there is not enough, before asserting that the
 * adenine total is unchanged. The external routine is not part of this model:
 * the store it leaves behind and the pyruvate it reports are inputs.
 */
module PyologyCytoplasm {
  import opened Common
  import opened Stores
  import PyologyOrganelle

  const Atp: string := "ATP"
  const Adp: string := "ADP"
  const Amp: string := "AMP"
  const Tolerance: real := 0.000001

  /** The three adenine nucleotide quantities. */
  datatype Adenine = Adenine(atp: real, adp: real, amp: real)

  function Total(a: Adenine): real
  {
    a.atp + a.adp + a.amp
  }

  predicate HasAdenine(s: Store)
  {
    Atp in s && Adp in s && Amp in s
  }

  function AdenineOf(s: Store): Adenine
    requires HasAdenine(s)
  {
    Adenine(s[Atp].quantity, s[Adp].quantity, s[Amp].quantity)
  }

  /** The store with the three quantities written back (capacities are not checked). */
  function WithAdenine(s: Store, a: Adenine): Store
    requires HasAdenine(s)
  {
    WithQuantity(WithQuantity(WithQuantity(s, Atp, a.atp), Adp, a.adp), Amp, a.amp)
  }

  /** The ADP still needed after the ADP on hand has been used up. */
  function Shortfall(a: Adenine, initialAtp: real): real
  {
    (a.atp - initialAtp) - a.adp
  }

  /**
   * The adjustment as written: ADP pays for the net ATP when it can;
   * otherwise half the shortfall is taken from AMP and ADP ends at 0;
   * otherwise InsufficientMetaboliteError.
   */
  function AdjustAsWritten(a: Adenine, initialAtp: real): (r: Result<Adenine>)
    ensures r.Raise? <==> a.adp < a.atp - initialAtp && a.amp < Shortfall(a, initialAtp) / 2.0
    ensures r.Raise? ==> r.error == InsufficientMetaboliteError
    ensures r.Ok? ==> r.value.atp == a.atp
    ensures r.Ok? && a.adp < a.atp - initialAtp ==>
      r.value.adp == 0.0 && Total(r.value) == Total(a) - (a.atp - initialAtp) + Shortfall(a, initialAtp) / 2.0
  {
    var net := a.atp - initialAtp;
    if a.adp >= net then Ok(a.(adp := a.adp - net))
    else
      var needed := net - a.adp;
      if a.amp >= needed / 2.0 then Ok(a.(amp := a.amp - needed / 2.0, adp := a.adp + needed - net))
      else Raise(InsufficientMetaboliteError)
  }

  /**
   * The AMP branch as written creates adenine: if the routine only raised
   * ATP, the total after the adjustment exceeds the initial total by half the
   * shortfall, so the conservation assert fails whenever the shortfall
   * exceeds 2e-6.
   */
  lemma AmpBranchCreatesAdenine(initial: Adenine, net: real)
    requires initial.adp < net && initial.amp >= (net - initial.adp) / 2.0
    ensures AdjustAsWritten(initial.(atp := initial.atp + net), initial.atp).Ok?
    ensures Total(AdjustAsWritten(initial.(atp := initial.atp + net), initial.atp).value)
      == Total(initial) + (net - initial.adp) / 2.0
  {
  }

  /** A concrete case: 2 ATP gained with no ADP and 10 AMP leaves the total 1 higher. */
  lemma AmpBranchAssertFails()
    ensures AdjustAsWritten(Adenine(12.0, 0.0, 10.0), 10.0) == Ok(Adenine(12.0, 0.0, 9.0))
    ensures Total(Adenine(12.0, 0.0, 9.0)) - Total(Adenine(10.0, 0.0, 10.0)) == 1.0
  {
  }

  /**
   * The adjustment with the AMP branch read as adenylate kinase
   * (AMP + ATP -> 2 ADP): half the shortfall comes from AMP and half from ATP,
   * which is the pairing the halving in the code implies and which keeps the
   * total.
   */
  function Adjust(a: Adenine, initialAtp: real): (r: Result<Adenine>)
    ensures r.Raise? <==> a.adp < a.atp - initialAtp && a.amp < Shortfall(a, initialAtp) / 2.0
    ensures r.Raise? ==> r.error == InsufficientMetaboliteError
  {
    var net := a.atp - initialAtp;
    if a.adp >= net then Ok(a.(adp := a.adp - net))
    else
      var needed := net - a.adp;
      if a.amp >= needed / 2.0 then
        Ok(Adenine(a.atp - needed / 2.0, a.adp + needed - net, a.amp - needed / 2.0))
      else Raise(InsufficientMetaboliteError)
  }

  /**
   * Each successful adjustment removes exactly the net ATP gain from the
   * total, leaves ADP non-negative, and uses AMP only when ADP fell short,
   * in which case ADP ends at 0.
   */
  lemma AdjustSpec(a: Adenine, initialAtp: real)
    requires Adjust(a, initialAtp).Ok?
    ensures Total(Adjust(a, initialAtp).value) == Total(a) - (a.atp - initialAtp)
    ensures Adjust(a, initialAtp).value.adp >= 0.0
    ensures a.adp >= a.atp - initialAtp ==> Adjust(a, initialAtp).value == a.(adp := a.adp - (a.atp - initialAtp))
    ensures a.adp < a.atp - initialAtp ==> Adjust(a, initialAtp).value.adp == 0.0
  {
  }

  /** So when the routine changed only ATP, the adjusted total equals the total before glycolysis. */
  lemma AdjustConserves(initial: Adenine, net: real)
    requires Adjust(initial.(atp := initial.atp + net), initial.atp).Ok?
    ensures Total(Adjust(initial.(atp := initial.atp + net), initial.atp).value) == Total(initial)
  {
    AdjustSpec(initial.(atp := initial.atp + net), initial.atp);
  }

  /** The conservation assert: the totals agree to within 1e-6. */
  predicate Balanced(before: Adenine, after: Adenine)
  {
    -Tolerance < Total(after) - Total(before) < Tolerance
  }

  /**
   * What `glycolysis` leaves: the final store and the returned pyruvate or the
   * exception. The reads happen in the code's order, so a store the routine
   * leaves without AMP raises KeyError only after ADP has paid for the net ATP
   * gain, when it could.
   */
  function Glycolysed(s: Store, performed: Store, pyruvate: real): (r: (Store, Result<real>))
    ensures !HasAdenine(s) ==> r == (s, Raise(KeyError))
    ensures HasAdenine(s) && (Atp !in performed || Adp !in performed) ==> r == (performed, Raise(KeyError))
    ensures HasAdenine(s) && Atp in performed && Adp in performed && Amp !in performed ==>
      var net := performed[Atp].quantity - s[Atp].quantity;
      r.1 == Raise(KeyError) &&
      (performed[Adp].quantity >= net ==> r.0 == WithQuantity(performed, Adp, performed[Adp].quantity - net)) &&
      (performed[Adp].quantity < net ==> r.0 == performed)
    ensures r.1.Raise? ==> r.1.error == KeyError || r.1.error == InsufficientMetaboliteError || r.1.error == AssertionError
    ensures r.1.Ok? ==> HasAdenine(r.0) && Balanced(AdenineOf(s), AdenineOf(r.0))
  {
    if !HasAdenine(s) then (s, Raise(KeyError))
    else if Atp !in performed || Adp !in performed then (performed, Raise(KeyError))
    else if Amp !in performed then
      var net := performed[Atp].quantity - s[Atp].quantity;
      if performed[Adp].quantity >= net then (WithQuantity(performed, Adp, performed[Adp].quantity - net), Raise(KeyError))
      else (performed, Raise(KeyError))
    else
      var initial := AdenineOf(s);
      var adjusted := Adjust(AdenineOf(performed), initial.atp);
      if adjusted.Raise? then (performed, Raise(adjusted.error))
      else if Balanced(initial, adjusted.value) then (WithAdenine(performed, adjusted.value), Ok(pyruvate))
      else (WithAdenine(performed, adjusted.value), Raise(AssertionError))
  }

  /**
   * The returned value is the routine's pyruvate unchanged; an
   * InsufficientMetaboliteError leaves the routine's changes in place; and no
   * metabolite but the three adenine nucleotides is touched by the adjustment.
   */
  lemma GlycolysedSpec(s: Store, performed: Store, pyruvate: real)
    ensures Glycolysed(s, performed, pyruvate).1.Ok? ==> Glycolysed(s, performed, pyruvate).1.value == pyruvate
    ensures Glycolysed(s, performed, pyruvate).1 == Raise(InsufficientMetaboliteError) ==>
      Glycolysed(s, performed, pyruvate).0 == performed
    ensures HasAdenine(s) ==> Glycolysed(s, performed, pyruvate).0.Keys == performed.Keys
    ensures HasAdenine(s) ==> forall k :: k in performed && k != Atp && k != Adp && k != Amp ==>
      Glycolysed(s, performed, pyruvate).0[k] == performed[k]
  {
  }

  /**
   * A routine that leaves no AMP: with 10 ATP, 10 ADP and 10 AMP before and
   * 12 ATP, 10 ADP after, ADP pays for the 2 ATP gained and ends at 8 before
   * the AMP read raises KeyError.
   */
  lemma MissingAmpAfterAdpPaid()
    ensures var s := map[Atp := Entry(Atp, 10.0, 1000.0), Adp := Entry(Adp, 10.0, 1000.0), Amp := Entry(Amp, 10.0, 1000.0)];
      var performed := map[Atp := Entry(Atp, 12.0, 1000.0), Adp := Entry(Adp, 10.0, 1000.0)];
      var r := Glycolysed(s, performed, 0.0);
      r.1 == Raise(KeyError) && Adp in r.0 && r.0[Adp].quantity == 8.0 && Amp !in r.0
  {
  }

  /** When the routine changed only ATP and the adjustment succeeds, the conservation assert passes. */
  lemma OnlyAtpChangedPasses(s: Store, net: real, pyruvate: real)
    requires HasAdenine(s)
    requires Adjust(AdenineOf(s).(atp := AdenineOf(s).atp + net), AdenineOf(s).atp).Ok?
    ensures Glycolysed(s, WithQuantity(s, Atp, s[Atp].quantity + net), pyruvate).1 == Ok(pyruvate)
  {
    var performed := WithQuantity(s, Atp, s[Atp].quantity + net);
    assert AdenineOf(performed) == AdenineOf(s).(atp := AdenineOf(s).atp + net);
    AdjustConserves(AdenineOf(s), net);
  }

  /**
   * A new cytoplasm holds the base organelle's six lower-case entries, none of
   * which is "ATP", "ADP" or "AMP": glycolysis on it raises KeyError on its
   * first read, whatever the routine would do, and leaves the store as it was.
   */
  lemma FreshCytoplasmRaisesKeyError(performed: Store, pyruvate: real)
    ensures Glycolysed(PyologyOrganelle.InitialStore, performed, pyruvate) ==
      (PyologyOrganelle.InitialStore, Raise(KeyError))
  {
    assert Atp !in PyologyOrganelle.InitialStore by {
      assert PyologyOrganelle.InitialStore.Keys == {"glucose", "atp", "adp", "nad", "nadh", "pyruvate"};
    }
  }

  /**
   * Glycolysis becomes reachable once the inherited `add_metabolite` has added
   * the three upper-case nucleotides: the store then holds them with the
   * quantities given.
   */
  lemma AddedAdenineReadable(atp: real, adp: real, amp: real, cap: real)
    requires 0.0 <= atp <= cap && 0.0 <= adp <= cap && 0.0 <= amp <= cap
    ensures var s1 := PyologyOrganelle.Merge(PyologyOrganelle.InitialStore, Atp, atp, cap);
      s1.Ok? &&
      var s2 := PyologyOrganelle.Merge(s1.value, Adp, adp, cap);
      s2.Ok? &&
      var s3 := PyologyOrganelle.Merge(s2.value, Amp, amp, cap);
      s3.Ok? && HasAdenine(s3.value) && AdenineOf(s3.value) == Adenine(atp, adp, amp)
  {
    FreshCytoplasmRaisesKeyError(map[], 0.0);
    assert Adp !in PyologyOrganelle.InitialStore && Amp !in PyologyOrganelle.InitialStore by {
      assert PyologyOrganelle.InitialStore.Keys == {"glucose", "atp", "adp", "nad", "nadh", "pyruvate"};
    }
  }

  class Cytoplasm {
    var metabolites: Store
    var glycolysisRate: real

    /** `__init__` only calls the base constructor of pyology/organelle.py. */
    constructor()
      ensures metabolites == PyologyOrganelle.InitialStore && glycolysisRate == 1.0
    {
      metabolites := PyologyOrganelle.InitialStore;
      glycolysisRate := 1.0;
    }

    /** `reset` re-runs `__init__`. */
    method Reset()
      modifies this
      ensures metabolites == PyologyOrganelle.InitialStore && glycolysisRate == 1.0
    {
      metabolites := PyologyOrganelle.InitialStore;
      glycolysisRate := 1.0;
    }

    /** The inherited `add_metabolite`: merge into the store, or ValueError with nothing changed. */
    method AddMetabolite(name: string, quantity: real, maxQuantity: real) returns (r: Outcome)
      modifies this
      ensures glycolysisRate == old(glycolysisRate)
      ensures var a := PyologyOrganelle.Merge(old(metabolites), name, quantity, maxQuantity);
        (a.Ok? ==> metabolites == a.value && r == Done) &&
        (a.Raise? ==> metabolites == old(metabolites) && r == Raised(a.error))
    {
      var a := PyologyOrganelle.Merge(metabolites, name, quantity, maxQuantity);
      if a.Raise? {
        return Raised(a.error);
      }
      metabolites := a.value;
      return Done;
    }

    /** `glycolysis`: `performed` and `pyruvateProduced` are what the external routine left and returned. */
    method Glycolysis(glucoseConsumed: real, performed: Store, pyruvateProduced: real) returns (r: Result<real>)
      modifies this
      ensures metabolites == Glycolysed(old(metabolites), performed, pyruvateProduced).0
      ensures r == Glycolysed(old(metabolites), performed, pyruvateProduced).1
    {
      if !HasAdenine(metabolites) {
        return Raise(KeyError);
      }
      var initial := AdenineOf(metabolites);
      metabolites := performed;
      if Atp !in metabolites || Adp !in metabolites {
        return Raise(KeyError);
      }
      var netAtp := metabolites[Atp].quantity - initial.atp;
      if metabolites[Adp].quantity >= netAtp && Amp !in metabolites {
        metabolites := WithQuantity(metabolites, Adp, metabolites[Adp].quantity - netAtp);
        return Raise(KeyError);
      }
      if Amp !in metabolites {
        return Raise(KeyError);
      }
      var a := AdenineOf(metabolites);
      ghost var adjusted := Adjust(a, initial.atp);
      if a.adp >= netAtp {
        a := a.(adp := a.adp - netAtp);
      } else {
        var adpNeeded := netAtp - a.adp;
        if a.amp >= adpNeeded / 2.0 {
          a := Adenine(a.atp - adpNeeded / 2.0, a.adp + adpNeeded - netAtp, a.amp - adpNeeded / 2.0);
        } else {
          return Raise(InsufficientMetaboliteError);
        }
      }
      assert adjusted == Ok(a);
      metabolites := WithAdenine(metabolites, a);
      if !(-Tolerance < Total(a) - Total(initial) < Tolerance) {
        return Raise(AssertionError);
      }
      return Ok(pyruvateProduced);
    }
  }
}
