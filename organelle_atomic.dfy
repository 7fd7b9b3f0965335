/**
 * cell_modeling/pyology/organelle.py: the Organelle whose add_metabolite
 * replaces entries and whose consume/produce validate every item before
 * changing any.
 */
module AtomicOrganelle {
  import opened Common
  import opened Stores

  /** The exception consume_metabolites raises for a rejected item. */
  function ConsumeError(f: Fault): Error
  {
    match f
    case Negative => QuantityError
    case Unknown => UnknownMetaboliteError
    case Insufficient => InsufficientMetaboliteError
    case OverCapacity => QuantityError
  }

  /** The exception produce_metabolites raises for a rejected item. */
  function ProduceError(f: Fault): Error
  {
    match f
    case Unknown => UnknownMetaboliteError
    case _ => QuantityError
  }

  /** The six metabolites the constructor adds, each with capacity 1000. */
  const InitialStore: Store := map[
    "glucose" := Entry("glucose", 0.0, 1000.0),
    "atp" := Entry("atp", 100.0, 1000.0),
    "adp" := Entry("adp", 0.0, 1000.0),
    "nad" := Entry("nad", 10.0, 1000.0),
    "nadh" := Entry("nadh", 0.0, 1000.0),
    "pyruvate" := Entry("pyruvate", 0.0, 1000.0)]

  class Organelle {
    var metabolites: Store
    var glycolysisRate: real

    constructor()
      ensures metabolites == InitialStore && glycolysisRate == 1.0
    {
      metabolites := InitialStore;
      glycolysisRate := 1.0;
    }

    /** `add_metabolite` replaces any existing entry, with no validation. */
    method AddMetabolite(name: string, quantity: real, maxQuantity: real)
      modifies this
      ensures metabolites == old(metabolites)[name := Entry(name, quantity, maxQuantity)]
      ensures glycolysisRate == old(glycolysisRate)
    {
      metabolites := metabolites[name := Entry(name, quantity, maxQuantity)];
    }

    method ChangeMetaboliteQuantity(name: string, amount: real) returns (r: Outcome)
      modifies this
      ensures glycolysisRate == old(glycolysisRate)
      ensures var c := CheckedChange(old(metabolites), name, amount);
        (c.Ok? ==> metabolites == c.value && r == Done) &&
        (c.Raise? ==> metabolites == old(metabolites) && r == Raised(c.error))
    {
      var c := CheckedChange(metabolites, name, amount);
      if c.Raise? {
        return Raised(c.error);
      }
      metabolites := c.value;
      return Done;
    }

    method IsMetaboliteAvailable(name: string, amount: real) returns (r: Result<bool>)
      ensures r == Availability(metabolites, name, amount, UnknownMetaboliteError)
    {
      r := Availability(metabolites, name, amount, UnknownMetaboliteError);
    }

    /**
     * Every item is checked (negative, unknown, short) before any is
     * decremented; a raise leaves the store as it was.
     */
    method ConsumeMetabolites(items: Items) returns (r: Result<bool>)
      modifies this
      ensures glycolysisRate == old(glycolysisRate)
      ensures var c := ValidateThenApply(old(metabolites), items, false);
        (c.Applied? ==> metabolites == c.store && r == Ok(true)) &&
        (c.Rejected? ==> metabolites == old(metabolites) && r == Raise(ConsumeError(c.fault)))
    {
      r := ApplyAfterValidation(items, false);
    }

    /** Every item is checked (negative, unknown, over capacity) before any is incremented. */
    method ProduceMetabolites(items: Items) returns (r: Result<bool>)
      modifies this
      ensures glycolysisRate == old(glycolysisRate)
      ensures var c := ValidateThenApply(old(metabolites), items, true);
        (c.Applied? ==> metabolites == c.store && r == Ok(true)) &&
        (c.Rejected? ==> metabolites == old(metabolites) && r == Raise(ProduceError(c.fault)))
    {
      r := ApplyAfterValidation(items, true);
    }

    /** The two loops both passes share: validate every item, then apply every item. */
    method ApplyAfterValidation(items: Items, produce: bool) returns (r: Result<bool>)
      modifies this
      ensures glycolysisRate == old(glycolysisRate)
      ensures var c := ValidateThenApply(old(metabolites), items, produce);
        (c.Applied? ==> metabolites == c.store && r == Ok(true)) &&
        (c.Rejected? ==>
          metabolites == old(metabolites) &&
          r == Raise(if produce then ProduceError(c.fault) else ConsumeError(c.fault)))
    {
      var f := FindFault(metabolites, items, produce);
      if f.Some? {
        return Raise(if produce then ProduceError(f.value.1) else ConsumeError(f.value.1));
      }
      FirstFaultNone(metabolites, items, produce, 0);
      metabolites := ApplyEach(metabolites, items, if produce then 1.0 else -1.0);
      return Ok(true);
    }

    /** `function` is abstract in the base class. */
    method Function() returns (r: Outcome)
      ensures r == Raised(NotImplementedError)
    {
      return Raised(NotImplementedError);
    }
  }
}
