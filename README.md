# AgentCell metabolite bookkeeping, in Dafny

This project models the core of AgentCell, a Python simulation of a cell's
energy metabolism. At its centre are organelles that hold metabolites with
bounded quantities. Glycolysis, the Krebs cycle and the electron transport
chain move those quantities around, through several overlapping copies of a
"metabolite store", each with its own failure semantics. The model puts the
copies side by side and proves, for each one:

- which calls succeed;
- by exactly how much each quantity moves;
- what is left behind when a call raises;
- which sums a pathway keeps (ATP + ADP, NAD+ + NADH, ubiquinone + ubiquinol,
  the two cytochrome c forms);
- which bounds it respects.

Quantities are Python floats, modelled as `real`. `int()` on a non-negative
value is modelled as the floor. Keyword arguments become ordered sequences of
`(name, amount)` pairs, so the order in which Python iterates a dict is kept.
A raised exception becomes a `Result`, `Outcome` or `Partial` value of module
`Common`. `Partial` carries the state the raise left behind, which matters
wherever the code changes state before it raises.

An object whose methods update its fields is a Dafny `class` with those
fields. Every method's postcondition ties the new state to a function of the
old state, and the properties are lemmas about those functions.

## Modules

| module | file | models |
|---|---|---|
| `Common` | common.dfy | results and errors, `min`/`max`, `int()`, ASCII lower-casing |
| `Stores` | stores.dfy | a metabolite map with validate-then-apply consume and produce, shared by the atomic copies |
| `MetaboliteStore` | metabolite.dfy | pyology/metabolite.py: `Metabolite` with `[min_quantity, max_quantity]` bounds, and the case-insensitive `Metabolites` dictionary |
| `PyologyOrganelle` | organelle.dfy | pyology/organelle.py: the merging `add_metabolite`, and consume/produce applied item by item (not atomic) |
| `AtomicOrganelle` | organelle_atomic.dfy | cell_modeling/pyology/organelle.py: the replacing `add_metabolite`, and consume/produce that validate every item first |
| `Kinetics` | kinetics.dfy | pyology/utils.py and pyology/enzymes.py: Michaelis–Menten, Hill with a natural exponent, multiplicative allosteric regulation |
| `Reactions` | reaction.dfy | pyology/reaction.py: the rate-limited stoichiometric step |
| `Mitochondria`, `MitochondrionObject` | mitochondrion.dfy, mito_object.dfy | both mitochondrion.py copies: a store whose changes clamp at zero, the complexes, ATP synthase, replenishment, calcium buffering; the object and its two bases |
| `Krebs` | krebs.dfy | pyology/krebs_cycle.py: bounded metabolites plus unbounded cofactors, the eight steps, the cycle and its generators |
| `Pathways` | pathways.dfy | pyology/pathways.py: the ten glycolysis steps over an organelle and their schedule |
| `PyologyCytoplasm` | pyology_cytoplasm.dfy | pyology/cytoplasm.py: the ADP/AMP adjustment after glycolysis |
| `StepwiseCytoplasm` | stepwise_cytoplasm.dfy | cell_modeling/pyology/cytoplasm.py and cell_modeling/cell_modeling/organelles/cytoplasm.py: glycolysis as ten step methods |
| `CappedCell` | capped_cell.dfy | cell_modeling/cell_modeling/organelles/mitochondrion.py: the older cell of integer counters with caps |
| `MoleculeCounts` | molecule_counts.dfy | cell_modeling/cell_modeling/cytoplasm.py: a count multiset |
| `Energy`, `Observers`, `Tracking` | energy.dfy, observers.dfy, tracker.dfy | energy sums, the clamp and balance observers, the metric tracker |
| `Ribosome`, `GeneExpression`, `Nucleus`, `Golgi`, `Lysosome`, `Cytoskeleton`, `Reticulum` | ribosome.dfy, gene.dfy, nucleus.dfy, golgi.dfy, lysosome.dfy, cytoskeleton.dfy, reticulum.dfy | the small containers and string code |

Three files have an identical copy elsewhere in the repository, and each
module models both copies:

- `Ribosome`: both ribosome.py files;
- `Cytoskeleton`: both cytoskeleton.py files;
- `Reticulum`: both endoplasmic_reticulum.py files.

## Notes on the code as it stands

- **The store copies differ.**
  - pyology/organelle.py applies consume and produce one item at a time, so
    a raise part-way leaves the earlier items applied
    (`PyologyOrganelle.ConsumeInOrderPartial`).
  - cell_modeling/pyology/organelle.py, pathways.py and the stepwise
    cytoplasm validate every item first, so a raise changes nothing.
  - Both mitochondrion.py copies clamp a change at zero instead of raising.
  - krebs_cycle.py leaves its cofactors unbounded.
- **The two bases of the Mitochondrion.** The pyology copy extends
  pyology/organelle.py, whose `add_metabolite` merges, so it starts with
  100 ATP. The cell_modeling copy extends cell_modeling/pyology/organelle.py,
  whose `add_metabolite` replaces, so it starts with 0 ATP. `update_proton_gradient`
  returns the gradient in the pyology copy and `None` in the other.
  `MitochondrionObject.Base` selects the copy.
- **The glycolysis pathway (pyology/pathways.py).** Its steps call
  `organelle.get_metabolite_quantity`, which pyology/organelle.py does not
  define. The model reads the organelle's store directly, and an unknown
  name raises UnknownMetaboliteError (`Pathways.Read`).
- **The Krebs cycle.**
  - pyology/data.py is not part of this model, so the enzyme table is a
    constructor parameter.
  - A freshly built cycle has no Acetyl-CoA in its store, so `run_cycle`
    raises KeyError (`Krebs.FreshCycleCannotStart`).
  - The `else False` branches of its consume and produce cannot be reached.
- **The pyology cytoplasm (pyology/cytoplasm.py).** Its constructor and
  `reset` only run the base constructor, whose six entries are lower-case.
  `glycolysis` reads "ATP", "ADP" and "AMP", so on a new or reset object it
  raises KeyError (`PyologyCytoplasm.FreshCytoplasmRaisesKeyError`). It can
  run only after `add_metabolite` has added the three upper-case nucleotides
  (`PyologyCytoplasm.AddedAdenineReadable`).
  - Step 4's regulated activity can go negative, and the step then raises
    ValueError (`Krebs.OverInhibitedStepRaises`).
- **The stepwise cytoplasms.**
  - Their glycolysis takes units + 1 glucose and runs the steps once,
    whatever the input.
  - The pyology copy's ten steps add 6 pyruvate, because steps 8, 9 and 10
    each yield 2 (`StepwiseCytoplasm.PyologyGlycolysisEffect`). The older
    copy adds 2 (`StepwiseCytoplasm.OrganelleGlycolysisEffect`).
  - MetaboliteError and its subclasses derive from Exception, not
    ValueError, so `except ValueError` lets UnknownMetaboliteError and
    QuantityError through.
  - A fresh pyology copy cannot complete glycolysis
    (`StepwiseCytoplasm.FreshPyologyGlycolysisFails`).
- **The older cytoplasm cannot run as written.** In
  cell_modeling/cell_modeling/organelles/cytoplasm.py, the base class of
  cell_modeling/cell_modeling/organelles/organelle.py has no metabolite
  store. Its metaclass also demands a `function` method that this cytoplasm
  lacks, and the `GlycolysisSteps` it imports from its sibling
  mitochondrion.py does not exist. The model gives this cytoplasm the store
  operations of cell_modeling/pyology/organelle.py.
- **The capped cell.**
  - `Cytoplasm.glycolysis` returns the running pyruvate total, and
    `produce_atp` hands that total to the mitochondrion.
  - ROS is never changed.
  - The clock is advanced a whole number of ticks (`CappedCell.Ticks`).
- **The tracker.** `log_energy` logs its three metrics at consecutive steps
  and advances the counter by 3. The repository's test expects step 0 for all
  three and a counter of 1. The model follows the code (`Tracking.LogEnergyFromStart`).

## Model

| member | source | states |
|---|---|---|
| Common.Int | pyology/mitochondrion.py:518 | Python's int() on a float truncates toward zero: the floor of a non-negative value, within 1 below it, and minus the floor of the negation for a negative one |
| Common.Lower | pyology/metabolite.py:360-383 | str.lower() on ASCII letters, keeping the length and lower-casing each character |
| Common.LowerIdempotent | pyology/metabolite.py:360-383 | lower-casing an already lower-cased key changes nothing |
| Stores.QuantityOf | pyology/mitochondrion.py:111-114 | a held metabolite's quantity, and 0 for an absent one, which the clamped change creates at 0 |
| Stores.WithQuantity | cell_modeling/pyology/organelle.py:113 | sets one quantity, keeping the names, that entry's capacity and every other entry |
| Stores.Availability | cell_modeling/pyology/organelle.py:115-118 | raises for an unknown name and otherwise answers whether the quantity is at least the amount |
| Stores.CheckedChange | cell_modeling/pyology/organelle.py:93-113 | succeeds exactly when the name is known and the result stays within [0, capacity], then adds exactly the amount; UnknownMetaboliteError or QuantityError otherwise |
| Stores.CheckedChangeKeepsBounded | cell_modeling/pyology/organelle.py:93-113 | a successful change keeps every quantity within [0, capacity] |
| Stores.ConsumeItemFault | cell_modeling/pyology/organelle.py:126-135 | an item passes the consume checks exactly when its amount is non-negative, its name known and its supply sufficient |
| Stores.ProduceItemFault | cell_modeling/pyology/organelle.py:148-158 | an item passes the produce checks exactly when its amount is non-negative, its name known and the result within capacity |
| Stores.FirstFaultNone | cell_modeling/pyology/organelle.py:121-135 | the validation loop finds no fault exactly when every item passes its check |
| Stores.AddAll | cell_modeling/pyology/organelle.py:138-139 | applying the items keeps the set of names |
| Stores.AddAllEffect | cell_modeling/pyology/organelle.py:138-139 | with distinct names each named quantity moves by exactly its signed amount, keeping its capacity, and unnamed entries are untouched |
| Stores.AddAllUntouched | cell_modeling/pyology/organelle.py:161-162 | applying items never touches an entry none of them names |
| Stores.ValidateThenApplySpec | cell_modeling/pyology/organelle.py:120-163 | the pass is all-or-nothing: it applies exactly when every item passes, then moves each named quantity by its amount, changes nothing else and keeps the store within bounds |
| Stores.ConsumeThenProduceRestores | cell_modeling/pyology/organelle.py:120-163 | producing exactly what was just consumed restores the store |
| Stores.FindFault | cell_modeling/pyology/organelle.py:121-135 | the validation loop returns the first item whose check fails, if any |
| Stores.ApplyEach | cell_modeling/pyology/organelle.py:138-139 | the update loop leaves every item's signed amount added in turn |
| PyologyOrganelle.Merge | pyology/organelle.py:164-176 | ValueError exactly for a negative quantity or one above max_quantity; otherwise the name is present afterwards, an existing entry gains the quantity capped at the max_quantity argument and keeps its stored capacity, and a new name gets a fresh entry |
| PyologyOrganelle.InitialStoreBuilt | pyology/organelle.py:104-111 | the six add_metabolite calls of the constructor all succeed and build exactly the six-entry starting store |
| PyologyOrganelle.MergeMayExceedStoredCapacity | pyology/organelle.py:172-174 | merging into an entry whose stored capacity is below the max_quantity argument can leave it above its own capacity |
| PyologyOrganelle.MergeKeepsBounded | pyology/organelle.py:164-176 | when the argument capacity is no larger than the stored one, a successful merge keeps every entry within [0, capacity] |
| PyologyOrganelle.ValidateInitialState | pyology/organelle.py:115-126 | passes exactly when every entry lies within [0, capacity] and the glycolysis rate is positive; otherwise ValueError |
| PyologyOrganelle.InitialStateValid | pyology/organelle.py:104-113 | the state the constructor builds passes its own validation, so construction never raises |
| PyologyOrganelle.ConsumeOne | pyology/organelle.py:239-244 | one consume step succeeds exactly when the name is known, the amount is available and the decrement stays in range, and then it is that checked change |
| PyologyOrganelle.ConsumeInOrder | pyology/organelle.py:239-244 | whether it finishes or raises, the set of metabolites is kept; every raise is UnknownMetaboliteError, InsufficientMetaboliteError or QuantityError |
| PyologyOrganelle.ProduceInOrder | pyology/organelle.py:255-256 | whether it finishes or raises, the set of metabolites is kept; every raise is UnknownMetaboliteError or QuantityError |
| PyologyOrganelle.ConsumeInOrderKeepsBounded | pyology/organelle.py:239-244 | consuming items one at a time, whether it finishes or raises part-way, keeps every entry within range and the set of names unchanged |
| PyologyOrganelle.ProduceInOrderKeepsBounded | pyology/organelle.py:255-256 | producing items one at a time, whether it finishes or raises part-way, keeps every entry within range and the set of names unchanged |
| PyologyOrganelle.ConsumeInOrderMatchesAtomic | pyology/organelle.py:239-244 | with distinct names and non-negative amounts, the one-at-a-time consume finishes iff every item passes the validate-first checks, and then its store is every amount subtracted once |
| PyologyOrganelle.ConsumeInOrderSucceedsIff | pyology/organelle.py:239-244 | with distinct names and non-negative amounts, the one-at-a-time consume finishes iff no item fails the per-item availability check against the starting store |
| PyologyOrganelle.ConsumeInOrderState | pyology/organelle.py:239-244 | a consume that finishes named only known metabolites and subtracted each amount exactly once |
| PyologyOrganelle.ConsumeOneMatchesFault | pyology/organelle.py:239-244 | for a non-negative amount one consume step succeeds iff the item passes the availability check, and then only that entry drops by the amount |
| PyologyOrganelle.LaterFaultsUnchanged | pyology/organelle.py:239-244 | consuming one item does not change whether any later, differently named item passes its check |
| PyologyOrganelle.ConsumeInOrderPartial | pyology/organelle.py:239-244 | consuming 10 ATP then 5 glucose from the starting store raises InsufficientMetaboliteError with the ATP already gone |
| PyologyOrganelle.ProduceInOrderPartial | pyology/organelle.py:255-256 | producing 10 ATP then 2000 glucose raises QuantityError with the ATP already added |
| PyologyOrganelle.ProduceInOrderExact | pyology/organelle.py:255-256 | with distinct names, a produce that finishes named only known metabolites and added each amount exactly once |
| PyologyOrganelle.Organelle.constructor | pyology/organelle.py:104-113 | the new organelle holds the starting six-entry store and a glycolysis rate of 1 |
| PyologyOrganelle.Organelle.ValidateInitialState | pyology/organelle.py:115-126 | passes exactly when every stored entry is within range and the rate is positive, else ValueError |
| PyologyOrganelle.Organelle.SetGlycolysisRate | pyology/organelle.py:142-144 | a non-positive rate raises ValueError and keeps the old rate; a positive one is stored; the metabolites are untouched |
| PyologyOrganelle.Organelle.AddMetabolite | pyology/organelle.py:146-176 | the store becomes the merge of the old store with the new entry, or stays as it was with ValueError |
| PyologyOrganelle.Organelle.ChangeMetaboliteQuantity | pyology/organelle.py:193-208 | UnknownMetaboliteError for a missing name, QuantityError for a result below zero or above capacity, each leaving the store unchanged; otherwise the entry takes the new quantity |
| PyologyOrganelle.Organelle.IsMetaboliteAvailable | pyology/organelle.py:226-228 | UnknownMetaboliteError for a missing name, otherwise whether the stored quantity covers the amount |
| PyologyOrganelle.Organelle.ConsumeMetabolites | pyology/organelle.py:239-244 | the store becomes the one-at-a-time consume of the items, including the partial state when an item raises, and the error is the one that item raised |
| PyologyOrganelle.Organelle.ProduceMetabolites | pyology/organelle.py:255-256 | the store becomes the one-at-a-time produce of the items, including the partial state when an item raises, and the error is the one that item raised |
| AtomicOrganelle.Organelle.constructor | cell_modeling/pyology/organelle.py:80-88 | the new organelle holds the six starting entries and a glycolysis rate of 1 |
| AtomicOrganelle.Organelle.AddMetabolite | cell_modeling/pyology/organelle.py:90-91 | the entry for the name is replaced by a fresh one with no validation, and nothing else changes |
| AtomicOrganelle.Organelle.ChangeMetaboliteQuantity | cell_modeling/pyology/organelle.py:98-113 | UnknownMetaboliteError for a missing name, QuantityError for a result out of range, each leaving the store unchanged; otherwise the entry takes the new quantity |
| AtomicOrganelle.Organelle.IsMetaboliteAvailable | cell_modeling/pyology/organelle.py:115-118 | UnknownMetaboliteError for a missing name, otherwise whether the stored quantity covers the amount |
| AtomicOrganelle.Organelle.ConsumeMetabolites | cell_modeling/pyology/organelle.py:120-140 | if any item is negative, unknown or short the store is unchanged and the first such item's error is raised; otherwise every amount is subtracted and the result is True |
| AtomicOrganelle.Organelle.ProduceMetabolites | cell_modeling/pyology/organelle.py:142-163 | if any item is negative, unknown or would overflow the store is unchanged and the first such item's error is raised; otherwise every amount is added and the result is True |
| AtomicOrganelle.Organelle.ApplyAfterValidation | cell_modeling/pyology/organelle.py:120-163 | the validate-then-apply pattern the two passes share: all-or-nothing, with the first rejected item's error |
| AtomicOrganelle.Organelle.Function | cell_modeling/pyology/organelle.py:165-166 | the base class's function always raises NotImplementedError |
| MetaboliteStore.NewMetabolite | pyology/metabolite.py:52-71 | the constructor keeps every argument and lower-cases the name |
| MetaboliteStore.AdjustQuantity | pyology/metabolite.py:81-90 | succeeds exactly when quantity + amount lies in [min_quantity, max_quantity], then sets it and fires the callback once if there is one; otherwise QuantityError |
| MetaboliteStore.AdjustRoundTrip | pyology/metabolite.py:81-90 | an accepted adjustment keeps the quantity in range and is undone by adjusting back |
| MetaboliteStore.ResetMetabolite | pyology/metabolite.py:92-96 | the quantity becomes exactly min_quantity, the callback fires once if there is one, and a consistent range is then respected |
| MetaboliteStore.PercentageFilled | pyology/metabolite.py:98-100 | ZeroDivisionError exactly for a zero capacity; otherwise the percentage times the capacity is 100 times the quantity, within [0, 100] for an in-range quantity |
| MetaboliteStore.ToDict | pyology/metabolite.py:102-111 | the record carries name, type, quantity, both bounds, unit and metadata |
| MetaboliteStore.FromDict | pyology/metabolite.py:113-122 | the type is always "default" and there is no callback; a missing minimum or unit takes its default |
| MetaboliteStore.DictRoundTrip | pyology/metabolite.py:102-122 | from_dict(to_dict(m)) gives back m except its type, reset to "default", and its callback |
| MetaboliteStore.ConstructedRoundTrip | pyology/metabolite.py:52-122 | a metabolite built by the constructor with the default type survives the round trip unchanged |
| MetaboliteStore.RegisterAsWritten | pyology/metabolite.py:183-194 | as written: ValueError exactly for a negative or above-capacity quantity |
| MetaboliteStore.RegisterOne | pyology/metabolite.py:183-194 | corrected (lower-cased membership test): ValueError exactly for a negative or above-capacity quantity |
| MetaboliteStore.RegisterOneSpec | pyology/metabolite.py:183-194 | corrected (lower-cased membership test): an existing entry in any letter case gains the quantity capped at its stored max_quantity and keeps everything else; a new name gets a fresh entry; nothing else changes; the ranges stay valid |
| MetaboliteStore.RegisterLoweredAgrees | pyology/metabolite.py:228-236 | on a lower-cased name, which is what the keyword form passes, the code as written and the corrected one agree |
| MetaboliteStore.RegisterCaseCounterexample | pyology/metabolite.py:189-194 | as written, registering "Glucose" while "glucose" is held replaces the entry with the new quantity alone, where the corrected test adds to it |
| MetaboliteStore.RegisterAllKeepsKeys | pyology/metabolite.py:227-236 | the keyword loop never removes a key, and raises exactly when some item is out of range, with the earlier items registered |
| MetaboliteStore.RegisterAll | pyology/metabolite.py:227-236 | every raise of the keyword loop is ValueError; the names it passes are lower-cased, where the corrected and the as-written test agree |
| MetaboliteStore.RegisterAllKnownKeepsKeys | pyology/metabolite.py:227-236 | a keyword call naming only metabolites already held, in any letter case, adds no key |
| MetaboliteStore.RegisterCall | pyology/metabolite.py:225-240 | corrected (lower-cased membership test): with neither a complete individual form nor keywords, ValueError and no change |
| MetaboliteStore.RegisterCallSpec | pyology/metabolite.py:225-240 | corrected (lower-cased membership test): the individual form raises ValueError, with nothing changed, exactly for an out-of-range quantity, and otherwise merges or creates that one entry and leaves the rest; the keyword form is the item loop, which never removes a key and raises exactly when an item is out of range; with neither form, ValueError and no change |
| MetaboliteStore.QuantityChange | pyology/metabolite.py:260-279 | UnknownMetaboliteError exactly for an absent lower-cased name; QuantityError when the result would leave [min_quantity, max_quantity]; otherwise the quantity rises by exactly the amount |
| MetaboliteStore.QuantityChangeKeepsRange | pyology/metabolite.py:260-279 | a successful change keeps every quantity in range |
| MetaboliteStore.Availability | pyology/metabolite.py:302-304 | UnknownMetaboliteError exactly for an absent lower-cased name; otherwise whether the quantity is at least the amount |
| MetaboliteStore.ConsumeChecksNone | pyology/metabolite.py:321-323 | the check loop passes exactly when every name is known and holds enough |
| MetaboliteStore.Consumption | pyology/metabolite.py:320-326 | corrected: a failed check raises its error with the store unchanged |
| MetaboliteStore.ConsumeAsWritten | pyology/metabolite.py:320-326 | as written: any non-empty call raises, through the missing is_metabolite_available, before changing anything |
| MetaboliteStore.ConsumeStep | pyology/metabolite.py:325-326 | a checked, in-range item is decremented by exactly its amount |
| MetaboliteStore.ChangeAll | pyology/metabolite.py:325-326 | changing items one at a time keeps the set of keys; every raise is UnknownMetaboliteError or QuantityError; a store in range stays in range |
| MetaboliteStore.ChangeAllUntouched | pyology/metabolite.py:325-326 | changing items one at a time keeps the keys and never touches an entry none of them names |
| MetaboliteStore.ChangeAllConsumes | pyology/metabolite.py:325-326 | distinct items that pass the checks are all decremented by exactly their amounts, with no raise |
| MetaboliteStore.ConsumeAllOrNothing | pyology/metabolite.py:320-326 | with floors at 0, a failed check leaves the store untouched; consume succeeds exactly when every item is available, and then each quantity drops by exactly its amount |
| MetaboliteStore.ConsumeFloorNotAtomic | pyology/metabolite.py:320-326 | with a positive floor the check ignores min_quantity, so a later decrement raises after an earlier one was applied |
| MetaboliteStore.ProduceAsWritten | pyology/metabolite.py:337-340 | as written: any non-empty call raises, at the first item, through an unknown name or the missing change_metabolite_quantity, and changes nothing |
| MetaboliteStore.ProduceIsChangeAll | pyology/metabolite.py:337-340 | corrected: the explicit membership test only repeats the check that change_quantity makes itself |
| MetaboliteStore.Production | pyology/metabolite.py:337-340 | corrected: the set of keys is kept; every raise is UnknownMetaboliteError or QuantityError; an unknown name anywhere among the items makes it raise |
| MetaboliteStore.ChangeAllKeepsRange | pyology/metabolite.py:337-340 | changing items in order keeps every quantity in range, whatever it raises |
| MetaboliteStore.ResetAll | pyology/metabolite.py:363-365 | every metabolite is reset to its min_quantity, and no key is added or removed |
| MetaboliteStore.Lookup | pyology/metabolite.py:360-361 | found exactly when the lower-cased key is held, giving that entry |
| MetaboliteStore.LookupCaseInsensitive | pyology/metabolite.py:360-383 | a value stored under a key is found again, and keys that differ only in letter case reach the same entry |
| MetaboliteStore.Metabolites.constructor | pyology/metabolite.py:159-163 | an empty store |
| MetaboliteStore.Metabolites.Register | pyology/metabolite.py:196-240 | corrected (lower-cased membership test): the new store and the raise are those of the register dispatch on the old store |
| MetaboliteStore.Metabolites.ChangeQuantity | pyology/metabolite.py:242-279 | either raises with the store unchanged or leaves exactly the changed store |
| MetaboliteStore.Metabolites.IsAvailable | pyology/metabolite.py:281-304 | UnknownMetaboliteError exactly for an absent lower-cased name, otherwise whether enough is held |
| MetaboliteStore.Metabolites.Consume | pyology/metabolite.py:306-326 | all checks first, then every decrement in order: the store and the raise of the corrected consume |
| MetaboliteStore.Metabolites.Produce | pyology/metabolite.py:328-340 | items changed in order, with the store and the raise of the corrected produce |
| MetaboliteStore.Metabolites.ValidateAll | pyology/metabolite.py:342-358 | ValueError exactly when some quantity lies outside its range |
| MetaboliteStore.Metabolites.Reset | pyology/metabolite.py:363-365 | every metabolite reset to its min_quantity |
| MetaboliteStore.Metabolites.Get | pyology/metabolite.py:360-361 | the entry under the lower-cased key, if any |
| MetaboliteStore.Metabolites.GetItem | pyology/metabolite.py:367-368 | KeyError exactly when the lower-cased key is absent; otherwise its entry |
| MetaboliteStore.Metabolites.Contains | pyology/metabolite.py:382-383 | whether the lower-cased key is held |
| MetaboliteStore.Metabolites.SetItem | pyology/metabolite.py:370-371 | stores the value under the lower-cased key, so every spelling of the key finds it |
| MetaboliteStore.Metabolites.DelItem | pyology/metabolite.py:373-374 | removes the lower-cased key, or raises KeyError with no change when it is absent; afterwards the key is not held |
| Kinetics.Saturation | pyology/utils.py:13 | the shared fraction v·a/(k+a): ZeroDivisionError exactly when k + a is zero, otherwise a value whose product with k + a is v·a |
| Kinetics.SaturationBounds | pyology/utils.py:13 | for a ≥ 0, k > 0, v > 0 the fraction is defined, lies in [0, v), is 0 at a = 0 and v/2 at a = k |
| Kinetics.SaturationMonotone | pyology/utils.py:13 | the fraction never decreases as a grows |
| Kinetics.MichaelisMenten | pyology/utils.py:11-13 | ZeroDivisionError exactly when km + S is zero; otherwise the rate times km + S equals vmax·S |
| Kinetics.MichaelisMentenBounds | pyology/utils.py:11-13 | for vmax > 0, km > 0, S ≥ 0 the rate is defined, below vmax and non-negative, 0 at S = 0 and half of vmax at S = km |
| Kinetics.MichaelisMentenMonotone | pyology/utils.py:11-13 | more substrate never gives a lower rate |
| Kinetics.PowMonotone | pyology/utils.py:31 | raising to a natural power preserves the order of non-negative bases |
| Kinetics.Hill | pyology/utils.py:29-31 | ZeroDivisionError exactly when Kⁿ + Sⁿ is zero; otherwise the rate times Kⁿ + Sⁿ equals Vmax·Sⁿ |
| Kinetics.HillOneIsMichaelisMenten | pyology/utils.py:11-31 | with n = 1 the Hill equation gives exactly the Michaelis–Menten result, errors included |
| Kinetics.HillBounds | pyology/utils.py:29-31 | for S ≥ 0, K > 0, Vmax > 0 the rate is defined, lies in [0, Vmax), is Vmax/2 at S = K and 0 at S = 0 when n ≥ 1 |
| Kinetics.HillMonotone | pyology/utils.py:29-31 | more substrate never gives a lower Hill rate |
| Kinetics.RegulatedActivity | pyology/utils.py:16-26 | ZeroDivisionError exactly when some inhibitor has Ki = 0 or 1 + c/Ki = 0, or some activator has Ka = 0 |
| Kinetics.RegulatedActivityValue | pyology/utils.py:16-26 | when every factor is defined the activity is the base times the product of the inhibition factors times the product of the activation factors |
| Kinetics.FactorRange | pyology/utils.py:22-25 | for a non-negative concentration and positive constants an inhibitor's factor lies in (0, 1] and an activator's is at least 1 |
| Kinetics.ProductPositive | pyology/utils.py:20-25 | with well-formed effectors every factor is defined and the accumulated product is positive |
| Kinetics.ProductSnoc | pyology/utils.py:21-25 | each loop step multiplies the running factor by the next effector's factor |
| Kinetics.RegulatedActivityEmpty | pyology/utils.py:16-26 | with no inhibitors and no activators the activity is the base activity |
| Kinetics.ProdRemove | pyology/utils.py:20-25 | removing one element from a list divides its value out of the product |
| Kinetics.ProdPermutation | pyology/utils.py:20-25 | the product of a list of factors does not depend on their order |
| Kinetics.FactorsPermutation | pyology/utils.py:20-25 | reordering the effectors reorders their factors and nothing else |
| Kinetics.ProductPermutation | pyology/utils.py:20-25 | the accumulated inhibition or activation factor does not depend on the order of the effectors |
| Kinetics.RegulatedActivityOrderIndependent | pyology/utils.py:16-26 | the activity, or its ZeroDivisionError, does not depend on the order of either list |
| Kinetics.AddInhibitorNeverRaises | pyology/utils.py:16-26 | for a non-negative base and well-formed effectors, adding one more inhibitor never increases the activity |
| Kinetics.AddActivatorNeverLowers | pyology/utils.py:16-26 | for a non-negative base and well-formed effectors, adding one more activator never decreases the activity |
| Kinetics.AllostericRegulation | pyology/utils.py:16-26 | the two accumulating loops return exactly the regulated activity, raising ZeroDivisionError at the first undefined factor |
| Kinetics.CalculateRate | pyology/enzymes.py:34-49 | ZeroDivisionError exactly when km + S is zero; otherwise the rate r obeys r·(km + S) = vmax·S |
| Kinetics.CalculateRateSpec | pyology/enzymes.py:34-49 | for vmax > 0 and km > 0 an enzyme's rate is 0 at S = 0, stays in [0, vmax), never decreases with S and is vmax/2 at S = km |
| Reactions.QuantityLookup | cell_modeling/pyology/cytoplasm.py:330-337 | succeeds exactly for a known name, with its stored quantity; an unknown name raises ValueError |
| Reactions.Scaled | pyology/reaction.py:24-29 | the stoichiometry with every amount multiplied by the rate, names and order kept |
| Reactions.ScaledDistinct | pyology/reaction.py:24-29 | scaling the amounts keeps the names distinct |
| Reactions.LimitSpec | pyology/reaction.py:19-21 | the minimum is computed iff every consumed name is known and every amount non-zero; it is then at most the bound and every quantity/amount ratio and equal to one of them; else ValueError or ZeroDivisionError |
| Reactions.Limit | pyology/reaction.py:19-21 | the minimum raises only ValueError, for an unknown name, or ZeroDivisionError, for a zero amount |
| Reactions.Transfer | pyology/reaction.py:23-31 | a transfer that finishes returns exactly the rate it was given; every raise is UnknownMetaboliteError or QuantityError |
| Reactions.TransferKeepsKeys | pyology/reaction.py:23-29 | both loops of checked changes keep the set of metabolites, whatever they raise |
| Reactions.Executed | pyology/reaction.py:11-31 | an empty consume map raises IndexError with nothing changed; every raise is IndexError, ValueError, ZeroDivisionError, UnknownMetaboliteError or QuantityError |
| Reactions.ExecutedKeepsKeys | pyology/reaction.py:11-31 | a run never adds or removes a metabolite, whatever it raises |
| Reactions.ExecutedRateBounds | pyology/reaction.py:11-31 | a returned rate is at most enzyme rate × time step, at most the substrate quantity and at most every consumed quantity/amount, all read before anything changes |
| Reactions.ConsumePhaseSucceeds | pyology/reaction.py:24-25 | with known, distinct, positive consumed amounts and a rate within every ratio, the consume loop never raises |
| Reactions.ConsumeOneScaled | pyology/reaction.py:24-25 | one consume step at such a rate succeeds, keeps the store within bounds and keeps the later items drainable |
| Reactions.ConsumeBound | pyology/reaction.py:24-25 | taking amount·rate with the rate at most quantity/amount leaves between zero and the old quantity |
| Reactions.ExecutedSafe | pyology/reaction.py:11-31 | for non-negative rates, a store within bounds and known, distinct, positive consumed amounts, the rate is non-negative, the consume loop never raises, the store stays within bounds, and any raise is QuantityError or UnknownMetaboliteError from the produce loop |
| Reactions.TransferSafe | pyology/reaction.py:23-29 | at a rate between zero and every ratio the store stays within bounds and any raise comes from the produce loop's checked change |
| Reactions.ProduceInOrderErrors | pyology/reaction.py:24-29 | the checked changes raise only UnknownMetaboliteError or QuantityError |
| Reactions.ProduceInOrderUntouched | pyology/reaction.py:24-29 | the checked changes never touch a metabolite none of the items names |
| Reactions.ExecutedUntouched | pyology/reaction.py:11-31 | whatever the run does, a metabolite in neither the consume nor the produce map is left as it was |
| Reactions.ExecutedExact | pyology/reaction.py:11-31 | a successful run with distinct, disjoint names lowers each consumed metabolite by amount × rate and raises each produced one by amount × rate |
| Reactions.ExecutedOkIsTransfer | pyology/reaction.py:19-31 | a run that returns a rate is the two loops at exactly that rate |
| Reactions.TransferConsumes | pyology/reaction.py:24-25 | a successful transfer lowers each consumed metabolite by exactly amount × rate |
| Reactions.TransferProduces | pyology/reaction.py:28-29 | a successful transfer raises each produced metabolite by exactly amount × rate |
| Reactions.TwoPhasesFirst | pyology/reaction.py:24-29 | over disjoint names, the second loop leaves what the first loop did to its metabolites |
| Reactions.TwoPhasesSecond | pyology/reaction.py:24-29 | over disjoint names, the second loop moves its metabolites from their starting quantities by exactly their amounts |
| Reactions.LimitingReagentExample | pyology/reaction.py:11-31 | 2A → B with 1.5 of A and rate 1: A limits the rate to 0.75, all of A is used and 0.75 of B is made |
| Reactions.ExecutedNotAtomic | pyology/reaction.py:24-29 | a product over capacity raises QuantityError after the substrate has already been consumed |
| Reactions.Execute | pyology/reaction.py:11-31 | the organelle's store and the returned rate or raised error are exactly those of the modelled run, with the glycolysis rate kept; the time step defaults to 1.0 |
| Mitochondria.Clamp | pyology/mitochondrion.py:111-125 | an absent name is created, the new quantity is max(q + amount, 0), the change actually made is returned, the capacity is kept and no other metabolite moves |
| Mitochondria.ClampSpec | pyology/mitochondrion.py:111-125 | the changed quantity is never negative and has no upper cap; the full change is made iff it keeps the quantity non-negative, otherwise the metabolite is emptied |
| Mitochondria.ClampShortfall | pyology/mitochondrion.py:143-144 | for a non-negative amount the shortfall test fires iff less than the amount is held |
| Mitochondria.RolledBack | pyology/mitochondrion.py:146-147 | the revert loop never drops a metabolite from the store |
| Mitochondria.Consumed | pyology/mitochondrion.py:141-151 | the consume loop never drops a metabolite from the store |
| Mitochondria.Consume | pyology/mitochondrion.py:127-151 | as intended (changes reversed on a shortfall): the whole consume call never drops a metabolite from the store |
| Mitochondria.Produced | pyology/mitochondrion.py:153-167 | the produce loop never drops a metabolite from the store |
| Mitochondria.ConsumedSucceedsIff | pyology/mitochondrion.py:141-151 | with distinct names and non-negative amounts, consume returns True iff every amount is at most what is held (an absent name holding 0), whichever rollback it uses |
| Mitochondria.MetStep | pyology/mitochondrion.py:142-150 | a met item is lowered exactly by its amount and the later, differently named items see unchanged quantities |
| Mitochondria.ConsumedExact | pyology/mitochondrion.py:141-151 | a consume that returns True has lowered each named metabolite by exactly its amount |
| Mitochondria.ConsumedUntouched | pyology/mitochondrion.py:141-151 | a consume that returns True leaves every metabolite it does not name as it was |
| Mitochondria.RollbackStep | pyology/mitochondrion.py:146-147 | reversing the first recorded change leaves the rest of the log applied to the original store |
| Mitochondria.RolledBackRestores | pyology/mitochondrion.py:146-147 | the intended revert loop reverses every recorded change, restoring the original entries |
| Mitochondria.LogStep | pyology/mitochondrion.py:143-150 | recording the change made to a not-yet-recorded name keeps the log in step with the store |
| Mitochondria.ShortfallRestores | pyology/mitochondrion.py:144-149 | when an item falls short, the intended revert restores the starting store and the call returns False |
| Mitochondria.MetStepApplied | pyology/mitochondrion.py:142-150 | after a met item the rest of the pass starts from a log still in step with the store |
| Mitochondria.ConsumedRestores | pyology/mitochondrion.py:141-151 | with the intended revert, a consume that returns False leaves every metabolite that was in the store as it was |
| Mitochondria.ConsumeFailureRestores | pyology/mitochondrion.py:127-151 | consume_metabolites as intended: a False return leaves the store's metabolites as they were |
| Mitochondria.ClampHeld | pyology/mitochondrion.py:114-125 | on a held name the clamped change is the single-entry update to max(q + amount, 0) |
| Mitochondria.ExampleFirstItem | pyology/mitochondrion.py:142-144 | with 20 NADH and 30 ubiquinone, both rollbacks first take 10 NADH and then find only 30 of the 50 ubiquinone |
| Mitochondria.RollbackAsWrittenExample | pyology/mitochondrion.py:146-147 | as written, consuming 10 NADH and 50 ubiquinone from 20 and 30 returns False and leaves both at 0: the recorded decrease is applied a second time and the failing item stays emptied |
| Mitochondria.RollbackIntendedExample | pyology/mitochondrion.py:141-151 | with the intended rollback the same call returns False and leaves the store exactly as it was |
| Mitochondria.InsufficientConsumeExample | cell_modeling/pyology/mitochondrion.py:103-118 | with 30 NADH, consuming 50 returns False; as written NADH is left at 0, the intended rollback keeps it at 30 |
| Mitochondria.ProducedExact | pyology/mitochondrion.py:162-163 | with distinct names and non-negative amounts each named metabolite gains exactly its amount, created if absent |
| Mitochondria.ProducedUntouched | pyology/mitochondrion.py:162-163 | producing leaves every metabolite it does not name as it was |
| Mitochondria.ClampKeepsNonNegative | pyology/mitochondrion.py:111-118 | a clamped change never makes any quantity negative |
| Mitochondria.RolledBackKeepsNonNegative | pyology/mitochondrion.py:146-147 | either rollback keeps every quantity non-negative |
| Mitochondria.ConsumedKeepsNonNegative | pyology/mitochondrion.py:141-151 | whatever it returns, consume never leaves a quantity negative |
| Mitochondria.ProducedKeepsNonNegative | pyology/mitochondrion.py:162-163 | produce never leaves a quantity negative |
| Mitochondria.RolledBackKeepsCapacities | pyology/mitochondrion.py:146-147 | the revert loop never alters a capacity |
| Mitochondria.ConsumedKeepsCapacities | pyology/mitochondrion.py:141-151 | the consume loop and its rollback never alter a capacity |
| Mitochondria.ProducedKeepsCapacities | pyology/mitochondrion.py:162-163 | the produce loop never alters a capacity |
| Mitochondria.ExchangesKeepCapacities | pyology/mitochondrion.py:382-383 | as intended (changes reversed on a shortfall): no consume-then-produce exchange alters a capacity |
| Mitochondria.Exchange | pyology/mitochondrion.py:382-383 | as intended (changes reversed on a shortfall): a complex's consume call followed, on True, by its produce call never drops a metabolite |
| Mitochondria.Exchanged | pyology/mitochondrion.py:382-383 | as intended (changes reversed on a shortfall): when every consumed amount is covered, the exchange succeeds, moves every named quantity by exactly its amount, leaves the rest alone and keeps the store non-negative |
| Mitochondria.TwoForOne | pyology/mitochondrion.py:382-383 | as intended (changes reversed on a shortfall): the two-for-one exchange of complexes I, II and IV moves each of the three quantities by exactly its amount |
| Mitochondria.TwoForOneRuns | pyology/mitochondrion.py:382-383 | as intended (changes reversed on a shortfall): the two-for-one exchange goes through when both consumed amounts are covered |
| Mitochondria.TwoForTwo | pyology/mitochondrion.py:437-442 | as intended (changes reversed on a shortfall): the two-for-two exchange of complex III moves each of the four quantities by exactly its amount |
| Mitochondria.TwoForTwoRuns | pyology/mitochondrion.py:437-442 | as intended (changes reversed on a shortfall): the two-for-two exchange goes through when both consumed amounts are covered |
| Mitochondria.OneForOne | pyology/mitochondrion.py:520-521 | as intended (changes reversed on a shortfall): the one-for-one exchange of the synthase moves both quantities by exactly their amounts |
| Mitochondria.AvailableAsWritten | pyology/mitochondrion.py:502-506 | as written: a name that is not an attribute of the object gives False, and one that is raises AttributeError on reading `quantity` |
| Mitochondria.Available | pyology/mitochondrion.py:486-506 | as intended: True iff the name is in the store with at least the amount |
| Mitochondria.AvailabilityAsWrittenNeverHolds | pyology/mitochondrion.py:502-506 | as written no metabolite of the chain is ever available, however much is held, while the intended look-up finds it |
| Mitochondria.UpdatedGradient | pyology/mitochondrion.py:357-361 | the new gradient is never negative and is either gradient + pumped − leak(gradient + pumped) or 0, for any leak |
| Mitochondria.ComplexI | pyology/mitochondrion.py:375-390 | as intended (availability read from the store, changes reversed on a shortfall): complex I never drops a metabolite from the store |
| Mitochondria.ComplexIAt | pyology/mitochondrion.py:382-388 | as intended (changes reversed on a shortfall): complex I at a fixed rate never drops a metabolite from the store |
| Mitochondria.ComplexII | pyology/mitochondrion.py:404-416 | as intended (availability read from the store, changes reversed on a shortfall): complex II never drops a metabolite from the store |
| Mitochondria.ComplexIIAt | pyology/mitochondrion.py:411-414 | as intended (changes reversed on a shortfall): complex II at a fixed rate never drops a metabolite from the store |
| Mitochondria.ComplexIII | pyology/mitochondrion.py:430-449 | as intended (availability read from the store, changes reversed on a shortfall): complex III never drops a metabolite from the store |
| Mitochondria.ComplexIIIAt | pyology/mitochondrion.py:437-447 | as intended (changes reversed on a shortfall): complex III at a fixed rate never drops a metabolite from the store |
| Mitochondria.ComplexIV | pyology/mitochondrion.py:463-484 | as intended (availability read from the store, changes reversed on a shortfall): complex IV never drops a metabolite from the store |
| Mitochondria.ComplexIVAt | pyology/mitochondrion.py:470-479 | as intended (changes reversed on a shortfall): complex IV at a fixed rate never drops a metabolite from the store |
| Mitochondria.ConservedWhen | pyology/mitochondrion.py:363-484 | the ubiquinone, cytochrome c and adenine pools are conserved when each pair sums as before |
| Mitochondria.ComplexISpec | pyology/mitochondrion.py:375-390 | as intended (availability read from the store, changes reversed on a shortfall): complex I runs exactly when NADH and ubiquinone are both at least 1, at min(NADH, ubiquinone), which is at least 1 and exceeds neither; otherwise it changes nothing and returns 0 |
| Mitochondria.ComplexIAtSpec | pyology/mitochondrion.py:382-388 | as intended (changes reversed on a shortfall): at a covered rate complex I returns the rate, lowers NADH and ubiquinone by it, raises ubiquinol by it, pumps PROTONS_PER_NADH × rate protons and moves nothing else |
| Mitochondria.ComplexIAtPreserves | pyology/mitochondrion.py:382-388 | as intended (changes reversed on a shortfall): at a covered rate complex I conserves the three pools and leaves no quantity or gradient negative |
| Mitochondria.ComplexIPreserves | pyology/mitochondrion.py:375-390 | as intended (availability read from the store, changes reversed on a shortfall): whether or not it runs, complex I conserves the three pools and keeps quantities and gradient non-negative |
| Mitochondria.ComplexIISpec | pyology/mitochondrion.py:404-416 | as intended (availability read from the store, changes reversed on a shortfall): complex II runs exactly when FADH2 and ubiquinone are both at least 1, at min(FADH2, ubiquinone); otherwise it changes nothing and returns 0 |
| Mitochondria.ComplexIIAtSpec | pyology/mitochondrion.py:411-414 | as intended (changes reversed on a shortfall): at a covered rate complex II returns the rate, lowers FADH2 and ubiquinone by it, raises ubiquinol by it, leaves the gradient alone and moves nothing else |
| Mitochondria.ComplexIIAtPreserves | pyology/mitochondrion.py:411-414 | as intended (changes reversed on a shortfall): at a covered rate complex II conserves the pools and leaves no quantity or gradient negative |
| Mitochondria.ComplexIIPreserves | pyology/mitochondrion.py:404-416 | as intended (availability read from the store, changes reversed on a shortfall): whether or not it runs, complex II conserves the pools and keeps quantities and gradient non-negative |
| Mitochondria.ComplexIIISpec | pyology/mitochondrion.py:430-449 | as intended (availability read from the store, changes reversed on a shortfall): complex III runs exactly when ubiquinol and oxidised cytochrome c are both at least 1, at their minimum; otherwise it changes nothing and returns 0 |
| Mitochondria.ComplexIIIAtSpec | pyology/mitochondrion.py:437-447 | as intended (changes reversed on a shortfall): at a covered rate complex III returns the rate, turns that much ubiquinol and oxidised cytochrome c into ubiquinone and reduced cytochrome c, pumps PROTONS_PER_FADH2 × rate protons and moves nothing else |
| Mitochondria.ComplexIIIAtPreserves | pyology/mitochondrion.py:437-447 | as intended (changes reversed on a shortfall): at a covered rate complex III conserves the pools and leaves no quantity or gradient negative |
| Mitochondria.ComplexIIIPreserves | pyology/mitochondrion.py:430-449 | as intended (availability read from the store, changes reversed on a shortfall): whether or not it runs, complex III conserves the pools and keeps quantities and gradient non-negative |
| Mitochondria.ComplexIVSpec | pyology/mitochondrion.py:463-484 | as intended (availability read from the store, changes reversed on a shortfall): complex IV runs exactly when reduced cytochrome c is at least 1 and oxygen at least 0.5, at min(reduced cytochrome c, 2 × oxygen); otherwise it changes nothing and returns 0 |
| Mitochondria.ComplexIVAtSpec | pyology/mitochondrion.py:470-479 | as intended (changes reversed on a shortfall): at a covered rate complex IV returns the rate, uses that much reduced cytochrome c and half as much oxygen, oxidises the cytochrome, pumps PROTONS_PER_FADH2 × rate protons and moves nothing else |
| Mitochondria.ComplexIVAtPreserves | pyology/mitochondrion.py:470-479 | as intended (changes reversed on a shortfall): at a covered rate complex IV conserves the pools and leaves no quantity or gradient negative |
| Mitochondria.ComplexIVPreserves | pyology/mitochondrion.py:463-484 | as intended (availability read from the store, changes reversed on a shortfall): whether or not it runs, complex IV conserves the pools and keeps quantities and gradient non-negative |
| Mitochondria.ComplexIKeepsCapacities | pyology/mitochondrion.py:375-390 | as intended (availability read from the store, changes reversed on a shortfall): complex I never alters a capacity |
| Mitochondria.ComplexIIKeepsCapacities | pyology/mitochondrion.py:404-416 | as intended (availability read from the store, changes reversed on a shortfall): complex II never alters a capacity |
| Mitochondria.ComplexIIIKeepsCapacities | pyology/mitochondrion.py:430-449 | as intended (availability read from the store, changes reversed on a shortfall): complex III never alters a capacity |
| Mitochondria.ComplexIVKeepsCapacities | pyology/mitochondrion.py:463-484 | as intended (availability read from the store, changes reversed on a shortfall): complex IV never alters a capacity |
| Mitochondria.AtpSynthase | pyology/mitochondrion.py:517-526 | as intended (changes reversed on a shortfall): the synthase never drops a metabolite from the store |
| Mitochondria.AtpSynthaseSpec | pyology/mitochondrion.py:517-526 | as intended (changes reversed on a shortfall): with a non-negative gradient it makes min(floor(gradient / PROTONS_PER_ATP), ADP) ATP from as much ADP, the gradient falls by PROTONS_PER_ATP per ATP without going negative, and nothing else moves |
| Mitochondria.AtpSynthasePreserves | pyology/mitochondrion.py:517-526 | as intended (changes reversed on a shortfall): the synthase conserves the pools and keeps quantities and gradient non-negative |
| Mitochondria.AtpSynthaseWithoutAdp | pyology/mitochondrion.py:517-526 | as intended (changes reversed on a shortfall): with no ADP the synthase makes nothing and leaves the gradient alone |
| Mitochondria.Replenish | pyology/mitochondrion.py:537-543 | replenishing keeps the same set of metabolites |
| Mitochondria.ReplenishSpec | pyology/mitochondrion.py:537-543 | the target ends at min(target + source, capacity), never above capacity, the pair's sum is conserved, the source stays non-negative, and nothing else moves |
| Mitochondria.ReplenishPreserves | pyology/mitochondrion.py:528-562 | replenishing either carrier conserves the pools and keeps every quantity non-negative |
| Mitochondria.Chain | pyology/mitochondrion.py:585-588 | as intended (availability read from the store, changes reversed on a shortfall): running the four complexes in order never drops a metabolite |
| Mitochondria.OxPhos | pyology/mitochondrion.py:578-605 | as intended (availability read from the store, changes reversed on a shortfall): oxidative phosphorylation never drops a metabolite |
| Mitochondria.ChainPreserves | pyology/mitochondrion.py:585-588 | as intended (availability read from the store, changes reversed on a shortfall): the four complexes in order conserve the pools and keep quantities and gradient non-negative |
| Mitochondria.ChainKeepsCapacities | pyology/mitochondrion.py:585-588 | as intended (availability read from the store, changes reversed on a shortfall): the four complexes never alter a capacity |
| Mitochondria.ReplenishStep | pyology/mitochondrion.py:594-595 | one replenishment keeps everything the earlier steps kept and leaves its target within capacity |
| Mitochondria.ReplenishBoth | pyology/mitochondrion.py:594-595 | both replenishments keep everything the earlier steps kept and leave both carriers within capacity |
| Mitochondria.SynthaseStep | pyology/mitochondrion.py:591 | as intended (changes reversed on a shortfall): the synthase after the chain keeps what the chain kept, capacities included |
| Mitochondria.OxPhosSpec | pyology/mitochondrion.py:564-605 | as intended (availability read from the store, changes reversed on a shortfall): without oxygen nothing changes and 0 is returned; otherwise the pools are conserved, quantities, gradient and capacities kept sound, both carriers end within capacity, and the ATP returned is what the synthase makes from the state the chain leaves |
| Mitochondria.BufferCalcium | pyology/mitochondrion.py:621-634 | buffering keeps the same set of metabolites |
| Mitochondria.BufferCalciumSpec | pyology/mitochondrion.py:621-634 | calcium within its capacity stays within it whatever the request; a non-negative request is met up to the headroom, exactly, and returned |
| Mitochondria.ReleaseCalcium | pyology/mitochondrion.py:650-653 | releasing keeps the same set of metabolites |
| Mitochondria.ReleaseCalciumSpec | pyology/mitochondrion.py:650-653 | calcium never goes negative; a non-negative request releases at most what is held, exactly, and returns it |
| Mitochondria.TransferNadh | cell_modeling/pyology/mitochondrion.py:441-452 | NADH is present afterwards, created if absent; for a non-negative transfer the amount made lies in [0, n]; NADH ends non-negative, and at exactly its old quantity plus the amount made whenever that sum is non-negative; every other metabolite is unchanged |
| Mitochondria.TransferNadhDirect | pyology/mitochondrion.py:675-681 | the set of metabolites is kept; for a non-negative transfer the amount made lies in [0, n]; NADH rises by exactly the amount made, unclamped; every other metabolite is unchanged |
| Mitochondria.TransferNadhSpec | cell_modeling/pyology/mitochondrion.py:441-452 | for a non-negative transfer both copies add floor(0.67 × n) NADH, never more than n, and agree; nothing else moves |
| Mitochondria.TransferNadhDirectNegative | pyology/mitochondrion.py:675-677 | with a negative transfer the pyology copy's direct addition can leave NADH negative, while the clamped copy cannot |
| Mitochondria.PyruvateToAcetylCoa | pyology/mitochondrion.py:235-238 | the acetyl-CoA returned equals the pyruvate; NADH and CO2 are present afterwards and non-negative; every other metabolite is unchanged |
| Mitochondria.PyruvateToAcetylCoaSpec | pyology/mitochondrion.py:235-238 | a non-negative amount of pyruvate adds exactly that much NADH and CO2, returns it as the acetyl-CoA made and moves nothing else |
| MitochondrionObject.BaseStore | pyology/mitochondrion.py:59 | the store the base constructor leaves: the merging organelle's six entries for the pyology copy, the replacing organelle's for the cell_modeling copy |
| MitochondrionObject.Added | pyology/mitochondrion.py:60-71 | one valid inherited add_metabolite call: the name is present afterwards, other entries are untouched, merging adds the quantity capped at the argument capacity, replacing writes a fresh entry |
| MitochondrionObject.InitialHasChain | pyology/mitochondrion.py:58-71 | a fresh mitochondrion holds every metabolite the electron transport chain reads |
| MitochondrionObject.AddedKeepsNonNegative | pyology/mitochondrion.py:60-71 | a valid addition never makes a quantity negative |
| MitochondrionObject.InitialNonNegative | pyology/mitochondrion.py:58-71 | no quantity of a fresh mitochondrion is negative, for either copy |
| MitochondrionObject.AddedElsewhere | pyology/mitochondrion.py:60-71 | an addition leaves every other name's entry as it was |
| MitochondrionObject.InitialAtp | pyology/mitochondrion.py:62 | a fresh pyology mitochondrion starts with 100 ATP (the base class's, merged with 0), a cell_modeling one with 0 (replaced) |
| MitochondrionObject.OxygenNeededAdditive | pyology/mitochondrion.py:240-255 | the oxygen needed is 2.5 per pyruvate, so it adds up over batches, is monotone and is never negative for a non-negative amount |
| MitochondrionObject.ConsumedContinues | pyology/mitochondrion.py:142-150 | a met consume step moves on to the next item with the change recorded |
| MitochondrionObject.ConsumedStops | pyology/mitochondrion.py:143-149 | a consume step that falls short reverts the recorded changes and the failing one, and answers False |
| MitochondrionObject.Mitochondrion.State | pyology/mitochondrion.py:58-73 | the metabolites dict and the proton gradient, the part of the object the chain acts on |
| MitochondrionObject.Mitochondrion.constructor | pyology/mitochondrion.py:58-73 | a new object holds the base store with the twelve additions in order, a zero gradient and the base glycolysis rate |
| MitochondrionObject.Mitochondrion.Reset | pyology/mitochondrion.py:655-658 | reset leaves exactly the state the constructor builds |
| MitochondrionObject.Mitochondrion.Initialize | pyology/mitochondrion.py:58-73 | the constructor body: the base store, the twelve additions, a zero gradient |
| MitochondrionObject.Mitochondrion.AddFirst | pyology/mitochondrion.py:60-65 | the first six additions, in order |
| MitochondrionObject.Mitochondrion.AddLast | pyology/mitochondrion.py:66-71 | the last six additions, in order |
| MitochondrionObject.Mitochondrion.AddMetabolite | pyology/organelle.py:146-176 | a valid call merges or replaces as the copy's base class does; an invalid one raises ValueError and changes nothing in the pyology copy and is stored unchecked in the cell_modeling copy |
| MitochondrionObject.Mitochondrion.ChangeMetaboliteQuantity | pyology/mitochondrion.py:91-125 | the store becomes the clamped change and the change actually made is returned |
| MitochondrionObject.Mitochondrion.ConsumeMetabolites | pyology/mitochondrion.py:127-151 | as intended (changes reversed on a shortfall): the store and the answer are those of the consume pass with the intended rollback |
| MitochondrionObject.Mitochondrion.RollBack | pyology/mitochondrion.py:146-147 | every recorded change is reversed, in the order recorded |
| MitochondrionObject.Mitochondrion.ProduceMetabolites | pyology/mitochondrion.py:153-167 | each item is increased in order through the clamped change |
| MitochondrionObject.Mitochondrion.IsMetaboliteAvailable | pyology/mitochondrion.py:486-506 | as intended: True iff the store holds at least the amount of the name |
| MitochondrionObject.Mitochondrion.UpdateProtonGradient | pyology/mitochondrion.py:343-361 | the gradient becomes max(0, gradient + pumped − leak), with the leak taken at the raised gradient; the pyology base returns it and the cell_modeling base (cell_modeling/pyology/mitochondrion.py:248-253) returns None; nothing else changes |
| MitochondrionObject.Mitochondrion.ComplexI | pyology/mitochondrion.py:363-390 | as intended (availability read from the store, changes reversed on a shortfall): the object's state and the return value are those of complex I |
| MitochondrionObject.Mitochondrion.ComplexIAt | pyology/mitochondrion.py:382-388 | as intended (changes reversed on a shortfall): the consume call and, on success, the produce call and the gradient update, at the given rate |
| MitochondrionObject.Mitochondrion.ComplexII | pyology/mitochondrion.py:392-416 | as intended (availability read from the store, changes reversed on a shortfall): the object's state and the return value are those of complex II |
| MitochondrionObject.Mitochondrion.ComplexIIAt | pyology/mitochondrion.py:411-414 | as intended (changes reversed on a shortfall): the consume call and, on success, the produce call, at the given rate |
| MitochondrionObject.Mitochondrion.ComplexIII | pyology/mitochondrion.py:418-449 | as intended (availability read from the store, changes reversed on a shortfall): the object's state and the return value are those of complex III |
| MitochondrionObject.Mitochondrion.ComplexIIIAt | pyology/mitochondrion.py:437-447 | as intended (changes reversed on a shortfall): the consume call and, on success, the produce call and the gradient update, at the given rate |
| MitochondrionObject.Mitochondrion.ComplexIV | pyology/mitochondrion.py:451-484 | as intended (availability read from the store, changes reversed on a shortfall): the object's state and the return value are those of complex IV |
| MitochondrionObject.Mitochondrion.ComplexIVAt | pyology/mitochondrion.py:470-479 | as intended (changes reversed on a shortfall): the consume call and, on success, the produce call and the gradient update, at the given rate |
| MitochondrionObject.Mitochondrion.AtpSynthase | pyology/mitochondrion.py:508-526 | as intended (changes reversed on a shortfall): the object's state and the ATP returned are those of the synthase |
| MitochondrionObject.Mitochondrion.ReplenishUbiquinone | pyology/mitochondrion.py:528-544 | ubiquinone is refilled from ubiquinol as the replenish step computes; the gradient is kept |
| MitochondrionObject.Mitochondrion.ReplenishCytochromeC | pyology/mitochondrion.py:546-562 | oxidised cytochrome c is refilled from the reduced form as the replenish step computes; the gradient is kept |
| MitochondrionObject.Mitochondrion.OxidativePhosphorylation | pyology/mitochondrion.py:564-605 | as intended (availability read from the store, changes reversed on a shortfall): the object's state and the ATP returned are those of oxidative phosphorylation, and the chain's metabolites stay present |
| MitochondrionObject.Mitochondrion.BufferCalcium | pyology/mitochondrion.py:607-634 | the store and the uptake returned are those of calcium buffering |
| MitochondrionObject.Mitochondrion.ReleaseCalcium | pyology/mitochondrion.py:636-653 | the store and the amount returned are those of calcium release |
| MitochondrionObject.Mitochondrion.TransferCytoplasmicNadh | cell_modeling/pyology/mitochondrion.py:441-452 | the cell_modeling copy adds floor-truncated 0.67·n NADH through the clamped change, the pyology copy adds it directly; both return it |
| MitochondrionObject.Mitochondrion.PyruvateToAcetylCoa | pyology/mitochondrion.py:220-238 | NADH and CO2 each change by the pyruvate amount through the clamped change, and the amount is returned |
| Krebs.Available | pyology/krebs_cycle.py:54-62 | a metabolite name is checked against its quantity, else a cofactor name against the cofactor table; an unknown name is never available |
| Krebs.ConsumeOne | pyology/krebs_cycle.py:71-81 | one consume item: ValueError for a negative amount, an unknown name or a shortfall; otherwise exactly that entry (metabolite first, then cofactor) loses the amount |
| Krebs.ProduceOne | pyology/krebs_cycle.py:91-103 | one produce item: ValueError for a negative amount, an unknown name, or a metabolite pushed past its capacity; a cofactor always takes the amount |
| Krebs.SequencedSplit | pyology/krebs_cycle.py:66-81 | a pass over two keyword lists in a row equals one pass over their concatenation, stopping at the first raise |
| Krebs.SequencedShape | pyology/krebs_cycle.py:64-104 | every raise of consume or produce is ValueError, and neither pass adds or removes a name or changes a capacity |
| Krebs.SequencedAmounts | pyology/krebs_cycle.py:64-104 | a completed consume lowers each name by the total asked of it, a completed produce raises it by that total |
| Krebs.ConsumeKeepsEarlier | pyology/krebs_cycle.py:66-81 | consume is not atomic: when item j fails, the call raises ValueError with the items before j already taken |
| Krebs.ProduceKeepsEarlier | pyology/krebs_cycle.py:86-103 | produce is not atomic: a failing item j leaves the items before it produced |
| Krebs.SequencedKeepsValid | pyology/krebs_cycle.py:64-104 | neither pass, complete or raising, takes a metabolite outside 0..capacity or makes a cofactor negative |
| Krebs.CofactorsUnbounded | pyology/krebs_cycle.py:100-101 | producing any non-negative amount of a cofactor that is not a metabolite always succeeds, however large |
| Krebs.SequencedHeadNonnegative | pyology/krebs_cycle.py:71-72 | a completed pass accepted only non-negative amounts, the first included |
| Krebs.SubstrateAdded | pyology/krebs_cycle.py:285-301 | Ok exactly when the amount is positive and the name is known, the named entry then rising by the amount; ValueError for a non-positive amount or unknown name; KeyError for Acetyl-CoA when it is not a metabolite |
| Krebs.SubstrateMayOverfill | pyology/krebs_cycle.py:294-297 | unlike produce, add_substrate can push a metabolite past its capacity |
| Krebs.InhibitedActivity | pyology/krebs_cycle.py:180-185 | step 4's activity is at most 1 for non-negative inhibitors, equals 1 exactly when all three inhibitor terms vanish, and is at most 0 exactly when 10·ATP + 10·NADH + 100·Succinyl-CoA ≥ 3000 |
| Krebs.OverInhibitedStepRaises | pyology/krebs_cycle.py:174-204 | once ATP, NADH and Succinyl-CoA push step 4's activity below zero on a positive substrate, the rate is negative and the step raises ValueError without changing anything |
| Krebs.InitialInhibition | pyology/krebs_cycle.py:35 | with the constructor's 100 ATP and no NADH or Succinyl-CoA, step 4 runs at two-thirds activity |
| Krebs.CitrateSynthaseRate | pyology/krebs_cycle.py:108-115 | KeyError when Acetyl-CoA or Oxaloacetate is not a metabolite; every raise is KeyError or ZeroDivisionError; a computed rate r obeys Michaelis–Menten, r·(km + s) = vmax·activity·s, with s = min(Acetyl-CoA, Oxaloacetate) |
| Krebs.IsocitrateDehydrogenaseRate | pyology/krebs_cycle.py:143-161 | KeyError when Isocitrate, ATP or ADP is missing; every raise is KeyError or ZeroDivisionError; a computed rate comes from a defined regulation by ATP (Ki 100, Ka 1000) and ADP (Ki 1000, Ka 100) and obeys the Hill law with n = 2, r·(km² + s²) = vmax·regulated·s² |
| Krebs.KetoglutarateDehydrogenaseRate | pyology/krebs_cycle.py:176-191 | KeyError when α-ketoglutarate, ATP, NADH or Succinyl-CoA is missing; every raise is KeyError or ZeroDivisionError; a computed rate obeys Michaelis–Menten with vmax scaled by the inhibited activity and the enzyme activity |
| Krebs.CycleRun | pyology/krebs_cycle.py:264-275 | KeyError when Acetyl-CoA is not a metabolite; no change when its quantity is not positive; otherwise the eight steps in order, stopping at the first raise |
| Krebs.FreshCycleCannotStart | pyology/krebs_cycle.py:26-52 | a freshly built cycle has no Acetyl-CoA metabolite, so run_cycle and add_substrate("Acetyl-CoA", a) both raise KeyError |
| Krebs.CatalysedKeepsValid | pyology/krebs_cycle.py:117-121 | a consume-then-produce reaction, complete or raising, keeps every metabolite within 0..capacity and every cofactor non-negative |
| Krebs.ReleaseKeepsValid | pyology/krebs_cycle.py:121 | adding a non-negative amount to Coenzyme-A keeps the pools valid and their names and capacities |
| Krebs.StepKeepsValid | pyology/krebs_cycle.py:106-262 | each of the eight steps, complete or raising, keeps the pools valid and their names and capacities |
| Krebs.StepsKeepValid | pyology/krebs_cycle.py:266-273 | a run of steps that each keep the pools valid keeps them valid in sequence |
| Krebs.RunCycleKeepsValid | pyology/krebs_cycle.py:264-275 | a turn of the cycle, however it ends, keeps the pools valid and changes no name and no capacity |
| Krebs.CatalysedAmounts | pyology/krebs_cycle.py:117-121 | a completed reaction changes each name by what it produces less what it consumes, plus the Coenzyme-A release |
| Krebs.CitrateSynthaseEffect | pyology/krebs_cycle.py:106-126 | step 1 on success lowers Acetyl-CoA and Oxaloacetate by the rate, raises Citrate and Coenzyme-A by it, and changes nothing else |
| Krebs.PairBalanced | pyology/krebs_cycle.py:117-260 | every step gives out of the NAD/NADH, FAD/FADH2 and GDP/GTP pairs as much as it takes in |
| Krebs.NamesOfNadPair | pyology/krebs_cycle.py:163-260 | only steps 3, 4 and 8 name NAD or NADH, each taking one NAD and giving one NADH per unit of rate |
| Krebs.NamesOfFadPair | pyology/krebs_cycle.py:233-234 | only step 6 names FAD or FADH2, taking one FAD and giving one FADH2 |
| Krebs.NamesOfGdpPair | pyology/krebs_cycle.py:214-221 | only step 5 names GDP or GTP, taking one GDP and giving one GTP |
| Krebs.StepKeepsPair | pyology/krebs_cycle.py:106-262 | a completed step keeps the totals NAD+NADH, FAD+FADH2 and GDP+GTP |
| Krebs.StepsKeepPair | pyology/krebs_cycle.py:266-273 | completed steps that each keep a pair's total keep it in sequence |
| Krebs.RunCycleKeepsPair | pyology/krebs_cycle.py:264-275 | a completed turn keeps NAD+NADH, FAD+FADH2 and GDP+GTP |
| Krebs.TracedSnapshots | pyology/krebs_cycle.py:277-283 | the iterator yields one snapshot per completed turn, n exactly when no turn raised; each snapshot is one turn applied to the one before, and the last is the final state |
| Krebs.TracedKeepsValid | pyology/krebs_cycle.py:277-283 | turns that keep the pools valid keep every snapshot and the final state valid |
| Krebs.TracedKeepsPair | pyology/krebs_cycle.py:277-283 | turns that keep a pair's total keep it in every snapshot of a run that completes |
| Krebs.TracedIdle | pyology/krebs_cycle.py:277-283 | a turn that changes nothing yields n identical snapshots |
| Krebs.IdleCyclesRepeat | pyology/krebs_cycle.py:265-283 | with no positive Acetyl-CoA the iterator yields n copies of the unchanged pools |
| Krebs.CyclesKeepValid | pyology/krebs_cycle.py:277-283 | however many turns run and however the run ends, the pools stay valid |
| Krebs.CyclesKeepPair | pyology/krebs_cycle.py:277-283 | a run of turns that completes keeps NAD+NADH, FAD+FADH2 and GDP+GTP in every snapshot |
| Krebs.StepValue | pyology/krebs_cycle.py:117-126 | the value a completed step returns: True for step 1, whose False branch cannot be reached, and None for the other seven |
| Krebs.ReactionsInOrder | pyology/krebs_cycle.py:321-334 | the reaction iterator yields a prefix of the eight step names in order, with step 1 returning True and the others None, all eight exactly when none raises |
| Krebs.KrebsCycle.constructor | pyology/krebs_cycle.py:26-52 | the base organelle's metabolites, the ten cofactors at their initial values and the eight enzymes; the pools start valid |
| Krebs.KrebsCycle.Reset | pyology/krebs_cycle.py:312-314 | the metabolites, cofactors and enzymes return to what the constructor built |
| Krebs.KrebsCycle.AddMetabolite | pyology/organelle.py:146-176 | the inherited add_metabolite on the metabolite store; cofactors and enzymes untouched |
| Krebs.KrebsCycle.IsMetaboliteAvailable | pyology/krebs_cycle.py:54-62 | returns the availability of the amount in the current pools |
| Krebs.KrebsCycle.ConsumeMetabolites | pyology/krebs_cycle.py:64-82 | the new pools are the item-by-item consume pass over the old ones, and the call raises its first error |
| Krebs.KrebsCycle.ProduceMetabolites | pyology/krebs_cycle.py:84-104 | the new pools are the item-by-item produce pass over the old ones, and the call raises its first error |
| Krebs.KrebsCycle.Catalyse | pyology/krebs_cycle.py:117-121 | consume, then produce, then any Coenzyme-A release, with the state and raise of that reaction |
| Krebs.KrebsCycle.Step | pyology/krebs_cycle.py:106-262 | step i: the new pools and the raise are those of the step's rate law and reaction |
| Krebs.KrebsCycle.RunCycle | pyology/krebs_cycle.py:264-275 | the new pools and the raise are those of one turn of the cycle |
| Krebs.KrebsCycle.KrebsCycleIterator | pyology/krebs_cycle.py:277-283 | runs min(n, first raise) turns and returns a snapshot after each, with n ≤ 0 yielding none |
| Krebs.KrebsCycle.ReactionIterator | pyology/krebs_cycle.py:321-334 | the eight steps in order with each name and return value, ending at the first raise |
| Krebs.KrebsCycle.AddSubstrate | pyology/krebs_cycle.py:285-301 | the new pools and the raise are those of add_substrate on the old pools |
| Pathways.Read | pyology/pathways.py:250 | the quantity lookup the steps make: Ok exactly for a name in the store, giving its quantity; UnknownMetaboliteError otherwise |
| Pathways.Available | pyology/pathways.py:151-175 | MetaboliteError exactly for an unknown name; otherwise Ok(true) exactly when the quantity covers the amount |
| Pathways.Exchanged | pyology/pathways.py:177-242 | succeeds exactly when no item is rejected, every item being checked before any changes; every rejection is MetaboliteError; success keeps the set of metabolites |
| Pathways.Glycolysed | pyology/pathways.py:70-123 | a negative floored input raises GlycolysisError and zero returns 0, both with nothing changed; every raise that escapes is GlycolysisError |
| Pathways.Ensured | pyology/pathways.py:125-149 | an unknown name raises MetaboliteError unchanged; enough on hand changes nothing; short ATP or ADP is converted from the other when it has enough, keeping ATP + ADP; any other shortfall raises MetaboliteError unchanged; no other metabolite, name or capacity changes |
| Pathways.EnsuredConvertsAdp | pyology/pathways.py:142-144 | short ATP with enough ADP succeeds, ATP rising and ADP falling by exactly the amount |
| Pathways.Uniform | pyology/pathways.py:257 | a step's keyword call gives every named metabolite the same amount, in the given order |
| Pathways.Limited | pyology/pathways.py:253-255 | min over the bound and the limits' quantities: it fails with UnknownMetaboliteError exactly when a limit is missing, and otherwise is at most each candidate and equal to one of them |
| Pathways.ActualRate | pyology/pathways.py:250-255 | the actual rate is at most the enzyme rate, the substrate quantity and every limit's quantity, and equals one of them; it fails exactly when one of those metabolites is unknown |
| Pathways.Reacted | pyology/pathways.py:244-258 | a step method raises only metabolite errors |
| Pathways.Scheduled | pyology/pathways.py:107-108 | a run of step methods raises only metabolite errors |
| Pathways.Repeated | pyology/pathways.py:114-116 | steps 6-10 repeated raise only metabolite errors |
| Pathways.UnitRun | pyology/pathways.py:105-119 | one pass of the glucose loop raises only metabolite errors |
| Pathways.UnitsRunErrors | pyology/pathways.py:105-119 | the whole glucose loop raises only metabolite errors, so the except clause catches every raise |
| Pathways.GlycolysedWith | pyology/pathways.py:92-123 | every raise of glycolysis is a GlycolysisError |
| Pathways.GlycolysedGuards | pyology/pathways.py:92-100 | a negative floored input raises GlycolysisError, zero returns 0, and missing or short glucose raises GlycolysisError, each with the store unchanged |
| Pathways.UniformMentions | pyology/pathways.py:257 | a uniform keyword call names a metabolite exactly when the step lists it |
| Pathways.ExchangedUniform | pyology/pathways.py:177-242 | a completed uniform consume or produce knew every name, had a non-negative amount, and moved exactly the named metabolites down or up by the amount, keeping keys and capacities |
| Pathways.ReactedEffect | pyology/pathways.py:244-258 | a completed well-formed step lowers every consumed metabolite and raises every produced one by the actual rate, leaves all others, keys and capacities alone, and mentioned only known metabolites |
| Pathways.ReactedKeepsPair | pyology/pathways.py:244-258 | a completed step that takes as many of a pair as it gives keeps the pair's sum |
| Pathways.ScheduledKeepsPair | pyology/pathways.py:107-108 | a completed run of balanced steps keeps the pair's sum |
| Pathways.RepeatedKeepsPair | pyology/pathways.py:114-116 | steps 6-10 run twice, completed and balanced, keep the pair's sum |
| Pathways.ProducedOne | pyology/pathways.py:119 | producing an amount of one metabolite moves a pair's sum by that amount exactly when the pair holds it |
| Pathways.UnitRunPair | pyology/pathways.py:105-119 | a completed pass of the glucose loop keeps every balanced pair's sum, except for the 2 ATP it adds at the end |
| Pathways.UnitsRunFirst | pyology/pathways.py:105 | the first pass of the loop either raises and ends it or is followed by the remaining passes |
| Pathways.UnitsRunUnfold | pyology/pathways.py:105 | a completed loop is a completed first pass followed by a completed run of the rest, ending in the same store |
| Pathways.UnitsRunPair | pyology/pathways.py:105-119 | a completed loop whose pass adds the pair's ATP share adds it once per pass |
| Pathways.GlycolysedWithPair | pyology/pathways.py:92-121 | a glycolysis call that returns leaves each balanced pair apart from glucose as it found it, plus 2 ATP per glucose unit |
| Pathways.FirstStepsWellFormed | pyology/pathways.py:244-330 | steps 1-5 never name a metabolite twice in a keyword call and never consume what they produce |
| Pathways.LaterStepsWellFormed | pyology/pathways.py:332-424 | steps 6-10 never name a metabolite twice in a keyword call and never consume what they produce |
| Pathways.AdenylatesBalanced | pyology/pathways.py:244-424 | every step that takes an ATP gives back an ADP and the other way round |
| Pathways.NicotinamidesBalanced | pyology/pathways.py:332-358 | only step 6 touches NAD+ and NADH, turning one into the other |
| Pathways.GlycolysedYield | pyology/pathways.py:92-121 | a glycolysis call that returns raises ATP + ADP by exactly 2 per glucose unit and leaves NAD+ + NADH as it was |
| Pathways.ReactedNoRise | pyology/pathways.py:244-258 | a completed step that does not produce a metabolite cannot raise it |
| Pathways.ScheduledNoRise | pyology/pathways.py:107-108 | a completed run of steps none of which produces a metabolite cannot raise it |
| Pathways.RepeatedNoRise | pyology/pathways.py:114-116 | steps 6-10 run twice cannot raise a metabolite none of them produces |
| Pathways.UnitRunNoRise | pyology/pathways.py:105-119 | a completed pass of the glucose loop cannot raise a metabolite other than ATP that no step makes |
| Pathways.ProducedOther | pyology/pathways.py:119 | producing one metabolite leaves every other as it was |
| Pathways.UnitsRunNoRise | pyology/pathways.py:105-119 | a completed loop whose passes cannot raise a metabolite cannot raise it |
| Pathways.GlucoseNeverMade | pyology/pathways.py:244-424 | no step of the pathway produces glucose |
| Pathways.GlycolysedTakesGlucose | pyology/pathways.py:92-121 | a glycolysis call that returns had the glucose, and leaves at most the old glucose less the floored input |
| Pathways.GlycolysisPathway.constructor | pyology/pathways.py:14-17 | the pathway works on the organelle it was built with |
| Pathways.GlycolysisPathway.Glycolysis | pyology/pathways.py:70-123 | the organelle's new store and the result are those of glycolysis on the old store with the floored input; the glycolysis rate is untouched |
| Pathways.GlycolysisPathway.GlycolysisWith | pyology/pathways.py:93-123 | the new store and the result are those of glycolysis for a whole-number input |
| Pathways.GlycolysisPathway.RunUnits | pyology/pathways.py:105-119 | the new store and the raise are those of the glucose loop run for the given number of passes |
| Pathways.GlycolysisPathway.RunUnit | pyology/pathways.py:106-119 | the new store and the raise are those of one pass of the loop |
| Pathways.GlycolysisPathway.RunSchedule | pyology/pathways.py:107-108 | the new store and the raise are those of the steps run in order |
| Pathways.GlycolysisPathway.RunStep | pyology/pathways.py:244-258 | the new store and the raise are those of one step at the rate the kinetics give for the old store |
| Pathways.GlycolysisPathway.LimitedRate | pyology/pathways.py:253-255 | returns the min over the bound and the limits' current quantities |
| Pathways.GlycolysisPathway.MetaboliteQuantity | pyology/pathways.py:250 | the organelle quantity lookup the steps call succeeds exactly for a known name and returns its quantity |
| Pathways.GlycolysisPathway.IsMetaboliteAvailable | pyology/pathways.py:151-175 | for a known name, true exactly when its quantity covers the amount; an unknown name raises MetaboliteError |
| Pathways.GlycolysisPathway.EnsureMetaboliteAvailability | pyology/pathways.py:125-149 | the new store and the raise are those of the ATP/ADP fix-up on the old store |
| Pathways.GlycolysisPathway.Convert | pyology/pathways.py:143-147 | the new store and the raise are those of the two quantity changes that move the amount from source to target |
| Pathways.GlycolysisPathway.ConsumeMetabolites | pyology/pathways.py:177-207 | every item is checked before any is taken: the store is either the full consumption or unchanged with MetaboliteError |
| Pathways.GlycolysisPathway.ProduceMetabolites | pyology/pathways.py:209-242 | every item is checked before any is added: the store is either the full production or unchanged with MetaboliteError |
| Pathways.ConsumeNeverFails | pyology/pathways.py:250-257 | when every substrate of a step also bounds its actual rate, a non-negative enzyme rate on a store within bounds gives a non-negative actual rate whose consumption never raises |
| Pathways.HexokinaseConsumes | pyology/pathways.py:248-258 | step 1 with a non-negative enzyme rate never fails to consume glucose and ATP, and a completed step 1 keeps glucose + glucose 6-phosphate and ATP + ADP |
| Pathways.DehydrogenaseConsumes | pyology/pathways.py:338-358 | on a store within bounds holding G3P, NAD+ and Pi, step 6's actual rate lies between 0 and each of their quantities, its consumption never raises for a non-negative enzyme rate, and a completed step 6 keeps NAD+ + NADH |
| PyologyCytoplasm.AmpBranchCreatesAdenine | pyology/cytoplasm.py:58-63 | as written, when ADP falls short and AMP covers half the shortfall, the adjusted adenine total exceeds the initial total by half the shortfall |
| PyologyCytoplasm.AmpBranchAssertFails | pyology/cytoplasm.py:58-78 | as written, 2 ATP gained with no ADP and 10 AMP ends 1 above the initial total, so the conservation assert fails |
| PyologyCytoplasm.AdjustAsWritten | pyology/cytoplasm.py:54-67 | as written: InsufficientMetaboliteError exactly when ADP is short and AMP does not cover half the shortfall; ATP never changes; in the AMP branch ADP ends at 0 and the adenine total ends half the shortfall above the total less the net ATP gain |
| PyologyCytoplasm.Adjust | pyology/cytoplasm.py:54-67 | corrected (adenylate kinase adjustment): InsufficientMetaboliteError exactly when ADP cannot pay for the net ATP and AMP does not cover half the shortfall |
| PyologyCytoplasm.AdjustSpec | pyology/cytoplasm.py:54-67 | corrected (adenylate kinase adjustment): a successful adjustment removes exactly the net ATP gain from the adenine total, leaves ADP non-negative, takes only ADP when it suffices, and leaves ADP at 0 when AMP was needed |
| PyologyCytoplasm.AdjustConserves | pyology/cytoplasm.py:42-78 | corrected (adenylate kinase adjustment): when the routine changed only ATP, the adjusted adenine total equals the total before glycolysis |
| PyologyCytoplasm.Glycolysed | pyology/cytoplasm.py:28-80 | corrected (adenylate kinase adjustment): KeyError, with the store as it stood, when the store before the routine lacks an adenine nucleotide or the store after it lacks ATP or ADP; when only AMP is missing afterwards, KeyError after ADP has paid for the net ATP gain if it could, otherwise with the routine's store; every raise is KeyError, InsufficientMetaboliteError or AssertionError; a returned value comes with an adenine total within 1e-6 of the one before glycolysis |
| PyologyCytoplasm.MissingAmpAfterAdpPaid | pyology/cytoplasm.py:55-71 | a routine that leaves no AMP: 2 ATP gained over 10 ADP leaves ADP at 8 before the AMP read raises KeyError |
| PyologyCytoplasm.GlycolysedSpec | pyology/cytoplasm.py:28-80 | corrected (adenylate kinase adjustment): the result is the routine's pyruvate unchanged; InsufficientMetaboliteError leaves the routine's store in place; the adjustment touches only ATP, ADP and AMP and no key |
| PyologyCytoplasm.OnlyAtpChangedPasses | pyology/cytoplasm.py:74-80 | corrected (adenylate kinase adjustment): when the routine changed only ATP and the adjustment succeeds, the conservation assert passes and the pyruvate is returned |
| PyologyCytoplasm.Cytoplasm.constructor | pyology/cytoplasm.py:25-26 | takes no argument: the store is the base organelle's six lower-case entries and the glycolysis rate is 1.0 |
| PyologyCytoplasm.Cytoplasm.Reset | pyology/cytoplasm.py:82-83 | re-runs the constructor: the six lower-case entries and rate 1.0 again |
| PyologyCytoplasm.Cytoplasm.AddMetabolite | pyology/organelle.py:146-176 | the inherited add_metabolite: the store becomes the merge with the new entry, or stays as it was with ValueError |
| PyologyCytoplasm.FreshCytoplasmRaisesKeyError | pyology/cytoplasm.py:25-42 | on a new or reset cytoplasm glycolysis raises KeyError at its first read of "ATP" and leaves the store as it was, whatever the routine would do |
| PyologyCytoplasm.AddedAdenineReadable | pyology/cytoplasm.py:42-45 | after add_metabolite has added "ATP", "ADP" and "AMP" within capacity, the three reads find exactly the quantities added |
| PyologyCytoplasm.Cytoplasm.Glycolysis | pyology/cytoplasm.py:28-80 | corrected (adenylate kinase adjustment): the new store and the result are those of the adjustment and conservation check applied to what the external routine left |
| StepwiseCytoplasm.Available | cell_modeling/pyology/cytoplasm.py:91-110 | ValueError exactly for an unknown name; otherwise Ok(true) exactly when the quantity covers the amount |
| StepwiseCytoplasm.Exchanged | cell_modeling/pyology/cytoplasm.py:112-175 | succeeds exactly when no item is rejected, every item being checked before any changes; every rejection is ValueError; success keeps the set of metabolites |
| StepwiseCytoplasm.Stepped | cell_modeling/pyology/cytoplasm.py:177-192 | a step with nothing to do leaves the store; every raise is ValueError or QuantityError; a step that completes named only metabolites of the store |
| StepwiseCytoplasm.SteppedAll | cell_modeling/pyology/cytoplasm.py:58-59 | the step loop, however it ends, keeps the set of metabolites and raises only ValueError or QuantityError |
| StepwiseCytoplasm.Glycolysed | cell_modeling/pyology/cytoplasm.py:30-63 | negative units raise ValueError and zero returns 0, both with nothing changed; the set of metabolites is kept; a positive run that returns had enough glucose and returns the pyruvate quantity it leaves |
| StepwiseCytoplasm.Ensured | cell_modeling/pyology/cytoplasm.py:65-89 | an unknown name raises ValueError unchanged; enough on hand changes nothing; short ATP or ADP is converted from the other when it has enough, keeping ATP + ADP; any other shortfall raises ValueError unchanged; nothing but ATP and ADP changes |
| StepwiseCytoplasm.EnsuredConverts | cell_modeling/pyology/cytoplasm.py:82-87 | a completed conversion moves exactly the amount from the plentiful one of ATP and ADP to the short one |
| StepwiseCytoplasm.GlycolysedGuards | cell_modeling/pyology/cytoplasm.py:48-57 | a negative input raises ValueError and zero returns 0, both unchanged; without glucose the UnknownMetaboliteError of the first change escapes the except clause |
| StepwiseCytoplasm.AmountUnmentioned | cell_modeling/pyology/cytoplasm.py:126-140 | a keyword call that does not name a metabolite moves it by nothing |
| StepwiseCytoplasm.AmountOfNamed | cell_modeling/pyology/cytoplasm.py:126-140 | with distinct names, a keyword call moves each named metabolite by its own amount |
| StepwiseCytoplasm.ExchangedAmounts | cell_modeling/pyology/cytoplasm.py:112-175 | an accepted consume or produce names only known metabolites and moves each metabolite by exactly the amount named for it, keeping keys and capacities |
| StepwiseCytoplasm.StepEffect | cell_modeling/pyology/cytoplasm.py:177-325 | a completed step keeps the names, moves every metabolite besides ATP and ADP by its net amount and ATP + ADP by their combined net amount, and ATP and ADP by their own net amounts when the fix-up had nothing to do |
| StepwiseCytoplasm.RunEffect | cell_modeling/pyology/cytoplasm.py:58-59 | a completed run of steps moves every metabolite other than ATP and ADP by the steps' total |
| StepwiseCytoplasm.GlycolysedEffect | cell_modeling/pyology/cytoplasm.py:48-60 | a glycolysis that returns takes the input glucose plus what the steps consume, moves every other metabolite but ATP and ADP by the steps' totals, and returns the pyruvate left |
| StepwiseCytoplasm.StepTablesWellFormed | cell_modeling/pyology/cytoplasm.py:177-325 | no keyword call of either copy's steps names a metabolite twice |
| StepwiseCytoplasm.TotalSplitAt | cell_modeling/pyology/cytoplasm.py:58-59 | the total of a run from step i is step i's net amount plus the total of the rest |
| StepwiseCytoplasm.TotalTen | cell_modeling/pyology/cytoplasm.py:58-59 | a ten-step run adds up the ten steps' net amounts |
| StepwiseCytoplasm.StepNets | cell_modeling/pyology/cytoplasm.py:177-325 | the net amount each step adds to each metabolite, in closed form |
| StepwiseCytoplasm.OrganelleTotals | cell_modeling/cell_modeling/organelles/cytoplasm.py:95-135 | the older copy's steps take 1 glucose and 2 NAD, add 2 NADH and 2 pyruvate, and keep ATP + ADP |
| StepwiseCytoplasm.PyologyTotals | cell_modeling/pyology/cytoplasm.py:177-325 | the pyology copy's steps take 1 glucose and 2 NAD, add 2 NADH and 6 pyruvate, and keep ATP + ADP |
| StepwiseCytoplasm.DistinctFromIntermediates | cell_modeling/pyology/cytoplasm.py:20-27 | none of the four intermediates the steps name is among the six metabolites a new store holds |
| StepwiseCytoplasm.TableStepDistinct | cell_modeling/pyology/cytoplasm.py:177-325 | each step of either copy names its metabolites once per keyword call |
| StepwiseCytoplasm.TableStepAdenineNeutral | cell_modeling/pyology/cytoplasm.py:177-325 | no step of either copy changes ATP + ADP by its own consume and produce |
| StepwiseCytoplasm.EveryStepKeepsAtpPlusAdp | cell_modeling/pyology/cytoplasm.py:177-325 | every completed step of either copy, fix-up included, keeps ATP + ADP |
| StepwiseCytoplasm.HexokinaseEffect | cell_modeling/pyology/cytoplasm.py:177-192 | step 1 with ATP on hand turns one glucose and one ATP into one ADP and changes nothing else |
| StepwiseCytoplasm.PyruvateKinaseEffect | cell_modeling/pyology/cytoplasm.py:312-325 | step 10 with ADP on hand turns two ADP into two ATP, adds two pyruvate and changes nothing else |
| StepwiseCytoplasm.DehydrogenaseEffect | cell_modeling/pyology/cytoplasm.py:252-265 | step 6 turns two NAD into two NADH and changes nothing else |
| StepwiseCytoplasm.OrganelleGlycolysisEffect | cell_modeling/cell_modeling/organelles/cytoplasm.py:20-36 | a completed glycolysis in the older copy takes the input plus one glucose, turns two NAD into NADH, keeps ATP + ADP, adds exactly two pyruvate whatever the input, and returns the pyruvate on hand |
| StepwiseCytoplasm.PyologyGlycolysisEffect | cell_modeling/pyology/cytoplasm.py:30-63 | a completed glycolysis in the pyology copy takes the input plus one glucose, keeps ATP + ADP, adds six pyruvate and returns the pyruvate on hand |
| StepwiseCytoplasm.PyologyStepsNeedFructose | cell_modeling/pyology/cytoplasm.py:222-235 | without fructose 6-phosphate, and with ATP for steps 1 and 3, the pyology steps never complete: they raise ValueError at step 4 at the latest (an earlier step, such as step 1 short of glucose, may raise first) |
| StepwiseCytoplasm.FreshPyologyGlycolysisFails | cell_modeling/pyology/cytoplasm.py:20-63 | on a new pyology cytoplasm, glycolysis of 1 to 100 units raises GlycolysisError (the caught ValueError of step 4, or at 100 units of step 1's glucose consume, since the input change has taken all the glucose), and of more units the QuantityError of the glucose change |
| StepwiseCytoplasm.HexokinaseCompletesByConversion | cell_modeling/pyology/cytoplasm.py:188-190 | step 1 completes when ATP is short but one ADP can be turned into ATP |
| StepwiseCytoplasm.HexokinaseConvertsFirst | cell_modeling/pyology/cytoplasm.py:188-190 | step 1 with ATP short and ADP to spare first turns an ADP into ATP, so ATP and ADP end where they started and one glucose is gone |
| StepwiseCytoplasm.Cytoplasm.constructor | cell_modeling/pyology/cytoplasm.py:20-28 | the six starting metabolites and the given glycolysis rate (1.0 by default) |
| StepwiseCytoplasm.Cytoplasm.Glycolysis | cell_modeling/pyology/cytoplasm.py:30-63 | the new store and the result are those of glycolysis on the floored input over the ten pyology steps |
| StepwiseCytoplasm.Cytoplasm.GlycolysisWith | cell_modeling/pyology/cytoplasm.py:50-63 | the new store and the result are those of glycolysis on a whole-number input over a step table |
| StepwiseCytoplasm.Cytoplasm.RunSteps | cell_modeling/pyology/cytoplasm.py:58-59 | the new store and the raise are those of the steps run in order |
| StepwiseCytoplasm.Cytoplasm.RunStep | cell_modeling/pyology/cytoplasm.py:177-325 | the new store and the raise are those of one step |
| StepwiseCytoplasm.Cytoplasm.EnsureMetaboliteAvailability | cell_modeling/pyology/cytoplasm.py:65-89 | the new store and the raise are those of the ATP/ADP fix-up |
| StepwiseCytoplasm.Cytoplasm.Convert | cell_modeling/pyology/cytoplasm.py:83-87 | the new store and the raise are those of the two quantity changes |
| StepwiseCytoplasm.Cytoplasm.ChangeMetaboliteQuantity | cell_modeling/pyology/organelle.py:98-113 | the new store and the raise are those of the checked quantity change |
| StepwiseCytoplasm.Cytoplasm.IsMetaboliteAvailable | cell_modeling/pyology/cytoplasm.py:91-110 | returns whether a known metabolite covers the amount; an unknown name raises ValueError |
| StepwiseCytoplasm.Cytoplasm.ConsumeMetabolites | cell_modeling/pyology/cytoplasm.py:112-141 | every item is checked before any is taken: the store is either the full consumption with True or unchanged with ValueError |
| StepwiseCytoplasm.Cytoplasm.ProduceMetabolites | cell_modeling/pyology/cytoplasm.py:143-175 | every item is checked before any is added: the store is either the full production with True or unchanged with ValueError |
| StepwiseCytoplasm.Cytoplasm.Reset | cell_modeling/pyology/cytoplasm.py:327-328 | the six starting metabolites and the default rate 1.0 |
| StepwiseCytoplasm.Cytoplasm.GetMetaboliteQuantity | cell_modeling/pyology/cytoplasm.py:330-337 | a known name's quantity; an unknown name raises ValueError |
| StepwiseCytoplasm.OrganelleCytoplasm.constructor | cell_modeling/cell_modeling/organelles/cytoplasm.py:10-18 | the six starting metabolites and rate 1.0 |
| StepwiseCytoplasm.OrganelleCytoplasm.Glycolysis | cell_modeling/cell_modeling/organelles/cytoplasm.py:20-36 | the new store and the result are those of glycolysis on the integer input over the older copy's steps |
| StepwiseCytoplasm.OrganelleCytoplasm.GlycolysisWith | cell_modeling/cell_modeling/organelles/cytoplasm.py:23-36 | the new store and the result are those of glycolysis on a whole-number input over a step table |
| StepwiseCytoplasm.OrganelleCytoplasm.RunSteps | cell_modeling/cell_modeling/organelles/cytoplasm.py:31-32 | the new store and the raise are those of the steps run in order |
| StepwiseCytoplasm.OrganelleCytoplasm.RunStep | cell_modeling/cell_modeling/organelles/cytoplasm.py:95-135 | the new store and the raise are those of one step |
| StepwiseCytoplasm.OrganelleCytoplasm.EnsureMetaboliteAvailability | cell_modeling/cell_modeling/organelles/cytoplasm.py:38-47 | the new store and the raise are those of the ATP/ADP fix-up |
| StepwiseCytoplasm.OrganelleCytoplasm.Convert | cell_modeling/cell_modeling/organelles/cytoplasm.py:41-45 | the new store and the raise are those of the two quantity changes |
| StepwiseCytoplasm.OrganelleCytoplasm.ChangeMetaboliteQuantity | cell_modeling/pyology/organelle.py:98-113 | the new store and the raise are those of the checked quantity change |
| StepwiseCytoplasm.OrganelleCytoplasm.IsMetaboliteAvailable | cell_modeling/cell_modeling/organelles/cytoplasm.py:49-54 | returns whether a known metabolite covers the amount; an unknown name raises ValueError |
| StepwiseCytoplasm.OrganelleCytoplasm.ConsumeMetabolites | cell_modeling/cell_modeling/organelles/cytoplasm.py:56-72 | the store is either the full consumption with True or unchanged with ValueError |
| StepwiseCytoplasm.OrganelleCytoplasm.ProduceMetabolites | cell_modeling/cell_modeling/organelles/cytoplasm.py:74-93 | the store is either the full production with True or unchanged with ValueError |
| StepwiseCytoplasm.OrganelleCytoplasm.Reset | cell_modeling/cell_modeling/organelles/cytoplasm.py:137-138 | the six starting metabolites and rate 1.0 |
| StepwiseCytoplasm.OrganelleCytoplasm.GetMetaboliteQuantity | cell_modeling/cell_modeling/organelles/cytoplasm.py:140-145 | a known name's quantity; an unknown name raises ValueError |
| CappedCell.CappedAdd | cell_modeling/cell_modeling/organelles/mitochondrion.py:47 | a capped add never passes the cap, gives either the plain sum or the cap, and from a counter in range with a non-negative amount stays in range and never falls |
| CappedCell.Glycolysed | cell_modeling/cell_modeling/organelles/mitochondrion.py:43-52 | glycolysis raises pyruvate by exactly 2g with no cap, keeps ATP and NADH under their caps, and from a valid cytoplasm with g ≥ 0 stays valid and never lowers ATP |
| CappedCell.KrebsClosedForm | cell_modeling/cell_modeling/organelles/mitochondrion.py:84-90 | n passes of the Krebs loop end at the once-capped totals min(ATP + n, cap), min(NADH + 3n, cap) and min(FADH2 + n, cap), leaving oxygen, gradient and caps alone |
| CappedCell.KrebsKeepsValid | cell_modeling/cell_modeling/organelles/mitochondrion.py:84-90 | the Krebs loop keeps the mitochondrion valid and never lowers its ATP |
| CappedCell.ElectronTransported | cell_modeling/cell_modeling/organelles/mitochondrion.py:92-103 | the chain leaves ATP alone, keeps a valid state valid with the gradient only rising, empties NADH and FADH2 when they are within 1000 and 500, and lowers oxygen by half their sum, floored at 0 |
| CappedCell.PhosphorylationEffect | cell_modeling/cell_modeling/organelles/mitochondrion.py:105-133 | below the threshold nothing changes; above it a valid state stays valid, ATP never falls, oxygen is untouched, and the gradient stays between the threshold and its old value |
| CappedCell.TickedKeepsValid | cell_modeling/cell_modeling/organelles/mitochondrion.py:179-182 | any number of chain-plus-phosphorylation passes keeps the mitochondrion valid and never lowers ATP |
| CappedCell.Ticks | cell_modeling/cell_modeling/organelles/mitochondrion.py:171-182 | the time loop runs the least number of 0.1 s passes after the first 3 s that brings the clock to the duration |
| CappedCell.AtpGainNonNegative | cell_modeling/cell_modeling/organelles/mitochondrion.py:150-186 | from valid compartments and non-negative glucose, produce_atp leaves both compartments valid and reports a non-negative ATP gain |
| CappedCell.InitialValid | cell_modeling/cell_modeling/organelles/mitochondrion.py:37-73 | a new cytoplasm and a new mitochondrion are valid |
| CappedCell.Cytoplasm.constructor | cell_modeling/cell_modeling/organelles/mitochondrion.py:37-41 | no glucose or pyruvate, ATP and NADH at 0 with cap 100 |
| CappedCell.Cytoplasm.Glycolysis | cell_modeling/cell_modeling/organelles/mitochondrion.py:43-52 | the new state is glycolysis of the old, and the result is the running pyruvate total |
| CappedCell.Cytoplasm.Reset | cell_modeling/cell_modeling/organelles/mitochondrion.py:54-57 | the state the constructor builds |
| CappedCell.Mitochondrion.constructor | cell_modeling/cell_modeling/organelles/mitochondrion.py:61-73 | NADH, FADH2, ATP and ROS at 0 with cap 100, oxygen full at 1 000 000, no gradient |
| CappedCell.Mitochondrion.PyruvateToAcetylCoa | cell_modeling/cell_modeling/organelles/mitochondrion.py:75-82 | returns the pyruvate amount as acetyl-CoA and the new state is NADH raised by it, capped |
| CappedCell.Mitochondrion.KrebsCycle | cell_modeling/cell_modeling/organelles/mitochondrion.py:84-90 | the new state is n passes of the Krebs loop over the old |
| CappedCell.Mitochondrion.ElectronTransportChain | cell_modeling/cell_modeling/organelles/mitochondrion.py:92-103 | the new state is the chain applied to the old |
| CappedCell.Mitochondrion.OxidativePhosphorylation | cell_modeling/cell_modeling/organelles/mitochondrion.py:105-135 | the new state is phosphorylation applied to the old |
| CappedCell.Mitochondrion.Reset | cell_modeling/cell_modeling/organelles/mitochondrion.py:137-140 | the state the constructor builds |
| CappedCell.Cell.constructor | cell_modeling/cell_modeling/organelles/mitochondrion.py:144-148 | a fresh cytoplasm and mitochondrion in their initial states and the clock at 0 |
| CappedCell.Cell.ProduceAtp | cell_modeling/cell_modeling/organelles/mitochondrion.py:150-186 | the compartments end as glycolysis, pyruvate conversion, the Krebs loop and the timed passes leave them, the clock ends at the first tick at or past the duration, and the result is the ATP gain |
| CappedCell.Cell.Reset | cell_modeling/cell_modeling/organelles/mitochondrion.py:188-193 | both compartments back to their initial states and the clock at 0 |
| Cytoskeleton.Polymerized | cell_modeling/pyology/cytoskeleton.py:48-50 | the list grows by one: the old list followed by "Microtubule" |
| Cytoskeleton.Depolymerized | cell_modeling/pyology/cytoskeleton.py:52-55 | an empty list stays empty; otherwise the last microtubule is dropped and the rest kept in order |
| Cytoskeleton.DepolymerizeUndoesPolymerize | cell_modeling/pyology/cytoskeleton.py:48-55 | a pop right after an append gives back the microtubule list it started from |
| Cytoskeleton.DepolymerizeRemovesLast | cell_modeling/pyology/cytoskeleton.py:52-55 | depolymerising drops exactly the last microtubule and keeps the rest in order; an empty list stays empty |
| Cytoskeleton.OnlyMicrotubules | cell_modeling/pyology/cytoskeleton.py:48-55 | both operations keep a list that holds only "Microtubule" entries |
| Cytoskeleton.Grown | cell_modeling/pyology/cytoskeleton.py:45-55 | starting empty, p polymerisations then d depolymerisations leave max(p - d, 0) microtubules, all "Microtubule" |
| Cytoskeleton.Cytoskeleton.constructor | cell_modeling/pyology/cytoskeleton.py:43-46 | as intended: named "Cytoskeleton", with empty microtubule and actin filament lists; as written the super() call raises TypeError |
| Cytoskeleton.Cytoskeleton.PolymerizeMicrotubule | cell_modeling/pyology/cytoskeleton.py:48-50 | appends one "Microtubule"; the actin filaments are unchanged |
| Cytoskeleton.Cytoskeleton.DepolymerizeMicrotubule | cell_modeling/pyology/cytoskeleton.py:52-55 | pops the last microtubule when there is one, else changes nothing; the actin filaments are unchanged |
| Cytoskeleton.Cytoskeleton.TransportCargo | cell_modeling/pyology/cytoskeleton.py:57-58 | the line the method prints, "Transporting <cargo> from <start> to <end> along microtubules", returned as a value; the object is not changed |
| Reticulum.ProteinOf | pyology/endoplasmic_reticulum.py:66 | "Protein from " followed by the mRNA, which can be read back from the name |
| Reticulum.LipidOf | pyology/endoplasmic_reticulum.py:86 | "Lipid from " followed by the precursors, which can be read back from the name |
| Reticulum.ProteinOfInjective | pyology/endoplasmic_reticulum.py:66 | two mRNAs give the same protein name only when they are equal |
| Reticulum.LipidOfInjective | pyology/endoplasmic_reticulum.py:86 | two precursors give the same lipid name only when they are equal |
| Reticulum.ProteinNeverLipid | pyology/endoplasmic_reticulum.py:66-86 | a protein name is never a lipid name |
| Reticulum.EndoplasmicReticulum.constructor | pyology/endoplasmic_reticulum.py:40-43 | as intended: named "Endoplasmic Reticulum", with no proteins and no lipids; as written the super() call raises TypeError |
| Reticulum.EndoplasmicReticulum.SynthesizeProtein | pyology/endoplasmic_reticulum.py:45-68 | returns "Protein from <mrna>" and appends it to the proteins; the lipids are unchanged |
| Reticulum.EndoplasmicReticulum.SynthesizeLipid | pyology/endoplasmic_reticulum.py:70-88 | returns "Lipid from <precursors>" and appends it to the lipids; the proteins are unchanged |
| Lysosome.Degraded | cell_modeling/cell_modeling/organelles/lysosome.py:50-54 | one result per queued item, in order, each "Degraded " followed by the item |
| Lysosome.DegradedOnePerItem | cell_modeling/cell_modeling/organelles/lysosome.py:50-54 | one degraded material per queued item, in order, each "Degraded " followed by its item, so the item can be read back |
| Lysosome.DegradedInBatches | cell_modeling/cell_modeling/organelles/lysosome.py:38-56 | degrading a queue in two batches yields the same materials in the same order as degrading it at once |
| Lysosome.Lysosome.constructor | cell_modeling/cell_modeling/organelles/lysosome.py:33-36 | as intended: named "Lysosome", empty contents, pH 5.0; as written the super() call raises TypeError |
| Lysosome.Lysosome.ReceiveMaterial | cell_modeling/cell_modeling/organelles/lysosome.py:38-43 | appends the material to the contents |
| Lysosome.Lysosome.DegradeContents | cell_modeling/cell_modeling/organelles/lysosome.py:45-56 | returns the degraded form of every queued item, in order, and empties the queue |
| Golgi.DetermineDestination | cell_modeling/cell_modeling/organelles/golgi_apparatus.py:63-68 | every protein goes to "Plasma Membrane" |
| Golgi.SortCargo | cell_modeling/cell_modeling/organelles/golgi_apparatus.py:51-59 | empty cargo gives an empty map; otherwise "Plasma Membrane" is the only destination and holds one modified protein per cargo item |
| Golgi.SortCargoAllToPlasmaMembrane | cell_modeling/cell_modeling/organelles/golgi_apparatus.py:46-68 | empty cargo sorts to an empty map; otherwise the only destination is "Plasma Membrane", holding every protein modified, in arrival order |
| Golgi.SortCargoKeepsEveryProtein | cell_modeling/cell_modeling/organelles/golgi_apparatus.py:52-59 | a non-empty sort has one destination whose list has one "Modified " entry per received protein, position by position |
| Golgi.GolgiApparatus.constructor | cell_modeling/cell_modeling/organelles/golgi_apparatus.py:35-37 | as intended: named "Golgi Apparatus", with empty cargo; as written the super() call raises TypeError |
| Golgi.GolgiApparatus.ReceiveProtein | cell_modeling/cell_modeling/organelles/golgi_apparatus.py:39-44 | appends the protein to the cargo |
| Golgi.GolgiApparatus.ModifyAndSort | cell_modeling/cell_modeling/organelles/golgi_apparatus.py:46-61 | returns the sorted cargo of the queue it held and empties the queue |
| Ribosome.CodonLengths | pyology/ribosome.py:41 | the mRNA is cut into ⌈len/3⌉ codons, each of three letters except possibly a shorter, non-empty last one |
| Ribosome.ConcatPrefix | pyology/ribosome.py:41 | the first k codons spell the first min(3k, len) letters of the mRNA |
| Ribosome.CodonsConcatenate | pyology/ribosome.py:41 | the codons concatenate back to the mRNA: nothing is lost or reordered |
| Ribosome.CodonToAminoAcid | pyology/ribosome.py:50-60 | a one-letter result: the table's entry for a listed codon, "X" for any other |
| Ribosome.CodonTableEntries | pyology/ribosome.py:54-60 | AUG reads as M, UUU as F, UAA as the stop "*", and an unlisted codon such as GGG as X |
| Ribosome.Translated | pyology/ribosome.py:43-45 | one amino-acid letter per codon |
| Ribosome.TranslatedLetters | pyology/ribosome.py:43-45 | the sequence has one letter per codon, in codon order |
| Ribosome.TranslatedConcat | pyology/ribosome.py:43-45 | translating two codon lists in turn gives the translation of their concatenation |
| Ribosome.StopDoesNotEnd | pyology/ribosome.py:43-45 | a stop codon contributes "*" and translation carries on after it |
| Ribosome.TranslateMrna | pyology/ribosome.py:35-48 | returns "Protein: " followed by one amino acid per codon, so its length is 9 + ⌈len/3⌉ |
| Ribosome.EmptyMrna | pyology/ribosome.py:41-46 | an empty mRNA yields the bare "Protein: " |
| GeneExpression.LevelSnoc | cell_modeling/pyology/gene.py:38-43 | adding a regulator multiplies the level by its effect |
| GeneExpression.NoRegulatorsIsBasal | cell_modeling/pyology/gene.py:38-43 | with no regulators the level is the basal expression level |
| GeneExpression.NeutralRegulator | cell_modeling/pyology/gene.py:41-42 | a regulator of effect 1.0 leaves the level unchanged |
| GeneExpression.EffectsPermutation | cell_modeling/pyology/gene.py:41-42 | reordering the regulators reorders their effects |
| GeneExpression.LevelOrderIndependent | cell_modeling/pyology/gene.py:38-43 | the level does not depend on the order in which regulators were added |
| GeneExpression.Gene.constructor | cell_modeling/pyology/gene.py:29-33 | keeps name, sequence and basal level (1.0 by default), with no regulators |
| GeneExpression.Gene.AddRegulator | cell_modeling/pyology/gene.py:35-36 | appends the regulator; the basal level is unchanged |
| GeneExpression.Gene.GetExpressionLevel | cell_modeling/pyology/gene.py:38-43 | returns the basal level times every regulator's effect, changing nothing |
| Nucleus.NewNucleus | cell_modeling/cell_modeling/organelles/nucleus.py:40-42 | as intended: the gene map's keys are exactly the names of the genes given; as written the super() call on line 41 raises TypeError first |
| Nucleus.GeneMapKeys | cell_modeling/cell_modeling/organelles/nucleus.py:42 | the gene map's keys are exactly the names of the genes passed in |
| Nucleus.LastOccurrenceWins | cell_modeling/cell_modeling/organelles/nucleus.py:42 | a gene that no later gene shares a name with is the one the map holds under its name |
| Nucleus.TranscribeDna | cell_modeling/cell_modeling/organelles/nucleus.py:51-64 | Some mRNA exactly when the gene is known, spelled "mRNA of " followed by the gene name |
| Nucleus.TranscribeConstructed | cell_modeling/cell_modeling/organelles/nucleus.py:40-61 | as intended: every gene passed to the constructor transcribes to "mRNA of <name>"; as written no nucleus can be built |
| Nucleus.TranscribeUnknown | cell_modeling/cell_modeling/organelles/nucleus.py:55-64 | a name no gene carries transcribes to None |
| MoleculeCounts.Added | cell_modeling/cell_modeling/cytoplasm.py:33-37 | the molecule becomes a key, its count (absent meaning 0) rises by the quantity, and every other count is unchanged |
| MoleculeCounts.Removed | cell_modeling/cell_modeling/cytoplasm.py:39-48 | no key is added; with enough held the count drops by the quantity, otherwise the map is unchanged; every other count is unchanged |
| MoleculeCounts.AddedCounts | cell_modeling/cell_modeling/cytoplasm.py:33-37 | adding raises the molecule's count, absent meaning 0, by the quantity and touches no other molecule |
| MoleculeCounts.RemovedCounts | cell_modeling/cell_modeling/cytoplasm.py:39-48 | with enough held the count drops by the quantity and an entry reaching 0 is deleted; otherwise the map is unchanged; other molecules are never touched |
| MoleculeCounts.StaysNonNegative | cell_modeling/cell_modeling/cytoplasm.py:33-48 | with non-negative quantities, adding and removing keep every count non-negative |
| MoleculeCounts.AddThenRemoveRestores | cell_modeling/cell_modeling/cytoplasm.py:33-48 | removing what was just added restores the map, unless the molecule was held at count 0 |
| MoleculeCounts.ZeroEntryNotRestored | cell_modeling/cell_modeling/cytoplasm.py:37-46 | the excluded case: an entry at 0 is deleted by adding then removing one |
| MoleculeCounts.RemovedEachNonNegative | cell_modeling/cell_modeling/cytoplasm.py:58-59 | removing one of each reactant keeps every count non-negative |
| MoleculeCounts.AddedEachNonNegative | cell_modeling/cell_modeling/cytoplasm.py:60-61 | adding one of each product keeps every count non-negative |
| MoleculeCounts.AddedEachCounts | cell_modeling/cell_modeling/cytoplasm.py:60-61 | each molecule gains exactly its number of occurrences in the product list |
| MoleculeCounts.MissingReactantStillProduces | cell_modeling/cell_modeling/cytoplasm.py:50-61 | a missing reactant is skipped and the products are still made |
| MoleculeCounts.Cytoplasm.constructor | cell_modeling/cell_modeling/cytoplasm.py:30-31 | starts with no molecules |
| MoleculeCounts.Cytoplasm.AddMolecule | cell_modeling/cell_modeling/cytoplasm.py:33-37 | the new counts are the old counts with the quantity added; the quantity defaults to 1 |
| MoleculeCounts.Cytoplasm.RemoveMolecule | cell_modeling/cell_modeling/cytoplasm.py:39-48 | the new counts are the old counts with the quantity removed, or unchanged when not enough is held; the quantity defaults to 1 |
| MoleculeCounts.Cytoplasm.SimulateReaction | cell_modeling/cell_modeling/cytoplasm.py:50-61 | removes one of each reactant in order, then adds one of each product; the rate constant is not used |
| Energy.GetQuantity | pyology/energy_calculations.py:6-12 | a number is returned as is, an object's quantity is read, and anything else raises TypeError |
| Energy.BaseEnergy | pyology/energy_calculations.py:15-21 | an empty table gives 0; every raise is TypeError |
| Energy.BaseEnergyRaises | pyology/energy_calculations.py:15-21 | the weighted sum raises TypeError exactly when some table metabolite holds an unsupported value |
| Energy.EmptyStoreEnergy | pyology/energy_calculations.py:18-21 | an empty store has energy 0 under any table, an absent metabolite counting as 0 |
| Energy.EmptyTableEnergy | pyology/energy_calculations.py:18-21 | an empty table gives 0 whatever the store |
| Energy.OnlyTableMatters | pyology/energy_calculations.py:18-21 | stores that agree on the table's metabolites have the same energy |
| Energy.RaiseOneMetabolite | pyology/energy_calculations.py:18-21 | raising one table metabolite by delta raises the energy by delta times its energy per unit |
| Energy.CellEnergy | pyology/energy_calculations.py:24-31 | TypeError exactly when a table metabolite of either compartment is neither a number nor an object with a quantity, or the gradient is not a number; no other raise |
| Energy.CellEnergyValue | pyology/energy_calculations.py:24-31 | with numeric ATP in both compartments and no gradient entry in either store, the cell energy is 50 per ATP plus 5 per gradient unit |
| Energy.CellTableEnergy | pyology/energy_calculations.py:25-28 | one compartment's share of the cell energy is 50 per ATP |
| Energy.GlycolysisEnergy | pyology/energy_calculations.py:34-49 | TypeError exactly when one of the twelve glycolysis metabolites is neither a number nor an object with a quantity; no other raise |
| Energy.GlycolysisEnergyOfOthers | pyology/energy_calculations.py:34-49 | an organelle holding none of the twelve glycolysis metabolites has glycolysis energy 0 |
| Energy.TotalAdenineNucleotides | pyology/energy_calculations.py:52-72 | TypeError exactly when ATP, ADP or AMP is neither a number nor an object with a quantity; no other raise; with none of the three present the total is 0 |
| Energy.AdenineTransfer | pyology/energy_calculations.py:52-72 | moving an amount between ATP and ADP leaves the adenine total unchanged |
| Observers.Clamped | pyology/observers.py:16-23 | the same metabolites, every quantity non-negative |
| Observers.ClampedNonNegative | pyology/observers.py:16-23 | after the observer every quantity is non-negative and the same metabolites are held |
| Observers.ClampedExactly | pyology/observers.py:19-23 | a negative quantity becomes exactly 0 and the others are untouched |
| Observers.ClampedIdempotent | pyology/observers.py:16-23 | observing twice leaves what observing once leaves, and the second pass warns about nothing |
| Observers.ClampCompartment | pyology/observers.py:18-23 | the loop over one compartment leaves its clamped quantities and warns about exactly its negative metabolites |
| Observers.ObserveNegatives | pyology/observers.py:16-23 | both compartments end clamped, each warning about exactly the metabolites that were negative |
| Observers.CompartmentTotal | pyology/observers.py:47-49 | one compartment's ATP + ADP + AMP, with KeyError exactly when one of the three is missing |
| Observers.TotalAdenine | pyology/observers.py:44-50 | the sum of both compartments' totals, raising when either compartment does |
| Observers.ConversionKeepsTotal | pyology/observers.py:44-50 | moving an amount between ADP and ATP in a compartment keeps its total |
| Observers.Imbalanced | pyology/observers.py:36 | holds exactly when the current total is more than 1e-6 away from the initial one, on either side |
| Observers.NoWarningWithinTolerance | pyology/observers.py:33-36 | a drift within 1e-6, including the first call's zero drift, never warns |
| Observers.AdenineNucleotideBalanceObserver.constructor | pyology/observers.py:27-28 | no initial balance recorded |
| Observers.AdenineNucleotideBalanceObserver.Observe | pyology/observers.py:30-42 | a KeyError changes nothing; otherwise the first call records the total, later calls keep it, and the result says whether the drift exceeds 1e-6 |
| Tracking.Log | pyology/tracker.py:10-14 | the metric becomes a key and its list gains (step, value) at the end, starting a new list when absent; every other metric is unchanged |
| Tracking.Replay | pyology/tracker.py:10-14 | nothing is tracked exactly when nothing was logged; otherwise the last call's metric ends with that call's value, at a step equal to the number of earlier calls |
| Tracking.LogOthersUntouched | pyology/tracker.py:10-14 | logging one metric leaves every other metric, present or absent, as it was |
| Tracking.ReplayNonEmpty | pyology/tracker.py:10-14 | a list is created on the first log of its metric, so no tracked list is ever empty |
| Tracking.ReplaySound | pyology/tracker.py:10-14 | every recorded entry (s, v) under a metric is log call number s, which logged v to that metric |
| Tracking.ReplayComplete | pyology/tracker.py:10-14 | every log call is recorded under its metric with its step number |
| Tracking.ReplayOrdered | pyology/tracker.py:13-14 | within a metric the steps strictly increase: logging order is kept and no step repeats |
| Tracking.Report | pyology/tracker.py:16-20 | ZeroDivisionError exactly when some list is empty; otherwise one mean per tracked metric |
| Tracking.SumBounds | pyology/tracker.py:19 | n values within [lo, hi] sum to within [n·lo, n·hi] |
| Tracking.MeanBounds | pyology/tracker.py:19 | a reported mean lies between any lower and upper bound of the values logged for that metric |
| Tracking.QuotientBounds | pyology/tracker.py:19 | dividing a total within [n·lo, n·hi] by n > 0 gives a mean within [lo, hi] |
| Tracking.ReplayReports | pyology/tracker.py:16-20 | whatever was logged, the report never divides by zero |
| Tracking.ReportTwoValues | tests/test_tracker.py:20-26 | two readings of one metric report their mean, as with 10.0 and 20.0 giving 15.0 |
| Tracking.Tracker.constructor | pyology/tracker.py:2-4 | no metrics and step 0 |
| Tracking.Tracker.StartTracking | pyology/tracker.py:6-8 | clears the metrics and the step counter |
| Tracking.Tracker.Reset | pyology/tracker.py:22-23 | the same state as start_tracking |
| Tracking.Tracker.LogChange | pyology/tracker.py:10-14 | appends (step, value) under the metric, creating its list when absent, and advances the step by one |
| Tracking.Tracker.ReportMeans | pyology/tracker.py:16-20 | the report of the tracked metrics, which never raises for a tracker built through its methods |
| Tracking.Tracker.LogEnergy | pyology/tracker.py:30-33 | three log calls for ATP yield, NADH and FADH2 at consecutive steps, advancing the step by three |
| Tracking.Tracker.LogCo2Production | pyology/tracker.py:40-41 | one log call under "CO2 Production" |
| Tracking.LogEnergyFromStart | pyology/tracker.py:30-33 | from a fresh start, ATP yield is logged at step 0, NADH at 1 and FADH2 at 2, and the step counter ends at 3 |

## Left out

- Logging, printing and warnings. A warning is modelled only where the code's
  result depends on it: the observers return the set of names they warn about.
- The `TypeError` checks on argument types. Python's dynamic typing is replaced
  by Dafny's types, except where a type test decides the result
  (`Energy.GetQuantity`).
- The `threading.Lock` of each `Metabolite`, and the effect of `on_change`
  callbacks. The model records only whether a callback is present and whether
  it fires.
- Aliasing of `Metabolite` objects. The stores hold values, so two dict
  entries that share one object are not modelled. Neither are the shallow
  copies that the Krebs iterator yields.
- The `OrganelleMeta` registries and class-creation checks of the three
  organelle base files. They run at import time.
- pyology/data.py is not part of this model. The Krebs enzymes it would
  supply are a constructor parameter, `defaults`.
- The enzyme table and `calculate_reaction_rate` of pyology/pathways.py,
  including `define_enzymes` and its time step of 0.1. A step's enzyme rate is
  the `rate: Kinetics` parameter, because those constants are configuration,
  not logic.
- The enzyme rate that `Reaction.execute` passes on is an input. Its call
  `calculate_rate(substrate, quantity)` does not match the one-argument
  `Enzyme.calculate_rate`.
- `calculate_proton_leak` in both mitochondrion copies uses `math.exp`. The
  leak is a parameter of `update_proton_gradient`: an arbitrary function of
  the raised gradient, not required to be non-negative, so the contracts hold
  for the logistic leak in particular.
- `krebs_cycle_process` and `cellular_respiration` in both mitochondrion
  copies. They depend on a `KrebsCycle` from a `.reactions` module that is not
  part of this model.
- `metabolite_iterator`, `display_state` and `run_cycle_with_generators` of
  pyology/krebs_cycle.py. They print or only enumerate, and change no state.
- Krebs.KrebsCycle.KrebsCycleIterator: it models `krebs_cycle_iterator(n)`
  driven to its end for a natural `n`. The endless generator of
  `num_cycles=None` and the laziness of the generator are not modelled.
- Krebs.KrebsCycle.ReactionIterator: it runs the eight steps in order and
  returns the name and result of each, stopping at the first raise, as the
  generator does when consumed entirely. A consumer that stops early is not modelled.
- `Nucleus.replicate_dna` and `Cytoskeleton.transport_cargo` only print.
  `replicate_dna` has no member. `transport_cargo` is
  Cytoskeleton.Cytoskeleton.TransportCargo, which returns the printed line
  instead of printing it and changes nothing.
- Pathways.Read: pyology/organelle.py has no `get_metabolite_quantity`,
  although the glycolysis steps of pyology/pathways.py call it. The model
  reads the store directly, with UnknownMetaboliteError for an unknown name.
- StepwiseCytoplasm.OrganelleCytoplasm: the older cytoplasm cannot be built
  as written (missing store, metaclass `function` check, missing
  `GlycolysisSteps`). Its store operations are those of
  cell_modeling/pyology/organelle.py.
- CappedCell.Ticks: the clock of `produce_atp` adds 0.1 as an exact real.
  The rounding of repeated binary 0.1 additions is not modelled, so the
  number of passes near the duration can differ from the float run.
- Kinetics.Hill: the Hill coefficient is a natural number, while
  `hill_equation` accepts any float exponent. Its one caller, step 3
  (`step3_isocitrate_dehydrogenase`) of pyology/krebs_cycle.py, passes 2, so no modelled path needs a fractional
  power.
- Cytoskeleton.Cytoskeleton.constructor: as written `super().__init__("Cytoskeleton")`
  passes a name to the base `__init__` of cell_modeling/pyology/organelle.py,
  which takes none, so construction raises TypeError. The model builds the
  object the call intends, with that name, and leaves out the base's
  metabolite store, which no cytoskeleton method uses.
- Reticulum.EndoplasmicReticulum.constructor: as written
  `super().__init__("Endoplasmic Reticulum")` passes a name to the base
  `__init__` of pyology/organelle.py, which takes none, so construction raises
  TypeError. The model builds the object the call intends, with that name,
  and leaves out the base's metabolite store, which no reticulum method uses.
- Lysosome.Lysosome.constructor: as written `super().__init__("Lysosome")`
  reaches `object.__init__`, because the base class of
  cell_modeling/cell_modeling/organelles/organelle.py defines no `__init__`,
  so construction raises TypeError. The model builds the object the call
  intends and keeps the name it passes in a `name` field.
- Golgi.GolgiApparatus.constructor: as written
  `super().__init__("Golgi Apparatus")` reaches `object.__init__` for the same
  reason, so construction raises TypeError. The model builds the object the
  call intends and keeps the name it passes in a `name` field.
- Ribosome.TranslateMrna: both copies of `Ribosome.__init__` call
  `super().__init__("Ribosome")`. In pyology/ribosome.py the base `__init__`
  of pyology/organelle.py takes no name, and in the cell_modeling copy the
  call reaches `object.__init__`, so construction raises TypeError and
  `translate_mrna` cannot be reached as written. The model states the
  method's body, as it would run on an object built as intended; the
  ribosome has no state of its own, so no class is modelled.
- PyologyCytoplasm.Cytoplasm: only the inherited `add_metabolite` is modelled
  on the class, because it is what makes `glycolysis` reachable. The other
  inherited store operations are those of PyologyOrganelle.Organelle.
- Nucleus.NewNucleus: as written `super().__init__("Nucleus")` reaches
  `object.__init__` and raises TypeError before the gene map is built. The
  model builds the nucleus the constructor intends.
- Nucleus.TranscribeConstructed: it is about a nucleus built as intended (see
  Nucleus.NewNucleus). As written no nucleus can be built, so
  `transcribe_dna` is never reached.
- Floating point in general: quantities are exact reals, and tolerances such
  as 1e-6 appear only as literal thresholds.
- Pathways.ReactedKeepsPair, Pathways.ScheduledKeepsPair and
  Pathways.GlycolysedYield: conservation is stated for completed steps only.
  A produce that raises after a successful consume leaves the consumed
  substrates lowered, as `Reacted`'s `Partial` state shows.
- The simulation drivers, reporters, static tables, scripts and composition
  roots (`Cell`, `simulation.py`, `reporter.py`, the constants files). They
  wire the modelled parts together or hold data.
- Mitochondria.ComplexI: models the intended availability test and rollback; as written `is_metabolite_available` asks `hasattr`, which is always False, so complex I changes nothing and returns 0 (Mitochondria.AvailabilityAsWrittenNeverHolds)
- Mitochondria.ComplexISpec: models the intended availability test and rollback; as written `is_metabolite_available` asks `hasattr`, which is always False, so complex I changes nothing and returns 0 (Mitochondria.AvailabilityAsWrittenNeverHolds)
- Mitochondria.ComplexIPreserves: models the intended availability test and rollback; as written `is_metabolite_available` asks `hasattr`, which is always False, so complex I changes nothing and returns 0 (Mitochondria.AvailabilityAsWrittenNeverHolds)
- Mitochondria.ComplexIKeepsCapacities: models the intended availability test and rollback; as written `is_metabolite_available` asks `hasattr`, which is always False, so complex I changes nothing and returns 0 (Mitochondria.AvailabilityAsWrittenNeverHolds)
- MitochondrionObject.Mitochondrion.ComplexI: the method of Mitochondria.ComplexI; as written `is_metabolite_available` asks `hasattr`, which is always False, so it changes nothing and returns 0 (Mitochondria.AvailabilityAsWrittenNeverHolds)
- Mitochondria.ComplexIAt: models the intended rollback; as written a shortfall re-applies the recorded changes instead of reversing them (Mitochondria.RollbackAsWrittenExample), which differs only when some consumed amount is not covered
- Mitochondria.ComplexIAtSpec: models the intended rollback; as written a shortfall re-applies the recorded changes instead of reversing them (Mitochondria.RollbackAsWrittenExample), which differs only when some consumed amount is not covered
- Mitochondria.ComplexIAtPreserves: models the intended rollback; as written a shortfall re-applies the recorded changes instead of reversing them (Mitochondria.RollbackAsWrittenExample), which differs only when some consumed amount is not covered
- MitochondrionObject.Mitochondrion.ComplexIAt: models the intended rollback; as written a shortfall re-applies the recorded changes instead of reversing them (Mitochondria.RollbackAsWrittenExample), which differs only when some consumed amount is not covered
- Mitochondria.ComplexII: models the intended availability test and rollback; as written `is_metabolite_available` asks `hasattr`, which is always False, so complex II changes nothing and returns 0 (Mitochondria.AvailabilityAsWrittenNeverHolds)
- Mitochondria.ComplexIISpec: models the intended availability test and rollback; as written `is_metabolite_available` asks `hasattr`, which is always False, so complex II changes nothing and returns 0 (Mitochondria.AvailabilityAsWrittenNeverHolds)
- Mitochondria.ComplexIIPreserves: models the intended availability test and rollback; as written `is_metabolite_available` asks `hasattr`, which is always False, so complex II changes nothing and returns 0 (Mitochondria.AvailabilityAsWrittenNeverHolds)
- Mitochondria.ComplexIIKeepsCapacities: models the intended availability test and rollback; as written `is_metabolite_available` asks `hasattr`, which is always False, so complex II changes nothing and returns 0 (Mitochondria.AvailabilityAsWrittenNeverHolds)
- MitochondrionObject.Mitochondrion.ComplexII: the method of Mitochondria.ComplexII; as written `is_metabolite_available` asks `hasattr`, which is always False, so it changes nothing and returns 0 (Mitochondria.AvailabilityAsWrittenNeverHolds)
- Mitochondria.ComplexIIAt: models the intended rollback; as written a shortfall re-applies the recorded changes instead of reversing them (Mitochondria.RollbackAsWrittenExample), which differs only when some consumed amount is not covered
- Mitochondria.ComplexIIAtSpec: models the intended rollback; as written a shortfall re-applies the recorded changes instead of reversing them (Mitochondria.RollbackAsWrittenExample), which differs only when some consumed amount is not covered
- Mitochondria.ComplexIIAtPreserves: models the intended rollback; as written a shortfall re-applies the recorded changes instead of reversing them (Mitochondria.RollbackAsWrittenExample), which differs only when some consumed amount is not covered
- MitochondrionObject.Mitochondrion.ComplexIIAt: models the intended rollback; as written a shortfall re-applies the recorded changes instead of reversing them (Mitochondria.RollbackAsWrittenExample), which differs only when some consumed amount is not covered
- Mitochondria.ComplexIII: models the intended availability test and rollback; as written `is_metabolite_available` asks `hasattr`, which is always False, so complex III changes nothing and returns 0 (Mitochondria.AvailabilityAsWrittenNeverHolds)
- Mitochondria.ComplexIIISpec: models the intended availability test and rollback; as written `is_metabolite_available` asks `hasattr`, which is always False, so complex III changes nothing and returns 0 (Mitochondria.AvailabilityAsWrittenNeverHolds)
- Mitochondria.ComplexIIIPreserves: models the intended availability test and rollback; as written `is_metabolite_available` asks `hasattr`, which is always False, so complex III changes nothing and returns 0 (Mitochondria.AvailabilityAsWrittenNeverHolds)
- Mitochondria.ComplexIIIKeepsCapacities: models the intended availability test and rollback; as written `is_metabolite_available` asks `hasattr`, which is always False, so complex III changes nothing and returns 0 (Mitochondria.AvailabilityAsWrittenNeverHolds)
- MitochondrionObject.Mitochondrion.ComplexIII: the method of Mitochondria.ComplexIII; as written `is_metabolite_available` asks `hasattr`, which is always False, so it changes nothing and returns 0 (Mitochondria.AvailabilityAsWrittenNeverHolds)
- Mitochondria.ComplexIIIAt: models the intended rollback; as written a shortfall re-applies the recorded changes instead of reversing them (Mitochondria.RollbackAsWrittenExample), which differs only when some consumed amount is not covered
- Mitochondria.ComplexIIIAtSpec: models the intended rollback; as written a shortfall re-applies the recorded changes instead of reversing them (Mitochondria.RollbackAsWrittenExample), which differs only when some consumed amount is not covered
- Mitochondria.ComplexIIIAtPreserves: models the intended rollback; as written a shortfall re-applies the recorded changes instead of reversing them (Mitochondria.RollbackAsWrittenExample), which differs only when some consumed amount is not covered
- MitochondrionObject.Mitochondrion.ComplexIIIAt: models the intended rollback; as written a shortfall re-applies the recorded changes instead of reversing them (Mitochondria.RollbackAsWrittenExample), which differs only when some consumed amount is not covered
- Mitochondria.ComplexIV: models the intended availability test and rollback; as written `is_metabolite_available` asks `hasattr`, which is always False, so complex IV changes nothing and returns 0 (Mitochondria.AvailabilityAsWrittenNeverHolds)
- Mitochondria.ComplexIVSpec: models the intended availability test and rollback; as written `is_metabolite_available` asks `hasattr`, which is always False, so complex IV changes nothing and returns 0 (Mitochondria.AvailabilityAsWrittenNeverHolds)
- Mitochondria.ComplexIVPreserves: models the intended availability test and rollback; as written `is_metabolite_available` asks `hasattr`, which is always False, so complex IV changes nothing and returns 0 (Mitochondria.AvailabilityAsWrittenNeverHolds)
- Mitochondria.ComplexIVKeepsCapacities: models the intended availability test and rollback; as written `is_metabolite_available` asks `hasattr`, which is always False, so complex IV changes nothing and returns 0 (Mitochondria.AvailabilityAsWrittenNeverHolds)
- MitochondrionObject.Mitochondrion.ComplexIV: the method of Mitochondria.ComplexIV; as written `is_metabolite_available` asks `hasattr`, which is always False, so it changes nothing and returns 0 (Mitochondria.AvailabilityAsWrittenNeverHolds)
- Mitochondria.ComplexIVAt: models the intended rollback; as written a shortfall re-applies the recorded changes instead of reversing them (Mitochondria.RollbackAsWrittenExample), which differs only when some consumed amount is not covered
- Mitochondria.ComplexIVAtSpec: models the intended rollback; as written a shortfall re-applies the recorded changes instead of reversing them (Mitochondria.RollbackAsWrittenExample), which differs only when some consumed amount is not covered
- Mitochondria.ComplexIVAtPreserves: models the intended rollback; as written a shortfall re-applies the recorded changes instead of reversing them (Mitochondria.RollbackAsWrittenExample), which differs only when some consumed amount is not covered
- MitochondrionObject.Mitochondrion.ComplexIVAt: models the intended rollback; as written a shortfall re-applies the recorded changes instead of reversing them (Mitochondria.RollbackAsWrittenExample), which differs only when some consumed amount is not covered
- Mitochondria.Chain: models the intended availability test and rollback; as written `is_metabolite_available` asks `hasattr`, which is always False, so all four complexes do nothing, and only the ATP synthase and the replenishments act (Mitochondria.AvailabilityAsWrittenNeverHolds)
- Mitochondria.ChainPreserves: models the intended availability test and rollback; as written `is_metabolite_available` asks `hasattr`, which is always False, so all four complexes do nothing, and only the ATP synthase and the replenishments act (Mitochondria.AvailabilityAsWrittenNeverHolds)
- Mitochondria.ChainKeepsCapacities: models the intended availability test and rollback; as written `is_metabolite_available` asks `hasattr`, which is always False, so all four complexes do nothing, and only the ATP synthase and the replenishments act (Mitochondria.AvailabilityAsWrittenNeverHolds)
- Mitochondria.OxPhos: models the intended availability test and rollback; as written `is_metabolite_available` asks `hasattr`, which is always False, so all four complexes do nothing, and only the ATP synthase and the replenishments act (Mitochondria.AvailabilityAsWrittenNeverHolds)
- Mitochondria.OxPhosSpec: models the intended availability test and rollback; as written `is_metabolite_available` asks `hasattr`, which is always False, so all four complexes do nothing, and only the ATP synthase and the replenishments act (Mitochondria.AvailabilityAsWrittenNeverHolds)
- MitochondrionObject.Mitochondrion.OxidativePhosphorylation: the method of Mitochondria.OxPhos; as written `is_metabolite_available` asks `hasattr`, which is always False, so all four complexes do nothing (Mitochondria.AvailabilityAsWrittenNeverHolds)
- Mitochondria.Consume: models the intended rollback; as written a shortfall re-applies the recorded changes instead of reversing them (Mitochondria.RollbackAsWrittenExample), which differs only when some consumed amount is not covered
- Mitochondria.Exchange: models the intended rollback; as written a shortfall re-applies the recorded changes instead of reversing them (Mitochondria.RollbackAsWrittenExample), which differs only when some consumed amount is not covered
- Mitochondria.Exchanged: models the intended rollback; as written a shortfall re-applies the recorded changes instead of reversing them (Mitochondria.RollbackAsWrittenExample), which differs only when some consumed amount is not covered
- Mitochondria.TwoForOne: models the intended rollback; as written a shortfall re-applies the recorded changes instead of reversing them (Mitochondria.RollbackAsWrittenExample), which differs only when some consumed amount is not covered
- Mitochondria.TwoForOneRuns: models the intended rollback; as written a shortfall re-applies the recorded changes instead of reversing them (Mitochondria.RollbackAsWrittenExample), which differs only when some consumed amount is not covered
- Mitochondria.TwoForTwo: models the intended rollback; as written a shortfall re-applies the recorded changes instead of reversing them (Mitochondria.RollbackAsWrittenExample), which differs only when some consumed amount is not covered
- Mitochondria.TwoForTwoRuns: models the intended rollback; as written a shortfall re-applies the recorded changes instead of reversing them (Mitochondria.RollbackAsWrittenExample), which differs only when some consumed amount is not covered
- Mitochondria.OneForOne: models the intended rollback; as written a shortfall re-applies the recorded changes instead of reversing them (Mitochondria.RollbackAsWrittenExample), which differs only when some consumed amount is not covered
- Mitochondria.AtpSynthase: models the intended rollback; as written a shortfall re-applies the recorded changes instead of reversing them (Mitochondria.RollbackAsWrittenExample), which differs only when some consumed amount is not covered
- Mitochondria.AtpSynthaseSpec: models the intended rollback; as written a shortfall re-applies the recorded changes instead of reversing them (Mitochondria.RollbackAsWrittenExample), which differs only when some consumed amount is not covered
- Mitochondria.AtpSynthasePreserves: models the intended rollback; as written a shortfall re-applies the recorded changes instead of reversing them (Mitochondria.RollbackAsWrittenExample), which differs only when some consumed amount is not covered
- Mitochondria.AtpSynthaseWithoutAdp: models the intended rollback; as written a shortfall re-applies the recorded changes instead of reversing them (Mitochondria.RollbackAsWrittenExample), which differs only when some consumed amount is not covered
- Mitochondria.SynthaseStep: models the intended rollback; as written a shortfall re-applies the recorded changes instead of reversing them (Mitochondria.RollbackAsWrittenExample), which differs only when some consumed amount is not covered
- Mitochondria.ExchangesKeepCapacities: models the intended rollback; as written a shortfall re-applies the recorded changes instead of reversing them (Mitochondria.RollbackAsWrittenExample), which differs only when some consumed amount is not covered
- MitochondrionObject.Mitochondrion.ConsumeMetabolites: models the intended rollback; as written a shortfall re-applies the recorded changes instead of reversing them (Mitochondria.RollbackAsWrittenExample), which differs only when some consumed amount is not covered
- MitochondrionObject.Mitochondrion.AtpSynthase: models the intended rollback; as written a shortfall re-applies the recorded changes instead of reversing them (Mitochondria.RollbackAsWrittenExample), which differs only when some consumed amount is not covered
- PyologyCytoplasm.Adjust: models the corrected adjustment; as written the AMP branch takes half the shortfall from AMP and none from ATP; with ATP 10 → 12, no ADP and 10 AMP it ends at AMP 9, the total rises by 1 and the conservation assert fails (PyologyCytoplasm.AmpBranchAssertFails)
- PyologyCytoplasm.AdjustSpec: models the corrected adjustment; as written the AMP branch takes half the shortfall from AMP and none from ATP; with ATP 10 → 12, no ADP and 10 AMP it ends at AMP 9, the total rises by 1 and the conservation assert fails (PyologyCytoplasm.AmpBranchAssertFails)
- PyologyCytoplasm.AdjustConserves: models the corrected adjustment; as written the AMP branch takes half the shortfall from AMP and none from ATP; with ATP 10 → 12, no ADP and 10 AMP it ends at AMP 9, the total rises by 1 and the conservation assert fails (PyologyCytoplasm.AmpBranchAssertFails)
- PyologyCytoplasm.Glycolysed: models the corrected adjustment; as written the AMP branch takes half the shortfall from AMP and none from ATP; with ATP 10 → 12, no ADP and 10 AMP it ends at AMP 9, the total rises by 1 and the conservation assert fails (PyologyCytoplasm.AmpBranchAssertFails)
- PyologyCytoplasm.GlycolysedSpec: models the corrected adjustment; as written the AMP branch takes half the shortfall from AMP and none from ATP; with ATP 10 → 12, no ADP and 10 AMP it ends at AMP 9, the total rises by 1 and the conservation assert fails (PyologyCytoplasm.AmpBranchAssertFails)
- PyologyCytoplasm.OnlyAtpChangedPasses: models the corrected adjustment; as written the AMP branch takes half the shortfall from AMP and none from ATP; with ATP 10 → 12, no ADP and 10 AMP it ends at AMP 9, the total rises by 1 and the conservation assert fails (PyologyCytoplasm.AmpBranchAssertFails)
- PyologyCytoplasm.Cytoplasm.Glycolysis: models the corrected adjustment; as written the AMP branch takes half the shortfall from AMP and none from ATP; with ATP 10 → 12, no ADP and 10 AMP it ends at AMP 9, the total rises by 1 and the conservation assert fails (PyologyCytoplasm.AmpBranchAssertFails)
- MetaboliteStore.RegisterOne: models the corrected membership test; as written `_register` tests the name as given against lower-cased keys, so registering "Glucose" while "glucose" is held replaces the entry instead of merging (MetaboliteStore.RegisterCaseCounterexample); the keyword form passes lower-cased names and is unaffected
- MetaboliteStore.RegisterOneSpec: models the corrected membership test; as written `_register` tests the name as given against lower-cased keys, so registering "Glucose" while "glucose" is held replaces the entry instead of merging (MetaboliteStore.RegisterCaseCounterexample); the keyword form passes lower-cased names and is unaffected
- MetaboliteStore.RegisterCall: models the corrected membership test; as written `_register` tests the name as given against lower-cased keys, so registering "Glucose" while "glucose" is held replaces the entry instead of merging (MetaboliteStore.RegisterCaseCounterexample); the keyword form passes lower-cased names and is unaffected
- MetaboliteStore.RegisterCallSpec: models the corrected membership test; as written `_register` tests the name as given against lower-cased keys, so registering "Glucose" while "glucose" is held replaces the entry instead of merging (MetaboliteStore.RegisterCaseCounterexample); the keyword form passes lower-cased names and is unaffected
- MetaboliteStore.Metabolites.Register: models the corrected membership test; as written `_register` tests the name as given against lower-cased keys, so registering "Glucose" while "glucose" is held replaces the entry instead of merging (MetaboliteStore.RegisterCaseCounterexample); the keyword form passes lower-cased names and is unaffected
- MetaboliteStore.Production: models the corrected produce, which increments through `change_quantity`; as written `produce` calls `change_metabolite_quantity`, which `Metabolites` does not define, so any non-empty call raises at its first item, UnknownMetaboliteError for an unknown name and otherwise AttributeError, and changes nothing (MetaboliteStore.ProduceAsWritten)
- MetaboliteStore.Metabolites.Consume: models the corrected consume, which checks with `is_available` and decrements with `change_quantity`; as written `consume` calls the undefined `is_metabolite_available`, so any non-empty call raises AttributeError and changes nothing (MetaboliteStore.ConsumeAsWritten)
- MetaboliteStore.Metabolites.Produce: models the corrected produce (MetaboliteStore.Production); as written any non-empty call raises, UnknownMetaboliteError for an unknown first name and otherwise AttributeError from the undefined `change_metabolite_quantity`, and changes nothing (MetaboliteStore.ProduceAsWritten)
- MitochondrionObject.Mitochondrion.IsMetaboliteAvailable: models the intended look-up in the metabolites dict; as written it asks `hasattr(self, name)`, which is False for every dict-held metabolite, so it returns False with a warning (Mitochondria.AvailabilityAsWrittenNeverHolds)
- PyologyCytoplasm.Cytoplasm.Glycolysis: the external routine's run is not modelled; the store it leaves and the pyruvate it returns are inputs, and its raises are not modelled. As written, pyology/glycolysis.py defines no `perform` (only `run`, `investment_phase` and `yield_phase`), so pyology/cytoplasm.py:48 raises AttributeError, and `investment_phase` would separately call the undefined `get_metabolite_quantity` (pyology/glycolysis.py:165).
- PyologyCytoplasm.Glycolysed: takes the routine's resulting store and pyruvate as inputs, for the reason given on the line above.
- Reactions.Execute: `execute` calls `organelle.get_metabolite_quantity`, which no organelle of pyology defines, so as written every call raises AttributeError. The model assumes the getter of cell_modeling/pyology/cytoplasm.py:330-337, which raises ValueError for an unknown name.
- Reactions.QuantityLookup: the assumed getter of cell_modeling/pyology/cytoplasm.py:330-337. No pyology organelle defines it, so as written the lookup raises AttributeError.
- Reactions.Executed: the whole of `execute` with the assumed getter; as written it raises AttributeError at the first lookup.
- Common.Lower: lower-cases the ASCII letters A–Z only. Python's `str.lower` also folds non-ASCII letters, which the model does not.
- cell_modeling/pyology/exceptions.py is not part of this model. Its exception hierarchy is taken to be that of pyology/exceptions.py: its MetaboliteError and subclasses derive from Exception, GlycolysisError derives from Exception, and none of them derives from ValueError.

## Findings

| source | as written | input that shows it | evidently intended | confidence | as-written member | corrected member |
|---|---|---|---|---|---|---|
| pyology/mitochondrion.py:502-506 | `is_metabolite_available` asks `hasattr(self, name)`, but the metabolites live in the `metabolites` dict, so a chain metabolite is never an attribute | 50 NADH held, asking whether 1 NADH is available, gives False; the complexes then always take their "not available" branch | look the name up in the metabolites dict and compare its quantity | not executed | Mitochondria.AvailableAsWritten, Mitochondria.AvailabilityAsWrittenNeverHolds | Mitochondria.Available |
| pyology/mitochondrion.py:141-151 | on a shortfall the revert loop applies each recorded (negative) change again, and never undoes the failing item's own change | 20 NADH and 30 ubiquinone, consuming 10 NADH and 50 ubiquinone: returns False and leaves both at 0 | reverse every recorded change, including the failing one, so a False return changes nothing | not executed | Mitochondria.RollbackAsWrittenExample | Mitochondria.ConsumedRestores |
| cell_modeling/pyology/mitochondrion.py:103-118 | the same revert loop as the pyology copy | 30 NADH, consuming 50: returns False and leaves NADH at 0 | leave NADH at 30, as the repository's test expects | not executed | Mitochondria.InsufficientConsumeExample | Mitochondria.ConsumeFailureRestores |
| pyology/metabolite.py:320-326 | `Metabolites.consume` calls `is_metabolite_available` and `change_metabolite_quantity`, which `Metabolites` does not define | any non-empty call, such as consuming 1 glucose, raises AttributeError | check every item with `is_available`, then decrement with `change_quantity` | not executed | MetaboliteStore.ConsumeAsWritten | MetaboliteStore.Consumption, MetaboliteStore.ConsumeAllOrNothing |
| pyology/metabolite.py:337-340 | `Metabolites.produce` calls the missing `change_metabolite_quantity` | producing 1 of a held glucose raises AttributeError | increment with `change_quantity` | not executed | MetaboliteStore.ProduceAsWritten | MetaboliteStore.ProduceIsChangeAll |
| pyology/metabolite.py:189-194 | `_register` tests the name as given against keys stored lower-cased | with "glucose" held, registering "Glucose" replaces the entry with the new quantity instead of adding to it | test the lower-cased name, so any letter case merges | not executed | MetaboliteStore.RegisterAsWritten, MetaboliteStore.RegisterCaseCounterexample | MetaboliteStore.RegisterOne, MetaboliteStore.RegisterOneSpec |
| pyology/cytoplasm.py:58-63 | when ADP falls short, AMP loses half the shortfall while ADP gains all of it, so the adenine total rises | 2 ATP gained with 0 ADP and 10 AMP: the total ends 1 higher and the conservation assert fails | adenylate kinase (AMP + ATP → 2 ADP): half the shortfall from AMP and half from ATP | not executed | PyologyCytoplasm.AmpBranchCreatesAdenine, PyologyCytoplasm.AmpBranchAssertFails | PyologyCytoplasm.Adjust, PyologyCytoplasm.AdjustConserves |
