/**
 * organelles/golgi_apparatus.py: proteins received are queued in `cargo`;
 * sorting modifies each into "Modified <protein>", files it under its
 * destination in arrival order and empties the queue. Every destination is
 * "Plasma Membrane".
 */
module Golgi {
  import opened Common

  const ModifiedPrefix: string := "Modified "
  const PlasmaMembrane: string := "Plasma Membrane"

  /** Sorted cargo: destination to the modified proteins sent there. */
  type Sorted = map<string, seq<string>>

  /** `determine_destination`: the protein is not consulted. */
  function DetermineDestination(protein: string): (r: string)
    ensures r == PlasmaMembrane
  {
    PlasmaMembrane
  }

  /** One turn of the sorting loop: append the modified protein to its destination's list. */
  function File(sorted: Sorted, protein: string): Sorted
  {
    var modified := ModifiedPrefix + protein;
    var destination := DetermineDestination(modified);
    sorted[destination := (if destination in sorted then sorted[destination] else []) + [modified]]
  }

  /** What `modify_and_sort` returns for a queue: each protein filed in turn into an empty map. */
  function SortCargo(cargo: seq<string>): (r: Sorted)
    ensures cargo == [] <==> r == map[]
    ensures cargo != [] ==> r.Keys == {PlasmaMembrane} && |r[PlasmaMembrane]| == |cargo|
  {
    if cargo == [] then map[] else File(SortCargo(cargo[..|cargo| - 1]), cargo[|cargo| - 1])
  }

  /**
   * Empty cargo sorts to an empty map; otherwise the only destination is the
   * plasma membrane, whose list holds each protein exactly once, modified, in
   * arrival order.
   */
  lemma {:induction false} SortCargoAllToPlasmaMembrane(cargo: seq<string>)
    ensures cargo == [] ==> SortCargo(cargo) == map[]
    ensures cargo != [] ==> SortCargo(cargo) == map[PlasmaMembrane := Prefixed(ModifiedPrefix, cargo)]
  {
    if cargo != [] {
      var init, last := cargo[..|cargo| - 1], cargo[|cargo| - 1];
      SortCargoAllToPlasmaMembrane(init);
      assert cargo == init + [last];
      PrefixedConcat(ModifiedPrefix, init, [last]);
      assert Prefixed(ModifiedPrefix, [last]) == [ModifiedPrefix + last];
      var before := Prefixed(ModifiedPrefix, init);
      assert SortCargo(init) == if init == [] then map[] else map[PlasmaMembrane := before];
      assert SortCargo(cargo) == map[PlasmaMembrane := before + [ModifiedPrefix + last]];
    }
  }

  /** So a non-empty sort has one destination and nothing is lost or duplicated. */
  lemma SortCargoKeepsEveryProtein(cargo: seq<string>)
    requires cargo != []
    ensures SortCargo(cargo).Keys == {PlasmaMembrane}
    ensures |SortCargo(cargo)[PlasmaMembrane]| == |cargo|
    ensures forall i :: 0 <= i < |cargo| ==>
      SortCargo(cargo)[PlasmaMembrane][i] == ModifiedPrefix + cargo[i]
  {
    SortCargoAllToPlasmaMembrane(cargo);
  }

  /**
   * The object `__init__` intends to build, keeping the name it passes up.
   * As written `super().__init__("Golgi Apparatus")` reaches
   * `object.__init__`, which takes no argument, so construction raises
   * TypeError.
   */
  class GolgiApparatus {
    const name: string
    var cargo: seq<string>

    constructor()
      ensures name == "Golgi Apparatus"
      ensures cargo == []
    {
      name := "Golgi Apparatus";
      cargo := [];
    }

    method ReceiveProtein(protein: string)
      modifies this
      ensures cargo == old(cargo) + [protein]
    {
      cargo := cargo + [protein];
    }

    method ModifyAndSort() returns (sorted: Sorted)
      modifies this
      ensures sorted == SortCargo(old(cargo))
      ensures cargo == []
    {
      sorted := map[];
      for i := 0 to |cargo|
        invariant sorted == SortCargo(cargo[..i])
      {
        assert cargo[..i + 1][..i] == cargo[..i];
        var modified := ModifiedPrefix + cargo[i];
        var destination := DetermineDestination(modified);
        if destination !in sorted {
          sorted := sorted[destination := []];
        }
        sorted := sorted[destination := sorted[destination] + [modified]];
      }
      assert cargo[..|cargo|] == cargo;
      cargo := [];
    }
  }
}
