/**
 * cytoskeleton.py (the cell_modeling/pyology and the organelles copies are
 * identical): the microtubules are a stack of "Microtubule" strings that
 * polymerising pushes and depolymerising pops; the actin filaments are created
 * empty and never touched again.
 */
module Cytoskeleton {
  const Microtubule: string := "Microtubule"

  /** The microtubule list after one `polymerize_microtubule`. */
  function Polymerized(ms: seq<string>): (r: seq<string>)
    ensures |r| == |ms| + 1
    ensures r[..|ms|] == ms && r[|ms|] == Microtubule
  {
    ms + [Microtubule]
  }

  /** The microtubule list after one `depolymerize_microtubule`: a pop, or nothing when empty. */
  function Depolymerized(ms: seq<string>): (r: seq<string>)
    ensures |r| == if ms == [] then 0 else |ms| - 1
    ensures r == ms[..|r|]
  {
    if ms == [] then [] else ms[..|ms| - 1]
  }

  /** Polymerising then depolymerising gives back the list it started from. */
  lemma DepolymerizeUndoesPolymerize(ms: seq<string>)
    ensures Depolymerized(Polymerized(ms)) == ms
  {
  }

  /**
   * Depolymerising removes exactly the last microtubule of a non-empty list,
   * keeping the rest in order, and leaves an empty list empty.
   */
  lemma DepolymerizeRemovesLast(ms: seq<string>)
    ensures ms == [] ==> Depolymerized(ms) == []
    ensures ms != [] ==> Depolymerized(ms) + [ms[|ms| - 1]] == ms
  {
  }

  /** The list only ever holds "Microtubule" entries. */
  lemma OnlyMicrotubules(ms: seq<string>)
    requires forall i :: 0 <= i < |ms| ==> ms[i] == Microtubule
    ensures forall i :: 0 <= i < |Polymerized(ms)| ==> Polymerized(ms)[i] == Microtubule
    ensures forall i :: 0 <= i < |Depolymerized(ms)| ==> Depolymerized(ms)[i] == Microtubule
  {
  }

  /** After `p` polymerisations and then `d` depolymerisations from empty, max(p - d, 0) remain. */
  function Grown(p: nat, d: nat): (ms: seq<string>)
    ensures |ms| == if p >= d then p - d else 0
    ensures forall i :: 0 <= i < |ms| ==> ms[i] == Microtubule
  {
    if d > 0 then Depolymerized(Grown(p, d - 1))
    else if p > 0 then Polymerized(Grown(p - 1, 0))
    else []
  }

  /**
   * The object `__init__` intends to build. As written its
   * `super().__init__("Cytoskeleton")` passes a name the base `__init__`
   * does not take, so construction raises TypeError.
   */
  class Cytoskeleton {
    const name: string
    var microtubules: seq<string>
    var actinFilaments: seq<string>

    constructor()
      ensures name == "Cytoskeleton"
      ensures microtubules == [] && actinFilaments == []
    {
      name := "Cytoskeleton";
      microtubules := [];
      actinFilaments := [];
    }

    method PolymerizeMicrotubule()
      modifies this
      ensures microtubules == Polymerized(old(microtubules))
      ensures actinFilaments == old(actinFilaments)
    {
      microtubules := microtubules + [Microtubule];
    }

    method DepolymerizeMicrotubule()
      modifies this
      ensures microtubules == Depolymerized(old(microtubules))
      ensures actinFilaments == old(actinFilaments)
    {
      if microtubules != [] {
        microtubules := microtubules[..|microtubules| - 1];
      }
    }

    /**
     * `transport_cargo` only reports the move: it changes nothing, and its
     * printed line is returned.
     */
    method TransportCargo(cargo: string, start: string, end: string) returns (report: string)
      ensures report == "Transporting " + cargo + " from " + start + " to " + end + " along microtubules"
    {
      report := "Transporting " + cargo + " from " + start + " to " + end + " along microtubules";
    }
  }
}
