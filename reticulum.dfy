/**
 * endoplasmic_reticulum.py (the pyology and the organelles copies are
 * identical): each synthesis names its product after its input, records it
 * at the end of its own list and returns it.
 */
module Reticulum {
  const ProteinPrefix: string := "Protein from "
  const LipidPrefix: string := "Lipid from "

  function ProteinOf(mrna: string): (r: string)
    ensures |r| == |ProteinPrefix| + |mrna|
    ensures r[..|ProteinPrefix|] == ProteinPrefix && r[|ProteinPrefix|..] == mrna
  {
    ProteinPrefix + mrna
  }

  function LipidOf(precursors: string): (r: string)
    ensures |r| == |LipidPrefix| + |precursors|
    ensures r[..|LipidPrefix|] == LipidPrefix && r[|LipidPrefix|..] == precursors
  {
    LipidPrefix + precursors
  }

  /** Different mRNAs give different proteins: the input is recoverable from the product. */
  lemma ProteinOfInjective(a: string, b: string)
    ensures ProteinOf(a) == ProteinOf(b) <==> a == b
  {
    if ProteinOf(a) == ProteinOf(b) {
      assert a == ProteinOf(a)[|ProteinPrefix|..];
      assert b == ProteinOf(b)[|ProteinPrefix|..];
    }
  }

  /** Different precursors give different lipids. */
  lemma LipidOfInjective(a: string, b: string)
    ensures LipidOf(a) == LipidOf(b) <==> a == b
  {
    if LipidOf(a) == LipidOf(b) {
      assert a == LipidOf(a)[|LipidPrefix|..];
      assert b == LipidOf(b)[|LipidPrefix|..];
    }
  }

  /** No protein is ever mistaken for a lipid: the names differ in their first letter. */
  lemma ProteinNeverLipid(mrna: string, precursors: string)
    ensures ProteinOf(mrna) != LipidOf(precursors)
  {
    assert ProteinOf(mrna)[0] == 'P' && LipidOf(precursors)[0] == 'L';
  }

  /**
   * The object `__init__` intends to build. As written its
   * `super().__init__("Endoplasmic Reticulum")` passes a name the base
   * `__init__` does not take, so construction raises TypeError.
   */
  class EndoplasmicReticulum {
    const name: string
    var proteins: seq<string>
    var lipids: seq<string>

    constructor()
      ensures name == "Endoplasmic Reticulum"
      ensures proteins == [] && lipids == []
    {
      name := "Endoplasmic Reticulum";
      proteins := [];
      lipids := [];
    }

    method SynthesizeProtein(mrna: string) returns (protein: string)
      modifies this
      ensures protein == ProteinOf(mrna)
      ensures proteins == old(proteins) + [protein]
      ensures lipids == old(lipids)
    {
      protein := ProteinPrefix + mrna;
      proteins := proteins + [protein];
    }

    method SynthesizeLipid(precursors: string) returns (lipid: string)
      modifies this
      ensures lipid == LipidOf(precursors)
      ensures lipids == old(lipids) + [lipid]
      ensures proteins == old(proteins)
    {
      lipid := LipidPrefix + precursors;
      lipids := lipids + [lipid];
    }
  }
}
