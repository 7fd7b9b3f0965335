/**
 * organelles/nucleus.py: the genes handed to the constructor are indexed by
 * name, a later gene replacing an earlier one of the same name; transcription
 * of a known gene names its mRNA after the gene, and of an unknown one gives
 * None.
 */
module Nucleus {
  import opened Common
  import opened GeneExpression

  const MrnaPrefix: string := "mRNA of "

  datatype Nucleus = Nucleus(genes: map<string, Gene>)

  /** The dictionary comprehension `{gene.name: gene for gene in genes}`. */
  function GeneMap(genes: seq<Gene>): map<string, Gene>
  {
    if genes == [] then map[] else GeneMap(genes[..|genes| - 1])[genes[|genes| - 1].name := genes[|genes| - 1]]
  }

  /**
   * The nucleus `__init__` intends to build. As written
   * `super().__init__("Nucleus")` reaches `object.__init__`, which takes no
   * argument, and raises TypeError before the gene map is built.
   */
  function NewNucleus(genes: seq<Gene>): (r: Nucleus)
    ensures r.genes.Keys == set i | 0 <= i < |genes| :: genes[i].name
  {
    GeneMapKeys(genes);
    Nucleus(GeneMap(genes))
  }

  /** The map's keys are exactly the names in the list. */
  lemma {:induction false} GeneMapKeys(genes: seq<Gene>)
    ensures GeneMap(genes).Keys == set i | 0 <= i < |genes| :: genes[i].name
  {
    if genes != [] {
      var init := genes[..|genes| - 1];
      GeneMapKeys(init);
      assert forall i :: 0 <= i < |init| ==> init[i] == genes[i];
    }
  }

  /** A gene no later gene shares a name with is the one the map holds: the last occurrence wins. */
  lemma {:induction false} LastOccurrenceWins(genes: seq<Gene>, i: nat)
    requires i < |genes|
    requires forall j :: i < j < |genes| ==> genes[j].name != genes[i].name
    ensures genes[i].name in GeneMap(genes) && GeneMap(genes)[genes[i].name] == genes[i]
  {
    var n := |genes| - 1;
    if i < n {
      LastOccurrenceWins(genes[..n], i);
      assert genes[n].name != genes[i].name;
    }
  }

  /** `transcribe_dna`: Some mRNA named after a known gene, None for an unknown one. */
  function TranscribeDna(nucleus: Nucleus, geneName: string): (r: Option<string>)
    ensures r.Some? <==> geneName in nucleus.genes
    ensures r.Some? ==> |r.value| == |MrnaPrefix| + |geneName|
    ensures r.Some? ==> r.value[..|MrnaPrefix|] == MrnaPrefix && r.value[|MrnaPrefix|..] == geneName
  {
    if geneName in nucleus.genes then Some(MrnaPrefix + geneName) else None
  }

  /** Every gene passed to the constructor can be transcribed, to "mRNA of <name>". */
  lemma TranscribeConstructed(genes: seq<Gene>, i: nat)
    requires i < |genes|
    ensures TranscribeDna(NewNucleus(genes), genes[i].name) == Some(MrnaPrefix + genes[i].name)
  {
    GeneMapKeys(genes);
  }

  /** A name that no gene carries transcribes to None. */
  lemma TranscribeUnknown(genes: seq<Gene>, geneName: string)
    requires forall i :: 0 <= i < |genes| ==> genes[i].name != geneName
    ensures TranscribeDna(NewNucleus(genes), geneName) == None
  {
    GeneMapKeys(genes);
  }
}
