/**
 * ribosome.py (the pyology and the organelles copies are identical): the mRNA
 * is cut into codons of three letters (the last may be shorter), each codon is
 * looked up in a three-entry table with "X" for anything else, and the amino
 * acids are joined behind "Protein: ". The stop codon does not end the loop.
 */
module Ribosome {
  import opened Common

  const ProteinHeader: string := "Protein: "

  /** The simplified codon table: start codon, phenylalanine and the stop codon. */
  const CodonTable: map<string, string> := map["AUG" := "M", "UUU" := "F", "UAA" := "*"]

  /** The codon split `[mrna[i:i+3] for i in range(0, len(mrna), 3)]`. */
  function Codons(mrna: string): seq<string>
  {
    seq((|mrna| + 2) / 3, k requires 0 <= k < (|mrna| + 2) / 3 =>
      mrna[3 * k .. MinInt(3 * k + 3, |mrna|)])
  }

  /** The codons glued back together. */
  function Concat(cs: seq<string>): string
  {
    if cs == [] then "" else Concat(cs[..|cs| - 1]) + cs[|cs| - 1]
  }

  /** There are ⌈len/3⌉ codons, all of length three except possibly a shorter, non-empty last one. */
  lemma CodonLengths(mrna: string)
    ensures |Codons(mrna)| * 3 >= |mrna| > (|Codons(mrna)| - 1) * 3
    ensures forall k :: 0 <= k < |Codons(mrna)| - 1 ==> |Codons(mrna)[k]| == 3
    ensures |Codons(mrna)| > 0 ==> 1 <= |Codons(mrna)[|Codons(mrna)| - 1]| <= 3
  {
  }

  /** The first `k` codons spell the first 3k letters (or the whole mRNA). */
  lemma {:induction false} ConcatPrefix(mrna: string, k: nat)
    requires k <= |Codons(mrna)|
    ensures Concat(Codons(mrna)[..k]) == mrna[..MinInt(3 * k, |mrna|)]
  {
    var cs := Codons(mrna);
    if k > 0 {
      ConcatPrefix(mrna, k - 1);
      assert cs[..k][..k - 1] == cs[..k - 1];
      assert cs[k - 1] == mrna[3 * (k - 1) .. MinInt(3 * k, |mrna|)];
      assert mrna[..3 * (k - 1)] + mrna[3 * (k - 1) .. MinInt(3 * k, |mrna|)] == mrna[..MinInt(3 * k, |mrna|)];
    }
  }

  /** Nothing is lost or reordered: the codons concatenate back to the mRNA. */
  lemma CodonsConcatenate(mrna: string)
    ensures Concat(Codons(mrna)) == mrna
  {
    var cs := Codons(mrna);
    ConcatPrefix(mrna, |cs|);
    assert cs[..|cs|] == cs;
  }

  /** `codon_to_amino_acid`: a table lookup with "X" as the default; always a single letter. */
  function CodonToAminoAcid(codon: string): (r: string)
    ensures |r| == 1
    ensures codon in CodonTable ==> r == CodonTable[codon]
    ensures codon !in CodonTable ==> r == "X"
  {
    if codon in CodonTable then CodonTable[codon] else "X"
  }

  /** The table's three entries; every other codon, such as "GGG", reads as unknown. */
  lemma CodonTableEntries()
    ensures CodonToAminoAcid("AUG") == "M"
    ensures CodonToAminoAcid("UUU") == "F"
    ensures CodonToAminoAcid("UAA") == "*"
    ensures CodonToAminoAcid("GGG") == "X"
  {
  }

  /** The amino acids of a codon list, joined in order. */
  function Translated(cs: seq<string>): (r: string)
    ensures |r| == |cs|
  {
    if cs == [] then "" else Translated(cs[..|cs| - 1]) + CodonToAminoAcid(cs[|cs| - 1])
  }

  /** One letter per codon, in codon order. */
  lemma {:induction false} TranslatedLetters(cs: seq<string>)
    ensures |Translated(cs)| == |cs|
    ensures forall i :: 0 <= i < |cs| ==> Translated(cs)[i] == CodonToAminoAcid(cs[i])[0]
  {
    if cs != [] {
      var init := cs[..|cs| - 1];
      TranslatedLetters(init);
      forall i | 0 <= i < |cs|
        ensures Translated(cs)[i] == CodonToAminoAcid(cs[i])[0]
      {
        if i < |init| {
          assert cs[i] == init[i];
        }
      }
    }
  }

  /** Translating two codon lists one after the other is translating their concatenation. */
  lemma {:induction false} TranslatedConcat(a: seq<string>, b: seq<string>)
    ensures Translated(a + b) == Translated(a) + Translated(b)
  {
    if b != [] {
      var init := b[..|b| - 1];
      TranslatedConcat(a, init);
      assert (a + b)[..|a + b| - 1] == a + init;
      assert (a + b)[|a + b| - 1] == b[|b| - 1];
    } else {
      assert a + b == a;
    }
  }

  /** A stop codon in the middle contributes "*" and translation carries on after it. */
  lemma StopDoesNotEnd(before: seq<string>, after: seq<string>)
    ensures Translated(before + ["UAA"] + after) == Translated(before) + "*" + Translated(after)
  {
    TranslatedConcat(before + ["UAA"], after);
    TranslatedConcat(before, ["UAA"]);
    assert ["UAA"][..0] == [];
  }

  /**
   * `translate_mrna`: split into codons, then append one amino acid per codon.
   * As written no `Ribosome` can be built (`super().__init__("Ribosome")`
   * raises TypeError), so this is the body as it would run on an object built
   * as intended.
   */
  method TranslateMrna(mrna: string) returns (protein: string)
    ensures protein == ProteinHeader + Translated(Codons(mrna))
    ensures |protein| == |ProteinHeader| + (|mrna| + 2) / 3
  {
    var codons := Codons(mrna);
    var sequence := "";
    for i := 0 to |codons|
      invariant sequence == Translated(codons[..i])
    {
      assert codons[..i + 1][..i] == codons[..i];
      sequence := sequence + CodonToAminoAcid(codons[i]);
    }
    assert codons[..|codons|] == codons;
    TranslatedLetters(codons);
    protein := ProteinHeader + sequence;
  }

  /** Empty mRNA yields the bare header. */
  lemma EmptyMrna()
    ensures Codons("") == []
    ensures ProteinHeader + Translated(Codons("")) == "Protein: "
  {
  }
}
