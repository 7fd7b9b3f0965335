/**
 * cell_modeling/pyology/gene.py: a gene's expression level is its basal level
 * multiplied, one regulator at a time, by each regulator's effect.
 */
module GeneExpression {
  import opened Common
  import opened Kinetics

  /** A transcription factor is a plain record: a name and a multiplicative effect. */
  datatype TranscriptionFactor = TranscriptionFactor(name: string, effect: real)

  function Effects(regulators: seq<TranscriptionFactor>): seq<real>
  {
    seq(|regulators|, i requires 0 <= i < |regulators| => regulators[i].effect)
  }

  /** The level the regulators produce: basal times the product of their effects. */
  function Level(basal: real, regulators: seq<TranscriptionFactor>): real
  {
    Times(basal, Prod(Effects(regulators)))
  }

  lemma TimesAssociative(a: real, b: real, c: real)
    ensures Times(a, Times(b, c)) == Times(Times(a, b), c)
  {
  }

  /** Adding one regulator multiplies the level by its effect. */
  lemma LevelSnoc(basal: real, regulators: seq<TranscriptionFactor>, r: TranscriptionFactor)
    ensures Level(basal, regulators + [r]) == Times(Level(basal, regulators), r.effect)
  {
    assert Effects(regulators + [r]) == Effects(regulators) + [r.effect];
    ProdSnoc(Effects(regulators), r.effect);
    TimesAssociative(basal, Prod(Effects(regulators)), r.effect);
  }

  /** With no regulators the level is the basal level. */
  lemma NoRegulatorsIsBasal(basal: real)
    ensures Level(basal, []) == basal
  {
    assert Effects([]) == [];
  }

  /** A regulator with effect 1.0 leaves the level unchanged. */
  lemma NeutralRegulator(basal: real, regulators: seq<TranscriptionFactor>, name: string)
    ensures Level(basal, regulators + [TranscriptionFactor(name, 1.0)]) == Level(basal, regulators)
  {
    LevelSnoc(basal, regulators, TranscriptionFactor(name, 1.0));
  }

  /** Reordering the regulators reorders their effects. */
  lemma {:induction false} EffectsPermutation(a: seq<TranscriptionFactor>, b: seq<TranscriptionFactor>)
    requires multiset(a) == multiset(b)
    ensures multiset(Effects(a)) == multiset(Effects(b))
    decreases |a|
  {
    if a == [] {
      assert |b| == |multiset(b)| == 0;
    } else {
      var n := |a| - 1;
      var x := a[n];
      assert x in multiset(b) by {
        assert x in multiset(a);
      }
      var j :| 0 <= j < |b| && b[j] == x;
      var rest := b[..j] + b[j + 1..];
      MultisetRemove(a, n);
      MultisetRemove(b, j);
      assert a[..n] + a[n + 1..] == a[..n];
      EffectsPermutation(a[..n], rest);
      assert Effects(a) == Effects(a[..n]) + [x.effect];
      assert Effects(rest) == Effects(b)[..j] + Effects(b)[j + 1..];
      MultisetRemove(Effects(b), j);
      MultisetSnoc(Effects(a[..n]), x.effect);
      assert Effects(b)[j] in multiset(Effects(b));
    }
  }

  /** The level does not depend on the order in which regulators were added. */
  lemma LevelOrderIndependent(basal: real, a: seq<TranscriptionFactor>, b: seq<TranscriptionFactor>)
    requires multiset(a) == multiset(b)
    ensures Level(basal, a) == Level(basal, b)
  {
    EffectsPermutation(a, b);
    ProdPermutation(Effects(a), Effects(b));
  }

  class Gene {
    const name: string
    const sequence: string
    var expressionLevel: real
    var regulators: seq<TranscriptionFactor>

    constructor(name: string, sequence: string, expressionLevel: real := 1.0)
      ensures this.name == name && this.sequence == sequence
      ensures this.expressionLevel == expressionLevel && regulators == []
    {
      this.name := name;
      this.sequence := sequence;
      this.expressionLevel := expressionLevel;
      regulators := [];
    }

    method AddRegulator(regulator: TranscriptionFactor)
      modifies this
      ensures regulators == old(regulators) + [regulator]
      ensures expressionLevel == old(expressionLevel)
    {
      regulators := regulators + [regulator];
    }

    /** `get_expression_level`: reads the basal level and the regulators, and changes neither. */
    method GetExpressionLevel() returns (level: real)
      ensures level == Level(expressionLevel, regulators)
    {
      level := expressionLevel;
      for i := 0 to |regulators|
        invariant level == Level(expressionLevel, regulators[..i])
      {
        assert regulators[..i + 1] == regulators[..i] + [regulators[i]];
        LevelSnoc(expressionLevel, regulators[..i], regulators[i]);
        level := level * regulators[i].effect;
      }
      assert regulators[..|regulators|] == regulators;
    }
  }
}
