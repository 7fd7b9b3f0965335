/**
 * organelles/lysosome.py: material received is queued in `contents`;
 * degradation turns every queued item into "Degraded <item>", in order, and
 * empties the queue. The pH is fixed at 5.0.
 */
module Lysosome {
  import opened Common

  const DegradedPrefix: string := "Degraded "

  /** What `degrade_contents` returns for a queue. */
  function Degraded(items: seq<string>): (r: seq<string>)
    ensures |r| == |items|
    ensures forall i :: 0 <= i < |items| ==> r[i] == DegradedPrefix + items[i]
  {
    Prefixed(DegradedPrefix, items)
  }

  /** One output per item, in the same order, each naming its item. */
  lemma DegradedOnePerItem(items: seq<string>)
    ensures |Degraded(items)| == |items|
    ensures forall i :: 0 <= i < |items| ==> Degraded(items)[i] == DegradedPrefix + items[i]
    ensures forall i :: 0 <= i < |items| ==> Degraded(items)[i][|DegradedPrefix|..] == items[i]
  {
    PrefixedRecoverable(DegradedPrefix, items);
  }

  /**
   * Degrading a queue in two batches yields the same materials, in the same
   * order, as degrading it once: receiving after a degradation only appends.
   */
  lemma DegradedInBatches(first: seq<string>, second: seq<string>)
    ensures Degraded(first + second) == Degraded(first) + Degraded(second)
  {
    PrefixedConcat(DegradedPrefix, first, second);
  }

  /**
   * The object `__init__` intends to build, keeping the name it passes up.
   * As written `super().__init__("Lysosome")` reaches `object.__init__`,
   * which takes no argument, so construction raises TypeError.
   */
  class Lysosome {
    const name: string
    const ph: real
    var contents: seq<string>

    constructor()
      ensures name == "Lysosome" && ph == 5.0
      ensures contents == []
    {
      name := "Lysosome";
      ph := 5.0;
      contents := [];
    }

    method ReceiveMaterial(material: string)
      modifies this
      ensures contents == old(contents) + [material]
    {
      contents := contents + [material];
    }

    method DegradeContents() returns (degraded: seq<string>)
      modifies this
      ensures degraded == Degraded(old(contents))
      ensures contents == []
    {
      degraded := [];
      var i := 0;
      while i < |contents|
        invariant 0 <= i <= |contents|
        invariant contents == old(contents)
        invariant degraded == Degraded(contents[..i])
      {
        assert contents[..i + 1] == contents[..i] + [contents[i]];
        DegradedInBatches(contents[..i], [contents[i]]);
        assert Degraded([contents[i]]) == [DegradedPrefix + contents[i]];
        degraded := degraded + [DegradedPrefix + contents[i]];
        i := i + 1;
      }
      assert contents[..i] == contents;
      contents := [];
    }
  }
}
