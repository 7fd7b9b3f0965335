/**
 * cell_modeling/cell_modeling/organelles/mitochondrion.py: an older,
 * self-contained cell whose metabolites are integer counters with a cap.
 * Glycolysis, pyruvate conversion and the Krebs cycle raise counters with a
 * capped add; the electron transport chain drains NADH and FADH2 into a
 * proton gradient, and oxidative phosphorylation turns gradient above a
 * threshold into ATP. `produce_atp` runs them all over a simulated duration.
 */
module CappedCell {
  import opened Common

  /** The module's own `Metabolite` dataclass: an integer count and its cap. */
  datatype Counter = Counter(name: string, quantity: int, maxQuantity: int)

  predicate InRange(c: Counter)
  {
    0 <= c.quantity <= c.maxQuantity
  }

  /** `min(quantity + amount, max_quantity)`. */
  function CappedAdd(c: Counter, amount: int): (r: Counter)
    ensures r.name == c.name && r.maxQuantity == c.maxQuantity
    ensures r.quantity <= c.maxQuantity
    ensures r.quantity == c.quantity + amount || r.quantity == c.maxQuantity
    ensures amount >= 0 && InRange(c) ==> InRange(r) && c.quantity <= r.quantity
  {
    c.(quantity := MinInt(c.quantity + amount, c.maxQuantity))
  }

  // ---------------------------------------------------------------------
  // The cytoplasm

  /** The cytoplasm's fields. */
  datatype CytoState = CytoState(glucose: int, pyruvate: int, atp: Counter, nadh: Counter)

  const InitialCyto: CytoState := CytoState(0, 0, Counter("ATP", 0, 100), Counter("NADH", 0, 100))

  predicate CytoValid(c: CytoState)
  {
    c.pyruvate >= 0 && InRange(c.atp) && InRange(c.nadh)
  }

  /** `glycolysis(g)`: ATP and NADH gain 2g each, capped; pyruvate gains 2g with no cap. */
  function Glycolysed(c: CytoState, glucose: int): (r: CytoState)
    ensures r.pyruvate == c.pyruvate + 2 * glucose && r.glucose == c.glucose
    ensures r.atp.quantity <= r.atp.maxQuantity && r.nadh.quantity <= r.nadh.maxQuantity
    ensures CytoValid(c) && glucose >= 0 ==> CytoValid(r) && r.atp.quantity >= c.atp.quantity
  {
    c.(atp := CappedAdd(c.atp, glucose * 2), nadh := CappedAdd(c.nadh, glucose * 2),
       pyruvate := c.pyruvate + glucose * 2)
  }

  // ---------------------------------------------------------------------
  // The mitochondrion

  /** The mitochondrion's fields that change. */
  datatype MitoState = MitoState(
    nadh: Counter, fadh2: Counter, atp: Counter, oxygen: Counter, ros: Counter, protonGradient: int)

  const InitialMito: MitoState := MitoState(
    Counter("NADH", 0, 100), Counter("FADH2", 0, 100), Counter("ATP", 0, 100),
    Counter("O2", 1_000_000, 1_000_000), Counter("ROS", 0, 100), 0)

  const AtpSynthaseEfficiency: real := 0.9
  const ProtonPumpEfficiency: real := 0.95
  const NadhToAtpRatio: real := 2.5
  const Fadh2ToAtpRatio: real := 1.5
  const ProtonGradientThreshold: int := 1000

  /** Every counter within its cap and a non-negative gradient. */
  predicate MitoValid(m: MitoState)
  {
    InRange(m.nadh) && InRange(m.fadh2) && InRange(m.atp) && InRange(m.oxygen) && m.protonGradient >= 0
  }

  /** `pyruvate_to_acetyl_coa(p)`: NADH gains p, capped (the acetyl-CoA returned is p). */
  function AcetylCoaFormed(m: MitoState, pyruvate: int): MitoState
  {
    m.(nadh := CappedAdd(m.nadh, pyruvate))
  }

  /** One pass of the Krebs loop: ATP +1, NADH +3, FADH2 +1, each capped. */
  function KrebsTurn(m: MitoState): MitoState
  {
    m.(atp := CappedAdd(m.atp, 1), nadh := CappedAdd(m.nadh, 3), fadh2 := CappedAdd(m.fadh2, 1))
  }

  /** `krebs_cycle(n)`: n passes of the loop (none when n is not positive). */
  function KrebsTurned(m: MitoState, n: int): MitoState
    decreases n
  {
    if n <= 0 then m else KrebsTurn(KrebsTurned(m, n - 1))
  }

  /**
   * Starting within the caps, n passes end at the once-capped totals: ATP at
   * min(a + n, max), NADH at min(b + 3n, max), FADH2 at min(c + n, max).
   */
  lemma {:induction false} KrebsClosedForm(m: MitoState, n: nat)
    requires m.atp.quantity <= m.atp.maxQuantity
    requires m.nadh.quantity <= m.nadh.maxQuantity
    requires m.fadh2.quantity <= m.fadh2.maxQuantity
    ensures KrebsTurned(m, n).atp.quantity == MinInt(m.atp.quantity + n, m.atp.maxQuantity)
    ensures KrebsTurned(m, n).nadh.quantity == MinInt(m.nadh.quantity + 3 * n, m.nadh.maxQuantity)
    ensures KrebsTurned(m, n).fadh2.quantity == MinInt(m.fadh2.quantity + n, m.fadh2.maxQuantity)
    ensures KrebsTurned(m, n).oxygen == m.oxygen && KrebsTurned(m, n).protonGradient == m.protonGradient
    ensures KrebsTurned(m, n).atp.maxQuantity == m.atp.maxQuantity
    ensures KrebsTurned(m, n).nadh.maxQuantity == m.nadh.maxQuantity
    ensures KrebsTurned(m, n).fadh2.maxQuantity == m.fadh2.maxQuantity
  {
    if n > 0 {
      KrebsClosedForm(m, n - 1);
    }
  }

  /** The Krebs loop keeps the mitochondrion valid and never lowers its ATP. */
  lemma {:induction false} KrebsKeepsValid(m: MitoState, n: int)
    requires MitoValid(m)
    ensures MitoValid(KrebsTurned(m, n))
    ensures KrebsTurned(m, n).atp.quantity >= m.atp.quantity
    decreases n
  {
    if n > 0 {
      KrebsKeepsValid(m, n - 1);
    }
  }

  /**
   * `electron_transport_chain`: up to 1000 NADH and 500 FADH2 are used; oxygen
   * falls by half their sum (floored at 0); the gradient rises by 95% of
   * 10 per NADH and 6 per FADH2, truncated. From a valid state NADH and
   * FADH2 stay non-negative (empty when below 1000 and 500) and the
   * gradient only rises; ATP is untouched.
   */
  function ElectronTransported(m: MitoState): (r: MitoState)
    ensures r.atp == m.atp
    ensures MitoValid(m) ==> MitoValid(r) && r.protonGradient >= m.protonGradient
    ensures m.nadh.quantity <= 1000 ==> r.nadh.quantity == 0
    ensures m.fadh2.quantity <= 500 ==> r.fadh2.quantity == 0
    ensures r.oxygen.quantity ==
      Max0(m.oxygen.quantity - (MinInt(m.nadh.quantity, 1000) + MinInt(m.fadh2.quantity, 500)) / 2)
  {
    var nadhUsed := MinInt(m.nadh.quantity, 1000);
    var fadh2Used := MinInt(m.fadh2.quantity, 500);
    var oxygenUsed := (nadhUsed + fadh2Used) / 2;
    var pumped := Int((10 * nadhUsed + 6 * fadh2Used) as real * ProtonPumpEfficiency);
    var oxygenLeft := m.oxygen.quantity - oxygenUsed;
    m.(protonGradient := m.protonGradient + pumped,
       oxygen := m.oxygen.(quantity := if oxygenLeft > 0 then oxygenLeft else 0),
       nadh := m.nadh.(quantity := m.nadh.quantity - nadhUsed),
       fadh2 := m.fadh2.(quantity := m.fadh2.quantity - fadh2Used))
  }

  function Max0(x: int): int
  {
    if x > 0 then x else 0
  }

  /**
   * `oxidative_phosphorylation`: nothing below the threshold; otherwise a
   * quarter of the excess gradient bounds the ATP made, NADH is drawn first
   * (2.5 ATP each) and FADH2 second (1.5 each), 90% of their yield becomes
   * ATP (capped), and the gradient pays 4 per ATP.
   */
  function Phosphorylated(m: MitoState): MitoState
  {
    if m.protonGradient < ProtonGradientThreshold then m
    else
      var maxAtp := (m.protonGradient - ProtonGradientThreshold) / 4;
      var nadhShare := NadhShare(m.nadh.quantity, maxAtp);
      var fadh2Share := Fadh2Share(m.fadh2.quantity, maxAtp, nadhShare);
      Spent(m, nadhShare, fadh2Share, AtpMade(nadhShare, fadh2Share))
  }

  /** The shares leave NADH and FADH2 (truncated), ATP gains `produced` (capped), the gradient pays 4 each. */
  function Spent(m: MitoState, nadhShare: real, fadh2Share: real, produced: int): MitoState
  {
    m.(atp := CappedAdd(m.atp, produced),
       nadh := m.nadh.(quantity := m.nadh.quantity - Int(nadhShare)),
       fadh2 := m.fadh2.(quantity := m.fadh2.quantity - Int(fadh2Share)),
       protonGradient := m.protonGradient - produced * 4)
  }

  /** NADH drawn first: as much as there is, up to the budget at 2.5 ATP each. */
  function NadhShare(nadh: int, maxAtp: int): real
  {
    Min(nadh as real, maxAtp as real / NadhToAtpRatio)
  }

  /** FADH2 drawn from what the NADH left of the budget, at 1.5 ATP each. */
  function Fadh2Share(fadh2: int, maxAtp: int, nadhShare: real): real
  {
    Min(fadh2 as real, (maxAtp as real - nadhShare * NadhToAtpRatio) / Fadh2ToAtpRatio)
  }

  /** 90% of the shares' yield, truncated. */
  function AtpMade(nadhShare: real, fadh2Share: real): int
  {
    Int((nadhShare * NadhToAtpRatio + fadh2Share * Fadh2ToAtpRatio) * AtpSynthaseEfficiency)
  }

  /**
   * Below the threshold nothing changes. Above it, from a valid state, the
   * result is valid, ATP never falls, and the gradient never drops below
   * the threshold: at most 90% of the excess is spent.
   */
  lemma PhosphorylationEffect(m: MitoState)
    requires MitoValid(m)
    ensures m.protonGradient < ProtonGradientThreshold ==> Phosphorylated(m) == m
    ensures var r := Phosphorylated(m);
      MitoValid(r) && r.atp.quantity >= m.atp.quantity && r.oxygen == m.oxygen &&
      (m.protonGradient >= ProtonGradientThreshold ==>
        ProtonGradientThreshold <= r.protonGradient <= m.protonGradient)
  {
    if m.protonGradient >= ProtonGradientThreshold {
      var maxAtp := (m.protonGradient - ProtonGradientThreshold) / 4;
      var nadhShare := NadhShare(m.nadh.quantity, maxAtp);
      var fadh2Share := Fadh2Share(m.fadh2.quantity, maxAtp, nadhShare);
      var atpYield := nadhShare * NadhToAtpRatio + fadh2Share * Fadh2ToAtpRatio;
      assert 0.0 <= nadhShare && 0.0 <= fadh2Share;
      assert atpYield <= maxAtp as real;
      var produced := AtpMade(nadhShare, fadh2Share);
      assert 0 <= produced && produced as real <= 0.9 * maxAtp as real;
      assert 4 * maxAtp <= m.protonGradient - ProtonGradientThreshold;
    }
  }

  /** One pass of produce_atp's time loop. */
  function Tick(m: MitoState): MitoState
  {
    Phosphorylated(ElectronTransported(m))
  }

  function Ticked(m: MitoState, k: nat): MitoState
  {
    if k == 0 then m else Tick(Ticked(m, k - 1))
  }

  lemma {:induction false} TickedKeepsValid(m: MitoState, k: nat)
    requires MitoValid(m)
    ensures MitoValid(Ticked(m, k))
    ensures Ticked(m, k).atp.quantity >= m.atp.quantity
  {
    if k > 0 {
      TickedKeepsValid(m, k - 1);
      PhosphorylationEffect(ElectronTransported(Ticked(m, k - 1)));
    }
  }

  // ---------------------------------------------------------------------
  // The cell

  const TimeStep: real := 0.1

  /**
   * How many passes produce_atp's time loop makes: after 3 seconds of
   * glycolysis and Krebs cycle, steps of 0.1 until the clock reaches
   * `duration` (exact arithmetic).
   */
  function Ticks(duration: real): (k: nat)
    ensures ClockAt(k) >= duration
    ensures forall j: nat :: j < k ==> ClockAt(j) < duration
  {
    if duration <= 3.0 then 0
    else
      var x := (duration - 3.0) * 10.0;
      var k := -((-x).Floor);
      assert k as real >= x && (k - 1) as real < x;
      k
  }

  /** The clock after j passes of the time loop. */
  function ClockAt(j: nat): real
  {
    3.0 + j as real * TimeStep
  }

  /** The mitochondrion after produce_atp: pyruvate conversion, Krebs cycle, then the time loop. */
  function Simulated(c: CytoState, m: MitoState, glucose: int, ticks: nat): MitoState
  {
    var pyruvate := Glycolysed(c, glucose).pyruvate;
    Ticked(KrebsTurned(AcetylCoaFormed(m, pyruvate), pyruvate), ticks)
  }

  /** What produce_atp returns: the rise in cytoplasmic plus mitochondrial ATP. */
  function AtpGain(c: CytoState, m: MitoState, glucose: int, ticks: nat): int
  {
    Glycolysed(c, glucose).atp.quantity + Simulated(c, m, glucose, ticks).atp.quantity -
    (c.atp.quantity + m.atp.quantity)
  }

  /**
   * From valid compartments and a non-negative glucose amount, produce_atp
   * leaves both compartments valid and never reports a loss of ATP.
   */
  lemma AtpGainNonNegative(c: CytoState, m: MitoState, glucose: int, ticks: nat)
    requires CytoValid(c) && MitoValid(m) && glucose >= 0
    ensures AtpGain(c, m, glucose, ticks) >= 0
    ensures CytoValid(Glycolysed(c, glucose)) && MitoValid(Simulated(c, m, glucose, ticks))
  {
    var pyruvate := Glycolysed(c, glucose).pyruvate;
    var a := AcetylCoaFormed(m, pyruvate);
    KrebsKeepsValid(a, pyruvate);
    TickedKeepsValid(KrebsTurned(a, pyruvate), ticks);
  }

  /** A new cell is valid. */
  lemma InitialValid()
    ensures CytoValid(InitialCyto) && MitoValid(InitialMito)
  {
  }

  class Cytoplasm {
    var glucose: int
    var pyruvate: int
    var atp: Counter
    var nadh: Counter

    function State(): CytoState
      reads this
    {
      CytoState(glucose, pyruvate, atp, nadh)
    }

    constructor()
      ensures State() == InitialCyto
    {
      glucose, pyruvate := 0, 0;
      atp := Counter("ATP", 0, 100);
      nadh := Counter("NADH", 0, 100);
    }

    /** Returns the running pyruvate total, not just this call's share. */
    method Glycolysis(glucoseAmount: int) returns (total: int)
      modifies this
      ensures State() == Glycolysed(old(State()), glucoseAmount)
      ensures total == pyruvate
    {
      var atpProduced := glucoseAmount * 2;
      atp := atp.(quantity := MinInt(atp.quantity + atpProduced, atp.maxQuantity));
      nadh := nadh.(quantity := MinInt(nadh.quantity + glucoseAmount * 2, nadh.maxQuantity));
      pyruvate := pyruvate + glucoseAmount * 2;
      return pyruvate;
    }

    method Reset()
      modifies this
      ensures State() == InitialCyto
    {
      glucose, pyruvate := 0, 0;
      atp := Counter("ATP", 0, 100);
      nadh := Counter("NADH", 0, 100);
    }
  }

  class Mitochondrion {
    var nadh: Counter
    var fadh2: Counter
    var atp: Counter
    var oxygen: Counter
    var ros: Counter
    var protonGradient: int

    function State(): MitoState
      reads this
    {
      MitoState(nadh, fadh2, atp, oxygen, ros, protonGradient)
    }

    constructor()
      ensures State() == InitialMito
    {
      nadh, fadh2, atp := Counter("NADH", 0, 100), Counter("FADH2", 0, 100), Counter("ATP", 0, 100);
      oxygen, ros := Counter("O2", 1_000_000, 1_000_000), Counter("ROS", 0, 100);
      protonGradient := 0;
    }

    method PyruvateToAcetylCoa(pyruvateAmount: int) returns (acetylCoa: int)
      modifies this
      ensures acetylCoa == pyruvateAmount
      ensures State() == AcetylCoaFormed(old(State()), pyruvateAmount)
    {
      nadh := nadh.(quantity := MinInt(nadh.quantity + pyruvateAmount, nadh.maxQuantity));
      return pyruvateAmount;
    }

    method KrebsCycle(acetylCoaAmount: int)
      modifies this
      ensures State() == KrebsTurned(old(State()), acetylCoaAmount)
    {
      var i := 0;
      while i < acetylCoaAmount
        invariant acetylCoaAmount >= 0 ==> 0 <= i <= acetylCoaAmount
        invariant acetylCoaAmount < 0 ==> i == 0
        invariant State() == KrebsTurned(old(State()), i)
      {
        atp := atp.(quantity := MinInt(atp.quantity + 1, atp.maxQuantity));
        nadh := nadh.(quantity := MinInt(nadh.quantity + 3, nadh.maxQuantity));
        fadh2 := fadh2.(quantity := MinInt(fadh2.quantity + 1, fadh2.maxQuantity));
        i := i + 1;
      }
    }

    method ElectronTransportChain()
      modifies this
      ensures State() == ElectronTransported(old(State()))
    {
      var efficiency := ProtonPumpEfficiency;
      var nadhConsumed := MinInt(nadh.quantity, 1000);
      var fadh2Consumed := MinInt(fadh2.quantity, 500);
      var oxygenConsumed := (nadhConsumed + fadh2Consumed) / 2;
      var protonsPumped := Int((10 * nadhConsumed + 6 * fadh2Consumed) as real * efficiency);
      protonGradient := protonGradient + protonsPumped;
      oxygen := oxygen.(quantity := Max0(oxygen.quantity - oxygenConsumed));
      nadh := nadh.(quantity := nadh.quantity - nadhConsumed);
      fadh2 := fadh2.(quantity := fadh2.quantity - fadh2Consumed);
    }

    method OxidativePhosphorylation()
      modifies this
      ensures State() == Phosphorylated(old(State()))
    {
      if protonGradient < ProtonGradientThreshold {
        return;
      }
      var maxAtpProduction := (protonGradient - ProtonGradientThreshold) / 4;
      var nadhContribution := NadhShare(nadh.quantity, maxAtpProduction);
      var fadh2Contribution := Fadh2Share(fadh2.quantity, maxAtpProduction, nadhContribution);
      var atpProduced := AtpMade(nadhContribution, fadh2Contribution);
      ghost var before := State();
      atp := atp.(quantity := MinInt(atp.quantity + atpProduced, atp.maxQuantity));
      nadh := nadh.(quantity := nadh.quantity - Int(nadhContribution));
      fadh2 := fadh2.(quantity := fadh2.quantity - Int(fadh2Contribution));
      protonGradient := protonGradient - atpProduced * 4;
      assert State() == Spent(before, nadhContribution, fadh2Contribution, atpProduced);
    }

    method Reset()
      modifies this
      ensures State() == InitialMito
    {
      nadh, fadh2, atp := Counter("NADH", 0, 100), Counter("FADH2", 0, 100), Counter("ATP", 0, 100);
      oxygen, ros := Counter("O2", 1_000_000, 1_000_000), Counter("ROS", 0, 100);
      protonGradient := 0;
    }
  }

  class Cell {
    const cytoplasm: Cytoplasm
    const mitochondrion: Mitochondrion
    var simulationTime: real

    constructor()
      ensures fresh(cytoplasm) && fresh(mitochondrion)
      ensures cytoplasm.State() == InitialCyto && mitochondrion.State() == InitialMito
      ensures simulationTime == 0.0
    {
      cytoplasm := new Cytoplasm();
      mitochondrion := new Mitochondrion();
      simulationTime := 0.0;
    }

    /**
     * `produce_atp`: glycolysis, pyruvate conversion and the Krebs cycle,
     * then the chain and phosphorylation once per 0.1 s until the clock
     * reaches `duration`; returns the rise in total ATP.
     */
    method ProduceAtp(glucoseAmount: int, duration: real) returns (totalAtp: int)
      modifies this, cytoplasm, mitochondrion
      ensures cytoplasm.State() == Glycolysed(old(cytoplasm.State()), glucoseAmount)
      ensures mitochondrion.State() ==
        Simulated(old(cytoplasm.State()), old(mitochondrion.State()), glucoseAmount, Ticks(duration))
      ensures totalAtp == AtpGain(old(cytoplasm.State()), old(mitochondrion.State()), glucoseAmount, Ticks(duration))
      ensures simulationTime == ClockAt(Ticks(duration)) && simulationTime >= duration
    {
      var initialAtp := cytoplasm.atp.quantity + mitochondrion.atp.quantity;
      simulationTime := 0.0;
      var pyruvate := cytoplasm.Glycolysis(glucoseAmount);
      simulationTime := simulationTime + 1.0;
      var acetylCoa := mitochondrion.PyruvateToAcetylCoa(pyruvate);
      mitochondrion.KrebsCycle(acetylCoa);
      simulationTime := simulationTime + 2.0;
      ghost var start := mitochondrion.State();
      ghost var glycolysed := cytoplasm.State();
      ghost var ticks := Ticks(duration);
      ghost var k: nat := 0;
      while simulationTime < duration
        invariant k <= ticks
        invariant simulationTime == ClockAt(k)
        invariant mitochondrion.State() == Ticked(start, k)
        invariant cytoplasm.State() == glycolysed
        decreases ticks - k
      {
        mitochondrion.ElectronTransportChain();
        mitochondrion.OxidativePhosphorylation();
        simulationTime := simulationTime + TimeStep;
        k := k + 1;
      }
      assert k == ticks;
      totalAtp := cytoplasm.atp.quantity + mitochondrion.atp.quantity - initialAtp;
    }

    method Reset()
      modifies this, cytoplasm, mitochondrion
      ensures cytoplasm.State() == InitialCyto && mitochondrion.State() == InitialMito
      ensures simulationTime == 0.0
    {
      cytoplasm.Reset();
      mitochondrion.Reset();
      simulationTime := 0.0;
    }
  }
}
