/**
 * The generator as its branches were evidently meant to work, beside the
 * behaviour as written: a four-way shunt divisor instead of the always-true
 * test at line 82, and `+=` instead of `=` at line 125. The netlist model
 * itself keeps the behaviour as written.
 */
module Intended {
  import opened Opt
  import opened Circuit
  import opened Parameters
  import opened Ladder
  import opened LadderFacts

  /**
   * The network line 125 would build with `+=`: `C0` stays in front of `R0P`
   * for CL-ladder and pi-type with GP != 0; otherwise as written.
   */
  function IntendedNetwork(v: StageValues, lineType: string, n: nat): seq<Element> {
    if n >= 1 && HasFirstShunt(lineType) && v.gp != 0.0 then [ShuntCapElem(v, n, 0)] + Network(v, lineType, n)
    else Network(v, lineType, n)
  }

  /** In the corrected network every shunt capacitor has its resistor and every resistor its capacitor. */
  lemma IntendedShuntPairing(v: StageValues, lineType: string, n: nat)
    requires n >= 1 && v.gp != 0.0
    ensures forall k :: Named(IntendedNetwork(v, lineType, n), ShuntCap(k)) <==> ShuntResAt(lineType, n, k)
    ensures forall k :: Named(IntendedNetwork(v, lineType, n), ShuntRes(k)) <==> ShuntResAt(lineType, n, k)
    ensures Count(IntendedNetwork(v, lineType, n), KShuntCap) == Count(IntendedNetwork(v, lineType, n), KShuntRes)
  {
    IntendedCapsAt(v, lineType, n);
    IntendedResAt(v, lineType, n);
    IntendedPairCounts(v, lineType, n);
  }

  lemma IntendedCapsAt(v: StageValues, lineType: string, n: nat)
    requires n >= 1 && v.gp != 0.0
    ensures forall k :: Named(IntendedNetwork(v, lineType, n), ShuntCap(k)) <==> ShuntResAt(lineType, n, k)
  {
    var net, fixed := Network(v, lineType, n), IntendedNetwork(v, lineType, n);
    ShuntPlacement(v, lineType, n);
    forall k ensures Named(fixed, ShuntCap(k)) <==> ShuntResAt(lineType, n, k) {
      if HasFirstShunt(lineType) {
        assert fixed == [ShuntCapElem(v, n, 0)] + net;
        if k == 0 {
          assert ShuntCapElem(v, n, 0) in fixed;
        } else {
          if Named(fixed, ShuntCap(k)) {
            var e :| e in fixed && e.name == ShuntCap(k);
            assert e in net;
          }
          if Named(net, ShuntCap(k)) {
            var e :| e in net && e.name == ShuntCap(k);
            assert e in fixed;
          }
        }
      }
    }
  }

  lemma IntendedResAt(v: StageValues, lineType: string, n: nat)
    requires n >= 1 && v.gp != 0.0
    ensures forall k :: Named(IntendedNetwork(v, lineType, n), ShuntRes(k)) <==> ShuntResAt(lineType, n, k)
  {
    var net, fixed := Network(v, lineType, n), IntendedNetwork(v, lineType, n);
    LadderExactly(v, lineType, n);
    forall k ensures Named(fixed, ShuntRes(k)) <==> ShuntResAt(lineType, n, k) {
      if ShuntResAt(lineType, n, k) {
        assert Expected(v, lineType, n, ShuntResElem(v, n, k));
        assert ShuntResElem(v, n, k) in fixed;
      }
      if Named(fixed, ShuntRes(k)) {
        var e :| e in fixed && e.name == ShuntRes(k);
        assert e in net;
      }
    }
  }

  lemma IntendedPairCounts(v: StageValues, lineType: string, n: nat)
    requires n >= 1 && v.gp != 0.0
    ensures Count(IntendedNetwork(v, lineType, n), KShuntCap) == Count(IntendedNetwork(v, lineType, n), KShuntRes)
  {
    var net := Network(v, lineType, n);
    NetworkCounts(v, lineType, n);
    if HasFirstShunt(lineType) {
      CountConcat([ShuntCapElem(v, n, 0)], net, KShuntCap);
      CountConcat([ShuntCapElem(v, n, 0)], net, KShuntRes);
      CountSingle(ShuntCapElem(v, n, 0), KShuntCap);
      CountSingle(ShuntCapElem(v, n, 0), KShuntRes);
    }
  }


  /** The corrected four-way divisor makes the ladder's shunt capacitance CP_PER_METER * LENGTH for every variant. */
  lemma IntendedShuntTotal(c: Config)
    requires IntendedPerStage(c).Some?
    ensures ShuntCapacitance(IntendedNetwork(IntendedPerStage(c).value, c.lineType, c.stages)) == c.cpPerMeter * c.length
  {
    IntendedShare(c);
    DividedCapacitance(IntendedPerStage(c).value, c.lineType, c.stages, c.cpPerMeter * c.length);
  }

  /** Shunt capacitors of x over the corrected divisor, one per shunt position, add up to x. */
  lemma DividedCapacitance(v: StageValues, lineType: string, n: nat, x: real)
    requires n >= 1 && KnownLineType(lineType) && IntendedShuntDivisor(lineType, n) != 0
    requires v.cp == x / IntendedShuntDivisor(lineType, n) as real
    ensures ShuntCapacitance(IntendedNetwork(v, lineType, n)) == x
  {
    var total, d, count := ShuntCapacitance(IntendedNetwork(v, lineType, n)), IntendedShuntDivisor(lineType, n), ShuntPositions(lineType, n);
    assert total == count as real * v.cp by { IntendedCapacitance(v, lineType, n); }
    assert count == d by { PositionsAreDivisor(lineType, n); }
    CancelDivisor(total, x, d, v.cp, count);
  }

  lemma IntendedShare(c: Config)
    requires IntendedPerStage(c).Some?
    ensures IntendedPerStage(c).value.cp == c.cpPerMeter * c.length / IntendedShuntDivisor(c.lineType, c.stages) as real
  {
    var x, d := c.cpPerMeter * c.length, IntendedShuntDivisor(c.lineType, c.stages) as real;
    OverDivisor(IntendedPerStage(c).value.cp, x, d);
  }

  lemma OverDivisor(share: real, x: real, d: real)
    requires d != 0.0 && share * d == x
    ensures share == x / d
  {
  }

  /** In the corrected network every shunt position carries one capacitor of CP, whatever GP is. */
  lemma IntendedCapacitance(v: StageValues, lineType: string, n: nat)
    requires n >= 1
    ensures ShuntCapacitance(IntendedNetwork(v, lineType, n)) == ShuntPositions(lineType, n) as real * v.cp
  {
    var net := Network(v, lineType, n);
    NetworkCapacitanceTotal(v, lineType, n);
    if HasFirstShunt(lineType) && v.gp != 0.0 {
      PrependCapacitance(ShuntCapElem(v, n, 0), net);
    }
  }

  lemma PrependCapacitance(x: Element, s: seq<Element>)
    requires KindOf(x.name) == KShuntCap
    ensures ShuntCapacitance([x] + s) == x.value + ShuntCapacitance(s)
  {
    assert ([x] + s)[1..] == s;
  }

  lemma CancelDivisor(total: real, x: real, d: int, share: real, count: int)
    requires d != 0 && share == x / d as real && count == d && total == count as real * share
    ensures total == x
  {
  }

  /**
   * As written, the divisor is N_STAGES for every variant, so each shunt
   * position of the line carries CP_PER_METER * LENGTH / N: right for the two
   * ladders, (N - 1)/N of the line's capacitance for T-type and (N + 1)/N for
   * pi-type (see ShuntPositionsByVariant).
   */
  lemma ShuntTotalAsWritten(c: Config)
    requires c.stages >= 1 && c.gpPerMeter == 0.0
    ensures PerStage(c).Some?
    ensures ShuntCapacitance(Network(PerStage(c).value, c.lineType, c.stages))
      == ShuntPositions(c.lineType, c.stages) as real * (c.cpPerMeter * c.length / c.stages as real)
  {
    AsWrittenShares(c);
    ShuntCapacitanceWithoutGp(PerStage(c).value, c.lineType, c.stages);
  }

  /** Without shunt conductance, every stage as written gets no conductance and CP_PER_METER * LENGTH / N of capacitance. */
  lemma AsWrittenShares(c: Config)
    requires c.stages >= 1 && c.gpPerMeter == 0.0
    ensures PerStage(c).Some? && PerStage(c).value.gp == 0.0
    ensures PerStage(c).value.cp == c.cpPerMeter * c.length / c.stages as real
  {
    DivisorAsWritten(c);
    assert PerStage(c).value.gp == 0.0 * c.length / c.stages as real;
  }

  /** With GP = 0 every shunt position carries one capacitor of CP. */
  lemma ShuntCapacitanceWithoutGp(v: StageValues, lineType: string, n: nat)
    requires n >= 1 && v.gp == 0.0
    ensures ShuntCapacitance(Network(v, lineType, n)) == ShuntPositions(lineType, n) as real * v.cp
  {
    NetworkCapacitanceTotal(v, lineType, n);
    assert Indicator(HasFirstShunt(lineType) && v.gp == 0.0) == Indicator(HasFirstShunt(lineType));
  }

  /**
   * Per variant, the shunt positions are N for the two ladders, N - 1 for
   * T-type and N + 1 for pi-type (see PositionsAreDivisor); the network
   * as written fills every one of them with a capacitor, except the `C0`
   * that line 125 drops.
   */
  lemma ShuntPositionsByVariant(v: StageValues, lineType: string, n: nat)
    requires n >= 1
    ensures lineType == "LC-ladder" || lineType == "CL-ladder" ==> ShuntPositions(lineType, n) == n
    ensures lineType == "T-type" ==> ShuntPositions(lineType, n) == n - 1
    ensures lineType == "pi-type" ==> ShuntPositions(lineType, n) == n + 1
    ensures Count(Network(v, lineType, n), KShuntCap) + Indicator(HasFirstShunt(lineType) && v.gp != 0.0)
      == ShuntPositions(lineType, n)
  {
    NetworkCounts(v, lineType, n);
  }

  /** For a known variant the corrected divisor is the number of shunt positions. */
  lemma PositionsAreDivisor(lineType: string, n: nat)
    requires n >= 1 && KnownLineType(lineType)
    ensures ShuntPositions(lineType, n) == IntendedShuntDivisor(lineType, n)
  {
  }

  /** The number of shunt positions of an N-stage line of a variant: N - 1 interior ones plus its boundary ones. */
  function ShuntPositions(lineType: string, n: nat): nat
    requires n >= 1
  {
    n - 1 + Indicator(HasFinalShunt(lineType)) + Indicator(HasFirstShunt(lineType))
  }

  /** Three T-type stages as written: two capacitors of CP*LENGTH/3 each, two thirds of the line's capacitance. */
  lemma ThreeStageTShort(c: Config)
    requires c.stages == 3 && c.lineType == "T-type" && c.gpPerMeter == 0.0
    requires c.cpPerMeter * c.length != 0.0
    ensures PerStage(c).Some?
    ensures ShuntCapacitance(Network(PerStage(c).value, c.lineType, c.stages)) == c.cpPerMeter * c.length * 2.0 / 3.0
    ensures ShuntCapacitance(Network(PerStage(c).value, c.lineType, c.stages)) != c.cpPerMeter * c.length
    ensures ShuntCapacitance(IntendedNetwork(IntendedPerStage(c).value, c.lineType, c.stages)) == c.cpPerMeter * c.length
  {
    ThreeStageTAsWritten(c);
    TwoThirdsShort(c.cpPerMeter * c.length);
    IntendedShuntTotal(c);
  }

  lemma ThreeStageTAsWritten(c: Config)
    requires c.stages == 3 && c.lineType == "T-type" && c.gpPerMeter == 0.0
    ensures PerStage(c).Some?
    ensures ShuntCapacitance(Network(PerStage(c).value, c.lineType, c.stages)) == c.cpPerMeter * c.length * 2.0 / 3.0
  {
    ShuntTotalAsWritten(c);
    assert ShuntPositions(c.lineType, c.stages) == 2;
    TwoThirds(c.cpPerMeter * c.length, ShuntPositions(c.lineType, c.stages) as real, c.stages as real);
  }

  lemma TwoThirds(x: real, positions: real, n: real)
    requires positions == 2.0 && n == 3.0
    ensures positions * (x / n) == x * 2.0 / 3.0
  {
  }

  lemma TwoThirdsShort(x: real)
    requires x != 0.0
    ensures x * 2.0 / 3.0 != x
  {
  }

}
