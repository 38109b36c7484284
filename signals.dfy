/**
 * After the simulation (lc_circuit_autogen.py, lines 180-199): the positions
 * along the line of the N+1 nodes and N branches, and the names of the
 * waveforms read from the simulator's results: the source node `V(1)`, the
 * node voltages `V(2)` .. `V(N+2)` and the inductor currents `I(L1)` ..
 * `I(LN)`. The results file is a parameter `getData` from names to
 * waveforms.
 */
module Signals {
  import opened Decimal
  import opened Circuit
  import opened Parameters
  import opened Ladder
  import opened LadderFacts
  import opened Netlist

  /** The name of the voltage of integer node k: `V(k)`. */
  function VoltageName(k: nat): string {
    "V(" + NodeName(Num(k)) + ")"
  }

  /** The name of the current through element d: `I(d)`. */
  function CurrentName(d: Designator): string {
    "I(" + DesignatorName(d) + ")"
  }

  /**
   * Lines 187-199: the source voltage, then one voltage per node i in
   * 0..N (node i+2), then one current per branch i in 0..N-1 (inductor
   * L{i+1}), in that order.
   */
  method ReadWaveforms<W>(n: nat, getData: string -> W) returns (vSource: W, vn: seq<W>, ib: seq<W>)
    ensures vSource == getData(VoltageName(1))
    ensures |vn| == n + 1 && forall i :: 0 <= i <= n ==> vn[i] == getData(VoltageName(i + 2))
    ensures |ib| == n && forall i :: 0 <= i < n ==> ib[i] == getData(CurrentName(Inductor(i + 1)))
  {
    vSource := getData(VoltageName(1));
    vn := [];
    for i := 0 to n + 1
      invariant |vn| == i
      invariant forall j :: 0 <= j < i ==> vn[j] == getData(VoltageName(j + 2))
    {
      vn := vn + [getData(VoltageName(i + 2))];
    }
    ib := [];
    for i := 0 to n
      invariant |ib| == i
      invariant forall j :: 0 <= j < i ==> ib[j] == getData(CurrentName(Inductor(j + 1)))
    {
      ib := ib + [getData(CurrentName(Inductor(i + 1)))];
    }
  }

  // ---------------------------------------------------------------------------
  // The names read are the line's nodes and inductors

  /** The voltages read are exactly those of the numbered nodes the network uses: node k >= 2 is used iff k <= N+2. */
  lemma ProbedNodes(v: StageValues, lineType: string, n: nat)
    requires n >= 1
    ensures forall k: nat :: k >= 2 ==> (Referenced(Network(v, lineType, n), Num(k)) <==> k <= n + 2)
  {
    NetworkNodes(v, lineType, n);
    forall k: nat | k >= 2 ensures Referenced(Network(v, lineType, n), Num(k)) <==> k <= n + 2 {
      assert Num(k) != Ground;
    }
  }

  /** The currents read are exactly those of the network's inductors: `L{k}` is in it iff 1 <= k <= N. */
  lemma ProbedInductors(v: StageValues, lineType: string, n: nat)
    ensures forall k: nat :: Named(Network(v, lineType, n), Inductor(k)) <==> 1 <= k <= n
  {
    LadderExactly(v, lineType, n);
    forall k: nat ensures Named(Network(v, lineType, n), Inductor(k)) <==> 1 <= k <= n {
      if 1 <= k <= n {
        assert Expected(v, lineType, n, InductorElem(v, k - 1));
      }
    }
  }

  /**
   * Every waveform read names something of the netlist the script wrote:
   * `V(1)` the source node RS starts at, `V(i+2)` for i in 0..N the line's
   * numbered nodes, `I(L{i+1})` for i in 0..N-1 its inductors. The netlist
   * uses no other node than these, ground and the synthetic nodes, and no
   * other inductor.
   */
  lemma ProbedInDocument(c: Config)
    requires c.stages >= 1
    ensures Document(c).Some?
    ensures var es, n := Elements(Document(c).value), c.stages;
      && Referenced(es, Num(1))
      && (forall k: nat :: 2 <= k <= n + 2 ==> Referenced(es, Num(k)))
      && (forall k: nat :: Named(es, Inductor(k)) <==> 1 <= k <= n)
      && (forall x :: Referenced(es, x) <==> x == Num(1) || OnLine(x, n, PerStage(c).value.rs))
  {
    DocumentElements(c);
    var v := PerStage(c).value;
    CircuitryNodes(c, v);
    CircuitryInductors(c, v);
  }

  lemma CircuitryNodes(c: Config, v: StageValues)
    requires c.stages >= 1
    ensures forall x :: Referenced(Circuitry(c, v), x) <==> x == Num(1) || OnLine(x, c.stages, v.rs)
  {
    var n, es, net := c.stages, Circuitry(c, v), Network(v, c.lineType, c.stages);
    assert SourceResistor(c) in es && LoadResistor(c) in es;
    NetworkNodes(v, c.lineType, n);
    forall x ensures Referenced(es, x) <==> x == Num(1) || OnLine(x, n, v.rs) {
      if x != Num(1) && x != Ground && OnLine(x, n, v.rs) {
        var e :| e in net && (e.p == x || e.q == x);
        assert e in es;
      }
      if Referenced(es, x) {
        var e :| e in es && (e.p == x || e.q == x);
        if e in net {
          assert OnLine(e.p, n, v.rs) && OnLine(e.q, n, v.rs);
        }
      }
    }
  }

  lemma CircuitryInductors(c: Config, v: StageValues)
    ensures forall k: nat :: Named(Circuitry(c, v), Inductor(k)) <==> 1 <= k <= c.stages
  {
    var n, es, net := c.stages, Circuitry(c, v), Network(v, c.lineType, c.stages);
    ProbedInductors(v, c.lineType, n);
    forall k: nat ensures Named(es, Inductor(k)) <==> 1 <= k <= n {
      if 1 <= k <= n {
        var e :| e in net && e.name == Inductor(k);
        assert e in es;
      }
      if Named(es, Inductor(k)) {
        var e :| e in es && e.name == Inductor(k);
        assert e in net;
      }
    }
  }

  /** The inductor designators of `s`, in order. */
  function InductorsOf(s: seq<Element>): seq<Designator> {
    if s == [] then [] else (if s[0].name.Inductor? then [s[0].name] else []) + InductorsOf(s[1..])
  }

  lemma {:induction false} InductorsConcat(a: seq<Element>, b: seq<Element>)
    ensures InductorsOf(a + b) == InductorsOf(a) + InductorsOf(b)
  {
    if a == [] {
      assert a + b == b;
    } else {
      var ab, first := a + b, if a[0].name.Inductor? then [a[0].name] else [];
      assert ab[0] == a[0] && ab[1..] == a[1..] + b;
      assert InductorsOf(ab) == first + InductorsOf(a[1..] + b);
      InductorsConcat(a[1..], b);
      assert InductorsOf(a) == first + InductorsOf(a[1..]);
    }
  }

  lemma {:induction false} NoInductors(s: seq<Element>)
    requires forall j :: 0 <= j < |s| ==> !s[j].name.Inductor?
    ensures InductorsOf(s) == []
  {
    if s != [] {
      NoInductors(s[1..]);
    }
  }

  lemma BlockInductors(v: StageValues, lineType: string, n: nat, i: nat)
    ensures InductorsOf(Block(v, lineType, n, i)) == [Inductor(i + 1)]
  {
    var h, a, m, f := Head(v, lineType, n, i), SeriesArm(v, i), Interior(v, n, i), Final(v, lineType, n, i);
    NoInductors(h);
    NoInductors(m);
    NoInductors(f);
    var arm := if v.rs != 0.0 then [SeriesResElem(v, i), InductorElem(v, i)] else [InductorElem(v, i)];
    var cap: seq<Element> := if v.cs != 0.0 then [SeriesCapElem(v, i)] else [];
    if v.rs != 0.0 {
      InductorsConcat([SeriesResElem(v, i)], [InductorElem(v, i)]);
    }
    assert InductorsOf(cap) == [];
    InductorsConcat(arm, cap);
    InductorsConcat(h, a);
    InductorsConcat(h + a, m);
    InductorsConcat(h + a + m, f);
  }

  lemma {:induction false} StagesInductors(v: StageValues, lineType: string, n: nat, k: nat)
    ensures |InductorsOf(Stages(v, lineType, n, k))| == k
    ensures forall j :: 0 <= j < k ==> InductorsOf(Stages(v, lineType, n, k))[j] == Inductor(j + 1)
  {
    if k > 0 {
      var prev, block := Stages(v, lineType, n, k - 1), Block(v, lineType, n, k - 1);
      assert Stages(v, lineType, n, k) == prev + block;
      StagesInductors(v, lineType, n, k - 1);
      InductorsConcat(prev, block);
      BlockInductors(v, lineType, n, k - 1);
      InductorsStep(InductorsOf(prev), InductorsOf(prev + block), k - 1);
    }
  }

  lemma InductorsStep(prev: seq<Designator>, next: seq<Designator>, k: nat)
    requires |prev| == k && forall j :: 0 <= j < k ==> prev[j] == Inductor(j + 1)
    requires next == prev + [Inductor(k + 1)]
    ensures |next| == k + 1 && forall j :: 0 <= j < k + 1 ==> next[j] == Inductor(j + 1)
  {
  }

  /**
   * The network's inductors, in the order the loop wrote them, are L1 .. LN:
   * the i-th current read, `I(L{i+1})`, is that of the i-th inductor written.
   */
  lemma CurrentsFollowStages(v: StageValues, lineType: string, n: nat)
    ensures |InductorsOf(Network(v, lineType, n))| == n
    ensures forall i :: 0 <= i < n ==> InductorsOf(Network(v, lineType, n))[i] == Inductor(i + 1)
  {
    StagesInductors(v, lineType, n, n);
  }

  lemma Unwrap(open: string, a: string, b: string)
    requires open + a + ")" == open + b + ")"
    ensures a == b
  {
    var s := open + a + ")";
    assert a == s[|open|..|s| - 1];
    assert b == (open + b + ")")[|open|..|s| - 1];
  }

  /** Distinct nodes have distinct voltage names. */
  lemma VoltageNamesUnique(a: nat, b: nat)
    ensures VoltageName(a) == VoltageName(b) <==> a == b
  {
    if VoltageName(a) == VoltageName(b) {
      Unwrap("V(", NodeName(Num(a)), NodeName(Num(b)));
      NodeNamesUnique(Num(a), Num(b));
    }
  }

  /** Distinct elements have distinct current names. */
  lemma CurrentNamesUnique(d: Designator, e: Designator)
    ensures CurrentName(d) == CurrentName(e) <==> d == e
  {
    if CurrentName(d) == CurrentName(e) {
      Unwrap("I(", DesignatorName(d), DesignatorName(e));
      DesignatorNamesUnique(d, e);
    }
  }

  // ---------------------------------------------------------------------------
  // Positions along the line (lines 181-184)

  /** `xt`: node i at i/N of LENGTH, for i in 0..N. */
  function NodePositions(n: nat, length: real): (xt: seq<real>)
    requires n >= 1
    ensures |xt| == n + 1
  {
    seq(n + 1, i => i as real / n as real * length)
  }

  /** `xb`: branch i at (i + 0.5)/N of LENGTH, for i in 0..N-1. */
  function BranchPositions(n: nat, length: real): (xb: seq<real>)
    requires n >= 1
    ensures |xb| == n
  {
    seq(n, i => (i as real + 0.5) / n as real * length)
  }

  /** Pure arithmetic: consecutive multiples of length/m differ by length/m, and the half-way one is their mean. */
  lemma Spacing(x: real, m: real, length: real)
    requires m > 0.0
    ensures (x + 1.0) / m * length - x / m * length == length / m
    ensures (x + 0.5) / m * length == (x / m * length + (x + 1.0) / m * length) / 2.0
  {
    var u := length / m;
    assert x / m * length == x * u;
    assert (x + 1.0) / m * length == (x + 1.0) * u;
    assert (x + 0.5) / m * length == (x + 0.5) * u;
  }

  lemma Ends(m: real, length: real)
    requires m > 0.0
    ensures 0.0 / m * length == 0.0 && m / m * length == length
  {
  }

  /**
   * The nodes run from 0 to LENGTH in N equal steps, and every branch sits
   * midway between the two nodes its inductor joins.
   */
  lemma PositionsLayout(n: nat, length: real)
    requires n >= 1
    ensures NodePositions(n, length)[0] == 0.0 && NodePositions(n, length)[n] == length
    ensures forall i :: 0 <= i < n ==>
      NodePositions(n, length)[i + 1] - NodePositions(n, length)[i] == length / n as real
    ensures forall i :: 0 <= i < n ==>
      BranchPositions(n, length)[i] == (NodePositions(n, length)[i] + NodePositions(n, length)[i + 1]) / 2.0
  {
    var xt, xb := NodePositions(n, length), BranchPositions(n, length);
    assert xt[0] == 0 as real / n as real * length && xt[n] == n as real / n as real * length;
    Ends(n as real, length);
    forall i | 0 <= i < n
      ensures xt[i + 1] - xt[i] == length / n as real
      ensures xb[i] == (xt[i] + xt[i + 1]) / 2.0
    {
      PositionStep(n, length, i);
    }
  }

  lemma PositionStep(n: nat, length: real, i: nat)
    requires 1 <= n && i < n
    ensures NodePositions(n, length)[i + 1] - NodePositions(n, length)[i] == length / n as real
    ensures BranchPositions(n, length)[i] == (NodePositions(n, length)[i] + NodePositions(n, length)[i + 1]) / 2.0
  {
    var xt, xb, x := NodePositions(n, length), BranchPositions(n, length), i as real;
    assert xt[i] == x / n as real * length && xt[i + 1] == (x + 1.0) / n as real * length;
    assert xb[i] == (x + 0.5) / n as real * length;
    Spacing(x, n as real, length);
  }
}
