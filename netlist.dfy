/**
 * The whole netlist the script assembles (lc_circuit_autogen.py, lines
 * 101-156): the title, the signal source block chosen by SOURCE_TYPE, the
 * source resistor, the LC network, the load resistor and the `.tran`,
 * `.backanno`, `.end` trailer, as a sequence of netlist lines. How each
 * line is printed is in module Serialize.
 */
module Netlist {
  import opened Opt
  import opened Circuit
  import opened Parameters
  import opened Ladder
  import opened LadderFacts

  /** The stimulus of the signal source block. */
  datatype Source =
    | Sine(amplitude: real, frequency: real, delay: real, cycles: real)
    // The seventh PULSE parameter is the simulator's period; the script
    // fills that slot with N_CYCLES_SOURCE.
    | Pulse(amplitude: real, delay: real, rise: real, fall: real, width: real, period: real)
    | Direct(text: string)   // SOURCE_TEXT, copied verbatim

  /** One netlist entry; each but the last is followed by a CRLF in the text. */
  datatype Line =
    | Title(text: string)
    | Stimulus(s: Source)
    | Part(e: Element)
    | Tran(duration: real)
    | Backanno
    | End

  /** `RS 1 2 {R_SOURCE}`: the source resistor from the source node 1 to the line's input node 2. */
  function SourceResistor(c: Config): Element {
    Element(SourceRes, Num(1), Num(2), c.rSource, false)
  }

  /** `RL {N+2} 0 {R_LOAD}`: the load resistor from the line's output node to ground. */
  function LoadResistor(c: Config): Element {
    Element(LoadRes, Num(c.stages + 2), Ground, c.rLoad, false)
  }

  /** The stimulus SOURCE_TYPE selects; no block at all for any other SOURCE_TYPE. */
  function SourceLines(c: Config): (r: seq<Line>)
    ensures |r| == if c.sourceType in {"sine", "pulse", "direct"} then 1 else 0
    ensures forall l :: l in r ==> l.Stimulus?
    ensures c.sourceType == "sine" ==> r[0].s.Sine? && r[0].s.amplitude == c.vSource
    ensures c.sourceType == "pulse" ==> r[0].s.Pulse? && r[0].s.width == c.tEnd - c.tStart
    ensures c.sourceType == "direct" ==> r[0].s == Direct(c.sourceText)
  {
    if c.sourceType == "sine" then [Stimulus(Sine(c.vSource, c.fSource, c.tStart, c.nCycles))]
    else if c.sourceType == "pulse" then
      [Stimulus(Pulse(c.vSource, c.tStart, c.tRise, c.tFall, c.tEnd - c.tStart, c.nCycles))]
    else if c.sourceType == "direct" then [Stimulus(Direct(c.sourceText))]
    else []
  }

  /** The netlist lines of the element records of `s`, in order. */
  function Parts(s: seq<Element>): (r: seq<Line>)
    ensures |r| == |s| && forall j :: 0 <= j < |s| ==> r[j] == Part(s[j])
  {
    if s == [] then [] else [Part(s[0])] + Parts(s[1..])
  }

  /** The reference netlist: `None` where the per-stage division fails. */
  function Document(c: Config): Option<seq<Line>> {
    match PerStage(c)
    case None => None
    case Some(v) =>
      Some(Opening(c) + Parts(Network(v, c.lineType, c.stages)) + Closing(c))
  }

  /** The lines before the network: the title, the source block and RS. */
  function Opening(c: Config): seq<Line> {
    [Title(c.title)] + SourceLines(c) + [Part(SourceResistor(c))]
  }

  /** The lines after the network: RL and the simulation directives. */
  function Closing(c: Config): seq<Line> {
    [Part(LoadResistor(c)), Tran(c.tSim), Backanno, End]
  }

  /**
   * The script from line 101 to line 156: per-stage values, then the
   * netlist buffer grown block by block. `None` is the ZeroDivisionError
   * that stops the script before any netlist exists.
   */
  method Synthesize(c: Config) returns (doc: Option<seq<Line>>)
    ensures doc == Document(c)
  {
    var perStage := PerStage(c);
    if perStage.None? {
      return None;
    }
    var netlist := [Title(c.title)];
    var src: seq<Line>;
    if c.sourceType == "sine" {
      src := [Stimulus(Sine(c.vSource, c.fSource, c.tStart, c.nCycles))];
    } else if c.sourceType == "pulse" {
      src := [Stimulus(Pulse(c.vSource, c.tStart, c.tRise, c.tFall, c.tEnd - c.tStart, c.nCycles))];
    } else if c.sourceType == "direct" {
      src := [Stimulus(Direct(c.sourceText))];
    } else {
      src := [];
    }
    assert src == SourceLines(c);
    src := src + [Part(SourceResistor(c))];
    netlist := netlist + src;
    assert netlist == Opening(c);
    var lcNetwork := BuildLadder(perStage.value, c.lineType, c.stages);
    netlist := netlist + Parts(lcNetwork);
    netlist := netlist + [Part(LoadResistor(c))];
    netlist := netlist + [Tran(c.tSim), Backanno, End];
    assert netlist == Opening(c) + Parts(lcNetwork) + Closing(c);
    return Some(netlist);
  }

  // ---------------------------------------------------------------------------
  // The shape of the document

  /** The element records among `lines`, in order. */
  function Elements(lines: seq<Line>): seq<Element> {
    if lines == [] then []
    else (if lines[0].Part? then [lines[0].e] else []) + Elements(lines[1..])
  }

  lemma {:induction false} ElementsConcat(a: seq<Line>, b: seq<Line>)
    ensures Elements(a + b) == Elements(a) + Elements(b)
  {
    if a == [] {
      assert a + b == b;
    } else {
      var ab, first := a + b, if a[0].Part? then [a[0].e] else [];
      assert ab[0] == a[0] && ab[1..] == a[1..] + b;
      assert Elements(ab) == first + Elements(a[1..] + b);
      ElementsConcat(a[1..], b);
      assert Elements(a) == first + Elements(a[1..]);
    }
  }

  lemma {:induction false} NoElements(s: seq<Line>)
    requires forall j :: 0 <= j < |s| ==> !s[j].Part?
    ensures Elements(s) == []
  {
    if s != [] {
      NoElements(s[1..]);
    }
  }

  lemma {:induction false} ElementsOfParts(s: seq<Element>)
    ensures Elements(Parts(s)) == s
  {
    if s != [] {
      assert Parts(s)[1..] == Parts(s[1..]);
      ElementsOfParts(s[1..]);
    }
  }

  /** The element records of a document: RS, the network in loop order, RL. */
  function Circuitry(c: Config, v: StageValues): seq<Element> {
    [SourceResistor(c)] + Network(v, c.lineType, c.stages) + [LoadResistor(c)]
  }

  /** The document exists exactly when N_STAGES >= 1. */
  lemma DocumentDefined(c: Config)
    ensures Document(c).Some? <==> c.stages >= 1
  {
    DivisorAsWritten(c);
  }

  /**
   * A document opens with the title, then the source block (one line for
   * `sine`, `pulse` and `direct`, none otherwise), then RS, then the
   * network's lines; it closes with RL, `.tran T_SIM`, `.backanno` and `.end`.
   */
  lemma DocumentLayout(c: Config)
    requires c.stages >= 1
    ensures Document(c).Some?
    ensures |SourceLines(c)| == if c.sourceType in {"sine", "pulse", "direct"} then 1 else 0
    ensures var d, k, net := Document(c).value, |SourceLines(c)|, Network(PerStage(c).value, c.lineType, c.stages);
      && |d| == k + |net| + 6
      && d[0] == Title(c.title)
      && d[1..k + 1] == SourceLines(c)
      && d[k + 1] == Part(SourceResistor(c))
      && d[k + 2..k + 2 + |net|] == Parts(net)
      && d[|d| - 4..] == [Part(LoadResistor(c)), Tran(c.tSim), Backanno, End]
  {
    DocumentDefined(c);
    var net := Network(PerStage(c).value, c.lineType, c.stages);
    var head, tail := Opening(c), Closing(c);
    var d := Document(c).value;
    assert d[|head|..|head| + |net|] == Parts(net);
  }

  /** Every line of a document is the title, the source block, an element record or the trailer. */
  lemma DocumentLines(c: Config)
    requires c.stages >= 1
    ensures Document(c).Some?
    ensures forall l :: l in Document(c).value ==>
      l == Title(c.title) || l in SourceLines(c) || l.Part? || l.Tran? || l.Backanno? || l.End?
  {
    DocumentDefined(c);
    var parts := Parts(Network(PerStage(c).value, c.lineType, c.stages));
    assert forall l :: l in parts ==> l.Part?;
  }

  /** The element records of a document are RS, the network in the order the loop wrote it, and RL. */
  lemma DocumentElements(c: Config)
    requires c.stages >= 1
    ensures Document(c).Some?
    ensures Elements(Document(c).value) == Circuitry(c, PerStage(c).value)
  {
    DocumentDefined(c);
    var net := Network(PerStage(c).value, c.lineType, c.stages);
    ElementsAround(Opening(c), net, Closing(c));
    OpeningElements(c);
    ClosingElements(c);
  }

  lemma ElementsAround(head: seq<Line>, net: seq<Element>, tail: seq<Line>)
    ensures Elements(head + Parts(net) + tail) == Elements(head) + net + Elements(tail)
  {
    ElementsConcat(head, Parts(net));
    ElementsConcat(head + Parts(net), tail);
    ElementsOfParts(net);
  }

  lemma OpeningElements(c: Config)
    ensures Elements(Opening(c)) == [SourceResistor(c)]
  {
    var src := SourceLines(c);
    NoElements([Title(c.title)] + src);
    ElementsConcat([Title(c.title)] + src, [Part(SourceResistor(c))]);
  }

  lemma ClosingElements(c: Config)
    ensures Elements(Closing(c)) == [LoadResistor(c)]
  {
    assert Closing(c) == [Part(LoadResistor(c))] + [Tran(c.tSim), Backanno, End];
    ElementsConcat([Part(LoadResistor(c))], [Tran(c.tSim), Backanno, End]);
    NoElements([Tran(c.tSim), Backanno, End]);
  }

  /**
   * No designator is used twice in the whole netlist: the network's own
   * designators are distinct and none of them is RS or RL.
   */
  lemma CircuitryNamesDistinct(c: Config, v: StageValues)
    ensures NamesDistinct(Circuitry(c, v))
  {
    var net := Network(v, c.lineType, c.stages);
    NetworkOrderedAndDistinct(v, c.lineType, c.stages);
    LadderExactly(v, c.lineType, c.stages);
    assert forall j :: 0 <= j < |net| ==> Expected(v, c.lineType, c.stages, net[j]);
    DistinctConcat([SourceResistor(c)], net);
    DistinctConcat([SourceResistor(c)] + net, [LoadResistor(c)]);
  }

  // ---------------------------------------------------------------------------
  // Connectivity

  /** Some element of `es` has `x` and `y` as its two terminals. */
  ghost predicate Joins(es: seq<Element>, x: Node, y: Node) {
    exists e :: e in es && ((e.p == x && e.q == y) || (e.p == y && e.q == x))
  }

  /** Consecutive nodes of `path` are joined by elements of `es`. */
  ghost predicate Walk(es: seq<Element>, path: seq<Node>) {
    forall j :: 0 <= j < |path| - 1 ==> Joins(es, path[j], path[j + 1])
  }

  ghost predicate Connected(es: seq<Element>, x: Node, y: Node) {
    exists path :: |path| >= 1 && path[0] == x && path[|path| - 1] == y && Walk(es, path)
  }

  lemma WalkExtend(es: seq<Element>, path: seq<Node>, x: Node)
    requires |path| >= 1 && Walk(es, path) && Joins(es, path[|path| - 1], x)
    ensures Walk(es, path + [x])
  {
    var p := path + [x];
    forall j | 0 <= j < |p| - 1 ensures Joins(es, p[j], p[j + 1]) {
      if j < |path| - 1 {
        assert p[j] == path[j] && p[j + 1] == path[j + 1];
      }
    }
  }

  /** Node a reaches node a+1 through stage a-2's series arm (through `{a}m{a+1}` when RS != 0). */
  ghost predicate ArmJoined(es: seq<Element>, rs: real, a: nat) {
    if rs != 0.0 then Joins(es, Num(a), Mid(a, a + 1)) && Joins(es, Mid(a, a + 1), Num(a + 1))
    else Joins(es, Num(a), Num(a + 1))
  }

  /** The path from the source node 1 along the line to node k. */
  function Spine(rs: real, k: nat): (path: seq<Node>)
    requires k >= 1
    ensures |path| >= 1 && path[0] == Num(1) && path[|path| - 1] == Num(k)
  {
    if k == 1 then [Num(1)]
    else if k == 2 then [Num(1), Num(2)]
    else Spine(rs, k - 1) + (if rs != 0.0 then [Mid(k - 1, k)] else []) + [Num(k)]
  }

  lemma {:induction false} SpineWalk(es: seq<Element>, rs: real, k: nat)
    requires k >= 1 && Joins(es, Num(1), Num(2))
    requires forall a :: 2 <= a < k ==> ArmJoined(es, rs, a)
    ensures Walk(es, Spine(rs, k))
  {
    if k == 2 {
      assert Joins(es, Spine(rs, 2)[0], Spine(rs, 2)[1]);
    } else if k > 2 {
      SpineWalk(es, rs, k - 1);
      var prev := Spine(rs, k - 1);
      assert ArmJoined(es, rs, k - 1);
      if rs != 0.0 {
        WalkExtend(es, prev, Mid(k - 1, k));
        WalkExtend(es, prev + [Mid(k - 1, k)], Num(k));
        assert Spine(rs, k) == prev + [Mid(k - 1, k)] + [Num(k)];
      } else {
        WalkExtend(es, prev, Num(k));
        assert Spine(rs, k) == prev + [Num(k)];
      }
    }
  }

  lemma ArmsJoined(c: Config, v: StageValues, a: nat)
    requires 2 <= a < c.stages + 2
    ensures ArmJoined(Circuitry(c, v), v.rs, a)
  {
    var es := Circuitry(c, v);
    LadderExactly(v, c.lineType, c.stages);
    var l := InductorElem(v, a - 2);
    assert Expected(v, c.lineType, c.stages, l) && l in es;
    if v.rs != 0.0 {
      var r := SeriesResElem(v, a - 2);
      assert Expected(v, c.lineType, c.stages, r) && r in es;
    }
  }

  /** The joins that hold the line together: RS, every stage's arm, RL. */
  lemma CircuitryJoins(c: Config, v: StageValues)
    requires c.stages >= 1
    ensures Joins(Circuitry(c, v), Num(1), Num(2)) && Joins(Circuitry(c, v), Num(c.stages + 2), Ground)
    ensures forall a :: 2 <= a < c.stages + 2 ==> ArmJoined(Circuitry(c, v), v.rs, a)
  {
    var es := Circuitry(c, v);
    assert SourceResistor(c) in es && LoadResistor(c) in es;
    forall a | 2 <= a < c.stages + 2 ensures ArmJoined(es, v.rs, a) {
      ArmsJoined(c, v, a);
    }
  }

  lemma {:induction false} SpineConnected(es: seq<Element>, rs: real, k: nat)
    requires k >= 1 && Joins(es, Num(1), Num(2))
    requires forall a :: 2 <= a < k ==> ArmJoined(es, rs, a)
    ensures Connected(es, Num(1), Num(k))
  {
    SpineWalk(es, rs, k);
    var path := Spine(rs, k);
    assert Walk(es, path) && path[0] == Num(1) && path[|path| - 1] == Num(k);
  }

  lemma {:induction false} BranchConnected(es: seq<Element>, rs: real, k: nat, x: Node)
    requires k >= 1 && Joins(es, Num(1), Num(2))
    requires forall a :: 2 <= a < k ==> ArmJoined(es, rs, a)
    requires Joins(es, Num(k), x)
    ensures Connected(es, Num(1), x)
  {
    SpineWalk(es, rs, k);
    WalkExtend(es, Spine(rs, k), x);
    var path := Spine(rs, k) + [x];
    assert Walk(es, path) && path[0] == Num(1) && path[|path| - 1] == x;
  }

  /** Node 1 and every node the network may use are connected to node 1. */
  lemma NodeConnected(c: Config, v: StageValues, x: Node)
    requires c.stages >= 1 && (x == Num(1) || OnLine(x, c.stages, v.rs))
    ensures Connected(Circuitry(c, v), Num(1), x)
  {
    var es, n, rs := Circuitry(c, v), c.stages, v.rs;
    CircuitryJoins(c, v);
    match x
    case Num(k) =>
      if k == 0 {
        BranchConnected(es, rs, n + 2, Ground);
      } else {
        SpineConnected(es, rs, k);
      }
    case Mid(a, _) =>
      assert ArmJoined(es, rs, a);
      BranchConnected(es, rs, a, x);
  }

  /** Every node that some line of the netlist uses is connected to the source node 1. */
  lemma CircuitryConnected(c: Config, v: StageValues)
    requires c.stages >= 1
    ensures forall e :: e in Circuitry(c, v) ==> Connected(Circuitry(c, v), Num(1), e.p) && Connected(Circuitry(c, v), Num(1), e.q)
  {
    var es, n := Circuitry(c, v), c.stages;
    NetworkNodes(v, c.lineType, n);
    forall e | e in es ensures Connected(es, Num(1), e.p) && Connected(es, Num(1), e.q) {
      assert e.p == Num(1) || OnLine(e.p, n, v.rs);
      assert OnLine(e.q, n, v.rs);
      NodeConnected(c, v, e.p);
      NodeConnected(c, v, e.q);
    }
  }
}
