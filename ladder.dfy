/**
 * The LC network the stage loop builds (lc_circuit_autogen.py, lines
 * 118-148): the method that appends element records stage by stage, and the
 * functions that specify, block by block, what each stage contributes.
 */
module Ladder {
  import opened Circuit
  import opened Parameters

  /** Variants that get a shunt capacitor at node 2 before the first stage. */
  predicate HasFirstShunt(lineType: string) {
    lineType == "CL-ladder" || lineType == "pi-type"
  }

  /** Variants that get a shunt capacitor at node N + 2 after the last stage. */
  predicate HasFinalShunt(lineType: string) {
    lineType == "LC-ladder" || lineType == "pi-type"
  }

  // The element records of stage i (0-based), named after their designators.

  /** `L{i+1}`, ending at node i+3; it starts at the synthetic node when RS is non-zero. */
  function InductorElem(v: StageValues, i: nat): Element {
    Element(Inductor(i + 1), if v.rs != 0.0 then Mid(i + 2, i + 3) else Num(i + 2), Num(i + 3), v.ls, false)
  }

  function SeriesResElem(v: StageValues, i: nat): Element {
    Element(SeriesRes(i + 1), Num(i + 2), Mid(i + 2, i + 3), v.rs, false)
  }

  function SeriesCapElem(v: StageValues, i: nat): Element {
    Element(SeriesCap(i + 1), Num(i + 2), Num(i + 3), v.cs, false)
  }

  /** `C{k}` at node k+2; the one after the last stage (k = N) is printed with the wide gap. */
  function ShuntCapElem(v: StageValues, n: nat, k: nat): Element {
    Element(ShuntCap(k), Num(k + 2), Ground, v.cp, k == n)
  }

  /** `R{k}P` at node k+2, valued 1/GP. */
  function ShuntResElem(v: StageValues, n: nat, k: nat): Element
    requires v.gp != 0.0
  {
    Element(ShuntRes(k), Num(k + 2), Ground, 1.0 / v.gp, k == n)
  }

  /**
   * Lines 122-125 at stage i. The `=` at line 125 replaces the whole buffer,
   * which at i == 0 holds only the `C0` just written: `R0P` is all that remains.
   */
  function Head(v: StageValues, lineType: string, n: nat, i: nat): seq<Element> {
    if i == 0 && i < n && HasFirstShunt(lineType) then
      if v.gp != 0.0 then [ShuntResElem(v, n, 0)] else [ShuntCapElem(v, n, 0)]
    else []
  }

  /** Lines 127-134: the R-L arm and the parallel series capacitor. */
  function SeriesArm(v: StageValues, i: nat): seq<Element> {
    (if v.rs != 0.0 then [SeriesResElem(v, i), InductorElem(v, i)] else [InductorElem(v, i)])
    + (if v.cs != 0.0 then [SeriesCapElem(v, i)] else [])
  }

  /** Lines 136-140: the shunt at the output node of every stage but the last. */
  function Interior(v: StageValues, n: nat, i: nat): seq<Element> {
    if i != n - 1 then
      [ShuntCapElem(v, n, i + 1)] + (if v.gp != 0.0 then [ShuntResElem(v, n, i + 1)] else [])
    else []
  }

  /** Lines 142-146: the shunt after the last stage. */
  function Final(v: StageValues, lineType: string, n: nat, i: nat): seq<Element> {
    if i == n - 1 && HasFinalShunt(lineType) then
      [ShuntCapElem(v, n, i + 1)] + (if v.gp != 0.0 then [ShuntResElem(v, n, i + 1)] else [])
    else []
  }

  /** Everything stage i appends, in order. */
  function Block(v: StageValues, lineType: string, n: nat, i: nat): seq<Element> {
    Head(v, lineType, n, i) + SeriesArm(v, i) + Interior(v, n, i) + Final(v, lineType, n, i)
  }

  /** The network after the first k stages. */
  function Stages(v: StageValues, lineType: string, n: nat, k: nat): seq<Element>
    decreases k
  {
    if k == 0 then [] else Stages(v, lineType, n, k - 1) + Block(v, lineType, n, k - 1)
  }

  /** The network `lc_ntwk` after all N stages. */
  function Network(v: StageValues, lineType: string, n: nat): seq<Element> {
    Stages(v, lineType, n, n)
  }

  /**
   * The stage loop. Each `+=` of a line to `lc_ntwk` appends one record;
   * line 125 assigns the buffer instead. The four commented sections of the
   * loop body are the four methods below.
   */
  method BuildLadder(v: StageValues, lineType: string, n: nat) returns (net: seq<Element>)
    ensures net == Network(v, lineType, n)
  {
    net := [];
    for i := 0 to n
      invariant net == Stages(v, lineType, n, i)
    {
      ghost var before := net;
      net := FirstStageShunt(net, v, lineType, n, i);
      net := SeriesSection(net, v, i);
      net := IntermediateShunt(net, v, n, i);
      net := FinalStageShunt(net, v, lineType, n, i);
      Regroup(before, Head(v, lineType, n, i), SeriesArm(v, i), Interior(v, n, i), Final(v, lineType, n, i));
    }
  }

  /** Lines 121-125. The buffer is still empty at stage 0, so line 125 leaves only `R0P`. */
  method FirstStageShunt(net: seq<Element>, v: StageValues, lineType: string, n: nat, i: nat)
    returns (net': seq<Element>)
    requires i < n && (i == 0 ==> net == [])
    ensures net' == net + Head(v, lineType, n, i)
  {
    net' := net;
    if i == 0 && (lineType == "CL-ladder" || lineType == "pi-type") {
      net' := net' + [Element(ShuntCap(i), Num(i + 2), Ground, v.cp, false)];
      if v.gp != 0.0 {
        net' := [Element(ShuntRes(i), Num(i + 2), Ground, 1.0 / v.gp, false)];
      }
    }
  }

  /** Lines 127-134. */
  method SeriesSection(net: seq<Element>, v: StageValues, i: nat) returns (net': seq<Element>)
    ensures net' == net + SeriesArm(v, i)
  {
    net' := net;
    if v.rs != 0.0 {
      net' := net' + [Element(SeriesRes(i + 1), Num(i + 2), Mid(i + 2, i + 3), v.rs, false)];
      net' := net' + [Element(Inductor(i + 1), Mid(i + 2, i + 3), Num(i + 3), v.ls, false)];
    } else {
      net' := net' + [Element(Inductor(i + 1), Num(i + 2), Num(i + 3), v.ls, false)];
    }
    if v.cs != 0.0 {
      net' := net' + [Element(SeriesCap(i + 1), Num(i + 2), Num(i + 3), v.cs, false)];
    }
  }

  /** Lines 136-140. */
  method IntermediateShunt(net: seq<Element>, v: StageValues, n: nat, i: nat) returns (net': seq<Element>)
    requires i < n
    ensures net' == net + Interior(v, n, i)
  {
    net' := net;
    if i != n - 1 {
      net' := net' + [Element(ShuntCap(i + 1), Num(i + 3), Ground, v.cp, false)];
      if v.gp != 0.0 {
        net' := net' + [Element(ShuntRes(i + 1), Num(i + 3), Ground, 1.0 / v.gp, false)];
      }
    }
  }

  /** Lines 142-146, whose lines carry two spaces after the node number. */
  method FinalStageShunt(net: seq<Element>, v: StageValues, lineType: string, n: nat, i: nat)
    returns (net': seq<Element>)
    requires i < n
    ensures net' == net + Final(v, lineType, n, i)
  {
    net' := net;
    if i == n - 1 && (lineType == "LC-ladder" || lineType == "pi-type") {
      net' := net' + [Element(ShuntCap(i + 1), Num(i + 3), Ground, v.cp, true)];
      if v.gp != 0.0 {
        net' := net' + [Element(ShuntRes(i + 1), Num(i + 3), Ground, 1.0 / v.gp, true)];
      }
    }
  }

  lemma Regroup<T>(a: seq<T>, b: seq<T>, c: seq<T>, d: seq<T>, e: seq<T>)
    ensures a + b + c + d + e == a + (b + c + d + e)
  {
  }
}
