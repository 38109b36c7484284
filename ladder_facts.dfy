/**
 * What the stage loop produces, stated independently of how it is built: an
 * exact description of the element set, the text of which is the reference
 * for membership, node ranges, counts, name uniqueness and order.
 */
module LadderFacts {
  import opened Circuit
  import opened Parameters
  import opened Ladder

  /** The stage (0-based) whose loop iteration writes an element of this designator. */
  function StageOf(d: Designator): nat {
    match d
    case Inductor(k) => if k == 0 then 0 else k - 1
    case SeriesRes(k) => if k == 0 then 0 else k - 1
    case SeriesCap(k) => if k == 0 then 0 else k - 1
    case ShuntCap(k) => if k == 0 then 0 else k - 1
    case ShuntRes(k) => if k == 0 then 0 else k - 1
    case SourceRes => 0
    case LoadRes => 0
  }

  /**
   * Shunt capacitor `C{k}` is present: at the interior nodes (1 <= k < N),
   * after the last stage for the variants with a final shunt, and at node 2
   * for the variants with a first shunt, unless line 125 removed it (GP != 0).
   */
  predicate ShuntCapAt(lineType: string, n: nat, gp: real, k: nat) {
    || (1 <= k < n)
    || (k == n && n >= 1 && HasFinalShunt(lineType))
    || (k == 0 && n >= 1 && HasFirstShunt(lineType) && gp == 0.0)
  }

  /** Shunt resistor `R{k}P` is present (when GP != 0) at the same places, `R0P` included. */
  predicate ShuntResAt(lineType: string, n: nat, k: nat) {
    || (1 <= k < n)
    || (k == n && n >= 1 && HasFinalShunt(lineType))
    || (k == 0 && n >= 1 && HasFirstShunt(lineType))
  }

  /** The reference description: `e` is one of the elements the N-stage network holds. */
  predicate Expected(v: StageValues, lineType: string, n: nat, e: Element) {
    match e.name
    case Inductor(k) => 1 <= k <= n && e == InductorElem(v, k - 1)
    case SeriesRes(k) => v.rs != 0.0 && 1 <= k <= n && e == SeriesResElem(v, k - 1)
    case SeriesCap(k) => v.cs != 0.0 && 1 <= k <= n && e == SeriesCapElem(v, k - 1)
    case ShuntCap(k) => ShuntCapAt(lineType, n, v.gp, k) && e == ShuntCapElem(v, n, k)
    case ShuntRes(k) => v.gp != 0.0 && ShuntResAt(lineType, n, k) && e == ShuntResElem(v, n, k)
    case SourceRes => false
    case LoadRes => false
  }

  lemma BlockMembers(v: StageValues, lineType: string, n: nat, i: nat, e: Element)
    requires i < n
    ensures e in Block(v, lineType, n, i) <==> Expected(v, lineType, n, e) && StageOf(e.name) == i
  {
    var h, a, m, f := Head(v, lineType, n, i), SeriesArm(v, i), Interior(v, n, i), Final(v, lineType, n, i);
    assert e in Block(v, lineType, n, i) <==> e in h || e in a || e in m || e in f;
  }

  lemma {:induction false} StagesMembers(v: StageValues, lineType: string, n: nat, k: nat, e: Element)
    requires k <= n
    ensures e in Stages(v, lineType, n, k) <==> Expected(v, lineType, n, e) && StageOf(e.name) < k
  {
    if k > 0 {
      var i := k - 1;
      StagesMembers(v, lineType, n, i, e);
      MembersStep(v, lineType, n, i, e);
      assert i + 1 == k;
    }
  }

  lemma MembersStep(v: StageValues, lineType: string, n: nat, i: nat, e: Element)
    requires i < n
    requires e in Stages(v, lineType, n, i) <==> Expected(v, lineType, n, e) && StageOf(e.name) < i
    ensures e in Stages(v, lineType, n, i + 1) <==> Expected(v, lineType, n, e) && StageOf(e.name) < i + 1
  {
    var prev, block := Stages(v, lineType, n, i), Block(v, lineType, n, i);
    assert Stages(v, lineType, n, i + 1) == prev + block;
    BlockMembers(v, lineType, n, i, e);
    if StageOf(e.name) == i {
      StagesBelow(v, lineType, n, i, e);
    }
  }




  /** Nothing stage k or later writes is among the first k stages. */
  lemma StagesBelow(v: StageValues, lineType: string, n: nat, k: nat, e: Element)
    requires k <= n && StageOf(e.name) >= k
    ensures e !in Stages(v, lineType, n, k)
  {
    StagesBelowLemma(v, lineType, n, k);
  }

  /** An element is in the synthesised network exactly when the reference description lists it. */
  lemma LadderExactly(v: StageValues, lineType: string, n: nat)
    ensures forall e :: e in Network(v, lineType, n) <==> Expected(v, lineType, n, e)
  {
    forall e ensures e in Network(v, lineType, n) <==> Expected(v, lineType, n, e) {
      StagesMembers(v, lineType, n, n, e);
    }
  }

  // ---------------------------------------------------------------------------
  // Order and uniqueness of designators

  /** Elements appear in the order of the stages that wrote them. */
  predicate InStageOrder(s: seq<Element>) {
    forall j, m :: 0 <= j < m < |s| ==> StageOf(s[j].name) <= StageOf(s[m].name)
  }

  /** No designator is used twice. */
  predicate NamesDistinct(s: seq<Element>) {
    forall j, m :: 0 <= j < m < |s| ==> s[j].name != s[m].name
  }

  /** The stages written by every element of `s` are below `k`. */
  predicate StagesBelowBound(s: seq<Element>, k: nat) {
    forall j :: 0 <= j < |s| ==> StageOf(s[j].name) < k
  }

  /** Every element of `s` is written by stage `k`. */
  predicate AllOfStage(s: seq<Element>, k: nat) {
    forall j :: 0 <= j < |s| ==> StageOf(s[j].name) == k
  }

  lemma SeparatedConcat(a: seq<Element>, b: seq<Element>, k: nat)
    requires InStageOrder(a) && NamesDistinct(a) && NamesDistinct(b)
    requires StagesBelowBound(a, k) && AllOfStage(b, k)
    ensures InStageOrder(a + b) && NamesDistinct(a + b)
  {
    var s := a + b;
    forall j, m | 0 <= j < m < |s|
      ensures StageOf(s[j].name) <= StageOf(s[m].name) && s[j].name != s[m].name
    {
      if m < |a| {
        assert s[j] == a[j] && s[m] == a[m];
      } else if j >= |a| {
        assert s[j] == b[j - |a|] && s[m] == b[m - |a|];
      } else {
        assert s[j] == a[j] && s[m] == b[m - |a|];
      }
    }
  }

  lemma DistinctConcat(a: seq<Element>, b: seq<Element>)
    requires NamesDistinct(a) && NamesDistinct(b)
    requires forall j, m :: 0 <= j < |a| && 0 <= m < |b| ==> a[j].name != b[m].name
    ensures NamesDistinct(a + b)
  {
    var s := a + b;
    forall j, m | 0 <= j < m < |s| ensures s[j].name != s[m].name {
      if m < |a| {
        assert s[j] == a[j] && s[m] == a[m];
      } else if j >= |a| {
        assert s[j] == b[j - |a|] && s[m] == b[m - |a|];
      } else {
        assert s[j] == a[j] && s[m] == b[m - |a|];
      }
    }
  }

  lemma BlockDistinct(v: StageValues, lineType: string, n: nat, i: nat)
    requires i < n
    ensures NamesDistinct(Block(v, lineType, n, i))
  {
    var h, a, m, f := Head(v, lineType, n, i), SeriesArm(v, i), Interior(v, n, i), Final(v, lineType, n, i);
    assert forall j :: 0 <= j < |h| ==> h[j].name in {ShuntCap(0), ShuntRes(0)};
    assert forall j :: 0 <= j < |a| ==> a[j].name in {SeriesRes(i + 1), Inductor(i + 1), SeriesCap(i + 1)};
    assert forall j :: 0 <= j < |m| ==> m[j].name in {ShuntCap(i + 1), ShuntRes(i + 1)};
    assert forall j :: 0 <= j < |f| ==> f[j].name in {ShuntCap(i + 1), ShuntRes(i + 1)};
    assert m == [] || f == [];
    DistinctConcat(h, a);
    var ha := h + a;
    assert forall j :: 0 <= j < |ha| ==> ha[j].name in {ShuntCap(0), ShuntRes(0), SeriesRes(i + 1), Inductor(i + 1), SeriesCap(i + 1)};
    DistinctConcat(ha, m);
    DistinctConcat(ha + m, f);
  }

  lemma {:induction false} StagesBelowLemma(v: StageValues, lineType: string, n: nat, k: nat)
    requires k <= n
    ensures StagesBelowBound(Stages(v, lineType, n, k), k)
  {
    if k > 0 {
      var i := k - 1;
      StagesBelowLemma(v, lineType, n, i);
      BelowStep(v, lineType, n, i);
      assert i + 1 == k;
    }
  }

  lemma BelowStep(v: StageValues, lineType: string, n: nat, i: nat)
    requires i < n && StagesBelowBound(Stages(v, lineType, n, i), i)
    ensures StagesBelowBound(Stages(v, lineType, n, i + 1), i + 1)
  {
    var prev, block := Stages(v, lineType, n, i), Block(v, lineType, n, i);
    assert Stages(v, lineType, n, i + 1) == prev + block;
    BlockAt(v, lineType, n, i);
    BelowConcat(prev, block, i);
  }


  lemma BelowConcat(a: seq<Element>, b: seq<Element>, k: nat)
    requires StagesBelowBound(a, k) && AllOfStage(b, k)
    ensures StagesBelowBound(a + b, k + 1)
  {
    var s := a + b;
    forall j | 0 <= j < |s| ensures StageOf(s[j].name) < k + 1 {
      if j < |a| { assert s[j] == a[j]; } else { assert s[j] == b[j - |a|]; }
    }
  }

  lemma BlockAt(v: StageValues, lineType: string, n: nat, i: nat)
    requires i < n
    ensures AllOfStage(Block(v, lineType, n, i), i)
  {
    var b := Block(v, lineType, n, i);
    forall j | 0 <= j < |b| ensures StageOf(b[j].name) == i {
      BlockMembers(v, lineType, n, i, b[j]);
    }
  }

  lemma StepOrderedAndDistinct(prev: seq<Element>, block: seq<Element>, v: StageValues, lineType: string, n: nat, k: nat)
    requires k < n && prev == Stages(v, lineType, n, k) && block == Block(v, lineType, n, k)
    requires InStageOrder(prev) && NamesDistinct(prev)
    ensures InStageOrder(prev + block) && NamesDistinct(prev + block)
  {
    BlockDistinct(v, lineType, n, k);
    StagesBelowLemma(v, lineType, n, k);
    BlockAt(v, lineType, n, k);
    SeparatedConcat(prev, block, k);
  }

  lemma {:induction false} StagesOrderedAndDistinct(v: StageValues, lineType: string, n: nat, k: nat)
    requires k <= n
    ensures InStageOrder(Stages(v, lineType, n, k))
    ensures NamesDistinct(Stages(v, lineType, n, k))
  {
    if k > 0 {
      var prev, block := Stages(v, lineType, n, k - 1), Block(v, lineType, n, k - 1);
      StagesOrderedAndDistinct(v, lineType, n, k - 1);
      StepOrderedAndDistinct(prev, block, v, lineType, n, k - 1);
      assert Stages(v, lineType, n, k) == prev + block;
    }
  }

  /**
   * The network lists its elements stage by stage, and every designator
   * names one element only.
   */
  lemma NetworkOrderedAndDistinct(v: StageValues, lineType: string, n: nat)
    ensures InStageOrder(Network(v, lineType, n))
    ensures NamesDistinct(Network(v, lineType, n))
  {
    StagesOrderedAndDistinct(v, lineType, n, n);
  }

  // ---------------------------------------------------------------------------
  // Element counts

  /** The number of elements of kind `kind` in `s`. */
  function Count(s: seq<Element>, kind: Kind): nat {
    if s == [] then 0 else (if KindOf(s[0].name) == kind then 1 else 0) + Count(s[1..], kind)
  }

  lemma {:induction false} CountConcat(a: seq<Element>, b: seq<Element>, kind: Kind)
    ensures Count(a + b, kind) == Count(a, kind) + Count(b, kind)
  {
    if a != [] {
      assert (a + b)[1..] == a[1..] + b;
      CountConcat(a[1..], b, kind);
    } else {
      assert a + b == b;
    }
  }

  lemma CountPair(x: Element, y: Element, kind: Kind)
    ensures Count([x, y], kind) == Indicator(KindOf(x.name) == kind) + Indicator(KindOf(y.name) == kind)
  {
    assert [x, y][1..] == [y];
    CountSingle(y, kind);
  }

  lemma CountSingle(x: Element, kind: Kind)
    ensures Count([x], kind) == Indicator(KindOf(x.name) == kind)
  {
    assert [x][1..] == [];
  }

  function Indicator(b: bool): nat {
    if b then 1 else 0
  }

  /** How many elements of each kind stage i writes. */
  function BlockCount(v: StageValues, lineType: string, n: nat, i: nat, kind: Kind): nat {
    var shunts :=
      Indicator(i == 0 && HasFirstShunt(lineType)) + Indicator(i != n - 1) + Indicator(i == n - 1 && HasFinalShunt(lineType));
    match kind
    case KInductor => 1
    case KSeriesRes => Indicator(v.rs != 0.0)
    case KSeriesCap => Indicator(v.cs != 0.0)
    case KShuntCap => shunts - Indicator(i == 0 && HasFirstShunt(lineType) && v.gp != 0.0)
    case KShuntRes => if v.gp != 0.0 then shunts else 0
    case KSourceRes => 0
    case KLoadRes => 0
  }

  /** One shunt capacitor, with its resistor when GP != 0. */
  function ShuntCount(v: StageValues, kind: Kind): nat {
    Indicator(kind == KShuntCap) + Indicator(kind == KShuntRes && v.gp != 0.0)
  }

  lemma ShuntPairCount(v: StageValues, n: nat, k: nat, kind: Kind)
    ensures Count([ShuntCapElem(v, n, k)] + (if v.gp != 0.0 then [ShuntResElem(v, n, k)] else []), kind)
      == ShuntCount(v, kind)
  {
    if v.gp != 0.0 {
      assert [ShuntCapElem(v, n, k)] + [ShuntResElem(v, n, k)] == [ShuntCapElem(v, n, k), ShuntResElem(v, n, k)];
      CountPair(ShuntCapElem(v, n, k), ShuntResElem(v, n, k), kind);
    } else {
      assert [ShuntCapElem(v, n, k)] + [] == [ShuntCapElem(v, n, k)];
      CountSingle(ShuntCapElem(v, n, k), kind);
    }
  }

  lemma HeadCount(v: StageValues, lineType: string, n: nat, i: nat, kind: Kind)
    ensures Count(Head(v, lineType, n, i), kind) ==
      if i == 0 && i < n && HasFirstShunt(lineType) then
        (if v.gp != 0.0 then Indicator(kind == KShuntRes) else Indicator(kind == KShuntCap))
      else 0
  {
    if i == 0 && i < n && HasFirstShunt(lineType) {
      if v.gp != 0.0 { CountSingle(ShuntResElem(v, n, 0), kind); } else { CountSingle(ShuntCapElem(v, n, 0), kind); }
    }
  }

  lemma ArmCount(v: StageValues, i: nat, kind: Kind)
    ensures Count(SeriesArm(v, i), kind) ==
      Indicator(kind == KInductor) + Indicator(kind == KSeriesRes && v.rs != 0.0) + Indicator(kind == KSeriesCap && v.cs != 0.0)
  {
    var rl := if v.rs != 0.0 then [SeriesResElem(v, i), InductorElem(v, i)] else [InductorElem(v, i)];
    var cs: seq<Element> := if v.cs != 0.0 then [SeriesCapElem(v, i)] else [];
    CountConcat(rl, cs, kind);
    CountPair(SeriesResElem(v, i), InductorElem(v, i), kind);
    CountSingle(InductorElem(v, i), kind);
    CountSingle(SeriesCapElem(v, i), kind);
  }

  lemma BlockCounts(v: StageValues, lineType: string, n: nat, i: nat, kind: Kind)
    requires i < n
    ensures Count(Block(v, lineType, n, i), kind) == BlockCount(v, lineType, n, i, kind)
  {
    var h, a, m, f := Head(v, lineType, n, i), SeriesArm(v, i), Interior(v, n, i), Final(v, lineType, n, i);
    CountConcat(h, a, kind);
    CountConcat(h + a, m, kind);
    CountConcat(h + a + m, f, kind);
    HeadCount(v, lineType, n, i, kind);
    ArmCount(v, i, kind);
    InteriorCount(v, n, i, kind);
    FinalCount(v, lineType, n, i, kind);
  }

  lemma InteriorCount(v: StageValues, n: nat, i: nat, kind: Kind)
    ensures Count(Interior(v, n, i), kind) == if i != n - 1 then ShuntCount(v, kind) else 0
  {
    ShuntPairCount(v, n, i + 1, kind);
  }

  lemma FinalCount(v: StageValues, lineType: string, n: nat, i: nat, kind: Kind)
    ensures Count(Final(v, lineType, n, i), kind) == if i == n - 1 && HasFinalShunt(lineType) then ShuntCount(v, kind) else 0
  {
    ShuntPairCount(v, n, i + 1, kind);
  }

  /** The closed form of the first k stages' counts of `kind`. */
  function StagesCount(v: StageValues, lineType: string, n: nat, k: nat, kind: Kind): nat
    requires k <= n
  {
    var interior := if k == n && n >= 1 then n - 1 else k;
    var first := Indicator(k >= 1 && HasFirstShunt(lineType));
    var last := Indicator(k == n && n >= 1 && HasFinalShunt(lineType));
    match kind
    case KInductor => k
    case KSeriesRes => if v.rs != 0.0 then k else 0
    case KSeriesCap => if v.cs != 0.0 then k else 0
    case KShuntCap => interior + last + (if v.gp == 0.0 then first else 0)
    case KShuntRes => if v.gp != 0.0 then interior + last + first else 0
    case KSourceRes => 0
    case KLoadRes => 0
  }

  lemma StepCounts(v: StageValues, lineType: string, n: nat, k: nat, kind: Kind)
    requires k < n
    requires Count(Stages(v, lineType, n, k), kind) == StagesCount(v, lineType, n, k, kind)
    ensures Count(Stages(v, lineType, n, k + 1), kind) == StagesCount(v, lineType, n, k + 1, kind)
  {
    assert Stages(v, lineType, n, k + 1) == Stages(v, lineType, n, k) + Block(v, lineType, n, k);
    CountConcat(Stages(v, lineType, n, k), Block(v, lineType, n, k), kind);
    BlockCounts(v, lineType, n, k, kind);
  }

  lemma {:induction false} CountsUpTo(v: StageValues, lineType: string, n: nat, k: nat, kind: Kind)
    requires k <= n
    ensures Count(Stages(v, lineType, n, k), kind) == StagesCount(v, lineType, n, k, kind)
  {
    if k > 0 {
      var i := k - 1;
      CountsUpTo(v, lineType, n, i, kind);
      StepCounts(v, lineType, n, i, kind);
      assert i + 1 == k;
    }
  }

  /**
   * Element totals of an N-stage network: N inductors; N or no series
   * resistors and series capacitors; N - 1 interior shunt capacitors, plus one
   * after the last stage (LC-ladder, pi-type) and one before the first
   * (CL-ladder, pi-type) unless line 125 removed it; one shunt resistor per
   * shunt position when GP != 0 and none otherwise.
   */
  lemma NetworkCounts(v: StageValues, lineType: string, n: nat)
    requires n >= 1
    ensures Count(Network(v, lineType, n), KInductor) == n
    ensures Count(Network(v, lineType, n), KSeriesRes) == if v.rs != 0.0 then n else 0
    ensures Count(Network(v, lineType, n), KSeriesCap) == if v.cs != 0.0 then n else 0
    ensures Count(Network(v, lineType, n), KShuntCap) ==
      n - 1 + Indicator(HasFinalShunt(lineType)) + Indicator(HasFirstShunt(lineType) && v.gp == 0.0)
    ensures Count(Network(v, lineType, n), KShuntRes) ==
      if v.gp == 0.0 then 0 else n - 1 + Indicator(HasFinalShunt(lineType)) + Indicator(HasFirstShunt(lineType))
    ensures Count(Network(v, lineType, n), KSourceRes) == 0 && Count(Network(v, lineType, n), KLoadRes) == 0
  {
    CountsUpTo(v, lineType, n, n, KInductor);
    CountsUpTo(v, lineType, n, n, KSeriesRes);
    CountsUpTo(v, lineType, n, n, KSeriesCap);
    CountsUpTo(v, lineType, n, n, KShuntCap);
    CountsUpTo(v, lineType, n, n, KShuntRes);
    CountsUpTo(v, lineType, n, n, KSourceRes);
    CountsUpTo(v, lineType, n, n, KLoadRes);
  }

  /** Shunt capacitors (with GP = 0): N, N, N - 1 and N + 1 for LC, CL, T and pi. */
  lemma ShuntCapacitorTotals(v: StageValues, n: nat)
    requires n >= 1 && v.gp == 0.0
    ensures Count(Network(v, "LC-ladder", n), KShuntCap) == n
    ensures Count(Network(v, "CL-ladder", n), KShuntCap) == n
    ensures Count(Network(v, "T-type", n), KShuntCap) == n - 1
    ensures Count(Network(v, "pi-type", n), KShuntCap) == n + 1
  {
    NetworkCounts(v, "LC-ladder", n);
    NetworkCounts(v, "CL-ladder", n);
    NetworkCounts(v, "T-type", n);
    NetworkCounts(v, "pi-type", n);
  }

  /** Three pi-type stages without series resistance: 4 shunt capacitors, 3 inductors, no resistor. */
  lemma ThreeStagePi(v: StageValues)
    requires v.rs == 0.0 && v.gp == 0.0
    ensures Count(Network(v, "pi-type", 3), KShuntCap) == 4
    ensures Count(Network(v, "pi-type", 3), KInductor) == 3
    ensures Count(Network(v, "pi-type", 3), KSeriesRes) == 0 && Count(Network(v, "pi-type", 3), KShuntRes) == 0
  {
    NetworkCounts(v, "pi-type", 3);
  }

  /** Three T-type stages: shunt capacitors only at the 2 interior nodes, 3 inductors. */
  lemma ThreeStageT(v: StageValues)
    ensures Count(Network(v, "T-type", 3), KShuntCap) == 2
    ensures Count(Network(v, "T-type", 3), KInductor) == 3
  {
    NetworkCounts(v, "T-type", 3);
  }

  // ---------------------------------------------------------------------------
  // Series arms, omitted elements and shunt placement, read off the network

  /** Some element of `net` carries designator `d`. */
  ghost predicate Named(net: seq<Element>, d: Designator) {
    exists e :: e in net && e.name == d
  }

  /**
   * Stage i writes exactly one inductor `L{i+1}`, ending at node i+3. Without
   * series resistance it starts at node i+2 and stage i has no `R{i+1}`;
   * otherwise `R{i+1}` runs from node i+2 to the synthetic node between i+2
   * and i+3, where the inductor starts.
   */
  lemma SeriesBlockPerStage(v: StageValues, lineType: string, n: nat, i: nat)
    requires i < n
    ensures Named(Network(v, lineType, n), Inductor(i + 1))
    ensures forall e :: e in Network(v, lineType, n) && e.name == Inductor(i + 1) ==>
      && e.p == (if v.rs == 0.0 then Num(i + 2) else Mid(i + 2, i + 3))
      && e.q == Num(i + 3) && e.value == v.ls
    ensures Named(Network(v, lineType, n), SeriesRes(i + 1)) <==> v.rs != 0.0
    ensures forall e :: e in Network(v, lineType, n) && e.name == SeriesRes(i + 1) ==>
      e.p == Num(i + 2) && e.q == Mid(i + 2, i + 3) && e.value == v.rs
  {
    LadderExactly(v, lineType, n);
    assert Expected(v, lineType, n, InductorElem(v, i));
    if v.rs != 0.0 {
      assert Expected(v, lineType, n, SeriesResElem(v, i));
    }
  }

  lemma ExpectedValues(v: StageValues, lineType: string, n: nat, e: Element)
    requires Expected(v, lineType, n, e)
    ensures KindOf(e.name) == KSeriesCap ==>
      1 <= e.name.k <= n && e.p == Num(e.name.k + 1) && e.q == Num(e.name.k + 2) && e.value == v.cs
    ensures v.gp == 0.0 ==> KindOf(e.name) != KShuntRes
    ensures KindOf(e.name) in {KSeriesRes, KSeriesCap, KShuntRes} ==> e.value != 0.0
  {
  }

  /**
   * The series capacitor `C{k}S` across nodes k+1 and k+2 is written for
   * every stage exactly when CS != 0, shunt resistors only when GP != 0, and
   * no optional element (series resistor, series capacitor, shunt resistor)
   * ever has value zero.
   */
  lemma ZeroOmission(v: StageValues, lineType: string, n: nat)
    ensures forall k :: 1 <= k <= n ==> (Named(Network(v, lineType, n), SeriesCap(k)) <==> v.cs != 0.0)
    ensures forall e :: e in Network(v, lineType, n) && KindOf(e.name) == KSeriesCap ==>
      1 <= e.name.k <= n && e.p == Num(e.name.k + 1) && e.q == Num(e.name.k + 2) && e.value == v.cs
    ensures v.gp == 0.0 ==> forall e :: e in Network(v, lineType, n) ==> KindOf(e.name) != KShuntRes
    ensures forall e :: e in Network(v, lineType, n) && KindOf(e.name) in {KSeriesRes, KSeriesCap, KShuntRes} ==>
      e.value != 0.0
  {
    var net := Network(v, lineType, n);
    LadderExactly(v, lineType, n);
    forall e | e in net
      ensures KindOf(e.name) == KSeriesCap ==>
        1 <= e.name.k <= n && e.p == Num(e.name.k + 1) && e.q == Num(e.name.k + 2) && e.value == v.cs
      ensures v.gp == 0.0 ==> KindOf(e.name) != KShuntRes
      ensures KindOf(e.name) in {KSeriesRes, KSeriesCap, KShuntRes} ==> e.value != 0.0
    {
      ExpectedValues(v, lineType, n, e);
    }
    forall k | 1 <= k <= n ensures Named(net, SeriesCap(k)) <==> v.cs != 0.0 {
      if v.cs != 0.0 {
        assert Expected(v, lineType, n, SeriesCapElem(v, k - 1));
      }
    }
  }

  /**
   * `C{k}` is present exactly at the positions `ShuntCapAt` lists: the
   * interior nodes 3..N+1, node N+2 for LC-ladder and pi-type, node 2 for
   * CL-ladder and pi-type when GP = 0. Each sits between node k+2 and ground.
   */
  lemma ShuntPlacement(v: StageValues, lineType: string, n: nat)
    ensures forall k :: Named(Network(v, lineType, n), ShuntCap(k)) <==> ShuntCapAt(lineType, n, v.gp, k)
    ensures forall e :: e in Network(v, lineType, n) && KindOf(e.name) == KShuntCap ==>
      e.p == Num(e.name.k + 2) && e.q == Ground && e.value == v.cp
  {
    LadderExactly(v, lineType, n);
    forall k ensures Named(Network(v, lineType, n), ShuntCap(k)) <==> ShuntCapAt(lineType, n, v.gp, k) {
      if ShuntCapAt(lineType, n, v.gp, k) {
        assert Expected(v, lineType, n, ShuntCapElem(v, n, k));
      }
    }
  }

  /**
   * With GP != 0 every shunt capacitor `C{k}` has its resistor `R{k}P`
   * (value 1/GP) at the same node; `R0P` is the one resistor without its
   * capacitor (see OverwriteDropsC0). With GP = 0 there is no shunt resistor.
   */
  lemma ShuntPairing(v: StageValues, lineType: string, n: nat)
    ensures v.gp != 0.0 ==> forall k :: Named(Network(v, lineType, n), ShuntCap(k)) ==>
      Named(Network(v, lineType, n), ShuntRes(k))
    ensures v.gp != 0.0 ==> forall e :: e in Network(v, lineType, n) && KindOf(e.name) == KShuntRes ==>
      e.p == Num(e.name.k + 2) && e.q == Ground && e.value == 1.0 / v.gp
    ensures v.gp == 0.0 ==> forall k :: !Named(Network(v, lineType, n), ShuntRes(k))
  {
    LadderExactly(v, lineType, n);
    if v.gp != 0.0 {
      forall k | Named(Network(v, lineType, n), ShuntCap(k)) ensures Named(Network(v, lineType, n), ShuntRes(k)) {
        assert Expected(v, lineType, n, ShuntResElem(v, n, k));
      }
    }
  }

  lemma {:induction false} FirstElement(v: StageValues, lineType: string, n: nat, k: nat)
    requires 1 <= k <= n
    ensures |Stages(v, lineType, n, k)| >= 1
    ensures Stages(v, lineType, n, k)[0] == Block(v, lineType, n, 0)[0]
  {
    if k > 1 {
      FirstElement(v, lineType, n, k - 1);
    }
  }

  /**
   * Line 125 assigns where the rest of the loop appends: for CL-ladder and
   * pi-type with GP != 0 the network starts with `R0P` at node 2, and no
   * `C0` is left in it.
   */
  lemma OverwriteDropsC0(v: StageValues, lineType: string, n: nat)
    requires n >= 1 && HasFirstShunt(lineType) && v.gp != 0.0
    ensures |Network(v, lineType, n)| >= 1
    ensures Network(v, lineType, n)[0] == Element(ShuntRes(0), Num(2), Ground, 1.0 / v.gp, false)
    ensures !Named(Network(v, lineType, n), ShuntCap(0))
  {
    FirstElement(v, lineType, n, n);
    LadderExactly(v, lineType, n);
  }

  // ---------------------------------------------------------------------------
  // Nodes

  /** The nodes an N-stage network may use: ground, nodes 2..N+2, and `{a}m{a+1}` when RS != 0. */
  predicate OnLine(x: Node, n: nat, rs: real) {
    match x
    case Num(k) => k == 0 || 2 <= k <= n + 2
    case Mid(a, b) => rs != 0.0 && 2 <= a <= n + 1 && b == a + 1
  }

  ghost predicate Referenced(net: seq<Element>, x: Node) {
    exists e :: e in net && (e.p == x || e.q == x)
  }

  lemma ExpectedOnLine(v: StageValues, lineType: string, n: nat, e: Element)
    requires Expected(v, lineType, n, e)
    ensures OnLine(e.p, n, v.rs) && OnLine(e.q, n, v.rs)
  {
  }

  /** Every numbered node 2..N+2 and every synthetic node of the line is used by some element. */
  lemma OnLineReferenced(v: StageValues, lineType: string, n: nat, x: Node)
    requires n >= 1 && x != Ground && OnLine(x, n, v.rs)
    ensures Referenced(Network(v, lineType, n), x)
  {
    var net := Network(v, lineType, n);
    LadderExactly(v, lineType, n);
    match x
    case Num(k) =>
      if k == 2 {
        var e := if v.rs != 0.0 then SeriesResElem(v, 0) else InductorElem(v, 0);
        assert Expected(v, lineType, n, e) && e.p == x;
      } else {
        assert Expected(v, lineType, n, InductorElem(v, k - 3));
      }
    case Mid(a, _) =>
      assert Expected(v, lineType, n, SeriesResElem(v, a - 2));
  }

  /**
   * Apart from ground, the network uses exactly nodes 2..N+2 and, when
   * RS != 0, the N synthetic nodes `{a}m{a+1}` for a in 2..N+1. Node 1
   * belongs to the source.
   */
  lemma NetworkNodes(v: StageValues, lineType: string, n: nat)
    ensures forall e :: e in Network(v, lineType, n) ==> OnLine(e.p, n, v.rs) && OnLine(e.q, n, v.rs)
    ensures n >= 1 ==> forall x :: x != Ground ==> (Referenced(Network(v, lineType, n), x) <==> OnLine(x, n, v.rs))
  {
    var net := Network(v, lineType, n);
    LadderExactly(v, lineType, n);
    forall e | e in net ensures OnLine(e.p, n, v.rs) && OnLine(e.q, n, v.rs) {
      ExpectedOnLine(v, lineType, n, e);
    }
    if n >= 1 {
      forall x | x != Ground && OnLine(x, n, v.rs) ensures Referenced(net, x) {
        OnLineReferenced(v, lineType, n, x);
      }
    }
  }

  // ---------------------------------------------------------------------------
  // Total shunt capacitance

  /** The sum of the values of the shunt capacitors in `s`. */
  function ShuntCapacitance(s: seq<Element>): real {
    if s == [] then 0.0 else (if KindOf(s[0].name) == KShuntCap then s[0].value else 0.0) + ShuntCapacitance(s[1..])
  }

  lemma {:induction false} UniformCapacitance(s: seq<Element>, x: real)
    requires forall e :: e in s && KindOf(e.name) == KShuntCap ==> e.value == x
    ensures ShuntCapacitance(s) == Count(s, KShuntCap) as real * x
  {
    if s != [] {
      var t := s[1..];
      forall e | e in t && KindOf(e.name) == KShuntCap ensures e.value == x {
        assert e in s;
      }
      UniformCapacitance(t, x);
      assert ShuntCapacitance(s) == (if KindOf(s[0].name) == KShuntCap then s[0].value else 0.0) + ShuntCapacitance(t);
      assert Count(s, KShuntCap) == (if KindOf(s[0].name) == KShuntCap then 1 else 0) + Count(t, KShuntCap);
    }
  }

  /** The network's shunt capacitance is its number of shunt capacitors times CP. */
  lemma NetworkCapacitance(v: StageValues, lineType: string, n: nat)
    ensures ShuntCapacitance(Network(v, lineType, n)) == Count(Network(v, lineType, n), KShuntCap) as real * v.cp
  {
    ShuntPlacement(v, lineType, n);
    UniformCapacitance(Network(v, lineType, n), v.cp);
  }

  /** The closed form: (N - 1 + the boundary capacitors present) times CP. */
  lemma NetworkCapacitanceTotal(v: StageValues, lineType: string, n: nat)
    requires n >= 1
    ensures ShuntCapacitance(Network(v, lineType, n)) ==
      (n - 1 + Indicator(HasFinalShunt(lineType)) + Indicator(HasFirstShunt(lineType) && v.gp == 0.0)) as real * v.cp
  {
    ShuntCapCount(v, lineType, n);
    NetworkCapacitance(v, lineType, n);
  }

  lemma ShuntCapCount(v: StageValues, lineType: string, n: nat)
    requires n >= 1
    ensures Count(Network(v, lineType, n), KShuntCap) ==
      n - 1 + Indicator(HasFinalShunt(lineType)) + Indicator(HasFirstShunt(lineType) && v.gp == 0.0)
  {
    CountsUpTo(v, lineType, n, n, KShuntCap);
  }
}
