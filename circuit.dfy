/**
 * The vocabulary of an LTspice netlist line as the generator writes it:
 * nodes, element designators and two-terminal element records, with the
 * text the generator prints for each and a parser that reads it back.
 */
module Circuit {
  import opened Opt
  import opened Decimal

  /**
   * A netlist node. `Num(k)` is the integer node printed as `k`; node 0 is
   * ground. `Mid(a, b)` is the synthetic node printed as `{a}m{b}` that the
   * generator puts between a stage's series resistor and its inductor.
   */
  datatype Node = Num(k: nat) | Mid(a: nat, b: nat)

  const Ground: Node := Num(0)

  /** Element designators, each printed as in the comment beside it. */
  datatype Designator =
    | Inductor(k: nat)     // L{k}
    | SeriesRes(k: nat)    // R{k}
    | SeriesCap(k: nat)    // C{k}S
    | ShuntCap(k: nat)     // C{k}
    | ShuntRes(k: nat)     // R{k}P
    | SourceRes            // RS
    | LoadRes              // RL

  /** The kind of a designator, forgetting its stage number. */
  datatype Kind = KInductor | KSeriesRes | KSeriesCap | KShuntCap | KShuntRes | KSourceRes | KLoadRes

  function KindOf(d: Designator): Kind {
    match d
    case Inductor(_) => KInductor
    case SeriesRes(_) => KSeriesRes
    case SeriesCap(_) => KSeriesCap
    case ShuntCap(_) => KShuntCap
    case ShuntRes(_) => KShuntRes
    case SourceRes => KSourceRes
    case LoadRes => KLoadRes
  }

  /**
   * One element line `<name> <p> <q> <value>`. `wide` marks the lines whose
   * two nodes are separated by two spaces instead of one.
   */
  datatype Element = Element(name: Designator, p: Node, q: Node, value: real, wide: bool)

  function NodeName(x: Node): string {
    match x
    case Num(k) => FromNat(k)
    case Mid(a, b) => FromNat(a) + "m" + FromNat(b)
  }

  function DesignatorName(d: Designator): string {
    match d
    case Inductor(k) => "L" + FromNat(k)
    case SeriesRes(k) => "R" + FromNat(k)
    case SeriesCap(k) => "C" + FromNat(k) + "S"
    case ShuntCap(k) => "C" + FromNat(k)
    case ShuntRes(k) => "R" + FromNat(k) + "P"
    case SourceRes => "RS"
    case LoadRes => "RL"
  }

  /** The index of the first `c` in `s`, or `|s|` when there is none. */
  function Find(s: string, c: char): (j: nat)
    ensures j <= |s|
    ensures j < |s| ==> s[j] == c
    ensures forall i :: 0 <= i < j ==> s[i] != c
  {
    if s == [] then 0 else if s[0] == c then 0 else 1 + Find(s[1..], c)
  }

  function ParseNat(s: string): Option<nat> {
    if |s| >= 1 && AllDigits(s) then Some(ToNat(s)) else None
  }

  function ParseNode(s: string): Option<Node> {
    var j := Find(s, 'm');
    if j == |s| then
      match ParseNat(s)
      case Some(k) => Some(Num(k))
      case None => None
    else
      match (ParseNat(s[..j]), ParseNat(s[j + 1..]))
      case (Some(a), Some(b)) => Some(Mid(a, b))
      case _ => None
  }

  function ParseDesignator(s: string): Option<Designator> {
    if |s| < 2 then None
    else if s == "RS" then Some(SourceRes)
    else if s == "RL" then Some(LoadRes)
    else
      var body, last := s[1..], s[|s| - 1];
      var middle := s[1..|s| - 1];
      if s[0] == 'L' && AllDigits(body) then Some(Inductor(ToNat(body)))
      else if s[0] == 'R' && AllDigits(body) then Some(SeriesRes(ToNat(body)))
      else if s[0] == 'C' && AllDigits(body) then Some(ShuntCap(ToNat(body)))
      else if s[0] == 'R' && last == 'P' && |middle| >= 1 && AllDigits(middle) then Some(ShuntRes(ToNat(middle)))
      else if s[0] == 'C' && last == 'S' && |middle| >= 1 && AllDigits(middle) then Some(SeriesCap(ToNat(middle)))
      else None
  }

  lemma NoLetterInNumeral(k: nat, c: char)
    requires !IsDigit(c)
    ensures Find(FromNat(k), c) == |FromNat(k)|
  {
  }

  /** Node names read back to the node they were printed from. */
  lemma NodeNameRoundTrip(x: Node)
    ensures ParseNode(NodeName(x)) == Some(x)
  {
    match x
    case Num(k) =>
      NoLetterInNumeral(k, 'm');
      RoundTrip(k);
    case Mid(a, b) =>
      var s, A, B := NodeName(x), FromNat(a), FromNat(b);
      assert s == A + ("m" + B);
      FindAfterNumeral(A, "m" + B, 'm');
      assert s[..|A|] == A;
      assert s[|A| + 1..] == B;
      RoundTrip(a);
      RoundTrip(b);
  }

  lemma FindAfterNumeral(a: string, rest: string, c: char)
    requires AllDigits(a) && !IsDigit(c)
    requires |rest| >= 1 && rest[0] == c
    ensures Find(a + rest, c) == |a|
  {
    var s := a + rest;
    assert s[|a|] == c;
    assert forall i :: 0 <= i < |a| ==> s[i] == a[i];
  }

  /**
   * Distinct nodes get distinct names: a synthetic node never prints like an
   * integer node, and `{a}m{b}` determines both `a` and `b`, at any stage count.
   */
  lemma NodeNamesUnique(x: Node, y: Node)
    ensures NodeName(x) == NodeName(y) <==> x == y
  {
    NodeNameRoundTrip(x);
    NodeNameRoundTrip(y);
  }

  /** Designators read back to the designator they were printed from. */
  lemma DesignatorRoundTrip(d: Designator)
    ensures ParseDesignator(DesignatorName(d)) == Some(d)
  {
    var s := DesignatorName(d);
    match d
    case Inductor(k) =>
      assert s[1..] == FromNat(k);
      RoundTrip(k);
    case SeriesRes(k) =>
      assert s[1..] == FromNat(k);
      assert s != "RS" && s != "RL" by { assert IsDigit(s[1]); }
      RoundTrip(k);
    case ShuntCap(k) =>
      assert s[1..] == FromNat(k);
      RoundTrip(k);
    case ShuntRes(k) =>
      assert s[1..|s| - 1] == FromNat(k);
      assert s != "RS" && s != "RL" by { assert |s| >= 3; }
      assert !AllDigits(s[1..]) by { assert s[1..][|s| - 2] == 'P'; }
      RoundTrip(k);
    case SeriesCap(k) =>
      assert s[1..|s| - 1] == FromNat(k);
      assert !AllDigits(s[1..]) by { assert s[1..][|s| - 2] == 'S'; }
      RoundTrip(k);
    case SourceRes =>
    case LoadRes =>
  }

  /** Distinct designators get distinct names. */
  lemma DesignatorNamesUnique(d: Designator, e: Designator)
    ensures DesignatorName(d) == DesignatorName(e) <==> d == e
  {
    DesignatorRoundTrip(d);
    DesignatorRoundTrip(e);
  }
}
