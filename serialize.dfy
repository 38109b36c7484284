/**
 * The text of the netlist (lc_circuit_autogen.py, lines 101-156): every
 * line printed as the script's f-strings print it, each followed by BR
 * (`\r\n`) except the final `.end`. How Python prints a number is not
 * modelled: `fmt` stands for it. The inverse direction reads the text
 * back: CRLF splitting recovers the lines, and the whitespace-separated
 * fields of an element line recover its designator and nodes.
 */
module Serialize {
  import opened Opt
  import opened Decimal
  import opened Circuit
  import opened Parameters
  import opened Ladder
  import opened Netlist

  const BR: string := "\r\n"

  /**
   * The source line: SOURCE_TEXT verbatim, or the voltage source `V1`
   * from node 1 to ground with its SINE or PULSE specification. Whenever
   * every printed number is one field, the line reads back field by field:
   * `V1`, its nodes, the opening `SINE(0` or `PULSE(0`, then the parameters
   * in the order the script prints them (N_CYCLES_SOURCE lands in the
   * PULSE period slot).
   */
  function SourceText(s: Source, fmt: real -> string): (r: string)
    ensures s.Direct? ==> r == s.text
    ensures !s.Direct? ==> |r| > 7 && r[..7] == "V1 1 0 " && r[|r| - 1] == ')'
    ensures (s.Sine? && OneField(fmt(s.amplitude)) && OneField(fmt(s.frequency))
             && OneField(fmt(s.delay)) && OneField(fmt(s.cycles))) ==>
      Fields(r) == ["V1", "1", "0", "SINE(0", fmt(s.amplitude), fmt(s.frequency), fmt(s.delay),
                    "0", "0", fmt(s.cycles) + ")"]
    ensures (s.Pulse? && OneField(fmt(s.amplitude)) && OneField(fmt(s.delay)) && OneField(fmt(s.rise))
             && OneField(fmt(s.fall)) && OneField(fmt(s.width)) && OneField(fmt(s.period))) ==>
      Fields(r) == ["V1", "1", "0", "PULSE(0", fmt(s.amplitude), fmt(s.delay), fmt(s.rise),
                    fmt(s.fall), fmt(s.width), fmt(s.period) + ")"]
  {
    match s
    case Sine(a, f, d, n) =>
      SineFields(fmt(a), fmt(f), fmt(d), fmt(n));
      "V1 1 0 SINE(0 " + fmt(a) + " " + fmt(f) + " " + fmt(d) + " 0 0 " + fmt(n) + ")"
    case Pulse(a, d, r, f, w, n) =>
      PulseFields(fmt(a), fmt(d), fmt(r), fmt(f), fmt(w), fmt(n));
      "V1 1 0 PULSE(0 " + fmt(a) + " " + fmt(d) + " " + fmt(r) + " " + fmt(f) + " " + fmt(w) + " " + fmt(n) + ")"
    case Direct(text) => text
  }

  /**
   * `<name> <p> <q> <value>`, with two spaces before `q` on the wide lines.
   * Whenever the printed value is one field, the line has exactly four
   * whitespace-separated fields: the designator, both nodes and the value.
   */
  function ElementText(e: Element, fmt: real -> string): (r: string)
    ensures OneField(fmt(e.value)) ==>
      Fields(r) == [DesignatorName(e.name), NodeName(e.p), NodeName(e.q), fmt(e.value)]
  {
    var gap := if e.wide then "  " else " ";
    var r := DesignatorName(e.name) + " " + NodeName(e.p) + gap + NodeName(e.q) + " " + fmt(e.value);
    NamesHaveNoSpace(e.name, e.p);
    NamesHaveNoSpace(e.name, e.q);
    if OneField(fmt(e.value)) then
      FourFields(DesignatorName(e.name), NodeName(e.p), gap, NodeName(e.q), fmt(e.value));
      r
    else r
  }

  function LineText(l: Line, fmt: real -> string): string {
    match l
    case Title(t) => t
    case Stimulus(s) => SourceText(s, fmt)
    case Part(e) => ElementText(e, fmt)
    case Tran(t) => ".tran " + fmt(t)
    case Backanno => ".backanno"
    case End => ".end"
  }

  /**
   * The netlist text, built as the script grows it: every line but the last
   * followed by BR, then the last line (`.end`) with nothing after it.
   */
  function Render(doc: seq<Line>, fmt: real -> string): (r: string)
    ensures |doc| >= 1 ==> r == Terminated(doc[..|doc| - 1], fmt) + LineText(doc[|doc| - 1], fmt)
  {
    if doc == [] then ""
    else if |doc| == 1 then LineText(doc[0], fmt)
    else
      assert doc[1..][..|doc| - 2] == doc[1..|doc| - 1];
      assert doc[..|doc| - 1][1..] == doc[1..|doc| - 1];
      LineText(doc[0], fmt) + BR + Render(doc[1..], fmt)
  }

  /** The text of the netlist the script writes, when it writes one. */
  function NetlistText(c: Config, fmt: real -> string): Option<string> {
    match Document(c)
    case None => None
    case Some(d) => Some(Render(d, fmt))
  }

  // ---------------------------------------------------------------------------
  // Reading the lines back

  /** Splits at every CR, dropping the character after it (the LF of BR). */
  function SplitLines(s: string): seq<string>
    decreases |s|
  {
    var j := Find(s, '\r');
    if j == |s| then [s]
    else [s[..j]] + SplitLines(if j + 2 <= |s| then s[j + 2..] else "")
  }

  /** The line texts of a document, one per line. */
  function Texts(doc: seq<Line>, fmt: real -> string): (r: seq<string>)
    ensures |r| == |doc| && forall j :: 0 <= j < |doc| ==> r[j] == LineText(doc[j], fmt)
  {
    if doc == [] then [] else [LineText(doc[0], fmt)] + Texts(doc[1..], fmt)
  }

  /** No line of `doc` carries a CR of its own. */
  predicate SingleLines(doc: seq<Line>, fmt: real -> string) {
    forall j :: 0 <= j < |doc| ==> '\r' !in LineText(doc[j], fmt)
  }

  lemma FindAfter(a: string, rest: string, c: char)
    requires c !in a && |rest| >= 1 && rest[0] == c
    ensures Find(a + rest, c) == |a|
  {
    var s := a + rest;
    assert s[|a|] == c;
    assert forall i :: 0 <= i < |a| ==> s[i] == a[i];
  }

  lemma FindNone(a: string, c: char)
    requires c !in a
    ensures Find(a, c) == |a|
  {
  }

  /** When no line carries a CR of its own, splitting the text at BR gives back the lines. */
  lemma {:induction false} SplitRender(doc: seq<Line>, fmt: real -> string)
    requires |doc| >= 1 && SingleLines(doc, fmt)
    ensures SplitLines(Render(doc, fmt)) == Texts(doc, fmt)
  {
    var t := LineText(doc[0], fmt);
    if |doc| == 1 {
      FindNone(t, '\r');
    } else {
      var rest := Render(doc[1..], fmt);
      assert Render(doc, fmt) == t + BR + rest;
      SplitStep(t, rest);
      SingleLinesTail(doc, fmt);
      SplitRender(doc[1..], fmt);
      assert Texts(doc, fmt) == [t] + Texts(doc[1..], fmt);
    }
  }

  /** Splitting a CR-free line followed by BR yields that line, then the splitting of the rest. */
  lemma SplitStep(t: string, rest: string)
    requires '\r' !in t
    ensures SplitLines(t + BR + rest) == [t] + SplitLines(rest)
  {
    var s := t + BR + rest;
    assert s == t + (BR + rest);
    FindAfter(t, BR + rest, '\r');
    assert s[..|t|] == t && s[|t| + 2..] == rest;
  }

  lemma SingleLinesTail(doc: seq<Line>, fmt: real -> string)
    requires |doc| >= 1 && SingleLines(doc, fmt)
    ensures SingleLines(doc[1..], fmt)
  {
    forall j | 0 <= j < |doc[1..]| ensures '\r' !in LineText(doc[1..][j], fmt) {
      assert doc[1..][j] == doc[j + 1];
    }
  }

  /** Every line's text followed by BR. */
  function Terminated(doc: seq<Line>, fmt: real -> string): string {
    if doc == [] then "" else LineText(doc[0], fmt) + BR + Terminated(doc[1..], fmt)
  }

  /** The netlist text ends with `.end` and no line break after it. */
  lemma NetlistEnds(c: Config, fmt: real -> string)
    requires c.stages >= 1
    ensures NetlistText(c, fmt).Some?
    ensures var t := NetlistText(c, fmt).value;
      |t| >= 4 && t[|t| - 4..] == ".end"
  {
    DocumentLayout(c);
    var d := Document(c).value;
    assert d[|d| - 1] == End;
  }

  /** A line carries no CR of its own when the texts it copies and the printed numbers carry none. */
  lemma LineSingle(l: Line, fmt: real -> string)
    requires forall x :: '\r' !in fmt(x)
    requires l.Title? ==> '\r' !in l.text
    requires l.Stimulus? && l.s.Direct? ==> '\r' !in l.s.text
    ensures '\r' !in LineText(l, fmt)
  {
    match l
    case Part(e) =>
      NamesHaveNoSpace(e.name, e.p);
      NamesHaveNoSpace(e.name, e.q);
      ElementSingle(e, fmt);
    case Stimulus(src) =>
      SourceSingle(src, fmt);
    case _ =>
  }

  lemma ElementSingle(e: Element, fmt: real -> string)
    requires '\r' !in fmt(e.value)
    requires '\r' !in DesignatorName(e.name) && '\r' !in NodeName(e.p) && '\r' !in NodeName(e.q)
    ensures '\r' !in ElementText(e, fmt)
  {
  }

  lemma SourceSingle(src: Source, fmt: real -> string)
    requires forall x :: '\r' !in fmt(x)
    requires src.Direct? ==> '\r' !in src.text
    ensures '\r' !in SourceText(src, fmt)
  {
  }

  /**
   * When the title, a direct SOURCE_TEXT and the printed numbers hold no CR,
   * splitting the netlist text at BR gives back its lines one by one.
   */
  lemma NetlistLines(c: Config, fmt: real -> string)
    requires c.stages >= 1
    requires '\r' !in c.title && (c.sourceType == "direct" ==> '\r' !in c.sourceText)
    requires forall x :: '\r' !in fmt(x)
    ensures NetlistText(c, fmt).Some?
    ensures SplitLines(NetlistText(c, fmt).value) == Texts(Document(c).value, fmt)
  {
    DocumentLines(c);
    var d := Document(c).value;
    forall j | 0 <= j < |d| ensures '\r' !in LineText(d[j], fmt) {
      assert d[j] in d;
      LineSingle(d[j], fmt);
    }
    SplitRender(d, fmt);
  }

  // ---------------------------------------------------------------------------
  // Reading an element line back

  /** The whitespace-separated fields of `s`: runs of spaces separate, empty fields are dropped. */
  function Fields(s: string): seq<string>
    decreases |s|
  {
    if s == [] then []
    else if s[0] == ' ' then Fields(s[1..])
    else
      var j := Find(s, ' ');
      [s[..j]] + Fields(s[j..])
  }

  lemma FieldsPrefix(a: string, rest: string)
    requires a != [] && ' ' !in a && (rest == [] || rest[0] == ' ')
    ensures Fields(a + rest) == [a] + Fields(rest)
  {
    var s := a + rest;
    if rest == [] {
      FindNone(a, ' ');
      assert s == a && s[|a|..] == [];
    } else {
      FindAfter(a, rest, ' ');
      assert s[..|a|] == a && s[|a|..] == rest;
    }
  }

  lemma FieldsPastSpaces(gap: string, rest: string)
    requires gap == " " || gap == "  "
    ensures Fields(gap + rest) == Fields(rest)
  {
    var s := gap + rest;
    assert s[1..] == gap[1..] + rest;
    if gap == "  " {
      assert (" " + rest)[1..] == rest;
    }
  }

  lemma NamesHaveNoSpace(d: Designator, x: Node)
    ensures DesignatorName(d) != [] && ' ' !in DesignatorName(d) && '\r' !in DesignatorName(d)
    ensures NodeName(x) != [] && ' ' !in NodeName(x) && '\r' !in NodeName(x)
  {
    assert !IsDigit(' ') && !IsDigit('\r');
  }

  /** The four fields of an element line: designator, nodes, printed value. */
  datatype Record = Record(name: Designator, p: Node, q: Node, value: string)

  function ParseElement(s: string): Option<Record> {
    var f := Fields(s);
    if |f| != 4 then None
    else
      match (ParseDesignator(f[0]), ParseNode(f[1]), ParseNode(f[2]))
      case (Some(d), Some(p), Some(q)) => Some(Record(d, p, q, f[3]))
      case _ => None
  }

  predicate OneField(a: string) {
    a != [] && ' ' !in a
  }

  lemma FourFields(n: string, p: string, gap: string, q: string, v: string)
    requires OneField(n) && OneField(p) && OneField(q) && OneField(v)
    requires gap == " " || gap == "  "
    ensures Fields(n + " " + p + gap + q + " " + v) == [n, p, q, v]
  {
    Reassociate(n, " ", p, gap, q, " ", v);
    FourFieldsNested(n, p, gap, q, v);
  }

  lemma FourFieldsNested(n: string, p: string, gap: string, q: string, v: string)
    requires OneField(n) && OneField(p) && OneField(q) && OneField(v)
    requires gap == " " || gap == "  "
    ensures Fields(n + (" " + (p + (gap + (q + (" " + v)))))) == [n, p, q, v]
  {
    var tail := q + (" " + v);
    LastTwoFields(q, v);
    FieldThenGap(p, gap, tail);
    FieldThenGap(n, " ", p + (gap + tail));
  }

  lemma LastTwoFields(q: string, v: string)
    requires OneField(q) && OneField(v)
    ensures Fields(q + (" " + v)) == [q, v]
  {
    FieldThenGap(q, " ", v);
    FieldsPrefix(v, []);
    assert v + [] == v;
  }

  lemma Reassociate<T>(a: seq<T>, b: seq<T>, c: seq<T>, d: seq<T>, e: seq<T>, f: seq<T>, g: seq<T>)
    ensures a + b + c + d + e + f + g == a + (b + (c + (d + (e + (f + g)))))
  {
  }

  lemma FieldThenGap(a: string, gap: string, rest: string)
    requires OneField(a) && (gap == " " || gap == "  ")
    ensures Fields(a + (gap + rest)) == [a] + Fields(rest)
  {
    FieldsPrefix(a, gap + rest);
    FieldsPastSpaces(gap, rest);
  }

  lemma FindInPrefix(x: string, y: string, c: char)
    requires Find(x, c) < |x|
    ensures Find(x + y, c) == Find(x, c)
  {
    var j, k := Find(x, c), Find(x + y, c);
    assert (x + y)[j] == c;
    if k < j {
      assert (x + y)[k] == x[k];
    }
  }

  /** Where a space separates `x` from `y`, the fields of `x + y` are those of `x`, then those of `y`. */
  lemma {:induction false} FieldsAppend(x: string, y: string)
    requires x == [] || y == [] || x[|x| - 1] == ' ' || y[0] == ' '
    ensures Fields(x + y) == Fields(x) + Fields(y)
    decreases |x|
  {
    if x == [] {
      assert x + y == y;
    } else if x[0] == ' ' {
      FieldsAppend(x[1..], y);
      LeadingSpaceStep(x, y);
    } else if Find(x, ' ') < |x| {
      var j := Find(x, ' ');
      FieldsAppend(x[j..], y);
      FirstFieldStep(x, y, j);
    } else {
      NoSpaceStep(x, y);
    }
  }

  lemma LeadingSpaceStep(x: string, y: string)
    requires x != [] && x[0] == ' '
    requires Fields(x[1..] + y) == Fields(x[1..]) + Fields(y)
    ensures Fields(x + y) == Fields(x) + Fields(y)
  {
    assert (x + y)[1..] == x[1..] + y;
  }

  lemma FirstFieldStep(x: string, y: string, j: nat)
    requires x != [] && x[0] != ' ' && j == Find(x, ' ') && j < |x|
    requires Fields(x[j..] + y) == Fields(x[j..]) + Fields(y)
    ensures Fields(x + y) == Fields(x) + Fields(y)
  {
    FindInPrefix(x, y, ' ');
    assert (x + y)[..j] == x[..j] && (x + y)[j..] == x[j..] + y;
  }

  lemma NoSpaceStep(x: string, y: string)
    requires x != [] && Find(x, ' ') == |x| && (y == [] || y[0] == ' ')
    ensures Fields(x + y) == Fields(x) + Fields(y)
  {
    assert ' ' !in x;
    assert Fields(x) == [x] by {
      FieldsPrefix(x, []);
      assert x + [] == x;
    }
    if y == [] {
      assert x + y == x && Fields(y) == [];
    } else {
      FieldsPrefix(x, y);
    }
  }

  /** A word followed by a space is that one field. */
  lemma WordSpace(w: string)
    requires OneField(w)
    ensures Fields(w + " ") == [w]
  {
    FieldsPrefix(w, " ");
    assert Fields(" ") == [];
  }

  /** Four words, each followed by a space, are those four fields. */
  lemma WordsSpaced(w1: string, w2: string, w3: string, w4: string)
    requires OneField(w1) && OneField(w2) && OneField(w3) && OneField(w4)
    ensures Fields(w1 + " " + w2 + " " + w3 + " " + w4 + " ") == [w1, w2, w3, w4]
  {
    assert Fields(w1) == [w1] by {
      FieldsPrefix(w1, []);
      assert w1 + [] == w1;
    }
    Step(w1, [w1], w2);
    Step(w1 + " " + w2, [w1] + [w2], w3);
    Step(w1 + " " + w2 + " " + w3, [w1] + [w2] + [w3], w4);
    ThenSpace(w1 + " " + w2 + " " + w3 + " " + w4);
    assert [w1] + [w2] + [w3] + [w4] == [w1, w2, w3, w4];
  }

  lemma SineHead()
    ensures Fields("V1 1 0 SINE(0 ") == ["V1", "1", "0", "SINE(0"]
  {
    assert "V1 1 0 SINE(0 " == "V1" + " " + "1" + " " + "0" + " " + "SINE(0" + " ";
    WordsSpaced("V1", "1", "0", "SINE(0");
  }

  lemma PulseHead()
    ensures Fields("V1 1 0 PULSE(0 ") == ["V1", "1", "0", "PULSE(0"]
  {
    assert "V1 1 0 PULSE(0 " == "V1" + " " + "1" + " " + "0" + " " + "PULSE(0" + " ";
    WordsSpaced("V1", "1", "0", "PULSE(0");
  }

  lemma ZerosFields()
    ensures Fields(" 0 0 ") == ["0", "0"]
  {
    assert " 0 0 " == " " + ("0" + " " + ("0" + " "));
    WordSpace("0");
    FieldsAppend("0 ", "0 ");
    FieldsAppend(" ", "0 0 ");
    assert Fields(" ") == [];
  }

  /** A space appended adds no field and leaves the text ending in a space. */
  lemma ThenSpace(x: string)
    ensures Fields(x + " ") == Fields(x)
    ensures (x + " ")[|x + " "| - 1] == ' '
  {
    FieldsAppend(x, " ");
    assert Fields(" ") == [];
  }

  /** A field written after a space is one more field. */
  lemma ThenField(x: string, w: string)
    requires x != [] && x[|x| - 1] == ' ' && OneField(w)
    ensures Fields(x + w) == Fields(x) + [w]
  {
    FieldsAppend(x, w);
    FieldsPrefix(w, []);
    assert w + [] == w;
  }

  /** One more field after a space. */
  lemma Step(x: string, fs: seq<string>, w: string)
    requires Fields(x) == fs && OneField(w)
    ensures Fields(x + " " + w) == fs + [w]
  {
    ThenSpace(x);
    ThenField(x + " ", w);
  }

  /** The SINE line reads back as its ten fields, the printed values among them. */
  lemma SineFields(a: string, f: string, d: string, n: string)
    ensures OneField(a) && OneField(f) && OneField(d) && OneField(n) ==>
      Fields("V1 1 0 SINE(0 " + a + " " + f + " " + d + " 0 0 " + n + ")")
        == ["V1", "1", "0", "SINE(0", a, f, d, "0", "0", n + ")"]
  {
    if OneField(a) && OneField(f) && OneField(d) && OneField(n) {
      var head := "V1 1 0 SINE(0 ";
      var h := ["V1", "1", "0", "SINE(0"];
      assert Fields(head + a) == h + [a] by {
        SineHead();
        ThenField(head, a);
      }
      assert Fields(head + a + " " + f + " " + d) == h + [a] + [f] + [d] by {
        Step(head + a, h + [a], f);
        Step(head + a + " " + f, h + [a] + [f], d);
      }
      ZerosTail(head + a + " " + f + " " + d, h + [a] + [f] + [d], n);
      assert h + [a] + [f] + [d] + ["0", "0"] + [n + ")"] == ["V1", "1", "0", "SINE(0", a, f, d, "0", "0", n + ")"];
    }
  }

  /** ` 0 0 ` and a last field closed by `)`. */
  lemma ZerosTail(x: string, fs: seq<string>, n: string)
    requires Fields(x) == fs && OneField(n)
    ensures Fields(x + " 0 0 " + n + ")") == fs + ["0", "0"] + [n + ")"]
  {
    var zeros := x + " 0 0 ";
    FieldsAppend(x, " 0 0 ");
    ZerosFields();
    assert zeros[|zeros| - 1] == ' ';
    assert zeros + n + ")" == zeros + (n + ")");
    ThenField(zeros, n + ")");
  }

  /** The PULSE line reads back as its ten fields, the printed values among them. */
  lemma PulseFields(a: string, d: string, r: string, f: string, w: string, n: string)
    ensures OneField(a) && OneField(d) && OneField(r) && OneField(f) && OneField(w) && OneField(n) ==>
      Fields("V1 1 0 PULSE(0 " + a + " " + d + " " + r + " " + f + " " + w + " " + n + ")")
        == ["V1", "1", "0", "PULSE(0", a, d, r, f, w, n + ")"]
  {
    if OneField(a) && OneField(d) && OneField(r) && OneField(f) && OneField(w) && OneField(n) {
      var head := "V1 1 0 PULSE(0 ";
      var h := ["V1", "1", "0", "PULSE(0"];
      assert Fields(head + a) == h + [a] by {
        PulseHead();
        ThenField(head, a);
      }
      var x := head + a + " " + d + " " + r;
      assert Fields(x) == h + [a] + [d] + [r] by {
        Step(head + a, h + [a], d);
        Step(head + a + " " + d, h + [a] + [d], r);
      }
      var y := x + " " + f + " " + w;
      assert Fields(y) == h + [a] + [d] + [r] + [f] + [w] by {
        Step(x, h + [a] + [d] + [r], f);
        Step(x + " " + f, h + [a] + [d] + [r] + [f], w);
      }
      assert Fields(y + " " + n + ")") == h + [a] + [d] + [r] + [f] + [w] + [n + ")"] by {
        assert y + " " + n + ")" == y + " " + (n + ")");
        Step(y, h + [a] + [d] + [r] + [f] + [w], n + ")");
      }
      assert h + [a] + [d] + [r] + [f] + [w] + [n + ")"] == ["V1", "1", "0", "PULSE(0", a, d, r, f, w, n + ")"];
    }
  }

  /**
   * An element line, one space or two before its second node, reads back
   * as its designator, its two nodes and the printed value, whenever the
   * printed value is one non-empty field.
   */
  lemma ElementRoundTrip(e: Element, fmt: real -> string)
    requires OneField(fmt(e.value))
    ensures ParseElement(ElementText(e, fmt)) == Some(Record(e.name, e.p, e.q, fmt(e.value)))
  {
    DesignatorRoundTrip(e.name);
    NodeNameRoundTrip(e.p);
    NodeNameRoundTrip(e.q);
  }
}
