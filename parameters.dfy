/**
 * The script's configuration constants and the derivation of per-stage
 * element values from per-metre constants (lc_circuit_autogen.py, lines 19-99).
 */
module Parameters {
  import opened Opt

  /** The constants the netlist generator reads. Values are exact reals. */
  datatype Config = Config(
    title: string,            // NETLIST_NAME
    lsPerMeter: real,         // LS_PER_METER
    csPerMeter: real,         // CS_PER_METER
    rsPerMeter: real,         // RS_PER_METER
    gpPerMeter: real,         // GP_PER_METER
    cpPerMeter: real,         // CP_PER_METER
    length: real,             // LENGTH
    stages: nat,              // N_STAGES
    lineType: string,         // LINE_TYPE
    sourceType: string,       // SOURCE_TYPE
    sourceText: string,       // SOURCE_TEXT
    vSource: real,            // V_SOURCE
    fSource: real,            // F_SOURCE
    tStart: real,             // T_START_SOURCE
    tEnd: real,               // T_END_SOURCE
    tRise: real,              // T_RISE_SOURCE
    tFall: real,              // T_FALL_SOURCE
    nCycles: real,            // N_CYCLES_SOURCE
    rSource: real,            // R_SOURCE
    rLoad: real,              // R_LOAD
    tSim: real)               // T_SIM

  /** The five per-stage values LS, CS, RS, GP and CP of one ladder stage. */
  datatype StageValues = StageValues(ls: real, cs: real, rs: real, gp: real, cp: real)

  /** Python's truth value of a string: every non-empty string is true. */
  predicate Truthy(s: string) {
    s != ""
  }

  /**
   * The first test of the `if/elif` chain exactly as written:
   * `LINE_TYPE == 'LC-ladder' or 'CL-ladder'`, whose right operand is the
   * non-empty literal itself rather than a comparison.
   */
  predicate FirstTestAsWritten(lineType: string) {
    lineType == "LC-ladder" || Truthy("CL-ladder")
  }

  /** Per-metre values times LENGTH, series ones over `seriesDiv`, shunt ones over `shuntDiv`. */
  function Scaled(c: Config, seriesDiv: int, shuntDiv: int): StageValues
    requires seriesDiv != 0 && shuntDiv != 0
  {
    StageValues(
      c.lsPerMeter * c.length / seriesDiv as real,
      c.csPerMeter * c.length / seriesDiv as real,
      c.rsPerMeter * c.length / seriesDiv as real,
      c.gpPerMeter * c.length / shuntDiv as real,
      c.cpPerMeter * c.length / shuntDiv as real)
  }

  /**
   * The shunt divisor the `if/elif` chain selects, as written. The series
   * values are divided by N_STAGES in every branch. 0 stands for "no branch
   * taken", after which the per-stage names would be undefined.
   */
  function ShuntDivisorAsWritten(lineType: string, n: nat): int {
    if FirstTestAsWritten(lineType) then n
    else if lineType == "T-type" then n - 1
    else if lineType == "pi-type" then n + 1
    else 0
  }

  /**
   * The per-stage values as the script computes them. `None` is the
   * ZeroDivisionError that `N_STAGES == 0` raises at the first division.
   * The first test is always true, so every value is over N_STAGES.
   */
  function PerStage(c: Config): (r: Option<StageValues>)
    ensures r == if c.stages == 0 then None else Some(Scaled(c, c.stages, c.stages))
  {
    assert FirstTestAsWritten(c.lineType);
    var d := ShuntDivisorAsWritten(c.lineType, c.stages);
    if c.stages == 0 || d == 0 then None else Some(Scaled(c, c.stages, d))
  }

  /**
   * Whatever LINE_TYPE says, every per-stage value is its per-metre value
   * times LENGTH over N_STAGES: the `(N_STAGES - 1)` and `(N_STAGES + 1)`
   * branches are never taken.
   */
  lemma DivisorAsWritten(c: Config)
    ensures c.stages == 0 <==> PerStage(c).None?
    ensures PerStage(c).Some? ==>
      var v, n := PerStage(c).value, c.stages as real;
      && v.ls == c.lsPerMeter * c.length / n
      && v.cs == c.csPerMeter * c.length / n
      && v.rs == c.rsPerMeter * c.length / n
      && v.gp == c.gpPerMeter * c.length / n
      && v.cp == c.cpPerMeter * c.length / n
  {
    assert FirstTestAsWritten(c.lineType);
  }

  /** Changing only LINE_TYPE never changes the per-stage values. */
  lemma PerStageIgnoresLineType(c: Config, lineType: string)
    ensures PerStage(c.(lineType := lineType)) == PerStage(c)
  {
    assert FirstTestAsWritten(c.lineType) && FirstTestAsWritten(lineType);
    if c.stages >= 1 {
      assert Scaled(c.(lineType := lineType), c.stages, c.stages) == Scaled(c, c.stages, c.stages);
    }
  }

  /**
   * A per-stage value is zero exactly when its per-metre value or LENGTH is:
   * the generator's `!= 0` tests are tests on the configuration.
   */
  lemma ZeroTests(c: Config)
    requires c.stages >= 1
    ensures PerStage(c).Some?
    ensures PerStage(c).value.rs == 0.0 <==> c.rsPerMeter == 0.0 || c.length == 0.0
    ensures PerStage(c).value.cs == 0.0 <==> c.csPerMeter == 0.0 || c.length == 0.0
    ensures PerStage(c).value.gp == 0.0 <==> c.gpPerMeter == 0.0 || c.length == 0.0
  {
    assert FirstTestAsWritten(c.lineType);
    var n := c.stages as real;
    ZeroQuotient(c.rsPerMeter, c.length, n);
    ZeroQuotient(c.csPerMeter, c.length, n);
    ZeroQuotient(c.gpPerMeter, c.length, n);
  }

  lemma ZeroQuotient(x: real, y: real, n: real)
    requires n > 0.0
    ensures x * y / n == 0.0 <==> x == 0.0 || y == 0.0
  {
    if x * y / n == 0.0 {
      assert x * y == (x * y / n) * n;
    }
  }

  // ---------------------------------------------------------------------------
  // The four-way divisor the branches at lines 88-99 were evidently meant to give

  predicate KnownLineType(lineType: string) {
    lineType in {"LC-ladder", "CL-ladder", "T-type", "pi-type"}
  }

  /**
   * The intended shunt divisor: N for the two ladders, N - 1 for `T-type`
   * (no boundary shunt), N + 1 for `pi-type` (shunts at both boundaries).
   * It counts the shunt capacitors the stage loop places: one per stage
   * boundary between stages, plus the one in front of the first stage
   * (CL-ladder, pi-type) and the one after the last (LC-ladder, pi-type).
   */
  function IntendedShuntDivisor(lineType: string, n: nat): (d: int)
    requires KnownLineType(lineType)
    ensures d == n - 1
      + (if lineType == "LC-ladder" || lineType == "pi-type" then 1 else 0)
      + (if lineType == "CL-ladder" || lineType == "pi-type" then 1 else 0)
  {
    if lineType == "T-type" then n - 1
    else if lineType == "pi-type" then n + 1
    else n
  }

  /**
   * The per-stage values under a true four-way dispatch. `None` for an
   * unknown LINE_TYPE and for a zero divisor (N = 0, or `T-type` with N = 1).
   * The series values of all N stages, and the shunt values of all the
   * shunt positions, add back up to the line's per-metre value times LENGTH.
   */
  function IntendedPerStage(c: Config): (r: Option<StageValues>)
    ensures r.Some? <==>
      KnownLineType(c.lineType) && c.stages >= 1 && !(c.lineType == "T-type" && c.stages == 1)
    ensures r.Some? ==> AddsUp(r.value, c, c.stages, IntendedShuntDivisor(c.lineType, c.stages))
  {
    if !KnownLineType(c.lineType) || c.stages == 0 then None
    else
      var d := IntendedShuntDivisor(c.lineType, c.stages);
      if d == 0 then None
      else
        ScaledTotals(c, c.stages, d);
        Some(Scaled(c, c.stages, d))
  }

  /**
   * `v` is a share of the line: each series value taken `seriesDiv` times,
   * and each shunt value taken `shuntDiv` times, is its per-metre value
   * times LENGTH.
   */
  predicate AddsUp(v: StageValues, c: Config, seriesDiv: int, shuntDiv: int) {
    var n, d := seriesDiv as real, shuntDiv as real;
    && v.ls * n == c.lsPerMeter * c.length
    && v.cs * n == c.csPerMeter * c.length
    && v.rs * n == c.rsPerMeter * c.length
    && v.gp * d == c.gpPerMeter * c.length
    && v.cp * d == c.cpPerMeter * c.length
  }

  /** Values over `seriesDiv` and `shuntDiv`, multiplied back, give the line totals. */
  lemma ScaledTotals(c: Config, seriesDiv: int, shuntDiv: int)
    requires seriesDiv != 0 && shuntDiv != 0
    ensures AddsUp(Scaled(c, seriesDiv, shuntDiv), c, seriesDiv, shuntDiv)
  {
    var v := Scaled(c, seriesDiv, shuntDiv);
    PartTimesDivisor(v.ls, c.lsPerMeter * c.length, seriesDiv);
    PartTimesDivisor(v.cs, c.csPerMeter * c.length, seriesDiv);
    PartTimesDivisor(v.rs, c.rsPerMeter * c.length, seriesDiv);
    PartTimesDivisor(v.gp, c.gpPerMeter * c.length, shuntDiv);
    PartTimesDivisor(v.cp, c.cpPerMeter * c.length, shuntDiv);
  }

  lemma PartTimesDivisor(part: real, whole: real, d: int)
    requires d != 0 && part == whole / d as real
    ensures part * d as real == whole
  {
    TimesDivisor(whole, d as real);
  }

  lemma TimesDivisor(x: real, d: real)
    requires d != 0.0
    ensures x / d * d == x
  {
  }
}
