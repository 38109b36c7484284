# LC ladder netlist synthesiser, in Dafny

`lc_circuit_autogen.py` builds an LTspice netlist for an N-stage LC ladder.
The ladder models a transmission line of length LENGTH. The script runs
LTspice on that netlist, reads back the node voltages and inductor currents,
and animates them. This project models the synthesiser and the
signal-name mapping and proves what they do:

- the per-stage values, derived from per-metre constants, exactly as the
  `if/elif` chain at lines 82-99 computes them (module `Parameters`);
- node numbers, synthetic nodes and element designators, and how each is
  printed, with parsers that read them back (`Decimal`, `Circuit`);
- the stage loop at lines 119-148 as a method that appends element records
  stage by stage, proved equal to a stage-by-stage specification (`Ladder`);
- what that network holds (`LadderFacts`): exactly which elements, in what
  order, how many of each kind, where the shunts sit, which zero-valued
  elements are left out, which nodes are used, and the total shunt capacitance;
- the whole netlist: title, source block, `RS`, network, `RL`, `.tran`,
  `.backanno`, `.end` (`Netlist`). It proves the layout, that designators
  are distinct among the element records the generator writes (`RS`, the
  network, `RL`), and that every node those records use is connected to the
  source node 1; the stimulus line is outside these two facts, since a direct
  SOURCE_TEXT may carry any designator and node;
- the netlist text, with lines joined by CRLF and nothing after `.end`. Proved:
  splitting the text at CRLF gives back the lines, and every element line
  reads back as its designator and nodes (`Serialize`);
- the waveforms read after the simulation: `V(1)`, `V(2)` .. `V(N+2)`,
  `I(L1)` .. `I(LN)`, and the node and branch positions (`Signals`);
- the generator the two defective lines 82 and 125 evidently meant, next to
  the behaviour as written (`Intended`).

The netlist model follows the code as written. Both defects are kept:

- At line 82 the test `LINE_TYPE == 'LC-ladder' or 'CL-ladder'` is always
  true, so every variant divides by N_STAGES.
- At line 125, `=` replaces the buffer. So `C0` is lost for CL-ladder and
  pi-type when GP != 0.

`N_STAGES = 0` raises ZeroDivisionError at line 83, before any netlist is
built. The model gives `None` there. An unknown LINE_TYPE or SOURCE_TYPE is
accepted silently, as in the code. The code has no error values for a bad
topology or parameter. The model follows the code here, not a design that
would reject such input.

Element values are exact reals. Printing a number is a parameter
`fmt: real -> string` of the serialiser. The simulator's result file is a
parameter `getData: string -> W` of `Signals.ReadWaveforms`.

## Model

| member | source | states |
|---|---|---|
| Decimal.RoundTrip | lc_circuit_autogen.py:123-151 | the decimal text printed for a node or stage number reads back as that number |
| Circuit.NodeNamesUnique | lc_circuit_autogen.py:129-130 | two nodes print the same exactly when they are the same node; a synthetic `{a}m{b}` never prints like an integer node |
| Circuit.NodeNameRoundTrip | lc_circuit_autogen.py:129-130 | every printed node, integer or `{a}m{b}`, parses back to itself |
| Circuit.DesignatorRoundTrip | lc_circuit_autogen.py:123-151 | every designator `L{k}`, `R{k}`, `C{k}S`, `C{k}`, `R{k}P`, `RS`, `RL` parses back to itself |
| Circuit.DesignatorNamesUnique | lc_circuit_autogen.py:123-151 | two designators print the same exactly when they are equal |
| Parameters.PerStage | lc_circuit_autogen.py:82-99 | the `if/elif` chain as written collapses to: no values when N_STAGES = 0, otherwise every value over N_STAGES |
| Parameters.DivisorAsWritten | lc_circuit_autogen.py:82-99 | the values exist iff N_STAGES != 0; each is per-metre value times LENGTH over N_STAGES, whatever LINE_TYPE is |
| Parameters.PerStageIgnoresLineType | lc_circuit_autogen.py:82-99 | changing only LINE_TYPE never changes the per-stage values |
| Parameters.ZeroTests | lc_circuit_autogen.py:83-87 | RS, CS and GP per stage are zero exactly when their per-metre value or LENGTH is zero |
| Parameters.IntendedShuntDivisor | lc_circuit_autogen.py:82-99 | the intended divisor of each variant (N, N, N-1, N+1) is the number of shunt capacitors the stage loop places: N-1 between stages, plus one before the first stage for CL-ladder and pi-type (line 122) and one after the last for LC-ladder and pi-type (line 143) |
| Parameters.IntendedPerStage | lc_circuit_autogen.py:82-99 | the four-way dispatch gives values exactly for a known LINE_TYPE with N >= 1, except T-type with one stage; then LS, CS and RS taken N times, and GP and CP taken divisor times, give back each per-metre value times LENGTH |
| Ladder.BuildLadder | lc_circuit_autogen.py:119-148 | the loop's buffer after N stages is the concatenation of the blocks of stages 0..N-1 |
| Ladder.FirstStageShunt | lc_circuit_autogen.py:121-125 | at stage 0, CL-ladder and pi-type leave `C0`, or only `R0P` when GP != 0; other stages and variants append nothing |
| Ladder.SeriesSection | lc_circuit_autogen.py:127-134 | appends `R{i+1}` and `L{i+1}` via the synthetic node, or `L{i+1}` alone, then `C{i+1}S` when CS != 0 |
| Ladder.IntermediateShunt | lc_circuit_autogen.py:136-140 | at every stage but the last, appends `C{i+1}` and, when GP != 0, `R{i+1}P` |
| Ladder.FinalStageShunt | lc_circuit_autogen.py:142-146 | at the last stage of LC-ladder and pi-type, appends the wide-gap `C{N}` and, when GP != 0, `R{N}P` |
| LadderFacts.LadderExactly | lc_circuit_autogen.py:119-148 | an element is in the network iff the independent per-designator description lists it |
| LadderFacts.NetworkOrderedAndDistinct | lc_circuit_autogen.py:119-148 | elements appear stage by stage and no designator is used twice |
| LadderFacts.NetworkCounts | lc_circuit_autogen.py:119-148 | N inductors; N or 0 series resistors and series capacitors; shunt capacitors and resistors per variant, GP and the overwrite; no RS or RL |
| LadderFacts.ShuntCapacitorTotals | lc_circuit_autogen.py:122-123 | with GP = 0 the shunt capacitors number N, N, N-1, N+1 for LC, CL, T, pi |
| LadderFacts.ThreeStagePi | lc_circuit_autogen.py:137-144 | three pi-type stages without RS and GP: 4 shunt capacitors, 3 inductors, no resistor |
| LadderFacts.ThreeStageT | lc_circuit_autogen.py:137-144 | three T-type stages: 2 shunt capacitors, 3 inductors |
| LadderFacts.SeriesBlockPerStage | lc_circuit_autogen.py:127-132 | stage i writes one `L{i+1}` ending at node i+3, starting at node i+2 or, when RS != 0, at `{i+2}m{i+3}` after `R{i+1}` |
| LadderFacts.ZeroOmission | lc_circuit_autogen.py:124-146 | `C{k}S` across nodes k+1, k+2 exists for every stage iff CS != 0; no shunt resistor when GP = 0; no optional element is zero-valued |
| LadderFacts.ShuntPlacement | lc_circuit_autogen.py:122-144 | `C{k}` exists exactly at the interior nodes, node N+2 for LC and pi, node 2 for CL and pi when GP = 0; each from node k+2 to ground |
| LadderFacts.ShuntPairing | lc_circuit_autogen.py:124-146 | with GP != 0 every `C{k}` has its `R{k}P` at the same node, of value 1/GP; with GP = 0 there is none |
| LadderFacts.OverwriteDropsC0 | lc_circuit_autogen.py:122-125 | CL-ladder and pi-type with GP != 0: the network starts with `R0P 2 0 1/GP` and holds no `C0` |
| LadderFacts.NetworkNodes | lc_circuit_autogen.py:120-146 | the network uses only ground, nodes 2..N+2 and, when RS != 0, `{a}m{a+1}`, and uses every one of them except ground, which a one-stage T-type (or unknown-variant) network does not touch |
| LadderFacts.NetworkCapacitanceTotal | lc_circuit_autogen.py:122-144 | the shunt capacitance is CP per stage times the number of shunt capacitors |
| Intended.ShuntTotalAsWritten | lc_circuit_autogen.py:82-99 | as written, with GP = 0 the line's shunt capacitance is CP*LENGTH times the number of shunt positions over N |
| Intended.ShuntPositionsByVariant | lc_circuit_autogen.py:122-144 | the shunt positions are N, N, N-1 and N+1 for LC, CL, T and pi; the network's shunt capacitors plus the `C0` dropped at line 125 fill exactly those positions |
| Intended.PositionsAreDivisor | lc_circuit_autogen.py:88-99 | for each of the four variants the intended divisor equals the number of shunt positions |
| Intended.ThreeStageTShort | lc_circuit_autogen.py:82-93 | three T-type stages as written carry 2/3 of CP*LENGTH; the four-way divisor gives all of it |
| Intended.IntendedCapacitance | lc_circuit_autogen.py:122-125 | with `+=` at line 125 every shunt position carries one capacitor of CP, whatever GP is |
| Intended.IntendedShuntTotal | lc_circuit_autogen.py:88-99 | with the four-way divisor and `+=` at line 125 the shunt capacitance is CP*LENGTH for every variant and every GP |
| Intended.IntendedShuntPairing | lc_circuit_autogen.py:122-125 | with `+=` at line 125, every shunt capacitor has its resistor and the other way round, in equal numbers |
| Netlist.SourceLines | lc_circuit_autogen.py:104-112 | one stimulus line for `sine`, `pulse` and `direct`, none otherwise; the sine carries V_SOURCE, the pulse width is T_END - T_START, direct is SOURCE_TEXT |
| Netlist.Synthesize | lc_circuit_autogen.py:101-156 | the netlist buffer grown block by block is the reference document, or `None` when the division fails |
| Netlist.DocumentDefined | lc_circuit_autogen.py:82-83 | a netlist exists exactly when N_STAGES >= 1 |
| Netlist.DocumentLayout | lc_circuit_autogen.py:101-156 | title, then exactly the source block (one line for sine, pulse and direct, none otherwise), `RS`, the network, `RL {N+2} 0`, `.tran`, `.backanno`, `.end` |
| Netlist.DocumentLines | lc_circuit_autogen.py:101-156 | every line is the title, the source block, an element or the trailer |
| Netlist.DocumentElements | lc_circuit_autogen.py:114-152 | the element records of the netlist are RS, the network in loop order, and RL |
| Netlist.CircuitryNamesDistinct | lc_circuit_autogen.py:114-151 | no designator appears twice among the element records the generator writes (RS, the network, RL) |
| Netlist.CircuitryConnected | lc_circuit_autogen.py:114-151 | every node used by the element records the generator writes (RS, the network, RL) is joined to source node 1 by a chain of them, ground included through RL |
| Serialize.SplitRender | lc_circuit_autogen.py:102-156 | when no line holds a CR, splitting the CRLF-joined text gives back the line texts |
| Serialize.SourceText | lc_circuit_autogen.py:105-110 | a direct source is SOURCE_TEXT verbatim; a sine or pulse line starts `V1 1 0 ` and ends with `)`, and, when every printed number is one field, reads back as the fields `V1 1 0 SINE(0 V_SOURCE F_SOURCE T_START 0 0 N_CYCLES)` or `V1 1 0 PULSE(0 V_SOURCE T_START T_RISE T_FALL width N_CYCLES)`, the pulse width in sixth place and N_CYCLES in the seventh, the slot the simulator reads as the PULSE period |
| Serialize.Render | lc_circuit_autogen.py:102-156 | the text is every line but the last followed by CRLF, then the last line with nothing after it |
| Serialize.NetlistEnds | lc_circuit_autogen.py:155-156 | the netlist text ends with `.end`, no line break after it |
| Serialize.NetlistLines | lc_circuit_autogen.py:102-156 | with a CR-free title, direct text and numbers, the netlist text splits back into its lines |
| Serialize.ElementText | lc_circuit_autogen.py:123-151 | an element line, one or two spaces before its second node, has exactly the fields designator, node, node, value |
| Serialize.ElementRoundTrip | lc_circuit_autogen.py:123-146 | an element line parses back to its designator, both nodes and the printed value |
| Signals.ReadWaveforms | lc_circuit_autogen.py:186-199 | reads `V(1)`, then `V(i+2)` for i in 0..N, then `I(L{i+1})` for i in 0..N-1, in order |
| Signals.ProbedNodes | lc_circuit_autogen.py:189-193 | a numbered node k >= 2 is used by the network iff k <= N+2: the voltages read are exactly its nodes |
| Signals.ProbedInductors | lc_circuit_autogen.py:195-199 | `L{k}` is in the network iff 1 <= k <= N: the currents read are exactly its inductors |
| Signals.ProbedInDocument | lc_circuit_autogen.py:114-199 | in the whole netlist: `V(1)` names RS's node 1, every `V(k)` read for 2 <= k <= N+2 names a used node, `L{k}` is an element iff 1 <= k <= N, and the used nodes are exactly 1, ground, 2..N+2 and the synthetic ones |
| Signals.CurrentsFollowStages | lc_circuit_autogen.py:195-199 | the network's inductors in written order are L1..LN, so the i-th current read is the i-th inductor's |
| Signals.VoltageNamesUnique | lc_circuit_autogen.py:192 | distinct nodes get distinct voltage names |
| Signals.CurrentNamesUnique | lc_circuit_autogen.py:198 | distinct elements get distinct current names |
| Signals.NodePositions | lc_circuit_autogen.py:181-182 | one position for each of the N+1 node voltages read |
| Signals.BranchPositions | lc_circuit_autogen.py:183-184 | one position for each of the N inductor currents read |
| Signals.PositionsLayout | lc_circuit_autogen.py:181-184 | the nodes run from 0 to LENGTH in N equal steps; each branch sits midway between its two nodes |

## Left out

- Writing the netlist file and running LTspice (lines 162-172): file I/O and an external process.
- Loading the `.raw` results (lines 176-178): a foreign library. `getData` is a parameter, and `l.getTime()` is not modelled.
- Interpolation with `interp1d` (lines 193, 199), plotting, animation and the video file (lines 200 onwards): foreign numeric and rendering code.
- Floating-point rounding: element values, positions and the frame instant are exact reals, or left out. How Python prints a number is the opaque `fmt`, a function of the value alone. Python prints an int constant (`V_SOURCE = 1`, `R_SOURCE = 100`) differently from a float of the same value (`1` against `1.0`), so no single `fmt` gives both; the model does not capture which constants are ints.
- The progress messages printed by the script.
- Negative N_STAGES: `N_STAGES` is a `nat`. In Python, `range` of a negative number is empty.
- SOURCE_TEXT is copied verbatim. Its own line breaks are not modelled as separate lines, so `Serialize.NetlistLines` requires a direct SOURCE_TEXT without a CR.
- Netlist.Synthesize: the netlist is a sequence of lines, not the growing string. `Serialize.Render` turns it into the text.

## Findings

| source | as written | input that shows it | evidently intended | confidence | as-written member | corrected member |
|---|---|---|---|---|---|---|
| lc_circuit_autogen.py:82 | `LINE_TYPE == 'LC-ladder' or 'CL-ladder'` is always true, so T-type and pi-type divide CP and GP by N_STAGES | LINE_TYPE `T-type`, N_STAGES 3, GP 0: two shunt capacitors of CP*LENGTH/3, so 2/3 of the line's capacitance | a four-way dispatch dividing by N-1 for T-type and N+1 for pi-type | not executed | Intended.ThreeStageTShort | Intended.IntendedShuntTotal |
| lc_circuit_autogen.py:125 | `lc_ntwk = ...` replaces the buffer, which holds `C0` just written | LINE_TYPE `CL-ladder`, GP_PER_METER != 0, LENGTH != 0, N_STAGES 1: the network starts with `R0P` and has no `C0` | `+=`, keeping `C0` beside `R0P` | not executed | LadderFacts.OverwriteDropsC0 | Intended.IntendedShuntPairing |
