/**
 * `__convertSources`: turns the bus and circuit records of a short-circuit
 * case into cards of the transient simulator. Stage A writes a grounded
 * source for every circuit with exactly one bus id 0; stage B then writes
 * every circuit between two buses as a branch, adding a fictitious wye-wye or
 * delta-delta transformer when the voltage bases differ or the zero-sequence
 * path is cut.
 */
module Conversion {
  import opened Common
  import opened Coerce
  import opened Text
  import opened FixedFormat
  import opened Records
  import opened Printing

  const ZeroDivisionError := "ZeroDivisionError"

  /** The keyword arguments `Zmax`, `sbase`, `xopt` and `freq`. */
  datatype Config = Config(zmax: real, sbase: real, xopt: real, freq: real)

  const Defaults := Config(5.0, 100.0, 60.0, 60.0)

  /** `math.pi`, as the literal it prints as. */
  const Pi: real := 3.141592653589793

  /** The width of the blank comment card closing a stage-B block. */
  const CommentWidth := 80

  /**
   * The float renderer and the two card writers the conversion calls. The
   * conversion is stated and proved for any such triple; the program's own is
   * `Standard`.
   */
  datatype Writer = Writer(
    rd: Renderer,
    branch: (string, string, real, real, real, real, real, Renderer) -> string,
    transformer: (string, string, real, real, Connection, Connection, int, Renderer) -> string)

  /** `__printBranch` and `__printTransformer` with renderer `rd`. */
  function Standard(rd: Renderer): Writer {
    Writer(rd, PrintBranch, PrintTransformer)
  }

  function Abs(x: real): real { if x < 0.0 then -x else x }

  // ---------------------------------------------------------------------
  // Scaling
  // ---------------------------------------------------------------------

  /**
   * The impedance factor: ohms to millihenries at `freq` when `xopt` is
   * (nearly) zero, otherwise reactances rescaled from frequency `xopt` to
   * `freq`. A zero angular frequency raises.
   */
  function Factor(cfg: Config): (r: Outcome<real>)
    ensures r.Raises? <==> Abs(cfg.xopt) <= 0.001 && cfg.freq == 0.0
    ensures r.Raises? ==> r.error == ZeroDivisionError
    ensures r.Ok? && Abs(cfg.xopt) <= 0.001 ==> r.value * (2.0 * Pi * cfg.freq) == 1000.0
    ensures r.Ok? && Abs(cfg.xopt) > 0.001 ==> r.value * cfg.xopt == cfg.freq
  {
    if Abs(cfg.xopt) <= 0.001 then
      var w := 2.0 * Pi * cfg.freq;
      if w == 0.0 then Raises(ZeroDivisionError) else Ok(1.0 / w * 1000.0)
    else
      Ok(cfg.freq / cfg.xopt)
  }

  /** With the default keyword arguments the factor is one: impedances pass through in ohms. */
  lemma DefaultFactor()
    ensures Factor(Defaults) == Ok(1.0)
  {
    assert Abs(Defaults.xopt) > 0.001;
  }

  /** The base impedance of a bus in ohms: kV squared over MVA. */
  function ZBase(vbase: real, sbase: real): real
    requires sbase != 0.0
  {
    (vbase * 1000.0) * (vbase * 1000.0) / (sbase * 1000000.0)
  }

  /**
   * `calcz(r, x) < Zmax`, compared squared: a magnitude is never negative,
   * so nothing is below a bound that is not positive.
   */
  predicate Below(r: real, x: real, zmax: real) {
    0.0 < zmax && r * r + x * x < zmax * zmax
  }

  /** Percent on the system base to per unit. */
  function PerUnit(pct: real): real { pct / 100.0 }

  /** `xpu * zbase * factor`: a percent impedance in the units the cards carry. */
  function Ohms(pct: real, vbase: real, sbase: real, factor: real): real
    requires sbase != 0.0
  {
    PerUnit(pct) * ZBase(vbase, sbase) * factor
  }

  // ---------------------------------------------------------------------
  // Bus lookup
  // ---------------------------------------------------------------------

  /** The lookup loops keep overwriting, so the last record with the id wins. */
  function LastBus(buses: seq<BusRecord>, nb: int): Option<BusRecord> {
    if buses == [] then None
    else if buses[|buses| - 1].nb == nb then Some(buses[|buses| - 1])
    else LastBus(buses[..|buses| - 1], nb)
  }

  /** Some record carries the id. */
  predicate KnownBus(buses: seq<BusRecord>, nb: int) {
    exists j :: 0 <= j < |buses| && buses[j].nb == nb
  }

  /** The lookup finds a record exactly when one carries the id, and then it is the last such record. */
  lemma {:induction false} LastBusFound(buses: seq<BusRecord>, nb: int)
    ensures LastBus(buses, nb).None? ==> !KnownBus(buses, nb)
    ensures KnownBus(buses, nb) ==> LastBus(buses, nb).Some?
    ensures LastBus(buses, nb).Some? ==>
              exists j :: 0 <= j < |buses| && buses[j] == LastBus(buses, nb).value && buses[j].nb == nb &&
                          forall k :: j < k < |buses| ==> buses[k].nb != nb
    decreases |buses|
  {
    if buses != [] && buses[|buses| - 1].nb != nb {
      var init := buses[..|buses| - 1];
      LastBusFound(init, nb);
      if KnownBus(buses, nb) {
        var j :| 0 <= j < |buses| && buses[j].nb == nb;
        assert init[j].nb == nb;
      }
      if LastBus(init, nb).Some? {
        var j :| 0 <= j < |init| && init[j] == LastBus(init, nb).value && init[j].nb == nb &&
                 forall k :: j < k < |init| ==> init[k].nb != nb;
        assert buses[j] == init[j];
      }
    }
  }

  /** The bus a source hangs from; without a record, no name and 998 kV. */
  function SourceBus(buses: seq<BusRecord>, nb: int): BusRecord {
    match LastBus(buses, nb)
    case Some(b) => b
    case None => BusRecord(nb, "", 998.0)
  }

  /** The stage-A lookup loop over the bus records. */
  method ScanBuses(buses: seq<BusRecord>, node: int) returns (nome: string, vbase: real)
    ensures nome == SourceBus(buses, node).nome && vbase == SourceBus(buses, node).vbase
  {
    nome, vbase := "", 998.0;
    for i := 0 to |buses|
      invariant nome == SourceBus(buses[..i], node).nome && vbase == SourceBus(buses[..i], node).vbase
    {
      assert buses[..i + 1][..i] == buses[..i];
      if buses[i].nb == node {
        nome, vbase := buses[i].nome, buses[i].vbase;
      }
    }
    assert buses[..|buses|] == buses;
  }

  /** The stage-B lookup loop: both ends of a circuit, found in one pass. */
  method FindEnds(buses: seq<BusRecord>, de: int, para: int)
    returns (denome: string, devbase: real, paranome: string, paravbase: real)
    requires LastBus(buses, de).Some? && LastBus(buses, para).Some?
    ensures denome == LastBus(buses, de).value.nome && devbase == LastBus(buses, de).value.vbase
    ensures paranome == LastBus(buses, para).value.nome && paravbase == LastBus(buses, para).value.vbase
  {
    denome, devbase, paranome, paravbase := "", 0.0, "", 0.0;
    for i := 0 to |buses|
      invariant LastBus(buses[..i], de).Some? ==>
                  denome == LastBus(buses[..i], de).value.nome && devbase == LastBus(buses[..i], de).value.vbase
      invariant LastBus(buses[..i], para).Some? ==>
                  paranome == LastBus(buses[..i], para).value.nome && paravbase == LastBus(buses[..i], para).value.vbase
    {
      assert buses[..i + 1][..i] == buses[..i];
      if buses[i].nb == de {
        denome, devbase := buses[i].nome, buses[i].vbase;
      }
      if buses[i].nb == para {
        paranome, paravbase := buses[i].nome, buses[i].vbase;
      }
    }
    assert buses[..|buses|] == buses;
  }

  // ---------------------------------------------------------------------
  // Name suggestions
  // ---------------------------------------------------------------------

  /** One row of the name-suggestion file. */
  datatype NameSuggestion = NameSuggestion(nbus: int, bfrom: string, bsrc: string, volt: real, bname: string)

  /** `t` occurs in `s` from index `i`. */
  predicate OccursAt(s: string, t: string, i: int) {
    0 <= i && i + |t| <= |s| && s[i..i + |t|] == t
  }

  /** Python's `t in s` on strings. */
  predicate Contains(s: string, t: string) {
    exists i :: 0 <= i <= |s| && OccursAt(s, t, i)
  }

  /** The filter: the suggestion is for this bus id, or its name contains the bus name. */
  predicate Suggests(sg: NameSuggestion, node: int, nome: string) {
    node == sg.nbus || Contains(Strip(sg.bname), Strip(nome))
  }

  /** `list(filter(...))`: the matching suggestions, in file order. */
  function Matching(sugg: seq<NameSuggestion>, node: int, nome: string): (r: seq<NameSuggestion>)
    ensures |r| <= |sugg|
    ensures forall k :: 0 <= k < |r| ==> r[k] in sugg && Suggests(r[k], node, nome)
    ensures forall i :: 0 <= i < |sugg| && Suggests(sugg[i], node, nome) ==> sugg[i] in r
  {
    if sugg == [] then []
    else (if Suggests(sugg[0], node, nome) then [sugg[0]] else []) + Matching(sugg[1..], node, nome)
  }

  /** The head of the filtered list is the first matching suggestion. */
  lemma {:induction false} MatchingFirst(sugg: seq<NameSuggestion>, node: int, nome: string, i: nat)
    requires i < |sugg| && Suggests(sugg[i], node, nome)
    requires forall j :: 0 <= j < i ==> !Suggests(sugg[j], node, nome)
    ensures |Matching(sugg, node, nome)| > 0 && Matching(sugg, node, nome)[0] == sugg[i]
    decreases i
  {
    if i > 0 {
      assert !Suggests(sugg[0], node, nome);
      forall j | 0 <= j < i - 1
        ensures !Suggests(sugg[1..][j], node, nome)
      {
        assert sugg[1..][j] == sugg[j + 1];
      }
      MatchingFirst(sugg[1..], node, nome, i - 1);
    }
  }

  /** The two node names of a source: `(bsrc, bfrom)` of the first match, else derived from the bus name. */
  function SourceEnds(suggestions: Option<seq<NameSuggestion>>, node: int, nome: string): (r: (string, string))
    ensures suggestions.None? ==> r == (SourceName(nome), AtpName(nome))
    ensures suggestions.Some? && (forall i :: 0 <= i < |suggestions.value| ==> !Suggests(suggestions.value[i], node, nome))
            ==> r == (SourceName(nome), AtpName(nome))
  {
    if suggestions.Some? && |Matching(suggestions.value, node, nome)| > 0 then
      var first := Matching(suggestions.value, node, nome)[0];
      (first.bsrc, first.bfrom)
    else
      (SourceName(nome), AtpName(nome))
  }

  /** When some suggestion matches, the first one names the source and its bus. */
  lemma SuggestedEnds(sugg: seq<NameSuggestion>, node: int, nome: string, i: nat)
    requires i < |sugg| && Suggests(sugg[i], node, nome)
    requires forall j :: 0 <= j < i ==> !Suggests(sugg[j], node, nome)
    ensures SourceEnds(Some(sugg), node, nome) == (sugg[i].bsrc, sugg[i].bfrom)
  {
    MatchingFirst(sugg, node, nome, i);
  }

  // ---------------------------------------------------------------------
  // Stage A: sources
  // ---------------------------------------------------------------------

  /** Exactly one end of the circuit is bus 0 (ground). */
  predicate IsSource(c: CircuitRecord) {
    (c.de == 0 && c.para != 0) || (c.para == 0 && c.de != 0)
  }

  /** Both ends of the circuit are buses. */
  predicate IsBranch(c: CircuitRecord) {
    c.de > 0 && c.para > 0
  }

  /** The circuit reaches the computation of a base impedance in one of the stages. */
  predicate Reaches(c: CircuitRecord) {
    IsSource(c) || IsBranch(c)
  }

  /** The stage-B circuit's two ends are found among the bus records (see `LastBusFound`). */
  predicate EndsKnown(c: CircuitRecord, buses: seq<BusRecord>) {
    IsBranch(c) ==> LastBus(buses, c.de).Some? && LastBus(buses, c.para).Some?
  }

  function SourceNode(c: CircuitRecord): int {
    if c.de == 0 then c.para else c.de
  }

  function SourceHeader(nome: string): string {
    "C    BARRA: " + nome + "\n"
  }

  /** What stage A writes for one circuit. */
  function SourceBlock(c: CircuitRecord, buses: seq<BusRecord>, suggestions: Option<seq<NameSuggestion>>,
                       cfg: Config, factor: real, w: Writer): string
    requires IsSource(c) ==> cfg.sbase != 0.0
  {
    if !IsSource(c) then ""
    else
      var node := SourceNode(c);
      var bus := SourceBus(buses, node);
      var ends := SourceEnds(suggestions, node, bus.nome);
      if !Below(PerUnit(c.r1), PerUnit(c.x1), cfg.zmax) then ""
      else
        var v, sb := bus.vbase, cfg.sbase;
        SourceHeader(bus.nome)
        + w.branch(ends.0, ends.1, Ohms(c.r1, v, sb, factor), Ohms(c.x1, v, sb, factor),
                      Ohms(c.r0, v, sb, factor), Ohms(c.x0, v, sb, factor), v, w.rd)
        + "C\n"
  }

  /**
   * A circuit writes a block exactly when it is a source whose positive
   * sequence is below the cutoff; the block opens with the bus-name comment
   * and closes with a bare `C` card.
   */
  lemma SourceBlockEmitted(c: CircuitRecord, buses: seq<BusRecord>, suggestions: Option<seq<NameSuggestion>>,
                           cfg: Config, factor: real, w: Writer)
    requires IsSource(c) ==> cfg.sbase != 0.0
    ensures SourceBlock(c, buses, suggestions, cfg, factor, w) != "" ==>
              IsSource(c) && Below(PerUnit(c.r1), PerUnit(c.x1), cfg.zmax)
    ensures IsSource(c) && Below(PerUnit(c.r1), PerUnit(c.x1), cfg.zmax) ==>
              var r := SourceBlock(c, buses, suggestions, cfg, factor, w);
              StartsWith(r, SourceHeader(SourceBus(buses, SourceNode(c)).nome)) && |r| >= 2 && r[|r| - 2..] == "C\n"
  {
  }

  /** Stage A's output: the circuits' blocks in input order. */
  function SourceCards(cirs: seq<CircuitRecord>, buses: seq<BusRecord>, suggestions: Option<seq<NameSuggestion>>,
                       cfg: Config, factor: real, w: Writer): string
    requires forall j :: 0 <= j < |cirs| ==> IsSource(cirs[j]) ==> cfg.sbase != 0.0
  {
    if cirs == [] then ""
    else
      SourceCards(cirs[..|cirs| - 1], buses, suggestions, cfg, factor, w)
      + SourceBlock(cirs[|cirs| - 1], buses, suggestions, cfg, factor, w)
  }

  /** Stage A writes nothing unless some source is below the cutoff. */
  lemma {:induction false} SourceCardsQuiet(cirs: seq<CircuitRecord>, buses: seq<BusRecord>,
                                            suggestions: Option<seq<NameSuggestion>>, cfg: Config, factor: real,
                                            w: Writer)
    requires forall j :: 0 <= j < |cirs| ==> IsSource(cirs[j]) ==> cfg.sbase != 0.0
    requires forall j :: 0 <= j < |cirs| ==> !(IsSource(cirs[j]) && Below(PerUnit(cirs[j].r1), PerUnit(cirs[j].x1), cfg.zmax))
    ensures SourceCards(cirs, buses, suggestions, cfg, factor, w) == ""
    decreases |cirs|
  {
    if cirs != [] {
      var init := cirs[..|cirs| - 1];
      assert forall j :: 0 <= j < |init| ==> init[j] == cirs[j];
      SourceCardsQuiet(init, buses, suggestions, cfg, factor, w);
      SourceBlockEmitted(cirs[|cirs| - 1], buses, suggestions, cfg, factor, w);
    }
  }

  // ---------------------------------------------------------------------
  // Stage B: branches
  // ---------------------------------------------------------------------

  datatype BranchCase = SameVoltage | WyeWye | DeltaDelta

  /**
   * The case chosen for a circuit, tested in order: equal voltage bases with
   * a zero-sequence path, then a zero-sequence path alone, then the rest.
   */
  function CaseOf(devbase: real, paravbase: real, r0pu: real, x0pu: real, zmax: real): (k: BranchCase)
    ensures k == SameVoltage <==> Abs(paravbase - devbase) < 0.001 && Below(r0pu, x0pu, zmax)
    ensures k == WyeWye <==> !(Abs(paravbase - devbase) < 0.001) && Below(r0pu, x0pu, zmax)
    ensures k == DeltaDelta <==> !Below(r0pu, x0pu, zmax)
  {
    if Abs(paravbase - devbase) < 0.001 && Below(r0pu, x0pu, zmax) then SameVoltage
    else if Below(r0pu, x0pu, zmax) then WyeWye
    else DeltaDelta
  }

  function CircuitCase(c: CircuitRecord, buses: seq<BusRecord>, cfg: Config): BranchCase
    requires IsBranch(c) && EndsKnown(c, buses)
  {
    CaseOf(LastBus(buses, c.de).value.vbase, LastBus(buses, c.para).value.vbase,
           PerUnit(c.r0), PerUnit(c.x0), cfg.zmax)
  }

  /** The text written by stage B so far and its two transformer counters. */
  datatype BranchState = BranchState(cards: string, trdCount: nat, tryCount: nat)

  function Volts(v: real, rd: Renderer): string {
    PadLeft(rd.fixed(v, 2), 6)
  }

  function BusesHeader(denome: string, paranome: string, devbase: real, w: Writer): string {
    "C BARRAS: " + denome + " - " + paranome + " (" + Volts(devbase, w.rd) + " kV)\n"
  }

  function DummyHeader(denome: string, dummy: string, devbase: real, w: Writer): string {
    "C ENTRE A BARRA " + denome + " E O TRAFO FICTICIO NA BARRA " + dummy + " (" + Volts(devbase, w.rd) + " kV)\n"
  }

  /** The fictitious bus between the branch and its transformer. */
  function Dummy(adenome: string, aparanome: string): string {
    MixNames("T", adenome, aparanome)
  }

  /**
   * The text stage B writes for a circuit of case `k` between buses `denome`
   * and `paranome`: a branch straight between them, or a branch to a
   * fictitious bus followed by transformer `n` from there to `paranome`.
   */
  function CaseText(k: BranchCase, denome: string, devbase: real, paranome: string, paravbase: real,
                    r1: real, x1: real, r0: real, x0: real, n: int, comment: string, w: Writer): string
  {
    var ade, apara := AtpName(denome), AtpName(paranome);
    var dummy := Dummy(ade, apara);
    match k
    case SameVoltage =>
      BusesHeader(denome, paranome, devbase, w) + w.branch(ade, apara, r1, x1, r0, x0, devbase, w.rd) + comment
    case WyeWye =>
      DummyHeader(denome, dummy, devbase, w) + w.branch(ade, dummy, r1, x1, r0, x0, devbase, w.rd) + comment
      + w.transformer(dummy, apara, devbase, paravbase, Wye, Wye, n, w.rd)
    case DeltaDelta =>
      DummyHeader(denome, dummy, devbase, w) + w.branch(ade, dummy, r1, x1, r0, x0, devbase, w.rd) + comment
      + w.transformer(dummy, apara, devbase, paravbase, Delta, Delta, n, w.rd)
  }

  /** The number of the transformer a circuit of case `k` adds: one past its kind's counter. */
  function Number(st: BranchState, k: BranchCase): int {
    if k == DeltaDelta then st.trdCount + 1 else if k == WyeWye then st.tryCount + 1 else st.tryCount
  }

  /** The state after stage B writes the text of case `k` and moves to counters `trd` and `try`. */
  function Emit(st: BranchState, k: BranchCase, denome: string, devbase: real, paranome: string, paravbase: real,
                r1: real, x1: real, r0: real, x0: real, n: int, trd: nat, try: nat, comment: string,
                w: Writer): BranchState
  {
    BranchState(st.cards + CaseText(k, denome, devbase, paranome, paravbase, r1, x1, r0, x0, n, comment, w), trd, try)
  }

  /** What stage B does with one circuit. */
  function BranchStep(st: BranchState, c: CircuitRecord, buses: seq<BusRecord>, cfg: Config, factor: real,
                      w: Writer): BranchState
    requires EndsKnown(c, buses) && (IsBranch(c) ==> cfg.sbase != 0.0)
  {
    if !IsBranch(c) then st
    else
      var de, para := LastBus(buses, c.de).value, LastBus(buses, c.para).value;
      var v, sb := de.vbase, cfg.sbase;
      var r1, x1 := Ohms(c.r1, v, sb, factor), Ohms(c.x1, v, sb, factor);
      var r0, x0 := Ohms(c.r0, v, sb, factor), Ohms(c.x0, v, sb, factor);
      var k := CaseOf(de.vbase, para.vbase, PerUnit(c.r0), PerUnit(c.x0), cfg.zmax);
      Emit(st, k, de.nome, de.vbase, para.nome, para.vbase, r1, x1, r0, x0, Number(st, k),
           if k == DeltaDelta then st.trdCount + 1 else st.trdCount,
           if k == WyeWye then st.tryCount + 1 else st.tryCount, CommentLine(CommentWidth), w)
  }

  /**
   * A circuit outside stage B changes nothing; one inside appends text and
   * increments only the counter of its own case, by one.
   */
  lemma BranchStepCounters(st: BranchState, c: CircuitRecord, buses: seq<BusRecord>, cfg: Config, factor: real,
                           w: Writer)
    requires EndsKnown(c, buses) && (IsBranch(c) ==> cfg.sbase != 0.0)
    ensures var r := BranchStep(st, c, buses, cfg, factor, w);
            (!IsBranch(c) ==> r == st) &&
            (IsBranch(c) ==> |r.cards| > |st.cards| && r.cards[..|st.cards|] == st.cards) &&
            (IsBranch(c) && CircuitCase(c, buses, cfg) == SameVoltage ==>
               r.trdCount == st.trdCount && r.tryCount == st.tryCount) &&
            (IsBranch(c) && CircuitCase(c, buses, cfg) == WyeWye ==>
               r.trdCount == st.trdCount && r.tryCount == st.tryCount + 1) &&
            (IsBranch(c) && CircuitCase(c, buses, cfg) == DeltaDelta ==>
               r.trdCount == st.trdCount + 1 && r.tryCount == st.tryCount)
  {
  }

  predicate BranchReady(cirs: seq<CircuitRecord>, buses: seq<BusRecord>, cfg: Config) {
    forall j :: 0 <= j < |cirs| ==> EndsKnown(cirs[j], buses) && (IsBranch(cirs[j]) ==> cfg.sbase != 0.0)
  }

  /** Stage B over the circuits in input order, from the state stage A left. */
  function BranchRun(init: BranchState, cirs: seq<CircuitRecord>, buses: seq<BusRecord>, cfg: Config, factor: real,
                     w: Writer): BranchState
    requires BranchReady(cirs, buses, cfg)
  {
    if cirs == [] then init
    else
      var prev := BranchRun(init, cirs[..|cirs| - 1], buses, cfg, factor, w);
      BranchStep(prev, cirs[|cirs| - 1], buses, cfg, factor, w)
  }

  /** The number of stage-B circuits that fall in case `k`. */
  function CaseCount(cirs: seq<CircuitRecord>, buses: seq<BusRecord>, cfg: Config, k: BranchCase): nat
    requires forall j :: 0 <= j < |cirs| ==> EndsKnown(cirs[j], buses)
  {
    if cirs == [] then 0
    else
      var c := cirs[|cirs| - 1];
      CaseCount(cirs[..|cirs| - 1], buses, cfg, k) + (if IsBranch(c) && CircuitCase(c, buses, cfg) == k then 1 else 0)
  }

  /**
   * Each transformer counter ends up counting the circuits of its own case,
   * so the transformers of each kind are numbered 1, 2, ... in input order.
   */
  lemma {:induction false} BranchCounters(init: BranchState, cirs: seq<CircuitRecord>, buses: seq<BusRecord>,
                                          cfg: Config, factor: real, w: Writer)
    requires BranchReady(cirs, buses, cfg)
    ensures BranchRun(init, cirs, buses, cfg, factor, w).trdCount == init.trdCount + CaseCount(cirs, buses, cfg, DeltaDelta)
    ensures BranchRun(init, cirs, buses, cfg, factor, w).tryCount == init.tryCount + CaseCount(cirs, buses, cfg, WyeWye)
    decreases |cirs|
  {
    if cirs != [] {
      var init' := cirs[..|cirs| - 1];
      assert forall j :: 0 <= j < |init'| ==> init'[j] == cirs[j];
      BranchCounters(init, init', buses, cfg, factor, w);
      BranchStepCounters(BranchRun(init, init', buses, cfg, factor, w), cirs[|cirs| - 1], buses, cfg, factor, w);
    }
  }

  /** Stage B only ever appends to what stage A wrote. */
  lemma {:induction false} BranchAppends(init: BranchState, cirs: seq<CircuitRecord>, buses: seq<BusRecord>,
                                         cfg: Config, factor: real, w: Writer)
    requires BranchReady(cirs, buses, cfg)
    ensures StartsWith(BranchRun(init, cirs, buses, cfg, factor, w).cards, init.cards)
    decreases |cirs|
  {
    if cirs != [] {
      var init' := cirs[..|cirs| - 1];
      assert forall j :: 0 <= j < |init'| ==> init'[j] == cirs[j];
      BranchAppends(init, init', buses, cfg, factor, w);
      var prev := BranchRun(init, init', buses, cfg, factor, w);
      BranchStepCounters(prev, cirs[|cirs| - 1], buses, cfg, factor, w);
      PrefixChain(init.cards, prev.cards, BranchStep(prev, cirs[|cirs| - 1], buses, cfg, factor, w).cards);
    }
  }

  lemma PrefixChain(a: string, b: string, c: string)
    requires StartsWith(b, a) && StartsWith(c, b)
    ensures StartsWith(c, a)
  {
    assert c[..|a|] == c[..|b|][..|a|];
  }

  // ---------------------------------------------------------------------
  // The whole conversion
  // ---------------------------------------------------------------------

  /** `__convertSources` as a value: the text of both stages, or the error that stops it. */
  function Convert(cirs: seq<CircuitRecord>, buses: seq<BusRecord>, suggestions: Option<seq<NameSuggestion>>,
                   cfg: Config, w: Writer): (r: Outcome<string>)
    requires forall j :: 0 <= j < |cirs| ==> EndsKnown(cirs[j], buses)
    ensures r.Raises? <==> Factor(cfg).Raises? || (cfg.sbase == 0.0 && exists j :: 0 <= j < |cirs| && Reaches(cirs[j]))
    ensures r.Raises? ==> r.error == ZeroDivisionError
    ensures r.Ok? ==> StartsWith(r.value, SourceCards(cirs, buses, suggestions, cfg, Factor(cfg).value, w))
  {
    var f := Factor(cfg);
    if f.Raises? then Raises(f.error)
    else if cfg.sbase == 0.0 && exists j :: 0 <= j < |cirs| && Reaches(cirs[j]) then Raises(ZeroDivisionError)
    else
      var a := SourceCards(cirs, buses, suggestions, cfg, f.value, w);
      BranchAppends(BranchState(a, 0, 0), cirs, buses, cfg, f.value, w);
      Ok(BranchRun(BranchState(a, 0, 0), cirs, buses, cfg, f.value, w).cards)
  }

  /** The body of the stage-A loop for one circuit. */
  method SourceStage(c: CircuitRecord, buses: seq<BusRecord>, suggestions: Option<seq<NameSuggestion>>,
                     cfg: Config, factor: real, w: Writer) returns (block: string)
    requires IsSource(c) ==> cfg.sbase != 0.0
    ensures block == SourceBlock(c, buses, suggestions, cfg, factor, w)
  {
    block := "";
    if IsSource(c) {
      var node := if c.de == 0 then c.para else c.de;
      var nome, vbase := ScanBuses(buses, node);
      var ends := SourceEnds(suggestions, node, nome);
      if Below(PerUnit(c.r1), PerUnit(c.x1), cfg.zmax) {
        var r1, x1 := Ohms(c.r1, vbase, cfg.sbase, factor), Ohms(c.x1, vbase, cfg.sbase, factor);
        var r0, x0 := Ohms(c.r0, vbase, cfg.sbase, factor), Ohms(c.x0, vbase, cfg.sbase, factor);
        block := SourceHeader(nome) + w.branch(ends.0, ends.1, r1, x1, r0, x0, vbase, w.rd) + "C\n";
      }
    }
  }

  /**
   * The `if`/`elif`/`else` of stage B: which case a circuit falls in, the
   * number of the transformer it adds and the counters after it.
   */
  method ChooseCase(st: BranchState, devbase: real, paravbase: real, r0pu: real, x0pu: real, zmax: real)
    returns (k: BranchCase, n: int, trdcount: nat, trycount: nat)
    ensures k == CaseOf(devbase, paravbase, r0pu, x0pu, zmax) && n == Number(st, k)
    ensures trdcount == (if k == DeltaDelta then st.trdCount + 1 else st.trdCount)
    ensures trycount == (if k == WyeWye then st.tryCount + 1 else st.tryCount)
  {
    trdcount, trycount := st.trdCount, st.tryCount;
    k, n := SameVoltage, trycount;
    if Abs(paravbase - devbase) < 0.001 && Below(r0pu, x0pu, zmax) {
      k := SameVoltage;
    } else if Below(r0pu, x0pu, zmax) {
      k, n := WyeWye, trycount + 1;
      trycount := trycount + 1;
    } else {
      k, n := DeltaDelta, trdcount + 1;
      trdcount := trdcount + 1;
    }
  }

  /** The body of the stage-B loop for one circuit. */
  method BranchStage(st: BranchState, c: CircuitRecord, buses: seq<BusRecord>, cfg: Config, factor: real,
                     w: Writer) returns (next: BranchState)
    requires EndsKnown(c, buses) && (IsBranch(c) ==> cfg.sbase != 0.0)
    ensures next == BranchStep(st, c, buses, cfg, factor, w)
  {
    next := st;
    if IsBranch(c) {
      var denome, devbase, paranome, paravbase := FindEnds(buses, c.de, c.para);
      var r1, x1 := Ohms(c.r1, devbase, cfg.sbase, factor), Ohms(c.x1, devbase, cfg.sbase, factor);
      var r0, x0 := Ohms(c.r0, devbase, cfg.sbase, factor), Ohms(c.x0, devbase, cfg.sbase, factor);
      var comment := EmptyCommentLine(CommentWidth);
      var k, n, trdcount, trycount := ChooseCase(st, devbase, paravbase, PerUnit(c.r0), PerUnit(c.x0), cfg.zmax);
      next := Emit(st, k, denome, devbase, paranome, paravbase, r1, x1, r0, x0, n, trdcount, trycount, comment, w);
    }
  }

  /** `__convertSources`: stage A over every circuit, then stage B over every circuit. */
  method ConvertSources(ldcir: seq<CircuitRecord>, ldbar: seq<BusRecord>, suggestions: Option<seq<NameSuggestion>>,
                        cfg: Config, w: Writer) returns (r: Outcome<string>)
    requires forall j :: 0 <= j < |ldcir| ==> EndsKnown(ldcir[j], ldbar)
    ensures r == Convert(ldcir, ldbar, suggestions, cfg, w)
  {
    var f := Factor(cfg);
    if f.Raises? {
      return Raises(f.error);
    }
    var factor := f.value;
    var branchcards := "";
    for i := 0 to |ldcir|
      invariant forall j :: 0 <= j < i ==> IsSource(ldcir[j]) ==> cfg.sbase != 0.0
      invariant branchcards == SourceCards(ldcir[..i], ldbar, suggestions, cfg, factor, w)
    {
      if IsSource(ldcir[i]) && cfg.sbase == 0.0 {
        assert Reaches(ldcir[i]);
        return Raises(ZeroDivisionError);
      }
      var block := SourceStage(ldcir[i], ldbar, suggestions, cfg, factor, w);
      SourceCardsStep(ldcir, i, ldbar, suggestions, cfg, factor, w);
      branchcards := branchcards + block;
    }
    assert ldcir[..|ldcir|] == ldcir;
    var a := branchcards;
    var trdcount, trycount := 0, 0;
    for i := 0 to |ldcir|
      invariant forall j :: 0 <= j < i ==> IsBranch(ldcir[j]) ==> cfg.sbase != 0.0
      invariant BranchReady(ldcir[..i], ldbar, cfg)
      invariant BranchState(branchcards, trdcount, trycount)
                == BranchRun(BranchState(a, 0, 0), ldcir[..i], ldbar, cfg, factor, w)
    {
      if IsBranch(ldcir[i]) && cfg.sbase == 0.0 {
        assert Reaches(ldcir[i]);
        return Raises(ZeroDivisionError);
      }
      var next := BranchStage(BranchState(branchcards, trdcount, trycount), ldcir[i], ldbar, cfg, factor, w);
      BranchRunStep(BranchState(a, 0, 0), ldcir, i, ldbar, cfg, factor, w);
      branchcards, trdcount, trycount := next.cards, next.trdCount, next.tryCount;
    }
    assert ldcir[..|ldcir|] == ldcir;
    r := Ok(branchcards);
  }

  /** One more circuit of stage A appends its block. */
  lemma SourceCardsStep(cirs: seq<CircuitRecord>, i: nat, buses: seq<BusRecord>,
                        suggestions: Option<seq<NameSuggestion>>, cfg: Config, factor: real, w: Writer)
    requires i < |cirs| && forall j :: 0 <= j <= i ==> IsSource(cirs[j]) ==> cfg.sbase != 0.0
    ensures SourceCards(cirs[..i + 1], buses, suggestions, cfg, factor, w)
            == SourceCards(cirs[..i], buses, suggestions, cfg, factor, w)
               + SourceBlock(cirs[i], buses, suggestions, cfg, factor, w)
  {
    assert cirs[..i + 1][..i] == cirs[..i];
  }

  /** One more circuit of stage B takes one step. */
  lemma BranchRunStep(init: BranchState, cirs: seq<CircuitRecord>, i: nat, buses: seq<BusRecord>, cfg: Config,
                      factor: real, w: Writer)
    requires i < |cirs| && BranchReady(cirs[..i + 1], buses, cfg)
    ensures BranchReady(cirs[..i], buses, cfg)
    ensures BranchRun(init, cirs[..i + 1], buses, cfg, factor, w)
            == BranchStep(BranchRun(init, cirs[..i], buses, cfg, factor, w), cirs[i], buses, cfg, factor, w)
  {
    assert cirs[..i + 1][..i] == cirs[..i];
  }
}
