/**
 * The card writers of the converter: a three-phase coupled branch (`51`,
 * `52`, `53` rows) and a three-phase transformer made of three single-phase
 * units with their bus-stop nodes.
 */
module Printing {
  import opened Common
  import opened Coerce
  import opened Text
  import opened FixedFormat

  // ---------------------------------------------------------------------
  // printBranch
  // ---------------------------------------------------------------------

  /** `(I2, A6, A6, 12X, F6.2, F12.2)`: code, two node names, resistance and reactance. */
  const BranchFields := [Field(IntField, 2), Field(TextField, 6), Field(TextField, 6), Field(SkipField, 12),
                         Field(RealField(2), 6), Field(RealField(2), 12)]

  /** `(I2, A6, A6)`: the last phase carries no impedance. */
  const CoupledFields := [Field(IntField, 2), Field(TextField, 6), Field(TextField, 6)]

  /** The phase letter of phase 0, 1 or 2. */
  function PhaseLetter(p: nat): char
    requires p < 3
  {
    ['A', 'B', 'C'][p]
  }

  /** The values of one impedance row; each number first goes through `__fixedWidthNumber`. */
  function PhaseValues(code: int, de: string, para: string, r: real, x: real, rd: Renderer): seq<FieldValue> {
    [IntValue(code), TextValue(de), TextValue(para), RealValue(rd.narrow(r, 6)), RealValue(rd.narrow(x, 12))]
  }

  /** The text written for an impedance row. */
  function PhaseText(code: int, de: string, para: string, r: real, x: real, rd: Renderer): string {
    PadLeft(IntToString(code), 2) + PadRight(de, 6) + PadRight(para, 6) + Spaces(12)
    + PadLeft(rd.fixed(rd.narrow(r, 6), 2), 6) + PadLeft(rd.fixed(rd.narrow(x, 12), 2), 12)
  }

  /** Three pieces that all succeed join to their concatenation. */
  lemma Join3(ps: seq<Outcome<string>>, p0: string, p1: string, p2: string)
    requires |ps| == 3 && ps[0] == Ok(p0) && ps[1] == Ok(p1) && ps[2] == Ok(p2)
    ensures Join(ps, 3) == Ok(p0 + p1 + p2)
  {
    JoinStep(ps, 1);
    JoinStep(ps, 2);
    JoinStep(ps, 3);
    assert "" + p0 == p0;
  }

  /** Six pieces that all succeed join to their concatenation. */
  lemma Join6(ps: seq<Outcome<string>>, p0: string, p1: string, p2: string, p3: string, p4: string, p5: string)
    requires |ps| == 6 && ps[0] == Ok(p0) && ps[1] == Ok(p1) && ps[2] == Ok(p2)
    requires ps[3] == Ok(p3) && ps[4] == Ok(p4) && ps[5] == Ok(p5)
    ensures Join(ps, 6) == Ok(p0 + p1 + p2 + p3 + p4 + p5)
  {
    JoinStep(ps, 1);
    JoinStep(ps, 2);
    JoinStep(ps, 3);
    JoinStep(ps, 4);
    JoinStep(ps, 5);
    JoinStep(ps, 6);
    assert "" + p0 == p0;
  }

  /** Three written fields in a row. */
  lemma Write3(values: seq<FieldValue>, fields: seq<Field>, rd: Renderer, p0: string, p1: string, p2: string)
    requires |fields| == 3
    requires Piece(values, fields, 0, rd) == Ok(p0) && Piece(values, fields, 1, rd) == Ok(p1)
    requires Piece(values, fields, 2, rd) == Ok(p2)
    ensures Write(values, fields, rd) == Ok(p0 + p1 + p2)
  {
    Join3(Pieces(values, fields, rd), p0, p1, p2);
  }

  /** Six written fields in a row. */
  lemma Write6(values: seq<FieldValue>, fields: seq<Field>, rd: Renderer,
               p0: string, p1: string, p2: string, p3: string, p4: string, p5: string)
    requires |fields| == 6
    requires Piece(values, fields, 0, rd) == Ok(p0) && Piece(values, fields, 1, rd) == Ok(p1)
    requires Piece(values, fields, 2, rd) == Ok(p2) && Piece(values, fields, 3, rd) == Ok(p3)
    requires Piece(values, fields, 4, rd) == Ok(p4) && Piece(values, fields, 5, rd) == Ok(p5)
    ensures Write(values, fields, rd) == Ok(p0 + p1 + p2 + p3 + p4 + p5)
  {
    Join6(Pieces(values, fields, rd), p0, p1, p2, p3, p4, p5);
  }

  /** The code and node-name pieces of an impedance row. */
  lemma PhaseNamePieces(code: int, de: string, para: string, r: real, x: real, rd: Renderer)
    ensures var f, v := BranchFields, PhaseValues(code, de, para, r, x, rd);
      && Piece(v, f, 0, rd) == Ok(PadLeft(IntToString(code), 2))
      && Piece(v, f, 1, rd) == Ok(PadRight(de, 6))
      && Piece(v, f, 2, rd) == Ok(PadRight(para, 6))
  {
    var f := BranchFields;
    assert ValuedBefore(f, 1) == 1 && ValuedBefore(f, 2) == 2;
  }

  /** The blank and impedance pieces of an impedance row. */
  lemma PhaseImpedancePieces(code: int, de: string, para: string, r: real, x: real, rd: Renderer)
    ensures var f, v := BranchFields, PhaseValues(code, de, para, r, x, rd);
      && Piece(v, f, 3, rd) == Ok(Spaces(12))
      && Piece(v, f, 4, rd) == Ok(PadLeft(rd.fixed(rd.narrow(r, 6), 2), 6))
      && Piece(v, f, 5, rd) == Ok(PadLeft(rd.fixed(rd.narrow(x, 12), 2), 12))
  {
    var f := BranchFields;
    assert ValuedBefore(f, 3) == 3 && ValuedBefore(f, 4) == 3 && ValuedBefore(f, 5) == 4;
  }

  /** The writer lays an impedance row out field by field. */
  lemma {:induction false} PhaseRowWritten(code: int, de: string, para: string, r: real, x: real, rd: Renderer)
    ensures Write(PhaseValues(code, de, para, r, x, rd), BranchFields, rd) == Ok(PhaseText(code, de, para, r, x, rd))
  {
    PhaseNamePieces(code, de, para, r, x, rd);
    PhaseImpedancePieces(code, de, para, r, x, rd);
    Write6(PhaseValues(code, de, para, r, x, rd), BranchFields, rd,
           PadLeft(IntToString(code), 2), PadRight(de, 6), PadRight(para, 6), Spaces(12),
           PadLeft(rd.fixed(rd.narrow(r, 6), 2), 6), PadLeft(rd.fixed(rd.narrow(x, 12), 2), 12));
  }

  /** The text written for the last row. */
  function CoupledText(code: int, de: string, para: string): string {
    PadLeft(IntToString(code), 2) + PadRight(de, 6) + PadRight(para, 6)
  }

  /** The writer lays the last row out as code and two names. */
  lemma {:induction false} CoupledRowWritten(code: int, de: string, para: string, rd: Renderer)
    ensures Write([IntValue(code), TextValue(de), TextValue(para)], CoupledFields, rd) == Ok(CoupledText(code, de, para))
  {
    var f, v := CoupledFields, [IntValue(code), TextValue(de), TextValue(para)];
    Write3(v, f, rd, PadLeft(IntToString(code), 2), PadRight(de, 6), PadRight(para, 6));
  }

  /** The voltage note appended to the first row. */
  function Trailer(vbase: real, rd: Renderer): string {
    "       { EM " + PadLeft(rd.fixed(vbase, 1), 5) + "KV"
  }

  /**
   * The three rows of `printBranch`: zero sequence on `51`, positive
   * sequence on `52`, each as the writer lays it out (`PhaseRowWritten`,
   * `CoupledRowWritten`).
   */
  function BranchLines(de: string, para: string, r1: real, x1: real, r0: real, x0: real, vbase: real, rd: Renderer)
    : seq<string>
  {
    [PhaseText(51, de + "A", para + "A", r0, x0, rd) + Trailer(vbase, rd),
     PhaseText(52, de + "B", para + "B", r1, x1, rd),
     CoupledText(53, de + "C", para + "C")]
  }

  /** `printBranch`: three newline-terminated rows. */
  function PrintBranch(de: string, para: string, r1: real, x1: real, r0: real, x0: real, vbase: real, rd: Renderer)
    : (r: string)
    ensures r == PhaseText(51, de + "A", para + "A", r0, x0, rd) + Trailer(vbase, rd) + "\n"
               + PhaseText(52, de + "B", para + "B", r1, x1, rd) + "\n"
               + CoupledText(53, de + "C", para + "C") + "\n"
  {
    var ls := BranchLines(de, para, r1, x1, r0, x0, vbase, rd);
    assert ls[..2][..1] == ls[..1] && ls[..1][..0] == [];
    assert Unlines(ls[..1]) == ls[0] + "\n";
    assert Unlines(ls[..2]) == ls[0] + "\n" + ls[1] + "\n";
    Unlines(ls)
  }

  /** The resistance fits its six columns and the reactance its twelve. */
  predicate Fits(r: real, x: real, rd: Renderer) {
    |rd.fixed(rd.narrow(r, 6), 2)| <= 6 && |rd.fixed(rd.narrow(x, 12), 2)| <= 12
  }

  /**
   * The zero-sequence row: code `51` and the node names with phase letter
   * `A` in columns 2-7 and 8-13.
   */
  lemma ZeroSequenceNames(de: string, para: string, r1: real, x1: real, r0: real, x0: real, vbase: real,
                          rd: Renderer)
    requires |de| <= 5 && |para| <= 5
    ensures var l := BranchLines(de, para, r1, x1, r0, x0, vbase, rd)[0];
      && |l| >= 14 && l[..2] == "51"
      && l[2..8] == PadRight(de + "A", 6) && l[8..14] == PadRight(para + "A", 6)
  {
    var t := Trailer(vbase, rd);
    var l := PhaseText(51, de + "A", para + "A", r0, x0, rd) + t;
    assert BranchLines(de, para, r1, x1, r0, x0, vbase, rd)[0] == l;
    RowCodes();
    PhaseRowNames(51, de + "A", para + "A", r0, x0, rd, t, l);
  }

  /**
   * The rest of the zero-sequence row, when both numbers fit: columns 14-25
   * blank, resistance right-aligned in columns 26-31, reactance in columns
   * 32-43, then the voltage note.
   */
  lemma ZeroSequenceImpedance(de: string, para: string, r1: real, x1: real, r0: real, x0: real, vbase: real,
                              rd: Renderer)
    requires |de| <= 5 && |para| <= 5 && Fits(r0, x0, rd)
    ensures var l := BranchLines(de, para, r1, x1, r0, x0, vbase, rd)[0];
      && |l| == 44 + |Trailer(vbase, rd)|
      && l[14..26] == Spaces(12)
      && l[26..32] == PadLeft(rd.fixed(rd.narrow(r0, 6), 2), 6)
      && l[32..44] == PadLeft(rd.fixed(rd.narrow(x0, 12), 2), 12)
      && l[44..] == Trailer(vbase, rd)
  {
    var t := Trailer(vbase, rd);
    var l := PhaseText(51, de + "A", para + "A", r0, x0, rd) + t;
    assert BranchLines(de, para, r1, x1, r0, x0, vbase, rd)[0] == l;
    RowCodes();
    PhaseRowImpedance(51, de + "A", para + "A", r0, x0, rd, t, l);
  }

  /** The positive-sequence row: code `52` and the node names with phase letter `B`. */
  lemma PositiveSequenceNames(de: string, para: string, r1: real, x1: real, r0: real, x0: real, vbase: real,
                              rd: Renderer)
    requires |de| <= 5 && |para| <= 5
    ensures var l := BranchLines(de, para, r1, x1, r0, x0, vbase, rd)[1];
      && |l| >= 14 && l[..2] == "52"
      && l[2..8] == PadRight(de + "B", 6) && l[8..14] == PadRight(para + "B", 6)
  {
    var l := PhaseText(52, de + "B", para + "B", r1, x1, rd);
    AppendNothing(l);
    assert BranchLines(de, para, r1, x1, r0, x0, vbase, rd)[1] == l;
    RowCodes();
    PhaseRowNames(52, de + "B", para + "B", r1, x1, rd, "", l);
  }

  /** The rest of the positive-sequence row, when both numbers fit: the same columns, and nothing after them. */
  lemma PositiveSequenceImpedance(de: string, para: string, r1: real, x1: real, r0: real, x0: real, vbase: real,
                                  rd: Renderer)
    requires |de| <= 5 && |para| <= 5 && Fits(r1, x1, rd)
    ensures var l := BranchLines(de, para, r1, x1, r0, x0, vbase, rd)[1];
      && |l| == 44
      && l[14..26] == Spaces(12)
      && l[26..32] == PadLeft(rd.fixed(rd.narrow(r1, 6), 2), 6)
      && l[32..44] == PadLeft(rd.fixed(rd.narrow(x1, 12), 2), 12)
  {
    var l := PhaseText(52, de + "B", para + "B", r1, x1, rd);
    AppendNothing(l);
    assert BranchLines(de, para, r1, x1, r0, x0, vbase, rd)[1] == l;
    RowCodes();
    PhaseRowImpedance(52, de + "B", para + "B", r1, x1, rd, "", l);
  }

  /** The coupled row: code `53` and the node names with phase letter `C`, fourteen columns in all. */
  lemma CoupledRowLayout(de: string, para: string, r1: real, x1: real, r0: real, x0: real, vbase: real,
                         rd: Renderer)
    requires |de| <= 5 && |para| <= 5
    ensures var l := BranchLines(de, para, r1, x1, r0, x0, vbase, rd)[2];
      && |l| == 14 && l[..2] == "53"
      && l[2..8] == PadRight(de + "C", 6) && l[8..14] == PadRight(para + "C", 6)
  {
    RowCodes();
    var c := "53" + PadRight(de + "C", 6) + PadRight(para + "C", 6);
    assert CoupledText(53, de + "C", para + "C") == c;
    assert c[..2] == "53" && c[2..8] == PadRight(de + "C", 6) && c[8..14] == PadRight(para + "C", 6);
  }

  /** Appending nothing leaves a row as it is. */
  lemma AppendNothing(s: string)
    ensures s + "" == s
  {
  }

  /** The decimal text of the three row codes. */
  lemma RowCodes()
    ensures IntToString(51) == "51" && IntToString(52) == "52" && IntToString(53) == "53"
  {
  }

  /** Where each part of a row of six fields and a tail sits. */
  lemma RowSlices(a: string, b: string, c: string, s: string, d: string, e: string, t: string)
    ensures var l, i := a + b + c + s + d + e + t, |a| + |b| + |c|;
      && l[..|a|] == a && l[|a|..|a| + |b|] == b && l[|a| + |b|..i] == c
      && l[i..i + |s|] == s && l[i + |s|..i + |s| + |d|] == d
      && l[i + |s| + |d|..i + |s| + |d| + |e|] == e && l[i + |s| + |d| + |e|..] == t
  {
    var abc := a + b + c;
    var l := abc + s + d + e + t;
    assert l == abc + (s + d + e + t);
    assert abc[..|a|] == a && abc[|a|..|a| + |b|] == b && abc[|a| + |b|..] == c;
    var sdet := s + d + e + t;
    assert sdet[..|s|] == s && sdet[|s|..|s| + |d|] == d && sdet[|s| + |d|..|s| + |d| + |e|] == e;
    assert sdet[|s| + |d| + |e|..] == t;
  }

  /** The code and node-name columns of one impedance row followed by `tail`. */
  lemma PhaseRowNames(code: int, de: string, para: string, r: real, x: real, rd: Renderer, tail: string, line: string)
    requires |IntToString(code)| == 2
    requires line == PhaseText(code, de, para, r, x, rd) + tail
    requires |de| <= 6 && |para| <= 6
    ensures |line| >= 14
      && line[..2] == IntToString(code)
      && line[2..8] == PadRight(de, 6) && line[8..14] == PadRight(para, 6)
  {
    RowSlices(PadLeft(IntToString(code), 2), PadRight(de, 6), PadRight(para, 6), Spaces(12),
              PadLeft(rd.fixed(rd.narrow(r, 6), 2), 6), PadLeft(rd.fixed(rd.narrow(x, 12), 2), 12), tail);
  }

  /** The blank, resistance and reactance columns of one impedance row followed by `tail`, when both numbers fit. */
  lemma PhaseRowImpedance(code: int, de: string, para: string, r: real, x: real, rd: Renderer, tail: string, line: string)
    requires |IntToString(code)| == 2
    requires line == PhaseText(code, de, para, r, x, rd) + tail
    requires |de| <= 6 && |para| <= 6 && Fits(r, x, rd)
    ensures |line| == 44 + |tail|
      && line[14..26] == Spaces(12)
      && line[26..32] == PadLeft(rd.fixed(rd.narrow(r, 6), 2), 6)
      && line[32..44] == PadLeft(rd.fixed(rd.narrow(x, 12), 2), 12)
      && line[44..] == tail
  {
    RowSlices(PadLeft(IntToString(code), 2), PadRight(de, 6), PadRight(para, 6), Spaces(12),
              PadLeft(rd.fixed(rd.narrow(r, 6), 2), 6), PadLeft(rd.fixed(rd.narrow(x, 12), 2), 12), tail);
  }

  // ---------------------------------------------------------------------
  // printTransformer
  // ---------------------------------------------------------------------

  /** How the three windings of one side are connected: to ground, or to the next phase. */
  datatype Connection = Wye | Delta

  /** `"{:>02}".format(n)`: zero-filled to two characters. */
  function ZeroPad2(n: int): (r: string)
    ensures |r| == Max(2, |IntToString(n)|)
    ensures r[|r| - |IntToString(n)|..] == IntToString(n)
    ensures forall i :: 0 <= i < |r| - |IntToString(n)| ==> r[i] == '0'
  {
    var s := IntToString(n);
    if |s| < 2 then "0" + s else s
  }

  /** A bus-stop node name: `TRD` or `TRY`, the transformer number, and a phase letter. */
  function BusStop(kind: string, n: int, phase: char): string {
    kind + ZeroPad2(n) + [phase]
  }

  function TransformerLine(ref: string, stop: string): string {
    "  TRANSFORMER " + Fit(ref, 6) + Spaces(18) + Fit(stop, 6)
  }

  const MagnetisingLine := "            9999"

  /** A winding row: side `1` or `2`, its two nodes, no resistance, reactance 0.001 and the voltage. */
  function WindingLine(side: char, bus1: string, bus2: string, v: real, rd: Renderer): string {
    " " + [side] + Fit(bus1, 6) + Fit(bus2, 6) + Spaces(11) + PadLeft("", 6) + PadLeft("0.001", 6)
    + PadLeft(rd.repr(v), 7)
  }

  /** The far node of phase `p`'s winding: ground for wye, the next phase for delta. */
  function FarNode(name: string, conn: Connection, p: nat): string
    requires p < 3
  {
    if conn == Wye then "" else name + [PhaseLetter((p + 1) % 3)]
  }

  /** A one-megaohm resistor from a delta node to ground. */
  function GroundLine(node: string): string {
    "  " + Fit(node, 6) + Spaces(18) + "1.0E06"
  }

  function GroundLines(name: string, conn: Connection): seq<string> {
    if conn == Delta then [GroundLine(name + "A"), GroundLine(name + "B"), GroundLine(name + "C")] else []
  }

  /** The bus stop of phase `p`: `TRD..A` for phase A, `TRY..B` and `TRY..C` for the others. */
  function PhaseStop(n: int, p: nat): string
    requires p < 3
  {
    if p == 0 then BusStop("TRD", n, 'A') else BusStop("TRY", n, PhaseLetter(p))
  }

  /** The rows of one single-phase unit: its header, and its two windings. */
  function UnitLines(de: string, para: string, vDe: real, vPara: real, connDe: Connection, connPara: Connection,
                     n: int, p: nat, rd: Renderer): seq<string>
    requires p < 3
  {
    [TransformerLine(if p == 0 then "" else PhaseStop(n, 0), PhaseStop(n, p))]
    + (if p == 0 then [MagnetisingLine] else [])
    + [WindingLine('1', de + [PhaseLetter(p)], FarNode(de, connDe, p), vDe, rd),
       WindingLine('2', para + [PhaseLetter(p)], FarNode(para, connPara, p), vPara, rd)]
  }

  /** The rows of `printTransformer`. */
  function TransformerLines(de: string, para: string, vDe: real, vPara: real, connDe: Connection,
                            connPara: Connection, n: int, rd: Renderer): seq<string>
  {
    UnitLines(de, para, vDe, vPara, connDe, connPara, n, 0, rd)
    + UnitLines(de, para, vDe, vPara, connDe, connPara, n, 1, rd)
    + UnitLines(de, para, vDe, vPara, connDe, connPara, n, 2, rd)
    + GroundLines(de, connDe) + GroundLines(para, connPara)
  }

  /** `printTransformer`: its rows, each newline-terminated. */
  function PrintTransformer(de: string, para: string, vDe: real, vPara: real, connDe: Connection,
                            connPara: Connection, n: int, rd: Renderer): (r: string)
    ensures r == Unlines(UnitLines(de, para, vDe, vPara, connDe, connPara, n, 0, rd))
               + Unlines(UnitLines(de, para, vDe, vPara, connDe, connPara, n, 1, rd))
               + Unlines(UnitLines(de, para, vDe, vPara, connDe, connPara, n, 2, rd))
               + Unlines(GroundLines(de, connDe)) + Unlines(GroundLines(para, connPara))
  {
    var u0 := UnitLines(de, para, vDe, vPara, connDe, connPara, n, 0, rd);
    var u1 := UnitLines(de, para, vDe, vPara, connDe, connPara, n, 1, rd);
    var u2 := UnitLines(de, para, vDe, vPara, connDe, connPara, n, 2, rd);
    var g1, g2 := GroundLines(de, connDe), GroundLines(para, connPara);
    UnlinesAppend(u0 + u1 + u2 + g1, g2);
    UnlinesAppend(u0 + u1 + u2, g1);
    UnlinesAppend(u0 + u1, u2);
    UnlinesAppend(u0, u1);
    Unlines(TransformerLines(de, para, vDe, vPara, connDe, connPara, n, rd))
  }

  /** The row of phase `p`'s winding on side 1 (side 2 is the row after it). */
  function WindingRow(p: nat): nat
    requires p < 3
  {
    if p == 0 then 2 else 2 + 3 * p
  }

  /** Where each block of rows sits in the five blocks laid end to end. */
  lemma Blocks(u0: seq<string>, u1: seq<string>, u2: seq<string>, g1: seq<string>, g2: seq<string>)
    ensures var ls, i, j := u0 + u1 + u2 + g1 + g2, |u0| + |u1|, |u0| + |u1| + |u2|;
      && |ls| == j + |g1| + |g2|
      && ls[..|u0|] == u0 && ls[|u0|..i] == u1 && ls[i..j] == u2
      && ls[j..j + |g1|] == g1 && ls[j + |g1|..] == g2
  {
    var ls := u0 + u1 + u2 + g1 + g2;
    assert ls == (u0 + u1 + u2) + (g1 + g2);
  }

  /** One unit is four rows long with its magnetising row, three without. */
  lemma UnitLength(de: string, para: string, vDe: real, vPara: real, connDe: Connection, connPara: Connection,
                   n: int, p: nat, rd: Renderer)
    requires p < 3
    ensures |UnitLines(de, para, vDe, vPara, connDe, connPara, n, p, rd)| == if p == 0 then 4 else 3
  {
  }

  /** A unit starts with its header, and the first unit's header is followed by the magnetising row. */
  lemma UnitHeader(de: string, para: string, vDe: real, vPara: real, connDe: Connection, connPara: Connection,
                   n: int, p: nat, rd: Renderer)
    requires p < 3
    ensures var u := UnitLines(de, para, vDe, vPara, connDe, connPara, n, p, rd);
      && |u| >= 3
      && u[0] == TransformerLine(if p == 0 then "" else PhaseStop(n, 0), PhaseStop(n, p))
      && (p == 0 ==> u[1] == MagnetisingLine)
  {
  }

  /** A unit ends with its two windings. */
  lemma UnitWindings(de: string, para: string, vDe: real, vPara: real, connDe: Connection, connPara: Connection,
                     n: int, p: nat, rd: Renderer)
    requires p < 3
    ensures var u := UnitLines(de, para, vDe, vPara, connDe, connPara, n, p, rd);
      && |u| >= 3
      && u[|u| - 2] == WindingLine('1', de + [PhaseLetter(p)], FarNode(de, connDe, p), vDe, rd)
      && u[|u| - 1] == WindingLine('2', para + [PhaseLetter(p)], FarNode(para, connPara, p), vPara, rd)
  {
  }

  /**
   * Ten rows, plus three grounding rows per delta side; the unit headers
   * are at rows 0, 4 and 7, the magnetising row right after the first, and
   * the grounding rows of a delta side at the end.
   */
  lemma {:induction false} TransformerShape(de: string, para: string, vDe: real, vPara: real, connDe: Connection,
                                            connPara: Connection, n: int, rd: Renderer)
    ensures var ls := TransformerLines(de, para, vDe, vPara, connDe, connPara, n, rd);
      && |ls| == 10 + (if connDe == Delta then 3 else 0) + (if connPara == Delta then 3 else 0)
      && ls[0] == TransformerLine("", BusStop("TRD", n, 'A'))
      && ls[1] == MagnetisingLine
      && ls[4] == TransformerLine(BusStop("TRD", n, 'A'), BusStop("TRY", n, 'B'))
      && ls[7] == TransformerLine(BusStop("TRD", n, 'A'), BusStop("TRY", n, 'C'))
      && (connDe == Delta ==> ls[10..13] == GroundLines(de, Delta))
      && (connPara == Delta ==> ls[|ls| - 3..] == GroundLines(para, Delta))
  {
    var u0 := UnitLines(de, para, vDe, vPara, connDe, connPara, n, 0, rd);
    var u1 := UnitLines(de, para, vDe, vPara, connDe, connPara, n, 1, rd);
    var u2 := UnitLines(de, para, vDe, vPara, connDe, connPara, n, 2, rd);
    UnitHeader(de, para, vDe, vPara, connDe, connPara, n, 0, rd);
    UnitHeader(de, para, vDe, vPara, connDe, connPara, n, 1, rd);
    UnitHeader(de, para, vDe, vPara, connDe, connPara, n, 2, rd);
    UnitLength(de, para, vDe, vPara, connDe, connPara, n, 0, rd);
    UnitLength(de, para, vDe, vPara, connDe, connPara, n, 1, rd);
    UnitLength(de, para, vDe, vPara, connDe, connPara, n, 2, rd);
    ShapeBlocks(u0, u1, u2, GroundLines(de, connDe), GroundLines(para, connPara));
  }

  /** Three units of four, three and three rows followed by two grounding blocks. */
  lemma ShapeBlocks(u0: seq<string>, u1: seq<string>, u2: seq<string>, g1: seq<string>, g2: seq<string>)
    requires |u0| == 4 && |u1| == 3 && |u2| == 3
    ensures var ls := u0 + u1 + u2 + g1 + g2;
      && |ls| == 10 + |g1| + |g2|
      && ls[0] == u0[0] && ls[1] == u0[1] && ls[4] == u1[0] && ls[7] == u2[0]
      && ls[10..10 + |g1|] == g1 && ls[|ls| - |g2|..] == g2
  {
    Blocks(u0, u1, u2, g1, g2);
    var ls := u0 + u1 + u2 + g1 + g2;
    assert ls[4] == ls[4..7][0] && ls[7] == ls[7..10][0];
  }

  /**
   * Phase `p`'s windings: side 1 at row `WindingRow(p)`, from the phase's
   * own node to its far node, and side 2 in the row after it.
   */
  lemma {:induction false} WindingRows(de: string, para: string, vDe: real, vPara: real, connDe: Connection,
                                       connPara: Connection, n: int, rd: Renderer, p: nat)
    requires p < 3
    ensures var ls := TransformerLines(de, para, vDe, vPara, connDe, connPara, n, rd);
      && WindingRow(p) + 1 < |ls|
      && ls[WindingRow(p)] == WindingLine('1', de + [PhaseLetter(p)], FarNode(de, connDe, p), vDe, rd)
      && ls[WindingRow(p) + 1] == WindingLine('2', para + [PhaseLetter(p)], FarNode(para, connPara, p), vPara, rd)
  {
    var u0 := UnitLines(de, para, vDe, vPara, connDe, connPara, n, 0, rd);
    var u1 := UnitLines(de, para, vDe, vPara, connDe, connPara, n, 1, rd);
    var u2 := UnitLines(de, para, vDe, vPara, connDe, connPara, n, 2, rd);
    var u := UnitLines(de, para, vDe, vPara, connDe, connPara, n, p, rd);
    UnitLength(de, para, vDe, vPara, connDe, connPara, n, 0, rd);
    UnitLength(de, para, vDe, vPara, connDe, connPara, n, 1, rd);
    UnitLength(de, para, vDe, vPara, connDe, connPara, n, 2, rd);
    UnitWindings(de, para, vDe, vPara, connDe, connPara, n, p, rd);
    UnitRows(u0, u1, u2, GroundLines(de, connDe), GroundLines(para, connPara), p, u);
  }

  /** The last two rows of unit `p` are rows `WindingRow(p)` and the one after it. */
  lemma UnitRows(u0: seq<string>, u1: seq<string>, u2: seq<string>, g1: seq<string>, g2: seq<string>, p: nat,
                 u: seq<string>)
    requires p < 3 && |u0| == 4 && |u1| == 3 && |u2| == 3
    requires u == if p == 0 then u0 else if p == 1 then u1 else u2
    ensures var ls := u0 + u1 + u2 + g1 + g2;
      && WindingRow(p) + 1 < |ls|
      && ls[WindingRow(p)] == u[|u| - 2] && ls[WindingRow(p) + 1] == u[|u| - 1]
  {
    Blocks(u0, u1, u2, g1, g2);
    var ls := u0 + u1 + u2 + g1 + g2;
    if p == 0 {
      assert ls[2] == ls[..4][2] && ls[3] == ls[..4][3];
    } else if p == 1 {
      assert ls[5] == ls[4..7][1] && ls[6] == ls[4..7][2];
    } else {
      assert ls[8] == ls[7..10][1] && ls[9] == ls[7..10][2];
    }
  }

  /**
   * The winding connections, read off the node columns: each phase's side-1
   * winding runs from its own phase node (columns 2-7) to ground (blank
   * columns 8-13) on a wye side, or to the next phase's node on a delta
   * side: A to B, B to C, C to A.
   */
  lemma {:induction false} WindingNodes(de: string, para: string, vDe: real, vPara: real, connDe: Connection,
                                        connPara: Connection, n: int, rd: Renderer, p: nat)
    requires p < 3 && |de| <= 5
    ensures var w := TransformerLines(de, para, vDe, vPara, connDe, connPara, n, rd)[WindingRow(p)];
      && |w| >= 14
      && w[0] == ' ' && w[1] == '1'
      && w[2..8] == PadRight(de + [PhaseLetter(p)], 6)
      && (connDe == Wye ==> w[8..14] == Spaces(6))
      && (connDe == Delta ==> w[8..14] == PadRight(de + [PhaseLetter((p + 1) % 3)], 6))
  {
    WindingRows(de, para, vDe, vPara, connDe, connPara, n, rd, p);
    var w := TransformerLines(de, para, vDe, vPara, connDe, connPara, n, rd)[WindingRow(p)];
    var far := FarNode(de, connDe, p);
    WindingColumns('1', de + [PhaseLetter(p)], far, vDe, rd, w);
    if connDe == Wye {
      assert far == "" && "" + Spaces(6) == Spaces(6);
    }
  }

  /** A winding row: the side in column 1, its two nodes in columns 2-7 and 8-13. */
  lemma WindingColumns(side: char, bus1: string, bus2: string, v: real, rd: Renderer, w: string)
    requires w == WindingLine(side, bus1, bus2, v, rd)
    ensures |w| >= 14 && w[0] == ' ' && w[1] == side && w[2..8] == Fit(bus1, 6) && w[8..14] == Fit(bus2, 6)
  {
    LeadingSlices(" ", [side], Fit(bus1, 6), Fit(bus2, 6), Spaces(11), PadLeft("", 6), PadLeft("0.001", 6),
                  PadLeft(rd.repr(v), 7));
  }

  /** Where the first four parts of an eight-part row sit. */
  lemma LeadingSlices(c0: string, c1: string, a: string, b: string, t1: string, t2: string, t3: string, t4: string)
    requires |c0| == 1 && |c1| == 1 && |a| == 6 && |b| == 6
    ensures var l := c0 + c1 + a + b + t1 + t2 + t3 + t4;
      && |l| >= 14 && l[0] == c0[0] && l[1] == c1[0] && l[2..8] == a && l[8..14] == b
  {
    var l := c0 + c1 + a + b + t1 + t2 + t3 + t4;
    assert l == (c0 + c1 + a + b) + (t1 + t2 + t3 + t4);
    var h := c0 + c1 + a + b;
    assert h[2..8] == a && h[8..14] == b;
  }

  /** Bus-stop names of transformers 1 to 99 are six characters: kind, two digits, phase. */
  lemma BusStopName(kind: string, n: int, phase: char)
    requires |kind| == 3 && 1 <= n < 100
    ensures var s := BusStop(kind, n, phase);
      |s| == 6 && s[..3] == kind && s[5] == phase && s[3..5] == ZeroPad2(n)
  {
    var d := IntToString(n);
    assert |d| <= 2 by {
      if n >= 10 {
        assert d == NatDigits(n) && NatDigits(n) == NatDigits(n / 10) + [('0' as int + n % 10) as char];
        assert n / 10 < 10;
      }
    }
  }
}
