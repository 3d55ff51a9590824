/**
 * The file reader: one pass over the lines of a network file that tracks the
 * open card and the number of data rows it has read, and decodes every data
 * row of the target card (DBAR or DCIR) in file order.
 */
module Reader {
  import opened Common
  import opened Cards
  import opened Records

  /** Lines as a file yields them: never empty (each holds at least its newline). */
  predicate NonEmptyLines(lines: seq<string>) {
    forall i :: 0 <= i < |lines| ==> |lines[i]| > 0
  }

  /** The reader's loop state, with the rows it has handed to the record parser. */
  datatype ScanState = ScanState(lastcard: Card, validrows: nat, rows: seq<string>)

  const Start := ScanState(NoCard, 0, [])

  /** One iteration of the read loop. */
  function Step(st: ScanState, line: string, target: Card): ScanState
    requires |line| > 0
  {
    var newcard := NextCard(line, st.lastcard, st.validrows);
    if newcard != st.lastcard then
      ScanState(newcard, 0, st.rows)
    else
      ScanState(newcard,
                if IsComment(line) then st.validrows else st.validrows + 1,
                if newcard == target && !IsComment(line) then st.rows + [line] else st.rows)
  }

  /** The loop state after reading `lines` from state `st`. */
  function Run(st: ScanState, lines: seq<string>, target: Card): (r: ScanState)
    requires NonEmptyLines(lines)
    ensures |st.rows| <= |r.rows| <= |st.rows| + |lines|
    decreases |lines|
  {
    if lines == [] then st
    else Step(Run(st, lines[..|lines| - 1], target), lines[|lines| - 1], target)
  }

  function Scan(lines: seq<string>, target: Card): (r: ScanState)
    requires NonEmptyLines(lines)
    ensures |r.rows| <= |lines|
  {
    Run(Start, lines, target)
  }

  function ParseBuses(rows: seq<string>): (bs: seq<BusRecord>)
    ensures |bs| == |rows|
    ensures forall i :: 0 <= i < |rows| ==> bs[i] == ParseBus(rows[i])
  {
    seq(|rows|, i requires 0 <= i < |rows| => ParseBus(rows[i]))
  }

  function ParseCircuits(rows: seq<string>): (cs: seq<CircuitRecord>)
    ensures |cs| == |rows|
    ensures forall i :: 0 <= i < |rows| ==> cs[i] == ParseCircuit(rows[i])
  {
    seq(|rows|, i requires 0 <= i < |rows| => ParseCircuit(rows[i]))
  }

  /** The `Anafas` case: the bus and circuit records of one network file. */
  class Anafas {
    var dbar: seq<BusRecord>
    var dcir: seq<CircuitRecord>

    constructor (lines: seq<string>)
      requires NonEmptyLines(lines)
      ensures dbar == ParseBuses(Scan(lines, Dbar).rows)
      ensures dcir == ParseCircuits(Scan(lines, Dcir).rows)
    {
      dbar := [];
      dcir := [];
      new;
      ReadCard(lines, Dbar);
      ReadCard(lines, Dcir);
    }

    /** `__read_dbar` / `__read_dcir`: one read pass collecting the rows of `target`. */
    method ReadCard(lines: seq<string>, target: Card)
      requires NonEmptyLines(lines)
      requires target == Dbar || target == Dcir
      modifies this
      ensures target == Dbar ==> dbar == old(dbar) + ParseBuses(Scan(lines, target).rows) && dcir == old(dcir)
      ensures target == Dcir ==> dcir == old(dcir) + ParseCircuits(Scan(lines, target).rows) && dbar == old(dbar)
    {
      var lastcard := NoCard;
      var validrows: nat := 0;
      ghost var rows: seq<string> := [];
      for i := 0 to |lines|
        invariant Run(Start, lines[..i], target) == ScanState(lastcard, validrows, rows)
        invariant target == Dbar ==> dbar == old(dbar) + ParseBuses(rows) && dcir == old(dcir)
        invariant target == Dcir ==> dcir == old(dcir) + ParseCircuits(rows) && dbar == old(dbar)
      {
        var line := lines[i];
        assert lines[..i + 1][..i] == lines[..i];
        var newcard := NextCard(line, lastcard, validrows);
        if newcard != lastcard {
          validrows := 0;
        } else {
          if newcard == target && !IsComment(line) {
            if target == Dbar {
              var b := new DBar(line);
              dbar := dbar + [b.Record()];
            } else {
              var c := new DCir(line);
              dcir := dcir + [c.Record()];
            }
            rows := rows + [line];
          }
          if !IsComment(line) {
            validrows := validrows + 1;
          }
        }
        lastcard := newcard;
      }
      assert lines[..|lines|] == lines;
    }
  }

  // ---------------------------------------------------------------------
  // Properties
  // ---------------------------------------------------------------------

  /** Reading two stretches of lines is reading their concatenation. */
  lemma {:induction false} RunAppend(st: ScanState, a: seq<string>, b: seq<string>, target: Card)
    requires NonEmptyLines(a) && NonEmptyLines(b)
    ensures NonEmptyLines(a + b)
    ensures Run(st, a + b, target) == Run(Run(st, a, target), b, target)
    decreases |b|
  {
    if b == [] {
      assert a + b == a;
    } else {
      assert (a + b)[..|a + b| - 1] == a + b[..|b| - 1];
      RunAppend(st, a, b[..|b| - 1], target);
    }
  }

  /** The rows of a stretch of lines that are not comments, in order. */
  function DataRows(lines: seq<string>): (r: seq<string>)
    requires NonEmptyLines(lines)
    ensures |r| <= |lines|
  {
    if lines == [] then []
    else DataRows(lines[..|lines| - 1])
         + (if IsComment(lines[|lines| - 1]) then [] else [lines[|lines| - 1]])
  }

  /**
   * Inside an open multi-row card, every line that is not a `99999` sentinel
   * keeps the card open; each data row adds one to the row count and, when the
   * card is the target, is collected; comment rows change nothing.
   */
  lemma {:induction false} MultiRowBody(k: Card, v: nat, rows: seq<string>, body: seq<string>, target: Card)
    requires k.MultiRow() && NonEmptyLines(body)
    requires forall i :: 0 <= i < |body| ==> !StartsWith(body[i], "99999")
    ensures Run(ScanState(k, v, rows), body, target)
         == ScanState(k, v + |DataRows(body)|, if k == target then rows + DataRows(body) else rows)
    decreases |body|
  {
    if body != [] {
      MultiRowBody(k, v, rows, body[..|body| - 1], target);
    }
  }

  /**
   * A whole multi-row section read from outside any card: the header is not a
   * record, exactly the data rows of the body are, and the sentinel closes the
   * card.
   */
  lemma {:induction false} SectionRecords(st: ScanState, header: string, body: seq<string>, sentinel: string, target: Card)
    requires st.lastcard == NoCard && target.MultiRow()
    requires Opens(header, target) && StartsWith(sentinel, "99999")
    requires NonEmptyLines(body) && forall i :: 0 <= i < |body| ==> !StartsWith(body[i], "99999")
    ensures NonEmptyLines([header] + body + [sentinel])
    ensures Run(st, [header] + body + [sentinel], target) == ScanState(NoCard, 0, st.rows + DataRows(body))
  {
    assert |header| > 0 by { assert |Keyword(target)| == 4 || |Code(target)| == 3; }
    assert NonEmptyLines([header]) && NonEmptyLines([sentinel]);
    assert [header][..0] == [];
    assert Run(st, [header], target) == Step(st, header, target);
    HeaderCardExact(header, target);
    assert NextCard(header, NoCard, st.validrows) == target;
    assert Run(st, [header], target) == ScanState(target, 0, st.rows);
    RunAppend(st, [header], body, target);
    MultiRowBody(target, 0, st.rows, body, target);
    RunAppend(st, [header] + body, [sentinel], target);
    assert [sentinel][..0] == [];
  }

  /** A stretch of comment lines. */
  predicate AllComments(lines: seq<string>) {
    forall i :: 0 <= i < |lines| ==> |lines[i]| > 0 && IsComment(lines[i])
  }

  /** Comment lines leave an open single-row card exactly as it was. */
  lemma {:induction false} SingleRowComments(st: ScanState, cs: seq<string>, target: Card)
    requires st.lastcard.SingleRow() && target.MultiRow() && AllComments(cs)
    ensures NonEmptyLines(cs) && Run(st, cs, target) == st
    decreases |cs|
  {
    if cs != [] {
      SingleRowComments(st, cs[..|cs| - 1], target);
    }
  }

  /**
   * A single-row card takes exactly one data row: comments around it change
   * nothing, and the first data line after it closes the card without being
   * recorded (nor examined as a header of its own).
   */
  lemma {:induction false} SingleRowCloses(k: Card, rows: seq<string>, cs1: seq<string>, d: string,
                                           cs2: seq<string>, x: string, target: Card)
    requires k.SingleRow() && target.MultiRow()
    requires AllComments(cs1) && AllComments(cs2)
    requires |d| > 0 && !IsComment(d) && |x| > 0 && !IsComment(x)
    ensures NonEmptyLines(cs1 + [d] + cs2) && NonEmptyLines(cs1 + [d] + cs2 + [x])
    ensures Run(ScanState(k, 0, rows), cs1 + [d] + cs2, target) == ScanState(k, 1, rows)
    ensures Run(ScanState(k, 0, rows), cs1 + [d] + cs2 + [x], target) == ScanState(NoCard, 0, rows)
  {
    var st := ScanState(k, 0, rows);
    SingleRowComments(st, cs1, target);
    assert NonEmptyLines([d]) && [d][..0] == [];
    RunAppend(st, cs1, [d], target);
    var st1 := ScanState(k, 1, rows);
    assert Run(st, cs1 + [d], target) == st1;
    SingleRowComments(st1, cs2, target);
    RunAppend(st, cs1 + [d], cs2, target);
    assert NonEmptyLines([x]) && [x][..0] == [];
    RunAppend(st, cs1 + [d] + cs2, [x], target);
  }

  /** Lines that open no card, read while no card is open, collect nothing. */
  lemma {:induction false} OutsideCards(st: ScanState, lines: seq<string>, target: Card)
    requires st.lastcard == NoCard && target != NoCard && NonEmptyLines(lines)
    requires forall i, k :: 0 <= i < |lines| ==> !Opens(lines[i], k)
    ensures Run(st, lines, target) == ScanState(NoCard, st.validrows + |DataRows(lines)|, st.rows)
    decreases |lines|
  {
    if lines != [] {
      var line := lines[|lines| - 1];
      OutsideCards(st, lines[..|lines| - 1], target);
      assert forall k :: !Opens(line, k);
      assert NextCard(line, NoCard, 0) == NoCard;
    }
  }

  /**
   * A consequence of the single-row rule: a card header placed directly after
   * the data row of a single-row card is consumed as the closing line, so the
   * section it opens is never entered and none of its rows is collected.
   */
  lemma {:induction false} HeaderAfterSingleRowIsMissed(k: Card, rows: seq<string>, d: string, h: string,
                                                        body: seq<string>, target: Card)
    requires k.SingleRow() && target.MultiRow()
    requires |d| > 0 && !IsComment(d) && |h| > 0 && !IsComment(h) && Opens(h, target)
    requires NonEmptyLines(body) && forall i, k' :: 0 <= i < |body| ==> !Opens(body[i], k')
    ensures NonEmptyLines([d, h] + body)
    ensures Run(ScanState(k, 0, rows), [d, h] + body, target) == ScanState(NoCard, |DataRows(body)|, rows)
  {
    SingleRowCloses(k, rows, [], d, [], h, target);
    assert [] + [d] + [] + [h] == [d, h];
    RunAppend(ScanState(k, 0, rows), [d, h], body, target);
    OutsideCards(ScanState(NoCard, 0, rows), body, target);
  }

  /** Every collected row is a data row: never a comment, never a `99999` sentinel. */
  lemma {:induction false} RowsAreDataRows(st: ScanState, lines: seq<string>, target: Card)
    requires NonEmptyLines(lines) && target.MultiRow()
    ensures |st.rows| <= |Run(st, lines, target).rows|
    ensures Run(st, lines, target).rows[..|st.rows|] == st.rows
    ensures forall i :: |st.rows| <= i < |Run(st, lines, target).rows| ==>
              var r := Run(st, lines, target).rows[i];
              r in lines && |r| > 0 && !IsComment(r) && !StartsWith(r, "99999")
    decreases |lines|
  {
    if lines != [] {
      var init := lines[..|lines| - 1];
      RowsAreDataRows(st, init, target);
      var prev := Run(st, init, target);
      var line := lines[|lines| - 1];
      forall r | r in init ensures r in lines {
        var j :| 0 <= j < |init| && init[j] == r;
        assert lines[j] == r;
      }
      if NextCard(line, prev.lastcard, prev.validrows) == prev.lastcard && prev.lastcard == target {
        assert !StartsWith(line, "99999");
      }
    }
  }
}
