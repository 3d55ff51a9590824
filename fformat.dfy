/**
 * Fortran-style fixed-format records: the field reader and the field writer
 * of the converter.
 *
 * A layout is a list of fields, each a type letter and a width. `I` is an
 * integer, `A` text, `F` (also spelt `D` or `E`) a real with a precision,
 * `X` blank filler; any other letter is kept as an untyped field. The
 * reader walks a cursor over the line one field width at a time, but each
 * cell it converts spans one character more than the field's width.
 */
module FixedFormat {
  import opened Common
  import opened Coerce
  import opened Text

  datatype Kind = IntField | TextField | RealField(precision: nat) | SkipField | OtherField

  datatype Field = Field(kind: Kind, width: nat)

  /** A Python value stored in, or taken from, a record. */
  datatype FieldValue = IntValue(i: int) | TextValue(s: string) | RealValue(x: real)

  const ValueError := "ValueError"
  const IndexError := "IndexError"

  /** The column at which field `k` starts: the widths of the fields before it. */
  function StartOf(fields: seq<Field>, k: nat): nat
    requires k <= |fields|
  {
    if k == 0 then 0 else StartOf(fields, k - 1) + fields[k - 1].width
  }

  lemma {:induction false} StartOfMonotone(fields: seq<Field>, j: nat, k: nat)
    requires j <= k <= |fields|
    ensures StartOf(fields, j) <= StartOf(fields, k)
    decreases k - j
  {
    if j < k {
      StartOfMonotone(fields, j, k - 1);
    }
  }

  /** How many of the first `k` fields carry a value (all but `X`). */
  function ValuedBefore(fields: seq<Field>, k: nat): (n: nat)
    requires k <= |fields|
    ensures n <= k
  {
    if k == 0 then 0 else ValuedBefore(fields, k - 1) + (if fields[k - 1].kind == SkipField then 0 else 1)
  }

  // ---------------------------------------------------------------------
  // __read_data_fformat
  // ---------------------------------------------------------------------

  /** The characters one cell spans beyond its field's width. */
  const Overlap := 1

  /** One converted cell: the stripped text as an integer, text or real; `X` and unknown letters give `None`. */
  function ReadCell(kind: Kind, text: string): (r: Outcome<Option<FieldValue>>)
    ensures r.Raises? ==> r.error == ValueError
    ensures kind == TextField ==> r == Ok(Some(TextValue(Strip(text))))
    ensures kind == SkipField || kind == OtherField ==> r == Ok(None)
    ensures kind == IntField ==> (r.Ok? <==> ParseInt(Strip(text)).Some?)
    ensures kind.RealField? ==> (r.Ok? <==> ParseFloat(Strip(text)).Some?)
    ensures kind == IntField && r.Ok? ==> r.value == Some(IntValue(ParseInt(Strip(text)).value))
    ensures kind.RealField? && r.Ok? ==> r.value == Some(RealValue(ParseFloat(Strip(text)).value))
  {
    match kind
    case IntField =>
      (match ParseInt(Strip(text))
       case Some(n) => Ok(Some(IntValue(n)))
       case None => Raises(ValueError))
    case TextField => Ok(Some(TextValue(Strip(text))))
    case RealField(_) =>
      (match ParseFloat(Strip(text))
       case Some(v) => Ok(Some(RealValue(v)))
       case None => Raises(ValueError))
    case _ => Ok(None)
  }

  /**
   * Cell `k` of the line: converted from `extra` characters past the field's
   * width when the field starts inside the line, `None` otherwise.
   */
  function CellAt(line: string, fields: seq<Field>, k: nat, extra: nat): Outcome<Option<FieldValue>>
    requires k < |fields|
  {
    var p := StartOf(fields, k);
    if p < |line| then ReadCell(fields[k].kind, Slice(line, p, p + fields[k].width + extra))
    else Ok(None)
  }

  /** The cells of a line, field by field. */
  function Cells(line: string, fields: seq<Field>, extra: nat): (cs: seq<Outcome<Option<FieldValue>>>)
    ensures |cs| == |fields|
    ensures forall k :: 0 <= k < |fields| ==> cs[k] == CellAt(line, fields, k, extra)
  {
    seq(|fields|, k requires 0 <= k < |fields| => CellAt(line, fields, k, extra))
  }

  /** The first `n` converted cells in order, or the error of the first one that raises. */
  function Collect(cs: seq<Outcome<Option<FieldValue>>>, n: nat): (r: Outcome<seq<Option<FieldValue>>>)
    requires n <= |cs|
    ensures r.Ok? ==> forall k :: 0 <= k < n ==> cs[k].Ok?
    ensures (forall k :: 0 <= k < n ==> cs[k].Ok?) ==> r.Ok?
    ensures r.Ok? ==> |r.value| == n && forall k :: 0 <= k < n ==> r.value[k] == cs[k].value
  {
    if n == 0 then Ok([])
    else
      match Collect(cs, n - 1)
      case Raises(e) => Raises(e)
      case Ok(prev) =>
        match cs[n - 1]
        case Raises(e) => Raises(e)
        case Ok(v) => Ok(prev + [v])
  }

  /** The first `n` cells of the line, or the error of the first cell that raises. */
  function Extract(line: string, fields: seq<Field>, n: nat, extra: nat): (r: Outcome<seq<Option<FieldValue>>>)
    requires n <= |fields|
    ensures r.Ok? ==> forall k :: 0 <= k < n ==> CellAt(line, fields, k, extra).Ok?
    ensures (forall k :: 0 <= k < n ==> CellAt(line, fields, k, extra).Ok?) ==> r.Ok?
    ensures r.Ok? ==> |r.value| == n && forall k :: 0 <= k < n ==> r.value[k] == CellAt(line, fields, k, extra).value
  {
    Collect(Cells(line, fields, extra), n)
  }

  /** The list comprehension that drops the entries of `X` fields, over the first `n` cells. */
  function ValuedUpTo(fields: seq<Field>, extr: seq<Option<FieldValue>>, n: nat): (r: seq<Option<FieldValue>>)
    requires |extr| == |fields| && n <= |fields|
    ensures |r| == ValuedBefore(fields, n)
  {
    if n == 0 then []
    else ValuedUpTo(fields, extr, n - 1) + (if fields[n - 1].kind == SkipField then [] else [extr[n - 1]])
  }

  function Valued(fields: seq<Field>, extr: seq<Option<FieldValue>>): seq<Option<FieldValue>>
    requires |extr| == |fields|
  {
    ValuedUpTo(fields, extr, |fields|)
  }

  /** What `__read_data_fformat` returns for one line, or the error it raises. */
  function ReadWith(line: string, fields: seq<Field>, extra: nat): Outcome<seq<Option<FieldValue>>> {
    match Extract(line, fields, |fields|, extra)
    case Ok(e) => Ok(Valued(fields, e))
    case Raises(err) => Raises(err)
  }

  function Read(line: string, fields: seq<Field>): Outcome<seq<Option<FieldValue>>> {
    ReadWith(line, fields, Overlap)
  }

  /**
   * A line reads exactly when every cell converts; the only error is
   * `ValueError`; a read line has one entry per non-`X` field.
   */
  lemma ReadOutcome(line: string, fields: seq<Field>)
    ensures Read(line, fields).Ok? <==> forall k :: 0 <= k < |fields| ==> CellAt(line, fields, k, Overlap).Ok?
    ensures Read(line, fields).Raises? ==> Read(line, fields).error == ValueError
    ensures Read(line, fields).Ok? ==> |Read(line, fields).value| == ValuedBefore(fields, |fields|)
  {
    ExtractError(line, fields, |fields|, Overlap);
  }

  /** `__read_data_fformat`: the cursor loop over the line. */
  method ReadDataFformat(line: string, fields: seq<Field>) returns (r: Outcome<seq<Option<FieldValue>>>)
    ensures r == Read(line, fields)
  {
    var dataExtr: seq<Option<FieldValue>> := seq(|fields|, _ => None);
    var charpos := 0;
    var ifield := 0;
    while |line| > charpos && |fields| > ifield
      invariant 0 <= ifield <= |fields| && |dataExtr| == |fields|
      invariant charpos == StartOf(fields, ifield)
      invariant Extract(line, fields, ifield, Overlap) == Ok(dataExtr[..ifield])
      invariant forall k :: ifield <= k < |fields| ==> dataExtr[k] == None
      decreases |fields| - ifield
    {
      var field := fields[ifield];
      var fstr := Slice(line, charpos, charpos + field.width + 1);
      assert ReadCell(field.kind, fstr) == CellAt(line, fields, ifield, Overlap);
      var cell: Option<FieldValue>;
      match ReadCell(field.kind, fstr) {
        case Ok(v) => cell := v;
        case Raises(e) =>
          ExtractRaises(line, fields, ifield, |fields|);
          return Raises(e);
      }
      ExtractStep(line, fields, ifield, dataExtr, cell);
      dataExtr := dataExtr[ifield := cell];
      charpos := charpos + field.width;
      ifield := ifield + 1;
    }
    ExtractRest(line, fields, ifield, dataExtr);
    r := Ok(Valued(fields, dataExtr));
  }

  /** A cell that converts extends the cells read so far by one. */
  lemma ExtractStep(line: string, fields: seq<Field>, i: nat, cells: seq<Option<FieldValue>>,
                    cell: Option<FieldValue>)
    requires i < |fields| == |cells|
    requires Extract(line, fields, i, Overlap) == Ok(cells[..i])
    requires CellAt(line, fields, i, Overlap) == Ok(cell)
    ensures Extract(line, fields, i + 1, Overlap) == Ok(cells[i := cell][..i + 1])
  {
    var cs := Cells(line, fields, Overlap);
    assert cs[i] == Ok(cell);
    assert Collect(cs, i + 1) == Ok(cells[..i] + [cell]);
    assert cells[i := cell][..i + 1] == cells[..i] + [cell];
  }

  /** The first cell that raises decides the error of every longer extraction. */
  lemma ExtractRaises(line: string, fields: seq<Field>, i: nat, n: nat)
    requires i < n <= |fields| && Extract(line, fields, i, Overlap).Ok?
    requires CellAt(line, fields, i, Overlap).Raises?
    ensures Extract(line, fields, n, Overlap) == Raises(CellAt(line, fields, i, Overlap).error)
  {
    CollectRaises(Cells(line, fields, Overlap), i, n);
  }

  lemma {:induction false} CollectRaises(cs: seq<Outcome<Option<FieldValue>>>, i: nat, n: nat)
    requires i < n <= |cs| && Collect(cs, i).Ok? && cs[i].Raises?
    ensures Collect(cs, n) == Raises(cs[i].error)
  {
    if n - 1 > i {
      CollectRaises(cs, i, n - 1);
    }
  }

  /** The only error a line raises is `ValueError`. */
  lemma ExtractError(line: string, fields: seq<Field>, n: nat, extra: nat)
    requires n <= |fields|
    ensures Extract(line, fields, n, extra).Raises? ==> Extract(line, fields, n, extra).error == ValueError
  {
    var cs := Cells(line, fields, extra);
    forall k | 0 <= k < |cs| && cs[k].Raises?
      ensures cs[k].error == ValueError
    {
      assert cs[k] == CellAt(line, fields, k, extra);
    }
    CollectError(cs, n);
  }

  lemma {:induction false} CollectError(cs: seq<Outcome<Option<FieldValue>>>, n: nat)
    requires n <= |cs|
    requires forall k :: 0 <= k < |cs| && cs[k].Raises? ==> cs[k].error == ValueError
    ensures Collect(cs, n).Raises? ==> Collect(cs, n).error == ValueError
  {
    if n > 0 {
      CollectError(cs, n - 1);
    }
  }

  /**
   * Once the cursor reaches the end of the line, every remaining cell is
   * `None`, so the cells read so far padded with `None` are all of them.
   */
  lemma ExtractRest(line: string, fields: seq<Field>, i: nat, cells: seq<Option<FieldValue>>)
    requires i <= |fields| == |cells|
    requires i == |fields| || StartOf(fields, i) >= |line|
    requires Extract(line, fields, i, Overlap) == Ok(cells[..i])
    requires forall k :: i <= k < |fields| ==> cells[k] == None
    ensures Extract(line, fields, |fields|, Overlap) == Ok(cells)
  {
    forall k | i <= k < |fields|
      ensures CellAt(line, fields, k, Overlap) == Ok(None)
    {
      StartOfMonotone(fields, i, k);
    }
    forall k | 0 <= k < i
      ensures CellAt(line, fields, k, Overlap) == Ok(cells[k])
    {
      assert cells[..i][k] == cells[k];
    }
    var full := Extract(line, fields, |fields|, Overlap);
    assert full.Ok?;
    assert full.value == cells;
  }

  // ---------------------------------------------------------------------
  // Reader properties
  // ---------------------------------------------------------------------

  /** Entry `k` of the extracted cells is entry `ValuedBefore(fields, k)` of the result, unless field `k` is `X`. */
  lemma {:induction false} ValuedAt(fields: seq<Field>, extr: seq<Option<FieldValue>>, k: nat, n: nat)
    requires |extr| == |fields| && k < n <= |fields| && fields[k].kind != SkipField
    ensures ValuedBefore(fields, k) < ValuedBefore(fields, n)
    ensures ValuedUpTo(fields, extr, n)[ValuedBefore(fields, k)] == extr[k]
  {
    if k < n - 1 {
      ValuedAt(fields, extr, k, n - 1);
    }
  }

  /**
   * Field `k` of the layout lands at position `ValuedBefore(fields, k)` of
   * the result; when it starts at or past the end of the line it is `None`.
   */
  lemma {:induction false} ReadEntry(line: string, fields: seq<Field>, k: nat)
    requires k < |fields| && fields[k].kind != SkipField && Read(line, fields).Ok?
    ensures ValuedBefore(fields, k) < |Read(line, fields).value|
    ensures Read(line, fields).value[ValuedBefore(fields, k)] == CellAt(line, fields, k, Overlap).value
    ensures StartOf(fields, k) >= |line| ==> Read(line, fields).value[ValuedBefore(fields, k)] == None
  {
    var x := Extract(line, fields, |fields|, Overlap);
    assert x.Ok?;
    var e := x.value;
    assert Read(line, fields) == Ok(Valued(fields, e));
    ValuedAt(fields, e, k, |fields|);
    if StartOf(fields, k) >= |line| {
      assert CellAt(line, fields, k, Overlap) == Ok(None);
    }
  }

  /** The name-suggestion layout: `(I5, 1X, A5, 1X, A5, 1X, F4.1, A12)`. */
  const SuggestionFields := [Field(IntField, 5), Field(SkipField, 1), Field(TextField, 5), Field(SkipField, 1),
                             Field(TextField, 5), Field(SkipField, 1), Field(RealField(1), 4), Field(TextField, 12)]

  /** The suggestion layout always unpacks into five values. */
  lemma SuggestionArity(line: string)
    ensures Read(line, SuggestionFields).Ok? ==> |Read(line, SuggestionFields).value| == 5
  {
    var f := SuggestionFields;
    assert ValuedBefore(f, 2) == 1 && ValuedBefore(f, 4) == 2 && ValuedBefore(f, 6) == 3;
    assert ValuedBefore(f, 8) == 5;
  }

  /** `float()` refuses the voltage field with the name's first letter attached. */
  lemma WideVoltageText()
    ensures ParseFloat(Strip("500.I")).None?
  {
    var wide := "500.I";
    StripTight(wide);
    assert Find(wide, '.') == 3 by { assert '.' !in wide[..3]; }
    assert wide[4..] == "I";
  }

  /** The digits `500`. */
  lemma FiveHundred()
    ensures AllDigits("500") && DigitsValue("500") == 500
  {
    assert "500"[..2] == "50" && "50"[..1] == "5" && "5"[..0] == "";
  }

  /** `float()` reads the voltage field on its own as 500. */
  lemma ExactVoltageText()
    ensures ParseFloat(Strip("500.")) == Some(500.0)
  {
    FiveHundred();
    assert "500" + "." + "" == "500." && "500" + "" == "500";
    DottedFloat("500", "");
  }

  /** Columns 18-22 of the sample line: the voltage field and the first letter of the name. */
  lemma VoltageCell(line: string)
    requires line == "    1 AAAAA BBBBB 500.ITUMBIARA"
    ensures CellAt(line, SuggestionFields, 6, Overlap).Raises?
    ensures CellAt(line, SuggestionFields, 6, 0) == Ok(Some(RealValue(500.0)))
  {
    var f := SuggestionFields;
    assert StartOf(f, 6) == 18 by {
      assert StartOf(f, 1) == 5 && StartOf(f, 2) == 6 && StartOf(f, 3) == 11;
      assert StartOf(f, 4) == 12 && StartOf(f, 5) == 17;
    }
    assert line[18..23] == "500.I" && line[18..22] == "500.";
    WideVoltageText();
    ExactVoltageText();
  }

  /**
   * The voltage cell (`F4.1`, columns 18-21) also takes column 22, the first
   * character of the bus name; a name that begins there makes the line raise,
   * where a cell of the field's own width reads 500.0.
   */
  lemma OverlapRaises()
    ensures Read("    1 AAAAA BBBBB 500.ITUMBIARA", SuggestionFields) == Raises(ValueError)
    ensures CellAt("    1 AAAAA BBBBB 500.ITUMBIARA", SuggestionFields, 6, 0) == Ok(Some(RealValue(500.0)))
  {
    VoltageCell("    1 AAAAA BBBBB 500.ITUMBIARA");
    ExtractError("    1 AAAAA BBBBB 500.ITUMBIARA", SuggestionFields, |SuggestionFields|, Overlap);
  }

  /** The reader with every cell cut to exactly its field's width, as a Fortran format reads it. */
  function ReadExact(line: string, fields: seq<Field>): Outcome<seq<Option<FieldValue>>> {
    ReadWith(line, fields, 0)
  }

  /** Entry `k` of a read that succeeds is cell `k` of the line. */
  lemma ReadWithEntry(line: string, fields: seq<Field>, k: nat, extra: nat)
    requires k < |fields| && fields[k].kind != SkipField && ReadWith(line, fields, extra).Ok?
    ensures ValuedBefore(fields, k) < |ReadWith(line, fields, extra).value|
    ensures ReadWith(line, fields, extra).value[ValuedBefore(fields, k)] == CellAt(line, fields, k, extra).value
  {
    var e := Extract(line, fields, |fields|, extra).value;
    ValuedAt(fields, e, k, |fields|);
  }

  /**
   * With exact widths a field's value depends on its own columns alone: two
   * lines that both read, and agree on the columns of field `k`, give field
   * `k` the same value.
   */
  lemma ReadExactLocal(line1: string, line2: string, fields: seq<Field>, k: nat)
    requires k < |fields| && fields[k].kind != SkipField
    requires ReadExact(line1, fields).Ok? && ReadExact(line2, fields).Ok?
    requires StartOf(fields, k) < |line1| && StartOf(fields, k) < |line2|
    requires Slice(line1, StartOf(fields, k), StartOf(fields, k + 1))
             == Slice(line2, StartOf(fields, k), StartOf(fields, k + 1))
    ensures var i, v1, v2 := ValuedBefore(fields, k), ReadExact(line1, fields).value, ReadExact(line2, fields).value;
            i < |v1| && i < |v2| && v1[i] == v2[i]
  {
    ReadWithEntry(line1, fields, k, 0);
    ReadWithEntry(line2, fields, k, 0);
  }

  /** Only integer and real cells can raise. */
  lemma UncheckedCell(line: string, fields: seq<Field>, k: nat, extra: nat)
    requires k < |fields| && fields[k].kind != IntField && !fields[k].kind.RealField?
    ensures CellAt(line, fields, k, extra).Ok?
  {
  }

  /** A line reads whenever its integer and real cells convert. */
  lemma CheckedCellsRead(line: string, fields: seq<Field>, extra: nat)
    requires forall k :: 0 <= k < |fields| && (fields[k].kind == IntField || fields[k].kind.RealField?) ==>
               CellAt(line, fields, k, extra).Ok?
    ensures ReadWith(line, fields, extra).Ok?
  {
    forall k | 0 <= k < |fields|
      ensures CellAt(line, fields, k, extra).Ok?
    {
      if fields[k].kind != IntField && !fields[k].kind.RealField? {
        UncheckedCell(line, fields, k, extra);
      }
    }
  }

  /** Columns 0-4 of the sample line hold the bus number 1. */
  lemma SampleNumberCell(line: string)
    requires line == "    1 AAAAA BBBBB 500.ITUMBIARA"
    ensures CellAt(line, SuggestionFields, 0, 0).Ok?
  {
    assert Slice(line, 0, 5) == "    " + "1" + "";
    StripPadding("    ", "1", "");
    StripTight("1");
    assert ParseInt("1").Some? by { assert AllDigits("1"); }
  }

  /** A suggestion line reads whenever its bus number and its voltage convert: the other fields cannot raise. */
  lemma SuggestionCellsRead(line: string, extra: nat)
    requires CellAt(line, SuggestionFields, 0, extra).Ok? && CellAt(line, SuggestionFields, 6, extra).Ok?
    ensures ReadWith(line, SuggestionFields, extra).Ok?
  {
    var f := SuggestionFields;
    assert forall k :: 0 <= k < |f| && (f[k].kind == IntField || f[k].kind.RealField?) ==> k == 0 || k == 6;
    CheckedCellsRead(line, f, extra);
  }

  /** The line that `Read` refuses reads with exact widths, and its voltage is 500. */
  lemma ExactReadsSample()
    ensures var r := ReadExact("    1 AAAAA BBBBB 500.ITUMBIARA", SuggestionFields);
            r.Ok? && 3 < |r.value| && r.value[3] == Some(RealValue(500.0))
  {
    var line, f := "    1 AAAAA BBBBB 500.ITUMBIARA", SuggestionFields;
    SampleNumberCell(line);
    VoltageCell(line);
    SuggestionCellsRead(line, 0);
    assert ValuedBefore(f, 6) == 3;
    ReadWithEntry(line, f, 6, 0);
  }

  // ---------------------------------------------------------------------
  // __write_data_fformat
  // ---------------------------------------------------------------------

  /**
   * How numbers become text, left as parameters: `fixed(x, p)` is
   * `"{:.pf}".format(x)`, `repr(x)` is `str(x)` for a float, and
   * `narrow(x, w)` is the number that `float()` reads back from the text
   * `__fixedWidthNumber(x, w)` squeezes into `w` characters.
   */
  datatype Renderer = Renderer(fixed: (real, nat) -> string, repr: real -> string, narrow: (real, nat) -> real)

  /** Python's `int(x)` on a float: truncation toward zero. */
  function Truncate(x: real): (n: int)
  {
    if x < 0.0 then -((-x).Floor) else x.Floor
  }

  /** Python's `int(value)`. */
  function AsInt(v: FieldValue): Outcome<int> {
    match v
    case IntValue(n) => Ok(n)
    case RealValue(x) => Ok(Truncate(x))
    case TextValue(s) =>
      (match ParseInt(Strip(s))
       case Some(n) => Ok(n)
       case None => Raises(ValueError))
  }

  /** Python's `float(value)`. */
  function AsReal(v: FieldValue): Outcome<real> {
    match v
    case IntValue(n) => Ok(n as real)
    case RealValue(x) => Ok(x)
    case TextValue(s) =>
      (match ParseFloat(Strip(s))
       case Some(x) => Ok(x)
       case None => Raises(ValueError))
  }

  /** `"{:w}".format(value)`: text is left-aligned, numbers are right-aligned. */
  function Plain(v: FieldValue, w: nat, rd: Renderer): string {
    match v
    case TextValue(s) => PadRight(s, w)
    case IntValue(n) => PadLeft(IntToString(n), w)
    case RealValue(x) => PadLeft(rd.repr(x), w)
  }

  /** `fformat.format(value)` for one field: a blank run for `X`, else the value converted and padded. */
  function FieldText(v: FieldValue, field: Field, rd: Renderer): (r: Outcome<string>)
    ensures r.Ok? ==> |r.value| >= field.width
    ensures r.Raises? ==> r.error == ValueError
    ensures field.kind == SkipField ==> r == Ok(Spaces(field.width))
    ensures field.kind == TextField ==> r.Ok?
    ensures field.kind == IntField && AsInt(v).Ok? ==> r == Ok(PadLeft(IntToString(AsInt(v).value), field.width))
    ensures field.kind == IntField && AsInt(v).Raises? ==> r.Raises?
    ensures field.kind == TextField && v.TextValue? ==> r == Ok(PadRight(v.s, field.width))
    ensures field.kind == TextField && v.IntValue? ==> r == Ok(PadLeft(IntToString(v.i), field.width))
  {
    var w := field.width;
    match field.kind
    case SkipField => Ok(Spaces(w))
    case IntField =>
      (match AsInt(v)
       case Ok(n) => Ok(PadLeft(IntToString(n), w))
       case Raises(e) => Raises(e))
    case RealField(p) =>
      (match AsReal(v)
       case Ok(x) => Ok(PadLeft(rd.fixed(x, p), w))
       case Raises(e) => Raises(e))
    case _ => Ok(Plain(v, w, rd))
  }

  /**
   * The text written for field `k`. The value at the current value index is
   * fetched before the field's type is looked at, so even an `X` field
   * raises `IndexError` once the values are used up.
   */
  function Piece(values: seq<FieldValue>, fields: seq<Field>, k: nat, rd: Renderer): (r: Outcome<string>)
    requires k < |fields|
    ensures r.Ok? ==> |r.value| >= fields[k].width
    ensures ValuedBefore(fields, k) >= |values| ==> r == Raises(IndexError)
    ensures r.Raises? ==> r.error == ValueError || r.error == IndexError
  {
    var j := ValuedBefore(fields, k);
    if j >= |values| then Raises(IndexError) else FieldText(values[j], fields[k], rd)
  }

  /** The pieces of a record, field by field. */
  function Pieces(values: seq<FieldValue>, fields: seq<Field>, rd: Renderer): (ps: seq<Outcome<string>>)
    ensures |ps| == |fields|
    ensures forall k :: 0 <= k < |fields| ==> ps[k] == Piece(values, fields, k, rd)
  {
    seq(|fields|, k requires 0 <= k < |fields| => Piece(values, fields, k, rd))
  }

  /** The first `n` pieces joined in order, or the error of the first piece that raises. */
  function Join(ps: seq<Outcome<string>>, n: nat): Outcome<string>
    requires n <= |ps|
  {
    if n == 0 then Ok("")
    else
      match Join(ps, n - 1)
      case Raises(e) => Raises(e)
      case Ok(s) =>
        match ps[n - 1]
        case Raises(e) => Raises(e)
        case Ok(p) => Ok(s + p)
  }

  /** What `__write_data_fformat` returns for a record, or the error it raises. */
  function Write(values: seq<FieldValue>, fields: seq<Field>, rd: Renderer): Outcome<string> {
    Join(Pieces(values, fields, rd), |fields|)
  }

  /** A written record is at least as long as the layout; the only errors are `ValueError` and `IndexError`. */
  lemma WriteOutcome(values: seq<FieldValue>, fields: seq<Field>, rd: Renderer)
    ensures Write(values, fields, rd).Raises? ==> Write(values, fields, rd).error in {ValueError, IndexError}
    ensures Write(values, fields, rd).Ok? ==> |Write(values, fields, rd).value| >= StartOf(fields, |fields|)
  {
    JoinBounds(Pieces(values, fields, rd), fields, |fields|);
  }

  /** Pieces at least as wide as their fields join to a text at least as wide as the layout; errors pass through. */
  lemma {:induction false} JoinBounds(ps: seq<Outcome<string>>, fields: seq<Field>, n: nat)
    requires |ps| == |fields| && n <= |ps|
    requires forall k :: 0 <= k < |ps| && ps[k].Ok? ==> |ps[k].value| >= fields[k].width
    requires forall k :: 0 <= k < |ps| && ps[k].Raises? ==> ps[k].error == ValueError || ps[k].error == IndexError
    ensures Join(ps, n).Ok? ==> |Join(ps, n).value| >= StartOf(fields, n)
    ensures Join(ps, n).Raises? ==> Join(ps, n).error == ValueError || Join(ps, n).error == IndexError
  {
    if n > 0 {
      JoinBounds(ps, fields, n - 1);
    }
  }

  /** `__write_data_fformat`: one pass over the fields, advancing the value index past each non-`X` field. */
  method WriteDataFformat(values: seq<FieldValue>, fields: seq<Field>, rd: Renderer) returns (r: Outcome<string>)
    ensures r == Write(values, fields, rd)
  {
    ghost var ps := Pieces(values, fields, rd);
    var outstr := "";
    var ivalue := 0;
    for ifield := 0 to |fields|
      invariant ivalue == ValuedBefore(fields, ifield)
      invariant Join(ps, ifield) == Ok(outstr)
    {
      assert ps[ifield] == Piece(values, fields, ifield, rd);
      if ivalue >= |values| {
        JoinRaisesAt(ps, ifield);
        return Raises(IndexError);
      }
      var text := FieldText(values[ivalue], fields[ifield], rd);
      if text.Raises? {
        JoinRaisesAt(ps, ifield);
        return text;
      }
      WriteStep(values, fields, rd, ifield, outstr);
      outstr := outstr + text.value;
      if fields[ifield].kind != SkipField {
        ivalue := ivalue + 1;
      }
    }
    r := Ok(outstr);
  }

  /** A field whose piece succeeds extends the text joined so far, and moves the value index past a non-`X` field. */
  lemma WriteStep(values: seq<FieldValue>, fields: seq<Field>, rd: Renderer, k: nat, s: string)
    requires k < |fields| && Join(Pieces(values, fields, rd), k) == Ok(s)
    requires ValuedBefore(fields, k) < |values| && FieldText(values[ValuedBefore(fields, k)], fields[k], rd).Ok?
    ensures Join(Pieces(values, fields, rd), k + 1)
         == Ok(s + FieldText(values[ValuedBefore(fields, k)], fields[k], rd).value)
    ensures ValuedBefore(fields, k + 1) == ValuedBefore(fields, k) + if fields[k].kind == SkipField then 0 else 1
  {
    JoinStep(Pieces(values, fields, rd), k + 1);
  }

  // ---------------------------------------------------------------------
  // Writer properties
  // ---------------------------------------------------------------------

  /** Once the pieces joined so far raise, the whole record raises with that error. */
  lemma {:induction false} JoinRaises(ps: seq<Outcome<string>>, i: nat, n: nat)
    requires i <= n <= |ps| && Join(ps, i).Raises?
    ensures Join(ps, n) == Join(ps, i)
    decreases n - i
  {
    if i < n {
      JoinRaises(ps, i, n - 1);
    }
  }

  /** One more piece that does not raise is appended. */
  lemma JoinStep(ps: seq<Outcome<string>>, n: nat)
    requires 0 < n <= |ps| && Join(ps, n - 1).Ok? && ps[n - 1].Ok?
    ensures Join(ps, n) == Ok(Join(ps, n - 1).value + ps[n - 1].value)
  {
  }

  /** Joining succeeds exactly when no piece raises. */
  lemma {:induction false} JoinOk(ps: seq<Outcome<string>>, n: nat)
    requires n <= |ps|
    ensures Join(ps, n).Ok? ==> forall k :: 0 <= k < n ==> ps[k].Ok?
    ensures (forall k :: 0 <= k < n ==> ps[k].Ok?) ==> Join(ps, n).Ok?
  {
    if n > 0 {
      JoinOk(ps, n - 1);
    }
  }

  /** A piece that raises after pieces that joined makes the whole join raise with its error. */
  lemma JoinRaisesAt(ps: seq<Outcome<string>>, k: nat)
    requires k < |ps| && Join(ps, k).Ok? && ps[k].Raises?
    ensures Join(ps, |ps|) == ps[k]
  {
    JoinRaises(ps, k + 1, |ps|);
  }

  /** When pieces `0..k` do not raise and piece `k` does, the join raises with piece `k`'s error. */
  lemma JoinFirstError(ps: seq<Outcome<string>>, k: nat)
    requires k < |ps| && ps[k].Raises?
    requires forall j :: 0 <= j < k ==> ps[j].Ok?
    ensures Join(ps, |ps|) == ps[k]
  {
    JoinOk(ps, k);
    JoinRaises(ps, k + 1, |ps|);
  }

  /** A record is written exactly when none of its fields raises. */
  lemma WriteOk(values: seq<FieldValue>, fields: seq<Field>, rd: Renderer)
    ensures Write(values, fields, rd).Ok? ==> forall k :: 0 <= k < |fields| ==> Piece(values, fields, k, rd).Ok?
    ensures (forall k :: 0 <= k < |fields| ==> Piece(values, fields, k, rd).Ok?) ==> Write(values, fields, rd).Ok?
  {
    JoinOk(Pieces(values, fields, rd), |fields|);
  }

  /** The first field that raises decides the error of the record. */
  lemma WriteFirstError(values: seq<FieldValue>, fields: seq<Field>, k: nat, rd: Renderer)
    requires k < |fields| && Piece(values, fields, k, rd).Raises?
    requires forall j :: 0 <= j < k ==> Piece(values, fields, j, rd).Ok?
    ensures Write(values, fields, rd) == Piece(values, fields, k, rd)
  {
    JoinFirstError(Pieces(values, fields, rd), k);
  }

  /** Running out of values before a field raises `IndexError`, even for an `X` field. */
  lemma WriteRunsOut(values: seq<FieldValue>, fields: seq<Field>, k: nat, rd: Renderer)
    requires k < |fields| && ValuedBefore(fields, k) >= |values|
    requires forall j :: 0 <= j < k ==> Piece(values, fields, j, rd).Ok?
    ensures Write(values, fields, rd) == Raises(IndexError)
  {
    WriteFirstError(values, fields, k, rd);
  }

  /** `piece` occupies the columns of field `k` in `line`. */
  predicate Placed(line: string, fields: seq<Field>, k: nat, piece: string)
    requires k < |fields|
  {
    StartOf(fields, k + 1) <= |line| && line[StartOf(fields, k)..StartOf(fields, k + 1)] == piece
  }

  lemma PlacedExtend(line: string, more: string, fields: seq<Field>, k: nat, piece: string)
    requires k < |fields| && Placed(line, fields, k, piece)
    ensures Placed(line + more, fields, k, piece)
  {
    assert (line + more)[StartOf(fields, k)..StartOf(fields, k + 1)] == line[StartOf(fields, k)..StartOf(fields, k + 1)];
  }

  /** Piece `k` exactly fills field `k`. */
  predicate Fills(ps: seq<Outcome<string>>, fields: seq<Field>, k: nat)
    requires k < |ps| && k < |fields|
  {
    ps[k].Ok? && |ps[k].value| == fields[k].width
  }

  /**
   * When every piece fills exactly its field's width, the joined text is as
   * long as the layout and piece `k` sits in the columns of field `k`.
   */
  lemma {:induction false} JoinColumns(ps: seq<Outcome<string>>, fields: seq<Field>, n: nat)
    requires |ps| == |fields| && n <= |fields|
    requires forall k :: 0 <= k < n ==> Fills(ps, fields, k)
    ensures Join(ps, n).Ok? && |Join(ps, n).value| == StartOf(fields, n)
    ensures forall k :: 0 <= k < n ==> ps[k].Ok? && Placed(Join(ps, n).value, fields, k, ps[k].value)
  {
    if n > 0 {
      JoinColumns(ps, fields, n - 1);
      assert Fills(ps, fields, n - 1);
      var s, p := Join(ps, n - 1).value, ps[n - 1].value;
      JoinStep(ps, n);
      forall k | 0 <= k < n
        ensures ps[k].Ok? && Placed(s + p, fields, k, ps[k].value)
      {
        assert Fills(ps, fields, k);
        if k < n - 1 {
          PlacedExtend(s, p, fields, k, ps[k].value);
        } else {
          assert (s + p)[|s|..] == p;
        }
      }
    }
  }

  /** When every field is written at exactly its width, field `k` sits in its own columns of the record. */
  lemma WriteColumns(values: seq<FieldValue>, fields: seq<Field>, rd: Renderer)
    requires forall k :: 0 <= k < |fields| ==> Piece(values, fields, k, rd).Ok?
    requires forall k :: 0 <= k < |fields| ==> |Piece(values, fields, k, rd).value| == fields[k].width
    ensures Write(values, fields, rd).Ok? && |Write(values, fields, rd).value| == StartOf(fields, |fields|)
    ensures forall k :: 0 <= k < |fields| ==>
              Placed(Write(values, fields, rd).value, fields, k, Piece(values, fields, k, rd).value)
  {
    var ps := Pieces(values, fields, rd);
    forall k | 0 <= k < |fields|
      ensures Fills(ps, fields, k)
    {
    }
    JoinColumns(ps, fields, |fields|);
  }
}
