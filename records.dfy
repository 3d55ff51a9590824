/**
 * Bus (DBAR) and circuit (DCIR) records and their column-exact parsers.
 *
 * A field `(first, last)` is read from `line[first..last + 1]`, but only when
 * the line holds at least `last` characters. Fields are read in order; the
 * first field whose guard fails, and every field after it, takes its default.
 */
module Records {
  import opened Common
  import opened Coerce

  datatype BusRecord = BusRecord(nb: int, nome: string, vbase: real)

  datatype CircuitRecord = CircuitRecord(de: int, para: int, num: int, r1: real, x1: real, r0: real, x0: real)

  /** The text of columns `first` through `last`, as far as the line reaches. */
  function Column(line: string, first: nat, last: nat): string
    requires first <= last
  {
    Slice(line, first, last + 1)
  }

  // Bus columns and defaults.
  const BusNbLast := 4
  const BusNameLast := 20
  const BusVbaseLast := 34
  const DefaultNb := 0
  const DefaultBusName := "BARRA"
  const DefaultVbase := 500.0

  /** How many leading bus fields the line is long enough to hold. */
  function BusFieldsRead(line: string): (n: nat)
    ensures n <= 3
    ensures forall i :: 0 <= i < 3 ==> (i < n <==> |line| >= [BusNbLast, BusNameLast, BusVbaseLast][i])
  {
    if |line| < BusNbLast then 0
    else if |line| < BusNameLast then 1
    else if |line| < BusVbaseLast then 2
    else 3
  }

  /** The bus record a line decodes to: read fields first, defaults after. */
  function ParseBus(line: string): (r: BusRecord)
    ensures |line| < BusNbLast ==> r == BusRecord(DefaultNb, DefaultBusName, DefaultVbase)
    ensures |line| >= BusNbLast ==> r.nb == TryInt(line[0..Min(5, |line|)])
    ensures |line| < BusNameLast ==> r.nome == DefaultBusName
    ensures |line| >= BusNameLast ==> r.nome == line[9..Min(21, |line|)]
    ensures |line| < BusVbaseLast ==> r.vbase == DefaultVbase
    ensures |line| >= BusVbaseLast ==> r.vbase == TryFloat(line[31..Min(35, |line|)])
  {
    var n := BusFieldsRead(line);
    BusRecord(
      if n >= 1 then TryInt(Column(line, 0, 4)) else DefaultNb,
      if n >= 2 then Column(line, 9, 20) else DefaultBusName,
      if n >= 3 then TryFloat(Column(line, 31, 34)) else DefaultVbase)
  }

  // Circuit columns and defaults.
  const CircuitLasts := [4, 11, 15, 22, 28, 34, 40]
  const DefaultDe := 1
  const DefaultPara := 2
  const DefaultNum := 1

  /** How many leading circuit fields the line is long enough to hold. */
  function CircuitFieldsRead(line: string): (n: nat)
    ensures n <= 7
    ensures forall i :: 0 <= i < 7 ==> (i < n <==> |line| >= CircuitLasts[i])
  {
    if |line| < 4 then 0
    else if |line| < 11 then 1
    else if |line| < 15 then 2
    else if |line| < 22 then 3
    else if |line| < 28 then 4
    else if |line| < 34 then 5
    else if |line| < 40 then 6
    else 7
  }

  /** The circuit record a line decodes to; impedances carry implied decimals. */
  function ParseCircuit(line: string): (r: CircuitRecord)
    ensures |line| < 4 ==> r == CircuitRecord(DefaultDe, DefaultPara, DefaultNum, 0.0, 0.0, 0.0, 0.0)
    ensures |line| < 11 ==> r.para == DefaultPara
    ensures |line| < 15 ==> r.num == DefaultNum
    ensures |line| < 22 ==> r.r1 == 0.0 && r.x1 == 0.0 && r.r0 == 0.0 && r.x0 == 0.0
    ensures |line| < 28 ==> r.x1 == 0.0 && r.r0 == 0.0 && r.x0 == 0.0
    ensures |line| < 34 ==> r.r0 == 0.0 && r.x0 == 0.0
    ensures |line| < 40 ==> r.x0 == 0.0
    ensures |line| >= 4 ==> r.de == TryInt(line[0..Min(5, |line|)])
    ensures |line| >= 11 ==> r.para == TryInt(line[7..Min(12, |line|)])
    ensures |line| >= 15 ==> r.num == TryInt(line[14..Min(16, |line|)])
    ensures |line| >= 22 ==> r.r1 == TryAnafasFloat(line[17..Min(23, |line|)])
    ensures |line| >= 28 ==> r.x1 == TryAnafasFloat(line[23..Min(29, |line|)])
    ensures |line| >= 34 ==> r.r0 == TryAnafasFloat(line[29..Min(35, |line|)])
    ensures |line| >= 40 ==> r.x0 == TryAnafasFloat(line[35..Min(41, |line|)])
  {
    var n := CircuitFieldsRead(line);
    CircuitRecord(
      if n >= 1 then TryInt(Column(line, 0, 4)) else DefaultDe,
      if n >= 2 then TryInt(Column(line, 7, 11)) else DefaultPara,
      if n >= 3 then TryInt(Column(line, 14, 15)) else DefaultNum,
      if n >= 4 then TryAnafasFloat(Column(line, 17, 22)) else 0.0,
      if n >= 5 then TryAnafasFloat(Column(line, 23, 28)) else 0.0,
      if n >= 6 then TryAnafasFloat(Column(line, 29, 34)) else 0.0,
      if n >= 7 then TryAnafasFloat(Column(line, 35, 40)) else 0.0)
  }

  /** A DBAR card row; `Parse` sets every field in column order. */
  class DBar {
    var nb: int
    var nome: string
    var vbase: real

    function Record(): BusRecord
      reads this
    {
      BusRecord(nb, nome, vbase)
    }

    constructor (line: string)
      ensures Record() == ParseBus(line)
    {
      nb := 0;
      nome := "";
      vbase := 500.0;
      new;
      Parse(line);
    }

    method Parse(line: string)
      modifies this
      ensures Record() == ParseBus(line)
    {
      var lineEnd := false;

      if |line| >= BusNbLast {
        nb := TryInt(Column(line, 0, 4));
      } else {
        nb := DefaultNb;
        lineEnd := true;
      }

      if !lineEnd && |line| >= BusNameLast {
        nome := Column(line, 9, 20);
      } else {
        nome := DefaultBusName;
        lineEnd := true;
      }

      if !lineEnd && |line| >= BusVbaseLast {
        vbase := TryFloat(Column(line, 31, 34));
      } else {
        vbase := DefaultVbase;
        lineEnd := true;
      }
    }
  }

  /** A DCIR card row; `Parse` sets every field in column order. */
  class DCir {
    var de: int
    var para: int
    var num: int
    var r1: real
    var x1: real
    var r0: real
    var x0: real

    function Record(): CircuitRecord
      reads this
    {
      CircuitRecord(de, para, num, r1, x1, r0, x0)
    }

    constructor (line: string)
      ensures Record() == ParseCircuit(line)
    {
      de, para, num := 0, 0, 1;
      r1, x1, r0, x0 := 0.0, 0.0, 0.0, 0.0;
      new;
      Parse(line);
    }

    method Parse(line: string)
      modifies this
      ensures Record() == ParseCircuit(line)
    {
      var lineEnd := false;

      if |line| >= 4 {
        de := TryInt(Column(line, 0, 4));
      } else {
        de := DefaultDe;
        lineEnd := true;
      }

      if !lineEnd && |line| >= 11 {
        para := TryInt(Column(line, 7, 11));
      } else {
        para := DefaultPara;
        lineEnd := true;
      }

      if !lineEnd && |line| >= 15 {
        num := TryInt(Column(line, 14, 15));
      } else {
        num := DefaultNum;
        lineEnd := true;
      }

      if !lineEnd && |line| >= 22 {
        r1 := TryAnafasFloat(Column(line, 17, 22));
      } else {
        r1 := 0.0;
        lineEnd := true;
      }

      if !lineEnd && |line| >= 28 {
        x1 := TryAnafasFloat(Column(line, 23, 28));
      } else {
        x1 := 0.0;
        lineEnd := true;
      }

      if !lineEnd && |line| >= 34 {
        r0 := TryAnafasFloat(Column(line, 29, 34));
      } else {
        r0 := 0.0;
        lineEnd := true;
      }

      if !lineEnd && |line| >= 40 {
        x0 := TryAnafasFloat(Column(line, 35, 40));
      } else {
        x0 := 0.0;
        lineEnd := true;
      }
    }
  }

  // ---------------------------------------------------------------------
  // Properties
  // ---------------------------------------------------------------------

  lemma ColumnOfExtension(line: string, rest: string, first: nat, last: nat)
    requires first <= last < |line|
    ensures Column(line + rest, first, last) == Column(line, first, last)
  {
    assert (line + rest)[first..last + 1] == line[first..last + 1];
  }

  /** Only the first 35 columns of a bus row are ever looked at. */
  lemma {:induction false} BusIgnoresTail(line: string, rest: string)
    requires |line| >= 35
    ensures ParseBus(line + rest) == ParseBus(line)
  {
    ColumnOfExtension(line, rest, 0, 4);
    ColumnOfExtension(line, rest, 9, 20);
    ColumnOfExtension(line, rest, 31, 34);
  }

  /** Only the first 41 columns of a circuit row are ever looked at. */
  lemma {:induction false} CircuitIgnoresTail(line: string, rest: string)
    requires |line| >= 41
    ensures ParseCircuit(line + rest) == ParseCircuit(line)
  {
    ColumnOfExtension(line, rest, 0, 4);
    ColumnOfExtension(line, rest, 7, 11);
    ColumnOfExtension(line, rest, 14, 15);
    ColumnOfExtension(line, rest, 17, 22);
    ColumnOfExtension(line, rest, 23, 28);
    ColumnOfExtension(line, rest, 29, 34);
    ColumnOfExtension(line, rest, 35, 40);
  }

  /**
   * The ragged-tail rule for circuits: once the line is too short for one
   * field, that field and every later one hold their default.
   */
  lemma CircuitCascade(line: string, i: nat)
    requires i < 7 && |line| < CircuitLasts[i]
    ensures var c := ParseCircuit(line);
      && (i <= 0 ==> c.de == DefaultDe)
      && (i <= 1 ==> c.para == DefaultPara)
      && (i <= 2 ==> c.num == DefaultNum)
      && (i <= 3 ==> c.r1 == 0.0)
      && (i <= 4 ==> c.x1 == 0.0)
      && (i <= 5 ==> c.r0 == 0.0)
      && (i <= 6 ==> c.x0 == 0.0)
  {
  }

  /** The ragged-tail rule for buses. */
  lemma BusCascade(line: string, i: nat)
    requires i < 3 && |line| < [BusNbLast, BusNameLast, BusVbaseLast][i]
    ensures var b := ParseBus(line);
      && (i <= 0 ==> b.nb == DefaultNb)
      && (i <= 1 ==> b.nome == DefaultBusName)
      && b.vbase == DefaultVbase
  {
  }
}
