# anafas2atp in Dafny

A model of the core of **anafas2atp**, a converter from short-circuit network
cases in the ANAFAS format to input cards for the ATP transient simulator.
The converter has three stages:

1. It reads the bus (`DBAR`) and circuit (`DCIR`) sections of an ANAFAS file.
   Each section is a run of fixed-column rows, found by a small card
   recogniser that follows which card is open.
2. It turns the fields of those rows into numbers with three forgiving
   coercions that never raise. ANAFAS impedances carry two implied decimals
   when written without a point.
3. It converts the records into ATP cards:
   - every circuit with exactly one end at bus 0 becomes a grounded source, a
     three-phase coupled branch;
   - every circuit between two buses becomes a branch. When the two voltage
     bases differ, or the zero-sequence path is cut, the converter adds a
     fictitious bus and a wye-wye or delta-delta transformer built from three
     single-phase units.

Node names are squeezed into the simulator's five-character identifiers.

Modules:

- `Common`: `Option`, `Outcome` (a value, or the Python exception a call
  raises), Python slicing and blank padding.
- `Coerce`: `str.strip`, the decimal grammar of `int()` and `float()`, and
  `try_int`, `try_float` and `try_anafas_float`.
- `Text`: `str.format` padding, `__insertRightWhitespace`,
  `__empty_comment_line`, `__getAtpName`, `__getSourceName` and `mixnames`.
- `Cards`: `__iscomment` and `__getCard`.
- `Records`: the `DBar` and `DCir` classes. Their `Parse` methods set the
  fields in column order, with the ragged-tail defaults.
- `Reader`: the `Anafas` class and its two read loops.
  - The loop state is a value (`ScanState`).
  - `Run` folds the loop body over the lines.
  - The loop methods are proved equal to that fold.
- `FixedFormat`: `__read_data_fformat` and `__write_data_fformat` over
  Fortran-style layouts.
- `Printing`: `printBranch` and `printTransformer`, as lists of rows.
- `Conversion`: `__convertSources`.
  - It is stated as the function `Convert`, with stage A (`SourceCards`) and
    stage B (`BranchRun`, a fold of `BranchStep`).
  - The method `ConvertSources` keeps the source's two loops and is proved
    equal to `Convert`.
  - The conversion is proved for any `Writer`, that is, any float renderer
    and any pair of branch and transformer writers. The program's own writer
    is `Standard(rd)`, made of `PrintBranch` and `PrintTransformer`.

Floats are exact reals. How Python turns a float into text (`str(x)`,
`"{:.2f}"` and `__fixedWidthNumber`) is a parameter: the `Renderer`.

## Model

| member | source | states |
|---|---|---|
| Common.Spaces | convert.py:282-289 | a run of `max(0, n)` characters |
| Common.SpacesBlank | convert.py:282-289 | every character of the run is a blank |
| Coerce.Strip | convert_utils.py:32 | `strip()` leaves no whitespace at either end and never lengthens the text |
| Coerce.StripPadding | convert_utils.py:32 | whitespace around a field never changes what `strip()` leaves |
| Coerce.StripTight | convert_utils.py:32 | text with no whitespace at either end is its own `strip()` |
| Coerce.NatDigitsValue | convert_utils.py:32 | the decimal text of `n` is all digits and reads back as `n` |
| Coerce.IntToStringTight | convert_utils.py:32 | `str(n)` has no whitespace at either end |
| Coerce.Find | convert_utils.py:64 | `find('.')` is -1 exactly when there is no `.`; otherwise it is the first index of one |
| Coerce.TryInt | convert_utils.py:27-37 | blank or non-integer text gives 0; otherwise the integer the stripped text spells |
| Coerce.TryFloat | convert_utils.py:40-50 | blank or unparsable text gives 0.0; otherwise the number the stripped text spells |
| Coerce.TryAnafasFloat | convert_utils.py:53-70 | with a `.` it is `try_float`; without one it is `try_float / 100`; unparsable text gives 0.0 |
| Coerce.TryIntIgnoresPadding | convert_utils.py:27-37 | blanks around a field never change `try_int` |
| Coerce.TryFloatIgnoresPadding | convert_utils.py:40-50 | blanks around a field never change `try_float` |
| Coerce.TryIntRoundTrip | convert_utils.py:27-37 | `try_int(str(n)) == n` for every integer |
| Coerce.TryFloatOfInteger | convert_utils.py:40-50 | `try_float(str(n)) == n` for every integer |
| Coerce.DigitsNoSign | convert_utils.py:64 | a digit string has no sign and no `.` |
| Coerce.DigitsFloat | convert_utils.py:45 | `float()` reads a digit string as its decimal value |
| Coerce.DottedFloat | convert_utils.py:45 | `float("w.f")` is the digits of `wf` scaled down by `len(f)` places |
| Coerce.AnafasImpliedDecimals | convert_utils.py:53-70 | `"wff"` and `"w.ff"` read as the same value: two implied decimals |
| Coerce.DottedTwoPlaces | convert_utils.py:53-70 | `"w.ff"` reads as the digits of `wff` over 100 |
| Coerce.UndottedAnafas | convert_utils.py:64-66 | a digit field with no point reads as its value over 100 |
| Coerce.DottedAnafas | convert_utils.py:64-66 | a dotted field reads as plain `float()` does |
| Text.PadRight | convert.py:36 | left-aligned: the text unchanged at the front, then only blanks up to the width; never cut |
| Text.PadLeft | convert.py:83-84 | right-aligned: only blanks, then the text unchanged at the end; never cut |
| Text.Fit | convert.py:364 | `{:w.w}` gives exactly `w` characters: padded when short, cut when long |
| Text.InsertRightWhitespace | convert.py:282-289 | the loop appends blanks up to `columns`; the result is the text left-aligned in that width |
| Text.EmptyCommentLine | convert.py:35-36 | `C`, blanks up to the width, then a newline; `max(1, width) + 1` characters |
| Text.CommentLine | convert.py:35-36 | the comment card: `C` in column 1, blanks up to the width, a newline; `max(1, width) + 1` characters |
| Text.RemoveChar | convert.py:271-272 | `replace(c, "")` leaves no `c`, adds nothing and never lengthens |
| Text.RemoveCharCounts | convert.py:271-272 | every other character occurs as often as before; the text shrinks by the number of `c`s |
| Text.RemoveCharAppend | convert.py:271-272 | removal works piece by piece, so the kept characters keep their order |
| Text.Upper | convert.py:274 | `upper()` keeps the length and upper-cases every letter |
| Text.AtpName | convert.py:264-274 | at most five characters; no `.`, `#`, blank or lower-case letter; the first five kept characters, upper-cased |
| Text.AtpNameFixesCleanNames | convert.py:264-274 | a name that is already a valid node name is left as it is |
| Text.AtpNameIdempotent | convert.py:264-274 | sanitising twice is sanitising once |
| Text.RemoveAbsent | convert.py:271-272 | removing a character that is absent changes nothing |
| Text.SourceName | convert.py:277-279 | `F` followed by the first four characters of the node name; one to five characters |
| Text.MixNames | convert.py:140 | the prefix letter, then up to two characters of each name; at most five characters |
| Cards.IsComment | anafas.py:41-45 | a line is a comment exactly when its first character is `(`; it is only asked of non-empty lines (each holds its newline) |
| Cards.CommentOpensNothing | anafas.py:41-110 | a comment line opens no card, is classified as no card and is not the `99999` sentinel, so inside a card only the comment test decides what happens to it |
| Cards.HeaderCard | anafas.py:51-94 | a card it names is one the line opens (keyword or section code) |
| Cards.HeaderCardExact | anafas.py:51-94 | a line that opens card `k` is classified as `k` |
| Cards.HeaderCardNone | anafas.py:51-94 | a line classified as no card opens none |
| Cards.OpensUnique | anafas.py:51-94 | no line opens two different cards |
| Cards.NextCard | anafas.py:47-110 | no open card: the card the line opens; a single-row card closes on its first non-comment row after one valid row; a multi-row card closes exactly at `99999`; otherwise the card stays open |
| Records.BusFieldsRead | anafas.py:209-244 | field `i` of a bus row is read exactly when the line is at least as long as the index of its last column |
| Records.CircuitFieldsRead | anafas.py:286-361 | field `i` of a circuit row is read exactly when the line is at least as long as the index of its last column |
| Records.ParseBus | anafas.py:209-244 | a line shorter than the number column gives the defaults 0, `BARRA`, 500 kV; once the line reaches column 4 the number is `try_int` of columns 0-4; the name is columns 9-20 once the line reaches column 20 and `BARRA` before; the voltage is `try_float` of columns 31-34 once the line reaches column 34 and 500 before (field by field: `BusFieldsRead`, `BusCascade`) |
| Records.ParseCircuit | anafas.py:286-361 | each field is read once the line reaches its last column and takes its default (1, 2, 1, then 0.0 for each impedance) before: the bus ids `de` (columns 0-4) and `para` (7-11) and the number (14-15) by `try_int`, and `r1` (17-22), `x1` (23-28), `r0` (29-34) and `x0` (35-40) by `try_anafas_float`, so with implied decimals (field by field: `CircuitFieldsRead`, `CircuitCascade`) |
| Records.DBar.constructor | anafas.py:197-201 | the new bus holds the record its line decodes to |
| Records.DBar.Parse | anafas.py:209-244 | sets the fields to `ParseBus` of the line: the number by `try_int` of columns 0-4, the name from columns 9-20 and the voltage by `try_float` of columns 31-34, each once the line reaches it, or their defaults from the first short field on |
| Records.DCir.constructor | anafas.py:269-278 | the new circuit holds the record its line decodes to |
| Records.DCir.Parse | anafas.py:286-361 | sets the fields to `ParseCircuit` of the line: the two bus ids and the circuit number by `try_int` and the four impedances by `try_anafas_float` (implied decimals), each from its own columns once the line reaches them, or their defaults from the first short field on |
| Records.ColumnOfExtension | anafas.py:211-212 | a column inside the line does not change when text is appended |
| Records.BusIgnoresTail | anafas.py:188-190 | only the first 35 columns of a bus row matter |
| Records.CircuitIgnoresTail | anafas.py:252-258 | only the first 41 columns of a circuit row matter |
| Records.BusCascade | anafas.py:209-244 | once a bus row is too short for a field, that field and every later one take their default |
| Records.CircuitCascade | anafas.py:286-361 | once a circuit row is too short for a field, that field and every later one take their default |
| Reader.ParseBuses | anafas.py:140-142 | one bus record per collected row, in order |
| Reader.ParseCircuits | anafas.py:168-170 | one circuit record per collected row, in order |
| Reader.Run | anafas.py:122-176 | the read loop as a fold over the lines: it collects at most one row per line and never drops a row (order and content: `RunAppend`, `RowsAreDataRows`, `SectionRecords`) |
| Reader.Scan | anafas.py:122-176 | one read pass from no open card collects at most as many rows as there are lines |
| Reader.Anafas.constructor | anafas.py:33-39 | `dbar` and `dcir` are the records of the rows a `DBAR` pass and a `DCIR` pass collect |
| Reader.Anafas.ReadCard | anafas.py:122-176 | the loop appends the records of exactly the rows the fold `Scan` collects, and leaves the other list alone |
| Reader.RunAppend | anafas.py:131-148 | reading two stretches of lines is reading their concatenation |
| Reader.MultiRowBody | anafas.py:105-108 | inside an open multi-row card, every non-comment row up to `99999` is collected |
| Reader.SectionRecords | anafas.py:105-108 | header, body and `99999` sentinel: the body's data rows are collected and the card closes |
| Reader.SingleRowComments | anafas.py:96-103 | comment lines leave an open single-row card as it was |
| Reader.SingleRowCloses | anafas.py:96-103 | a single-row card counts its first data row and closes on the next one, skipping comments |
| Reader.OutsideCards | anafas.py:51-94 | lines that open no card collect nothing while no card is open |
| Reader.HeaderAfterSingleRowIsMissed | anafas.py:96-103 | a section header on the row that closes a single-row card is not recognised, so that section's rows are not collected |
| Reader.RowsAreDataRows | anafas.py:140-142 | rows are only ever appended, and each collected row is neither a comment nor a `99999` sentinel |
| FixedFormat.StartOfMonotone | convert.py:63 | the cursor only moves forward |
| FixedFormat.ValuedBefore | convert.py:68 | the number of non-`X` fields before field `k` is at most `k` |
| FixedFormat.ReadCell | convert.py:52-60 | `A` gives the stripped text and never raises; `X` and unknown letters give `None`; `I` and `F` raise `ValueError` exactly when `int()` / `float()` refuse the stripped cell, and otherwise hold the number they give |
| FixedFormat.ReadOutcome | convert.py:39-69 | what `Read` gives: a line reads exactly when every cell converts; the only error is `ValueError`; the result has one entry per non-`X` field (entry by entry: `ReadEntry`) |
| FixedFormat.Collect | convert.py:47-64 | the cells in order, or the error of the first one that raises |
| FixedFormat.Extract | convert.py:47-64 | succeeds exactly when no cell raises, and then holds every cell |
| FixedFormat.ValuedUpTo | convert.py:68 | as many entries as non-`X` fields |
| FixedFormat.ReadDataFformat | convert.py:39-69 | the cursor loop returns the non-`X` cells of the line, each spanning its width plus one column, or raises with the first bad cell |
| FixedFormat.ExtractError | convert.py:52-60 | the only error a line raises is `ValueError` |
| FixedFormat.ReadEntry | convert.py:44-68 | field `k` lands at the position of its non-`X` rank; it is `None` when the line ends before it |
| FixedFormat.SuggestionArity | convert.py:117-123 | the name-suggestion layout unpacks into exactly five values |
| FixedFormat.VoltageCell | convert.py:52 | the voltage cell of a tight suggestion line takes the name's first letter and raises |
| FixedFormat.OverlapRaises | convert.py:52 | the tight suggestion line `"    1 AAAAA BBBBB 500.ITUMBIARA"` raises `ValueError`, although its voltage field alone reads 500.0 |
| FixedFormat.UncheckedCell | convert.py:55-62 | only integer and real cells can raise |
| FixedFormat.CheckedCellsRead | convert.py:47-64 | a line reads whenever its integer and real cells convert |
| FixedFormat.SuggestionCellsRead | convert.py:118 | a suggestion line reads whenever its bus number and its voltage convert |
| FixedFormat.ReadWithEntry | convert.py:44-68 | entry `k` of a read that succeeds is cell `k` of the line |
| FixedFormat.ReadExactLocal | convert.py:52 | with cells cut to their own width, a field's value depends on its own columns alone |
| FixedFormat.ExactReadsSample | convert.py:52 | with exact widths the tight suggestion line reads, and its voltage is 500.0 |
| FixedFormat.FieldText | convert.py:80-97 | a written field is at least its width; an `X` field is exactly its width in blanks; an `I` field is the integer right-aligned; an `A` field is a text left-aligned and an integer right-aligned, and never raises; the only error is `ValueError` |
| FixedFormat.Piece | convert.py:75-97 | a written field is at least its width; when no value is left at its non-`X` rank it raises `IndexError` |
| FixedFormat.WriteOutcome | convert.py:72-99 | what `Write` gives: a written record is at least as long as the layout; the only errors are `ValueError` and `IndexError` (which field decides: `WriteOk`, `WriteFirstError`, `WriteRunsOut`, `WriteColumns`) |
| FixedFormat.WriteDataFformat | convert.py:72-99 | the loop returns the pieces joined, or the error of the first field that raises |
| FixedFormat.WriteOk | convert.py:72-99 | a record is written exactly when no field raises |
| FixedFormat.WriteFirstError | convert.py:72-99 | the first field that raises decides the error |
| FixedFormat.WriteRunsOut | convert.py:76 | running out of values raises `IndexError`, even at an `X` field |
| FixedFormat.WriteColumns | convert.py:72-99 | when every field is written at exactly its width, each sits in its own columns and the record has the layout's length |
| Printing.PhaseRowWritten | convert.py:340-348 | the writer lays an impedance row out as code, names, 12 blanks, resistance and reactance |
| Printing.CoupledRowWritten | convert.py:341-349 | the writer lays the third row out as code and two names |
| Printing.PrintBranch | convert.py:318-351 | three newline-terminated rows: zero sequence `51` with the voltage note, positive sequence `52`, coupled row `53` (their columns: `ZeroSequenceNames`, `ZeroSequenceImpedance`, `PositiveSequenceNames`, `PositiveSequenceImpedance`, `CoupledRowLayout`) |
| Printing.ZeroSequenceNames | convert.py:336-347 | row `51` carries the node names with phase `A` in columns 2-7 and 8-13 |
| Printing.ZeroSequenceImpedance | convert.py:342-347 | row `51`: blanks in 14-25, `r0` in 26-31, `x0` in 32-43, then the voltage note |
| Printing.PositiveSequenceNames | convert.py:337-348 | row `52` carries the node names with phase `B` |
| Printing.PositiveSequenceImpedance | convert.py:343-348 | row `52`: `r1` in 26-31 and `x1` in 32-43, nothing after |
| Printing.CoupledRowLayout | convert.py:338-349 | row `53` is 14 columns: code and the names with phase `C` |
| Printing.ZeroPad2 | convert.py:371-372 | zero-filled to at least two characters, ending in the number's digits |
| Printing.BusStopName | convert.py:384-386 | bus-stop names of transformers 1 to 99 are six characters: kind, two digits, phase |
| Printing.UnitLength | convert.py:391-428 | a single-phase unit is four rows with its magnetising row, three without |
| Printing.UnitHeader | convert.py:391-418 | each unit opens with its `TRANSFORMER` row; the first is followed by the magnetising row |
| Printing.UnitWindings | convert.py:394-428 | each unit ends with its two winding rows |
| Printing.TransformerShape | convert.py:384-439 | ten rows plus three grounding rows per delta side; headers at rows 0, 4 and 7 with bus stops `TRD..A`, `TRY..B`, `TRY..C`; grounding rows last |
| Printing.PrintTransformer | convert.py:354-441 | the three single-phase units in phase order, then the grounding rows of the `de` side and of the `para` side (which row holds what: `TransformerShape`, `WindingRows`, `WindingNodes`) |
| Printing.WindingRows | convert.py:391-428 | phase `p`'s side-1 winding is at its fixed row and side 2 right after |
| Printing.WindingNodes | convert.py:394-423 | a wye winding runs from its phase node to ground; a delta winding runs to the next phase, A to B, B to C, C to A |
| Printing.WindingColumns | convert.py:367-368 | a winding row: side in column 1, nodes in columns 2-7 and 8-13 |
| Conversion.Factor | convert.py:142-148 | with `xopt` near zero, ohms to millihenries at `freq`, raising `ZeroDivisionError` at `freq == 0`; otherwise `freq / xopt` |
| Conversion.DefaultFactor | convert.py:130-148 | the default settings give factor 1 |
| Conversion.LastBusFound | convert.py:165-168 | the lookup finds a record exactly when one carries the id, and then it is the last such record |
| Conversion.ScanBuses | convert.py:163-168 | the stage-A lookup loop gives the last matching bus, or no name and 998 kV |
| Conversion.FindEnds | convert.py:212-219 | the stage-B lookup loop gives the last record of each end |
| Conversion.Matching | convert.py:176 | the filter keeps exactly the suggestions for the bus id or whose name contains the bus name |
| Conversion.MatchingFirst | convert.py:176-179 | the head of the filtered list is the first suggestion that matches |
| Conversion.SourceEnds | convert.py:173-184 | with no suggestions, or none that match, the source is `F` + name and its bus is the node name |
| Conversion.SuggestedEnds | convert.py:173-179 | when one matches, the first match's `bsrc` and `bfrom` name the source and its bus |
| Conversion.SourceBlockEmitted | convert.py:157-198 | a circuit writes a source block exactly when one end is bus 0 and the positive sequence is below the cutoff; the block opens with the bus comment and ends with `C` |
| Conversion.SourceCardsQuiet | convert.py:150-198 | with no source below the cutoff, stage A writes nothing |
| Conversion.CaseOf | convert.py:232-259 | same voltage with a zero-sequence path is a plain branch; a path with different voltages adds a wye-wye transformer; no path adds a delta-delta transformer |
| Conversion.BranchStepCounters | convert.py:210-259 | a circuit outside stage B changes nothing; one inside appends text and increments only its own case's counter |
| Conversion.BranchCounters | convert.py:201-259 | each counter ends at the number of circuits of its case, so each kind of transformer is numbered 1, 2, ... in input order |
| Conversion.BranchAppends | convert.py:203-259 | stage B only appends to what stage A wrote |
| Conversion.SourceStage | convert.py:151-198 | the stage-A body for one circuit writes exactly its source block |
| Conversion.ChooseCase | convert.py:232-259 | the if/elif/else picks the case `CaseOf` defines, and the transformer number and counters that go with it |
| Conversion.BranchStage | convert.py:205-259 | the stage-B body for one circuit gives exactly the next state of the fold |
| Conversion.ConvertSources | convert.py:130-261 | the two loops give the text of both stages, or the `ZeroDivisionError` the program raises |
| Conversion.Convert | convert.py:130-261 | for a writer that cannot fail, raises `ZeroDivisionError` exactly when the factor does or `sbase` is 0 with a source or branch circuit present; otherwise the stage-A text comes first and stage B only appends to it (`BranchAppends`, `BranchCounters`) |
| Conversion.SourceCardsStep | convert.py:150-198 | one more stage-A circuit appends its block |
| Conversion.BranchRunStep | convert.py:203-259 | one more stage-B circuit takes one step of the fold |

## Left out

- File I/O is not modelled. This covers `open` in `__read_dbar`/`__read_dcir`
  and the output file. The reader takes the file as a sequence of lines,
  each holding at least its newline.
- The per-line loop of `__read_name_suggestions` is left out. Its line parse
  is modelled as `Read` with `SuggestionFields`, and its `99999` test is left
  out. `Convert` takes the list of suggestions.
- The command line (`getopts`, the `__main__` driver) is left out.
- `__fixedWidthNumber` and Python's float-to-text formatting are parameters,
  because they depend on binary floating point. These are the `Renderer`
  fields `fixed`, `repr` and `narrow`.
- Floating point is not modelled:
  - numbers are exact reals;
  - `math.pi` is the literal it prints as;
  - `calcz(r, x) < Zmax` is compared squared, which for a positive `Zmax` is
    the same test.
- `int()` and `float()` accept only the grammar sign, digits and an optional
  point. Python's underscores, exponents, `inf`/`nan` and non-ASCII digits
  are left out. `upper()` and `strip()` work on ASCII only.
- Only the active comment style (`md == MD_HAMILTON`) is modelled. The other
  style is switched off by a constant.
- Conversion.Convert requires every stage-B circuit to find both of its
  buses. When one is missing, the program raises `NameError` or reuses names
  from an earlier circuit; this is not modelled.
- Records.ParseBus: a bus row too short to reach column 34 gets the
  program's integer default `500`, which the winding rows of
  Printing.WindingLine print as `500` under `{:>7}`. The model carries the
  real `500.0` (`DefaultVbase`), so it prints like a voltage read from the
  line. The integer/real distinction of that one default is not modelled.
- `NameSuggestion` fields are values. A `None` left by a short suggestion
  line is not modelled.
- Printing.PrintBranch is total: the numbers squeezed by `__fixedWidthNumber`
  enter as the reals `narrow` gives. In the program, a squeeze can leave text
  that `float()` refuses: `str(1.25e-07)` cut to six characters is
  `"1.25e-"`, and `__write_data_fformat` then raises `ValueError`. This
  error path is not modelled, so Conversion.Convert's "raises exactly when"
  covers only `ZeroDivisionError` and holds for renderers whose squeezed
  text always reads back.
- Conversion.Convert: does not promise the `ValueError` of a squeezed number
  that `float()` refuses (see Printing.PrintBranch above); its error clauses
  speak of `ZeroDivisionError` only.
- Printing.PrintBranch and Printing.PrintTransformer are passed to
  `Conversion` through `Writer`. The conversion is proved for any writer, and
  `Standard` is the program's own.
- Unused constants and the dead `BUSTOP_MASK` statement in
  `printTransformer` are left out.

## Findings

| source | as written | input that shows it | evidently intended | confidence | as-written member | corrected member |
|---|---|---|---|---|---|---|
| convert.py:52 | each cell spans `chars + 1` columns while the cursor advances by `chars`, so the `F4.1` voltage cell also takes the first letter of the bus name | the suggestion line `"    1 AAAAA BBBBB 500.ITUMBIARA"` raises `ValueError` | a cell spans exactly its field's width, as in a Fortran format, so the line reads with voltage 500.0 | not executed | FixedFormat.OverlapRaises | FixedFormat.ExactReadsSample |

`FixedFormat.Read` models the code as written and is what `ReadDataFformat`
is proved against. `FixedFormat.ReadExact` is the corrected reader.
`FixedFormat.ReadExactLocal` proves that, under it, a field's value depends on
its own columns alone.
