/**
 * The card classifier of the short-circuit network reader: given the card
 * open before a line and the number of data rows it has read, decide which
 * card the line belongs to.
 */
module Cards {
  import opened Common

  datatype Card =
    | NoCard  // between cards
    | Tipo | Titu | Cmnt | Base  // single-row cards
    | Dbar | Dcir | Dmut | Dmov | Dshl | Deol | Dare  // multi-row cards, closed by `99999`
  {
    predicate SingleRow() { this == Tipo || this == Titu || this == Cmnt || this == Base }

    predicate MultiRow() { this != NoCard && !SingleRow() }
  }

  /** The keyword that opens a card in its first four columns. */
  function Keyword(k: Card): string {
    match k
    case NoCard => ""
    case Tipo => "TIPO"
    case Titu => "TITU"
    case Cmnt => "CMNT"
    case Base => "BASE"
    case Dbar => "DBAR"
    case Dcir => "DCIR"
    case Dmut => "DMUT"
    case Dmov => "DMOV"
    case Dshl => "DSHL"
    case Deol => "DEOL"
    case Dare => "DARE"
  }

  /** The numeric section code that also opens a card in its first three columns, or "". */
  function Code(k: Card): string {
    match k
    case Tipo => "  0"
    case Titu => "  1"
    case Cmnt => "  2"
    case Base => "100"
    case Dbar => " 38"
    case Dcir => " 37"
    case Dmut => " 39"
    case Dmov => " 36"
    case Dshl => " 35"
    case _ => ""
  }

  /** The card-opening table: `line` opens card `k`. */
  predicate Opens(line: string, k: Card) {
    k != NoCard && (StartsWith(line, Keyword(k)) || (Code(k) != "" && StartsWith(line, Code(k))))
  }

  /** A comment line begins with `(`. */
  predicate IsComment(line: string)
    requires |line| > 0
  {
    line[0] == '('
  }

  /**
   * A comment is never mistaken for a card boundary: it opens no card and is
   * not the `99999` sentinel, so only the comment test decides its fate.
   */
  lemma CommentOpensNothing(line: string)
    requires |line| > 0 && IsComment(line)
    ensures forall k :: !Opens(line, k)
    ensures HeaderCard(line) == NoCard
    ensures !StartsWith(line, "99999")
  {
  }

  /**
   * The header tests run while no card is open. They are consecutive `if`s,
   * so a later match overrides an earlier one; the table's prefixes are
   * pairwise incompatible, so at most one matches and the order is moot.
   */
  function HeaderCard(line: string): (r: Card)
    ensures r != NoCard ==> Opens(line, r)
  {
    var c0 := NoCard;
    var c1 := if StartsWith(line, "TIPO") || StartsWith(line, "  0") then Tipo else c0;
    var c2 := if StartsWith(line, "TITU") || StartsWith(line, "  1") then Titu else c1;
    var c3 := if StartsWith(line, "CMNT") || StartsWith(line, "  2") then Cmnt else c2;
    var c4 := if StartsWith(line, "BASE") || StartsWith(line, "100") then Base else c3;
    var c5 := if StartsWith(line, "DBAR") || StartsWith(line, " 38") then Dbar else c4;
    var c6 := if StartsWith(line, "DCIR") || StartsWith(line, " 37") then Dcir else c5;
    var c7 := if StartsWith(line, "DMUT") || StartsWith(line, " 39") then Dmut else c6;
    var c8 := if StartsWith(line, "DMOV") || StartsWith(line, " 36") then Dmov else c7;
    var c9 := if StartsWith(line, "DSHL") || StartsWith(line, " 35") then Dshl else c8;
    var c10 := if StartsWith(line, "DEOL") then Deol else c9;
    var c11 := if StartsWith(line, "DARE") then Dare else c10;
    c11
  }

  /** A line that opens a card is classified as that card. */
  lemma HeaderCardExact(line: string, k: Card)
    requires Opens(line, k)
    ensures HeaderCard(line) == k
  {
    assert HeaderCard(line) != NoCard;
    OpensUnique(line);
  }

  /** A line classified as no card opens none. */
  lemma HeaderCardNone(line: string)
    ensures HeaderCard(line) == NoCard ==> forall k :: !Opens(line, k)
  {
    forall k | Opens(line, k)
      ensures HeaderCard(line) != NoCard
    {
      HeaderCardExact(line, k);
    }
  }

  /** No line opens two different cards. */
  lemma OpensUnique(line: string)
    ensures forall k, k' :: Opens(line, k) && Opens(line, k') ==> k == k'
  {
    forall k, k' | Opens(line, k) && Opens(line, k')
      ensures k == k'
    {
      var p := if StartsWith(line, Keyword(k)) then Keyword(k) else Code(k);
      var p' := if StartsWith(line, Keyword(k')) then Keyword(k') else Code(k');
      assert StartsWith(line, p) && StartsWith(line, p');
      assert |p| >= 3 && |p'| >= 3;
      assert line[0] == p[0] && line[0] == p'[0];
      assert line[1] == p[1] && line[1] == p'[1];
      assert line[2] == p[2] && line[2] == p'[2];
      if |p| == 4 && |p'| == 4 {
        assert line[3] == p[3] && line[3] == p'[3];
      }
    }
  }

  /** `__getCard`: the card the line belongs to. */
  function NextCard(line: string, lastcard: Card, validrows: int): (r: Card)
    requires lastcard.SingleRow() ==> |line| > 0
    ensures lastcard == NoCard && r == NoCard ==> forall k :: !Opens(line, k)
    ensures lastcard == NoCard && r != NoCard ==> Opens(line, r)
    ensures lastcard.SingleRow() ==> (r == NoCard <==> !IsComment(line) && validrows == 1)
    ensures lastcard.MultiRow() ==> (r == NoCard <==> StartsWith(line, "99999"))
    ensures lastcard != NoCard && r != NoCard ==> r == lastcard
  {
    if lastcard == NoCard then
      HeaderCardNone(line);
      HeaderCard(line)
    else if lastcard == Tipo || lastcard == Titu || lastcard == Cmnt || lastcard == Base then
      if !IsComment(line) && validrows == 1 then NoCard else lastcard
    else
      if StartsWith(line, "99999") then NoCard else lastcard
  }
}
