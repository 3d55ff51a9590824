/**
 * Fixed-width text helpers and the identifiers of the target simulator:
 * padding as Python's `str.format` does it, the right-padding loop, and the
 * bus-name sanitisers used to build node names of at most five characters.
 */
module Text {
  import opened Common

  /** `"{:w}".format(s)` for a string: left-aligned, padded to at least `w`. */
  function PadRight(s: string, w: int): (r: string)
    ensures |r| == Max(|s|, w)
    ensures r[..|s|] == s
    ensures forall i :: |s| <= i < |r| ==> r[i] == ' '
  {
    SpacesBlank(w - |s|);
    s + Spaces(w - |s|)
  }

  /** `"{:>w}".format(s)`: right-aligned, padded to at least `w`. */
  function PadLeft(s: string, w: int): (r: string)
    ensures |r| == Max(|s|, w)
    ensures r[|r| - |s|..] == s
    ensures forall i :: 0 <= i < |r| - |s| ==> r[i] == ' '
  {
    SpacesBlank(w - |s|);
    Spaces(w - |s|) + s
  }

  /** `"{:w.w}".format(s)`: cut to `w` characters, then padded to exactly `w`. */
  function Fit(s: string, w: nat): (r: string)
    ensures |r| == w
    ensures |s| <= w ==> r == PadRight(s, w)
    ensures |s| >= w ==> r == s[..w]
  {
    PadRight(s[..Min(w, |s|)], w)
  }

  /** `__insertRightWhitespace`: appends one space per missing column. */
  method InsertRightWhitespace(astr: string, columns: int) returns (newstr: string)
    ensures newstr == PadRight(astr, columns)
  {
    var total := columns - |astr|;
    newstr := astr;
    for icol := 0 to Max(0, total)
      invariant newstr == astr + Spaces(icol)
    {
      newstr := newstr + " ";
    }
  }

  /** A comment card `C` padded with blanks to the given width, newline-terminated. */
  function CommentLine(columnWidth: int): (r: string)
    ensures |r| == Max(1, columnWidth) + 1
    ensures r[0] == 'C' && r[|r| - 1] == '\n'
    ensures forall i :: 1 <= i < |r| - 1 ==> r[i] == ' '
  {
    PadRight("C", columnWidth) + "\n"
  }

  /** `__empty_comment_line`: a comment card `C` blank to the given width. */
  method EmptyCommentLine(columnWidth: int) returns (r: string)
    ensures r == CommentLine(columnWidth)
    ensures |r| == Max(1, columnWidth) + 1
    ensures r[0] == 'C' && r[|r| - 1] == '\n'
    ensures forall i :: 1 <= i < |r| - 1 ==> r[i] == ' '
  {
    var body := InsertRightWhitespace("C", columnWidth);
    r := body + "\n";
  }

  // ---------------------------------------------------------------------
  // Node names
  // ---------------------------------------------------------------------

  /** `s.replace(c, "")`. */
  function RemoveChar(s: string, c: char): (r: string)
    ensures c !in r
    ensures |r| <= |s|
    ensures forall x :: x in r ==> x in s
  {
    if s == [] then ""
    else (if s[0] == c then "" else [s[0]]) + RemoveChar(s[1..], c)
  }

  /** Every character other than `c` occurs in the result exactly as often as in `s`; every `c` is gone. */
  lemma {:induction false} RemoveCharCounts(s: string, c: char)
    ensures forall x :: x != c ==> multiset(RemoveChar(s, c))[x] == multiset(s)[x]
    ensures |RemoveChar(s, c)| == |s| - multiset(s)[c]
    decreases |s|
  {
    if s != [] {
      assert s == [s[0]] + s[1..];
      RemoveCharCounts(s[1..], c);
    }
  }

  /** Removing a character distributes over concatenation, so the kept characters stay in order. */
  lemma {:induction false} RemoveCharAppend(a: string, b: string, c: char)
    ensures RemoveChar(a + b, c) == RemoveChar(a, c) + RemoveChar(b, c)
    decreases |a|
  {
    if a == [] {
      assert a + b == b;
    } else {
      assert (a + b)[0] == a[0] && (a + b)[1..] == a[1..] + b;
      RemoveCharAppend(a[1..], b, c);
    }
  }

  predicate IsLower(c: char) { 'a' <= c <= 'z' }

  function UpperChar(c: char): (u: char)
    ensures !IsLower(u)
  {
    if IsLower(c) then (c as int - 32) as char else c
  }

  /** `s.upper()` on ASCII letters. */
  function Upper(s: string): (r: string)
    ensures |r| == |s|
    ensures forall i :: 0 <= i < |r| ==> r[i] == UpperChar(s[i])
  {
    seq(|s|, i requires 0 <= i < |s| => UpperChar(s[i]))
  }

  predicate IsAtpName(s: string) {
    |s| <= 5 && '.' !in s && '#' !in s && ' ' !in s
    && forall i :: 0 <= i < |s| ==> !IsLower(s[i])
  }

  /** The characters of a bus name that may appear in a node name. */
  function Kept(name: string): (r: string)
    ensures '.' !in r && '#' !in r && ' ' !in r
  {
    RemoveChar(RemoveChar(RemoveChar(name, '.'), '#'), ' ')
  }

  /** `__getAtpName`: drop `.`, `#` and blanks, keep five characters, upper-case. */
  function AtpName(name: string): (r: string)
    ensures IsAtpName(r)
    ensures |r| == Min(5, |Kept(name)|)
    ensures forall i :: 0 <= i < |r| ==> r[i] == UpperChar(Kept(name)[i])
  {
    var k := Kept(name);
    var r := Upper(k[..Min(5, |k|)]);
    assert forall x :: x in r ==> x != '.' && x != '#' && x != ' ' by {
      forall x | x in r ensures x != '.' && x != '#' && x != ' ' {
        var i :| 0 <= i < |r| && r[i] == x;
        assert k[i] in k;
      }
    }
    r
  }

  lemma {:induction false} RemoveAbsent(s: string, c: char)
    requires c !in s
    ensures RemoveChar(s, c) == s
    decreases |s|
  {
    if s != [] {
      assert s[0] != c;
      RemoveAbsent(s[1..], c);
      assert [s[0]] + s[1..] == s;
    }
  }

  /** A clean node name is left as it is. */
  lemma {:induction false} AtpNameFixesCleanNames(s: string)
    requires IsAtpName(s)
    ensures AtpName(s) == s
  {
    RemoveAbsent(s, '.');
    RemoveAbsent(s, '#');
    RemoveAbsent(s, ' ');
    assert Kept(s) == s;
    assert s[..Min(5, |s|)] == s;
  }

  /** Sanitising a name twice is sanitising it once. */
  lemma {:induction false} AtpNameIdempotent(name: string)
    ensures AtpName(AtpName(name)) == AtpName(name)
  {
    AtpNameFixesCleanNames(AtpName(name));
  }

  /** `__getSourceName`: `F` followed by the first four characters of the node name. */
  function SourceName(name: string): (r: string)
    ensures 1 <= |r| <= 5 && r[0] == 'F'
    ensures StartsWith(AtpName(name), r[1..])
    ensures |r| == 1 + Min(4, |AtpName(name)|)
  {
    var a := AtpName(name);
    var r := "F" + a[..Min(4, |a|)];
    assert r[1..] == a[..Min(4, |a|)];
    r
  }

  /** The `mixnames` lambda: one prefix letter and two letters of each name. */
  function MixNames(prefix: string, name1: string, name2: string): (r: string)
    requires |prefix| > 0
    ensures |r| == 1 + Min(2, |name1|) + Min(2, |name2|) && |r| <= 5
    ensures r[0] == prefix[0]
    ensures StartsWith(name1, r[1..1 + Min(2, |name1|)])
    ensures r[1 + Min(2, |name1|)..] == name2[..Min(2, |name2|)]
  {
    var a, b := name1[..Min(2, |name1|)], name2[..Min(2, |name2|)];
    var r := [prefix[0]] + a + b;
    assert r[1..1 + |a|] == a;
    assert r[1 + |a|..] == b;
    r
  }
}
