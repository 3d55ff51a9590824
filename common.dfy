/** Small value types shared by every module of the model. */
module Common {

  datatype Option<T> = None | Some(value: T)

  /** The outcome of a Python call that either returns a value or raises. */
  datatype Outcome<T> = Ok(value: T) | Raises(error: string)

  function Min(a: int, b: int): int { if a <= b then a else b }

  function Max(a: int, b: int): int { if a <= b then b else a }

  /** Python's `s[a:b]` for 0 <= a <= b: both ends are clamped to the length. */
  function Slice(s: string, a: nat, b: nat): (r: string)
    requires a <= b
    ensures |r| == Max(0, Min(b, |s|) - a)
    ensures a <= |s| ==> r == s[a..Min(b, |s|)]
  {
    if a >= |s| then "" else s[a..Min(b, |s|)]
  }

  /** Python's `s.startswith(p)`, also the meaning of `s[0:|p|] == p`. */
  predicate StartsWith(s: string, p: string) {
    |p| <= |s| && s[..|p|] == p
  }

  /** `n` blanks (none when `n` is not positive). */
  function Spaces(n: int): (r: string)
    ensures |r| == Max(0, n)
  {
    if n <= 0 then "" else Spaces(n - 1) + " "
  }

  /** Every character of `Spaces(n)` is a blank. */
  lemma {:induction false} SpacesBlank(n: int)
    ensures forall i :: 0 <= i < |Spaces(n)| ==> Spaces(n)[i] == ' '
    decreases n
  {
    if n > 0 {
      SpacesBlank(n - 1);
    }
  }

  /** Lines joined with a terminating newline each, as the card writers emit them. */
  function Unlines(ls: seq<string>): string {
    if ls == [] then "" else Unlines(ls[..|ls| - 1]) + ls[|ls| - 1] + "\n"
  }

  /** Writing two runs of lines is writing them one after the other. */
  lemma {:induction false} UnlinesAppend(a: seq<string>, b: seq<string>)
    ensures Unlines(a + b) == Unlines(a) + Unlines(b)
    decreases |b|
  {
    if b == [] {
      assert a + b == a;
    } else {
      assert (a + b)[..|a + b| - 1] == a + b[..|b| - 1];
      UnlinesAppend(a, b[..|b| - 1]);
    }
  }
}
