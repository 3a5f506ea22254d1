/**
 * The parts of the Java platform that the two record types lean on:
 * fixed-width integers, `Long.compare`, the `%` operator on `int`, and
 * `String.split` with a one-character separator.
 */
module JavaLang {

  /** A Java `int`. */
  type int32 = x: int | -0x8000_0000 <= x < 0x8000_0000

  /** A Java `long`. */
  type int64 = x: int | -0x8000_0000_0000_0000 <= x < 0x8000_0000_0000_0000

  /** The raw bit pattern of a Java `float`, carried without interpretation. */
  type FloatBits = x: int | 0 <= x < 0x1_0000_0000

  /** The raw bit pattern of a Java `double`, carried without interpretation. */
  type DoubleBits = x: int | 0 <= x < 0x1_0000_0000_0000_0000

  /** `Long.compare(x, y)`: negative, zero or positive as x is below, equal to or above y. */
  function LongCompare(x: int64, y: int64): (r: int)
    ensures -1 <= r <= 1
    ensures r < 0 <==> x < y
    ensures r == 0 <==> x == y
  {
    if x < y then -1 else if x == y then 0 else 1
  }

  /** Java's `a / b` for a positive divisor: the quotient rounded toward zero. */
  function JavaDiv(a: int, b: int): int
    requires b > 0
  {
    if a >= 0 then a / b else -((-a) / b)
  }

  /**
   * Java's `a % b` for a positive divisor: division truncates toward zero,
   * so the remainder carries the sign of the dividend (Dafny's own `%` is
   * Euclidean and never negative). Together with the quotient it
   * recomposes the dividend, as `(a / b) * b + a % b == a` does in Java.
   */
  function JavaRem(a: int, b: int): (r: int)
    requires b > 0
    ensures a == b * JavaDiv(a, b) + r
    ensures -b < r < b
    ensures a >= 0 ==> r >= 0
    ensures a <= 0 ==> r <= 0
  {
    if a >= 0 then a % b else -((-a) % b)
  }

  /** Position of the first occurrence of `c` in `s`. */
  function IndexOf(s: string, c: char): (i: nat)
    requires c in s
    ensures i < |s| && s[i] == c
    ensures c !in s[..i]
  {
    if s[0] == c then 0
    else
      var j := IndexOf(s[1..], c);
      assert s[..1 + j] == [s[0]] + s[1..][..j];
      1 + j
  }

  /**
   * All pieces of `s` between occurrences of `c`, empty pieces included:
   * n separators give n + 1 pieces.
   */
  function SplitAll(s: string, c: char): (pieces: seq<string>)
    ensures |pieces| >= 1
    ensures forall k :: 0 <= k < |pieces| ==> c !in pieces[k]
    decreases |s|
  {
    if c !in s then [s]
    else
      var i := IndexOf(s, c);
      [s[..i]] + SplitAll(s[i + 1..], c)
  }

  /** Drops the empty strings at the end of `pieces`, as `String.split` does. */
  function StripTrailingEmpty(pieces: seq<string>): (r: seq<string>)
    ensures r <= pieces
    ensures |r| > 0 ==> r[|r| - 1] != ""
    ensures forall k :: |r| <= k < |pieces| ==> pieces[k] == ""
  {
    if |pieces| > 0 && pieces[|pieces| - 1] == "" then StripTrailingEmpty(pieces[..|pieces| - 1])
    else pieces
  }

  /**
   * `s.split(String.valueOf(c))` for a character that is not special in a
   * regular expression. When `c` does not occur, the answer is `[s]` as it
   * is (so `"".split("/")` is `[""]`); otherwise the pieces with the
   * trailing empty ones removed, which leaves nothing when `s` is made of
   * separators only.
   */
  function JavaSplit(s: string, c: char): (pieces: seq<string>)
    ensures forall k :: 0 <= k < |pieces| ==> c !in pieces[k]
    ensures |pieces| == 0 <==> |s| > 0 && forall i :: 0 <= i < |s| ==> s[i] == c
    ensures |pieces| > 0 ==> pieces[0] <= s && (|pieces[0]| < |s| ==> s[|pieces[0]|] == c)
  {
    if c !in s then
      assert |s| > 0 ==> s[0] in s;
      [s]
    else
      var all := SplitAll(s, c);
      SplitAllEmptyIffSeparatorsOnly(s, c);
      StripTrailingEmpty(all)
  }

  /** Every character of `s` is `c`. */
  predicate SeparatorsOnly(s: string, c: char) {
    forall i :: 0 <= i < |s| ==> s[i] == c
  }

  /** Every piece is the empty string. */
  predicate AllEmpty(pieces: seq<string>) {
    forall k :: 0 <= k < |pieces| ==> pieces[k] == ""
  }

  /** Every piece of `s` is empty exactly when `s` consists of separators only. */
  lemma SplitAllEmptyIffSeparatorsOnly(s: string, c: char)
    ensures AllEmpty(SplitAll(s, c)) <==> SeparatorsOnly(s, c)
  {
    if SeparatorsOnly(s, c) {
      SeparatorsGiveEmptyPieces(s, c);
    }
    if AllEmpty(SplitAll(s, c)) {
      EmptyPiecesGiveSeparators(s, c);
    }
  }

  /** A string of separators only splits into empty pieces. */
  lemma {:induction false} SeparatorsGiveEmptyPieces(s: string, c: char)
    requires SeparatorsOnly(s, c)
    ensures AllEmpty(SplitAll(s, c))
    decreases |s|
  {
    if |s| == 0 {
      assert SplitAll(s, c) == [s];
    } else {
      assert s[0] == c;
      assert IndexOf(s, c) == 0;
      var t := s[1..];
      assert SeparatorsOnly(t, c) by {
        forall j | 0 <= j < |t| ensures t[j] == c {
          assert t[j] == s[j + 1];
        }
      }
      SeparatorsGiveEmptyPieces(t, c);
      assert SplitAll(s, c) == [s[..0]] + SplitAll(t, c);
    }
  }

  /** A string whose pieces are all empty holds separators only. */
  lemma {:induction false} EmptyPiecesGiveSeparators(s: string, c: char)
    requires AllEmpty(SplitAll(s, c))
    ensures SeparatorsOnly(s, c)
    decreases |s|
  {
    if c !in s {
      assert SplitAll(s, c) == [s];
      assert SplitAll(s, c)[0] == s;
    } else {
      var i := IndexOf(s, c);
      var t := s[i + 1..];
      var pieces := SplitAll(s, c);
      assert pieces == [s[..i]] + SplitAll(t, c);
      assert pieces[0] == s[..i];
      assert |s[..i]| == i;
      assert AllEmpty(SplitAll(t, c)) by {
        forall k | 0 <= k < |SplitAll(t, c)| ensures SplitAll(t, c)[k] == "" {
          assert pieces[k + 1] == SplitAll(t, c)[k];
        }
      }
      EmptyPiecesGiveSeparators(t, c);
      forall j | 0 <= j < |s| ensures s[j] == c {
        if j > 0 {
          assert s[j] == t[j - 1];
        }
      }
    }
  }
}
