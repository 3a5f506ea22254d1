/**
 * The serialized form shared by every message of the model.
 *
 * The records are stored as protocol-buffer messages, and the protocol-buffer
 * runtime is not part of this model. In its place stands a small concrete
 * codec over a sequence of tokens (a number or a character each). What the
 * records rely on is kept: every message has a serialized form, parsing the
 * serialized form gives the message back, parsing may fail on malformed
 * input, the all-defaults message serializes to the empty sequence and the
 * empty sequence parses to the all-defaults message.
 */
module Wire {
  import opened Wrappers

  /** One unit of serialized data. */
  datatype Token = Num(n: int) | Chr(c: char)

  /** A serialized message (a protocol-buffer byte array). */
  type Bytes = seq<Token>

  // ----- Integers and booleans -----

  function EncodeInt(x: int): Bytes {
    [Num(x)]
  }

  /** Reads one integer in [lo, hi) from the front of `w`. */
  function DecodeIntIn(w: Bytes, lo: int, hi: int): (r: Option<(int, Bytes)>)
    ensures r.Some? ==> |w| > 0 && lo <= r.value.0 < hi && r.value.1 == w[1..]
  {
    if |w| > 0 && w[0].Num? && lo <= w[0].n < hi then Some((w[0].n, w[1..])) else None
  }

  /** Reads one non-negative integer from the front of `w`. */
  function DecodeNat(w: Bytes): (r: Option<(nat, Bytes)>)
    ensures r.Some? ==> |w| > 0 && r.value.1 == w[1..]
  {
    if |w| > 0 && w[0].Num? && 0 <= w[0].n then Some((w[0].n, w[1..])) else None
  }

  function EncodeBool(b: bool): Bytes {
    [Num(if b then 1 else 0)]
  }

  function DecodeBool(w: Bytes): Option<(bool, Bytes)> {
    if |w| > 0 && w[0].Num? && (w[0].n == 0 || w[0].n == 1) then Some((w[0].n == 1, w[1..])) else None
  }

  lemma DecodeEncodeInt(x: int, lo: int, hi: int, rest: Bytes)
    requires lo <= x < hi
    ensures DecodeIntIn(EncodeInt(x) + rest, lo, hi) == Some((x, rest))
    ensures x >= 0 ==> DecodeNat(EncodeInt(x) + rest) == Some((x, rest))
  {
    assert (EncodeInt(x) + rest)[1..] == rest;
  }

  lemma DecodeEncodeBool(b: bool, rest: Bytes)
    ensures DecodeBool(EncodeBool(b) + rest) == Some((b, rest))
  {
    assert (EncodeBool(b) + rest)[1..] == rest;
  }

  // ----- Strings -----

  function Chars(s: string): (w: Bytes)
    ensures |w| == |s|
  {
    if s == "" then [] else [Chr(s[0])] + Chars(s[1..])
  }

  /** Reads exactly `n` characters from the front of `w`. */
  function DecodeChars(w: Bytes, n: nat): Option<(string, Bytes)> {
    if n == 0 then Some(("", w))
    else if |w| == 0 || !w[0].Chr? then None
    else
      match DecodeChars(w[1..], n - 1)
      case None => None
      case Some((s, rest)) => Some(([w[0].c] + s, rest))
  }

  /** A string is its length followed by its characters. */
  function EncodeString(s: string): Bytes {
    [Num(|s|)] + Chars(s)
  }

  function DecodeString(w: Bytes): Option<(string, Bytes)> {
    if |w| > 0 && w[0].Num? && 0 <= w[0].n then DecodeChars(w[1..], w[0].n) else None
  }

  lemma {:induction false} DecodeCharsOfChars(s: string, rest: Bytes)
    ensures DecodeChars(Chars(s) + rest, |s|) == Some((s, rest))
  {
    if s != "" {
      var w := Chars(s) + rest;
      assert w[0] == Chr(s[0]);
      assert w[1..] == Chars(s[1..]) + rest;
      DecodeCharsOfChars(s[1..], rest);
      assert [s[0]] + s[1..] == s;
    } else {
      assert Chars(s) + rest == rest;
    }
  }

  lemma DecodeEncodeString(s: string, rest: Bytes)
    ensures DecodeString(EncodeString(s) + rest) == Some((s, rest))
  {
    var w := EncodeString(s) + rest;
    assert w[1..] == Chars(s) + rest;
    DecodeCharsOfChars(s, rest);
  }

  // ----- Nested serialized messages -----

  /** An embedded message is its length followed by its own tokens. */
  function EncodeBytes(b: Bytes): Bytes {
    [Num(|b|)] + b
  }

  function DecodeBytes(w: Bytes): Option<(Bytes, Bytes)> {
    if |w| > 0 && w[0].Num? && 0 <= w[0].n <= |w| - 1 then Some((w[1..1 + w[0].n], w[1 + w[0].n..]))
    else None
  }

  lemma DecodeEncodeBytes(b: Bytes, rest: Bytes)
    ensures DecodeBytes(EncodeBytes(b) + rest) == Some((b, rest))
  {
    var w := EncodeBytes(b) + rest;
    assert w[1..1 + |b|] == b;
    assert w[1 + |b|..] == rest;
  }

  // ----- Whole messages -----

  /**
   * The serialized form of a whole message: nothing for the all-defaults
   * message, its field encoding otherwise.
   */
  function Frame<T(==)>(m: T, default: T, encode: T -> Bytes): Bytes {
    if m == default then [] else encode(m)
  }

  /**
   * Parses a whole message: the empty input is the all-defaults message;
   * otherwise the fields must decode and use up the input exactly.
   */
  function Unframe<T>(w: Bytes, default: T, decode: Bytes -> Option<(T, Bytes)>): Option<T> {
    if w == [] then Some(default)
    else
      match decode(w)
      case Some((m, rest)) => if rest == [] then Some(m) else None
      case None => None
  }

  /** A field encoding that is never empty and decodes back frames to a round trip. */
  lemma UnframeFrame<T>(m: T, default: T, encode: T -> Bytes, decode: Bytes -> Option<(T, Bytes)>)
    requires encode(m) != []
    requires decode(encode(m) + []) == Some((m, []))
    ensures Unframe(Frame(m, default, encode), default, decode) == Some(m)
  {
    assert encode(m) + [] == encode(m);
  }
}
