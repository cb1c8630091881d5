/**
  The UTF-8 form of a Rust `String`. Rust stores text as UTF-8 and `String::len`
  counts bytes of that form, not characters; the input-length limit of the client
  is checked against this byte count. Dafny's `char` is a Unicode scalar value,
  so a Dafny `string` is exactly the set of texts a Rust `String` can hold.
*/
module Utf8 {
  import opened Ints

  /** Number of bytes UTF-8 uses for one scalar value (section 3 of RFC 3629). */
  function Width(c: char): (w: nat)
    ensures 1 <= w <= 4
    ensures w == 1 <==> c as int < 0x80
  {
    if c as int < 0x80 then 1
    else if c as int < 0x800 then 2
    else if c as int < 0x1_0000 then 3
    else 4
  }

  /** The UTF-8 byte sequence of one scalar value. */
  function EncodeChar(c: char): (bs: seq<u8>)
    ensures |bs| == Width(c)
    ensures bs[0] < 0x80 <==> |bs| == 1
    ensures forall i :: 1 <= i < |bs| ==> 0x80 <= bs[i] < 0xC0
  {
    var n := c as int;
    if n < 0x80 then [n]
    else if n < 0x800 then [0xC0 + n / 0x40, 0x80 + n % 0x40]
    else if n < 0x1_0000 then [0xE0 + n / 0x1000, 0x80 + (n / 0x40) % 0x40, 0x80 + n % 0x40]
    else [0xF0 + n / 0x4_0000, 0x80 + (n / 0x1000) % 0x40, 0x80 + (n / 0x40) % 0x40, 0x80 + n % 0x40]
  }

  /** The UTF-8 form of a whole text: the bytes a Rust `String` holds. */
  function Encode(s: string): seq<u8>
  {
    if s == [] then [] else EncodeChar(s[0]) + Encode(s[1..])
  }

  /** Rust's `String::len`: the byte length of the UTF-8 form of `s`. */
  function Length(s: string): (n: nat)
    ensures n == |Encode(s)|
    ensures |s| <= n <= 4 * |s|
    ensures n == 0 <==> s == []
  {
    if s == [] then 0 else Width(s[0]) + Length(s[1..])
  }

  /** All characters are ASCII, the one-byte range of UTF-8. */
  predicate IsAscii(s: string) {
    forall i :: 0 <= i < |s| ==> s[i] as int < 0x80
  }

  /** The byte length of a concatenation is the sum of the byte lengths. */
  lemma {:induction false} LengthAppend(a: string, b: string)
    ensures Length(a + b) == Length(a) + Length(b)
  {
    if a == [] {
      assert a + b == b;
    } else {
      assert (a + b)[0] == a[0];
      assert (a + b)[1..] == a[1..] + b;
      LengthAppend(a[1..], b);
    }
  }

  /** `len()` equals the number of characters exactly when the text is ASCII. */
  lemma {:induction false} LengthIsCharCountIffAscii(s: string)
    ensures Length(s) == |s| <==> IsAscii(s)
  {
    if s != [] {
      var t := s[1..];
      LengthIsCharCountIffAscii(t);
      if IsAscii(s) {
        forall i | 0 <= i < |t| ensures t[i] as int < 0x80 {
          assert t[i] == s[i + 1];
        }
      }
      if s[0] as int < 0x80 && IsAscii(t) {
        forall i | 0 <= i < |s| ensures s[i] as int < 0x80 {
          if i > 0 { assert s[i] == t[i - 1]; }
        }
      }
    }
  }

  /** A text made of one repeated character takes `|s|` times that character's width. */
  lemma {:induction false} UniformLength(s: string, c: char)
    requires forall i :: 0 <= i < |s| ==> s[i] == c
    ensures Length(s) == |s| * Width(c)
  {
    if s != [] {
      var t := s[1..];
      forall i | 0 <= i < |t| ensures t[i] == c {
        assert t[i] == s[i + 1];
      }
      UniformLength(t, c);
    }
  }
}
