/** Base64 with the standard alphabet and `=` padding, as section 4 of RFC 4648 defines it
    (the `base64::STANDARD` configuration the builder's `basic_auth` encodes with). */
module Base64 {
  import opened Scalars
  import opened Wrappers

  const PAD: byte := '=' as int

  /** The character of the standard alphabet for a 6-bit value (Table 1 of RFC 4648). */
  function Letter(v: int): (c: byte)
    requires 0 <= v < 64
    ensures IsLetter(c) && LetterValue(c) == v
  {
    if v < 26 then 'A' as int + v
    else if v < 52 then 'a' as int + (v - 26)
    else if v < 62 then '0' as int + (v - 52)
    else if v == 62 then '+' as int
    else '/' as int
  }

  predicate IsLetter(c: byte) {
    ('A' as int <= c <= 'Z' as int) || ('a' as int <= c <= 'z' as int)
    || ('0' as int <= c <= '9' as int) || c == '+' as int || c == '/' as int
  }

  /** The 6-bit value an alphabet character stands for. */
  function LetterValue(c: byte): (v: int)
    requires IsLetter(c)
    ensures 0 <= v < 64
  {
    if 'A' as int <= c <= 'Z' as int then c - 'A' as int
    else if 'a' as int <= c <= 'z' as int then c - 'a' as int + 26
    else if '0' as int <= c <= '9' as int then c - '0' as int + 52
    else if c == '+' as int then 62
    else 63
  }

  /** The encoding of `s`: each group of three bytes becomes four characters; a final group
      of one or two bytes is completed with zero bits and padded with `=` to four. */
  function Encode(s: seq<byte>): seq<byte>
    decreases |s|
  {
    if |s| == 0 then []
    else if |s| == 1 then
      [Letter(s[0] / 4), Letter((s[0] % 4) * 16), PAD, PAD]
    else if |s| == 2 then
      [Letter(s[0] / 4), Letter((s[0] % 4) * 16 + s[1] / 16), Letter((s[1] % 16) * 4), PAD]
    else Group(s[0], s[1], s[2]) + Encode(s[3..])
  }

  /** The four characters of one full group of three bytes. */
  function Group(x: byte, y: byte, z: byte): seq<byte> {
    [Letter(x / 4), Letter((x % 4) * 16 + y / 16), Letter((y % 16) * 4 + z / 64), Letter(z % 64)]
  }

  /** The inverse of Encode on its image: four characters at a time back to bytes. */
  function Decode(t: seq<byte>): Option<seq<byte>>
    decreases |t|
  {
    if |t| == 0 then Some([])
    else if |t| < 4 || !IsLetter(t[0]) || !IsLetter(t[1]) then None
    else
      var a, b := LetterValue(t[0]), LetterValue(t[1]);
      if |t| == 4 && t[2] == PAD && t[3] == PAD then
        Some([a * 4 + b / 16])
      else if !IsLetter(t[2]) then None
      else
        var c := LetterValue(t[2]);
        if |t| == 4 && t[3] == PAD then
          Some([a * 4 + b / 16, (b % 16) * 16 + c / 4])
        else if !IsLetter(t[3]) then None
        else
          var d := LetterValue(t[3]);
          match Decode(t[4..])
          case None => None
          case Some(rest) => Some(Quad(a, b, c, d) + rest)
  }

  /** The three bytes that four 6-bit values carry. */
  function Quad(a: int, b: int, c: int, d: int): seq<byte>
    requires 0 <= a < 64 && 0 <= b < 64 && 0 <= c < 64 && 0 <= d < 64
  {
    [a * 4 + b / 16, (b % 16) * 16 + c / 4, (c % 4) * 64 + d]
  }

  lemma {:induction false} DecodeFullGroup(g: seq<byte>, rest: seq<byte>)
    requires |g| == 4 && IsLetter(g[0]) && IsLetter(g[1]) && IsLetter(g[2]) && IsLetter(g[3])
    requires Decode(rest).Some?
    ensures Decode(g + rest)
         == Some(Quad(LetterValue(g[0]), LetterValue(g[1]), LetterValue(g[2]), LetterValue(g[3])) + Decode(rest).value)
  {
    var t := g + rest;
    assert t[..4] == g && t[4..] == rest;
    assert t[2] != PAD && t[3] != PAD;
  }

  /** Four output characters for every three input bytes, rounding up. */
  lemma {:induction false} EncodeLength(s: seq<byte>)
    ensures |Encode(s)| == 4 * ((|s| + 2) / 3)
    decreases |s|
  {
    if |s| > 2 {
      EncodeLength(s[3..]);
      assert |Encode(s)| == 4 + |Encode(s[3..])|;
      assert (|s| + 2) / 3 == (|s[3..]| + 2) / 3 + 1;
    }
  }

  predicate InAlphabet(t: seq<byte>) {
    forall i :: 0 <= i < |t| ==> IsLetter(t[i]) || t[i] == PAD
  }

  /** Every character is from the alphabet or is padding, and padding occurs only in the
      last two positions, after which nothing but padding follows. */
  lemma {:induction false} EncodeAlphabet(s: seq<byte>)
    ensures InAlphabet(Encode(s))
    ensures forall i :: 0 <= i < |Encode(s)| && Encode(s)[i] == PAD ==>
              i >= |Encode(s)| - 2 && forall j :: i <= j < |Encode(s)| ==> Encode(s)[j] == PAD
    decreases |s|
  {
    if |s| > 2 {
      EncodeAlphabet(s[3..]);
      EncodeLength(s);
      EncodeLength(s[3..]);
      var t := Encode(s);
      var g := t[..4];
      assert t == g + Encode(s[3..]);
      forall i | 0 <= i < |t| && t[i] == PAD
        ensures i >= |t| - 2 && forall j :: i <= j < |t| ==> t[j] == PAD
      {
        assert i >= 4;
        assert Encode(s[3..])[i - 4] == PAD;
        forall j | i <= j < |t| ensures t[j] == PAD {
          assert t[j] == Encode(s[3..])[j - 4];
        }
      }
    }
  }

  lemma {:induction false} QuadOfGroup(x: byte, y: byte, z: byte)
    ensures Quad(x / 4, (x % 4) * 16 + y / 16, (y % 16) * 4 + z / 64, z % 64) == [x, y, z]
  {
  }

  lemma {:induction false} DecodeFinalOne(x: byte)
    ensures Decode(Encode([x])) == Some([x])
  {
    QuadOfGroup(x, 0, 0);
  }

  lemma {:induction false} DecodeFinalTwo(x: byte, y: byte)
    ensures Decode(Encode([x, y])) == Some([x, y])
  {
    var a, b, c := x / 4, (x % 4) * 16 + y / 16, (y % 16) * 4;
    QuadOfGroup(x, y, 0);
    assert Quad(a, b, c, 0) == [x, y, 0];
    assert a * 4 + b / 16 == x && (b % 16) * 16 + c / 4 == y;
    var t := Encode([x, y]);
    assert t == [Letter(a), Letter(b), Letter(c), PAD];
    assert LetterValue(t[0]) == a && LetterValue(t[1]) == b && LetterValue(t[2]) == c;
    assert t[2] != PAD;
    assert Decode(t) == Some([a * 4 + b / 16, (b % 16) * 16 + c / 4]);
  }

  lemma {:induction false} DecodeGroup(x: byte, y: byte, z: byte, e: seq<byte>, rest: seq<byte>)
    requires Decode(e) == Some(rest)
    ensures Decode(Group(x, y, z) + e) == Some([x, y, z] + rest)
  {
    var a, b, c, d := x / 4, (x % 4) * 16 + y / 16, (y % 16) * 4 + z / 64, z % 64;
    var g := Group(x, y, z);
    assert g == [Letter(a), Letter(b), Letter(c), Letter(d)];
    assert LetterValue(g[0]) == a && LetterValue(g[1]) == b && LetterValue(g[2]) == c && LetterValue(g[3]) == d;
    DecodeFullGroup(g, e);
    QuadOfGroup(x, y, z);
    assert Quad(a, b, c, d) == [x, y, z];
  }

  /** The inputs shorter than one full group: the padded final encodings. */
  lemma {:induction false} DecodeEncodeShort(s: seq<byte>)
    requires |s| <= 2
    ensures Decode(Encode(s)) == Some(s)
  {
    if |s| == 1 {
      var x := s[0];
      assert s == [x];
      DecodeFinalOne(x);
    } else if |s| == 2 {
      var x, y := s[0], s[1];
      assert s == [x, y];
      DecodeFinalTwo(x, y);
    }
  }

  /** Decoding an encoding gives back the bytes. */
  lemma {:induction false} DecodeEncode(s: seq<byte>)
    ensures Decode(Encode(s)) == Some(s)
    decreases |s|
  {
    if |s| <= 2 {
      DecodeEncodeShort(s);
    } else {
      DecodeEncode(s[3..]);
      DecodeGroup(s[0], s[1], s[2], Encode(s[3..]), s[3..]);
      assert s == [s[0], s[1], s[2]] + s[3..];
    }
  }

  /** Different byte strings never share an encoding. */
  lemma {:induction false} EncodeInjective(s: seq<byte>, s': seq<byte>)
    requires Encode(s) == Encode(s')
    ensures s == s'
  {
    DecodeEncode(s);
    DecodeEncode(s');
  }
}
