/** The `application/x-www-form-urlencoded` byte serializer of section 5.2 of the WHATWG
    URL Standard (the `form_urlencoded::byte_serialize` that Rarible's `urlencode` runs),
    and the percent-decoding of the standard's parser as its inverse. */
module UrlEncoding {
  import opened Scalars
  import opened Text

  /** The bytes the serializer leaves as they are: `*`, `-`, `.`, `_`, the ASCII digits and
      the ASCII letters. */
  predicate Unreserved(b: byte) {
    b == 0x2A || b == 0x2D || b == 0x2E || b == 0x5F
    || (0x30 <= b <= 0x39) || (0x41 <= b <= 0x5A) || (0x61 <= b <= 0x7A)
  }

  function HexDigit(d: int): (c: char)
    requires 0 <= d < 16
    ensures IsUpperHex(c) && HexValue(c) == d
  {
    if d < 10 then ('0' as int + d) as char else ('A' as int + d - 10) as char
  }

  predicate IsUpperHex(c: char) {
    ('0' <= c <= '9') || ('A' <= c <= 'F')
  }

  predicate IsHex(c: char) {
    IsUpperHex(c) || ('a' <= c <= 'f')
  }

  function HexValue(c: char): (d: int)
    requires IsHex(c)
    ensures 0 <= d < 16
  {
    if '0' <= c <= '9' then c as int - '0' as int
    else if 'A' <= c <= 'F' then c as int - 'A' as int + 10
    else c as int - 'a' as int + 10
  }

  /** One byte of the serialization: an unreserved byte as its character, a space as `+`,
      any other byte as `%` and two upper-case hexadecimal digits. */
  function SerializeByte(b: byte): (r: string)
    ensures 1 <= |r| <= 3
  {
    if Unreserved(b) then [b as char]
    else if b == 0x20 then "+"
    else ['%', HexDigit(b / 16), HexDigit(b % 16)]
  }

  function ByteSerialize(bs: seq<byte>): string
    decreases |bs|
  {
    if bs == [] then [] else SerializeByte(bs[0]) + ByteSerialize(bs[1..])
  }

  /** Percent-decoding with `+` read as a space, as the standard's parser does it: a `%`
      not followed by two hexadecimal digits stands for itself; any other character stands
      for its UTF-8 bytes. */
  function PercentDecode(s: string): seq<byte>
    decreases |s|
  {
    if s == [] then []
    else if s[0] == '%' && |s| >= 3 && IsHex(s[1]) && IsHex(s[2]) then
      [HexValue(s[1]) * 16 + HexValue(s[2])] + PercentDecode(s[3..])
    else if s[0] == '+' then [0x20] + PercentDecode(s[1..])
    else Utf8Char(s[0]) + PercentDecode(s[1..])
  }

  /** A character that may appear in the output: an unreserved character, `+` or `%`. */
  predicate SafeChar(c: char) {
    (c as int < 0x100 && Unreserved(c as int)) || c == '+' || c == '%'
  }

  predicate AllSafe(s: string) {
    forall i :: 0 <= i < |s| ==> SafeChar(s[i])
  }

  lemma {:induction false} ByteSerializeSafe(bs: seq<byte>)
    ensures AllSafe(ByteSerialize(bs))
    decreases |bs|
  {
    if bs != [] {
      ByteSerializeSafe(bs[1..]);
      var h, t := SerializeByte(bs[0]), ByteSerialize(bs[1..]);
      assert AllSafe(h);
      forall i | 0 <= i < |h + t| ensures SafeChar((h + t)[i]) {
        if i >= |h| {
          assert (h + t)[i] == t[i - |h|];
        }
      }
    }
  }

  /** The serialization never contains a path separator, a query or fragment start, or a
      query-pair delimiter, so an interpolated value stays inside one path segment and one
      query value. */
  lemma {:induction false} ByteSerializeHasNoDelimiters(bs: seq<byte>)
    ensures forall i :: 0 <= i < |ByteSerialize(bs)| ==>
              ByteSerialize(bs)[i] !in {'/', '?', '#', '&', '=', ' '}
  {
    ByteSerializeSafe(bs);
  }

  /** Bytes that are all unreserved come out unchanged, one character each. */
  lemma {:induction false} ByteSerializeUnreserved(bs: seq<byte>)
    requires forall i :: 0 <= i < |bs| ==> Unreserved(bs[i])
    ensures |ByteSerialize(bs)| == |bs|
    ensures forall i :: 0 <= i < |bs| ==> ByteSerialize(bs)[i] as int == bs[i]
    decreases |bs|
  {
    if bs != [] {
      ByteSerializeUnreserved(bs[1..]);
    }
  }

  lemma {:induction false} DecodeSerializedByte(b: byte, rest: string)
    ensures PercentDecode(SerializeByte(b) + rest) == [b] + PercentDecode(rest)
  {
    var s := SerializeByte(b) + rest;
    if Unreserved(b) {
      assert s[0] == b as char && s[1..] == rest;
    } else if b == 0x20 {
      assert s[0] == '+' && s[1..] == rest;
    } else {
      assert s[0] == '%' && s[1] == HexDigit(b / 16) && s[2] == HexDigit(b % 16) && s[3..] == rest;
    }
  }

  /** Decoding a serialization gives back the bytes; in particular different byte strings
      never serialize alike. */
  lemma {:induction false} PercentDecodeByteSerialize(bs: seq<byte>)
    ensures PercentDecode(ByteSerialize(bs)) == bs
    decreases |bs|
  {
    if bs != [] {
      PercentDecodeByteSerialize(bs[1..]);
      DecodeSerializedByte(bs[0], ByteSerialize(bs[1..]));
      assert [bs[0]] + bs[1..] == bs;
    }
  }
}
