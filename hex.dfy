/** Hex helpers of the inspection core (crates/chia-inspect-core/src/util.rs):
    prefix stripping, hex decoding with Rust's `trim`, prefixed lower-case
    encoding and normalisation to unprefixed lower-case hex. Strings are
    sequences of Unicode scalar values, as a Rust `&str` is; where the Rust
    code measures a string with `len()` it counts UTF-8 bytes, and so does
    `ByteLen` here. */
module Hex {
  import opened Wrappers

  type byte = b: int | 0 <= b < 256

  /** The two ways decoding can fail: an odd number of hex bytes, or a
      character that is not an ASCII hex digit. Message texts are not modelled. */
  datatype HexError = OddLength | InvalidHexCharacter

  predicate HasHexPrefix(s: string)
  {
    |s| >= 2 && (s[..2] == "0x" || s[..2] == "0X")
  }

  /** `strip_0x`: remove one leading "0x", else one leading "0X". */
  function Strip0x(s: string): (r: string)
    ensures HasHexPrefix(s) ==> s == s[..2] + r
    ensures !HasHexPrefix(s) ==> r == s
  {
    if |s| >= 2 && s[..2] == "0x" then s[2..]
    else if |s| >= 2 && s[..2] == "0X" then s[2..]
    else s
  }

  /** Rust's `char::is_whitespace`: the Unicode White_Space property. */
  predicate IsWhitespace(c: char)
  {
    || ('\t' <= c <= '\r') || c == ' ' || c == '\U{0085}' || c == '\U{00A0}'
    || c == '\U{1680}' || ('\U{2000}' <= c <= '\U{200A}') || c == '\U{2028}'
    || c == '\U{2029}' || c == '\U{202F}' || c == '\U{205F}' || c == '\U{3000}'
  }

  function TrimStart(s: string): (r: string)
    ensures |r| <= |s| && r == s[|s| - |r|..]
    ensures r == [] || !IsWhitespace(r[0])
    ensures forall i :: 0 <= i < |s| - |r| ==> IsWhitespace(s[i])
  {
    if s != [] && IsWhitespace(s[0]) then TrimStart(s[1..]) else s
  }

  function TrimEnd(s: string): (r: string)
    ensures |r| <= |s| && r == s[..|r|]
    ensures r == [] || !IsWhitespace(r[|r| - 1])
    ensures forall i :: |r| <= i < |s| ==> IsWhitespace(s[i])
  {
    if s != [] && IsWhitespace(s[|s| - 1]) then TrimEnd(s[..|s| - 1]) else s
  }

  /** `str::trim`: drop leading and trailing whitespace. */
  function Trim(s: string): string
  {
    TrimEnd(TrimStart(s))
  }

  /** Number of bytes the UTF-8 encoding of `c` takes. */
  function Utf8Width(c: char): nat
  {
    if c as int < 0x80 then 1
    else if c as int < 0x800 then 2
    else if c as int < 0x1_0000 then 3
    else 4
  }

  /** `str::len`: the length of the UTF-8 encoding. */
  function ByteLen(s: string): nat
  {
    if s == [] then 0 else Utf8Width(s[0]) + ByteLen(s[1..])
  }

  /** `u8::is_ascii_hexdigit`, which is also the set of digits the hex crate decodes. */
  predicate IsHexDigit(c: char)
  {
    ('0' <= c <= '9') || ('a' <= c <= 'f') || ('A' <= c <= 'F')
  }

  predicate IsLowerHexDigit(c: char)
  {
    ('0' <= c <= '9') || ('a' <= c <= 'f')
  }

  predicate AllHexDigits(s: string)
  {
    forall i :: 0 <= i < |s| ==> IsHexDigit(s[i])
  }

  /** The shape `hex::encode` produces: lower-case digits, two per byte. */
  predicate IsLowerHex(s: string)
  {
    |s| % 2 == 0 && forall i :: 0 <= i < |s| ==> IsLowerHexDigit(s[i])
  }

  function HexValue(c: char): (v: nat)
    requires IsHexDigit(c)
    ensures v < 16
  {
    if '0' <= c <= '9' then c as int - '0' as int
    else if 'a' <= c <= 'f' then c as int - 'a' as int + 10
    else c as int - 'A' as int + 10
  }

  function HexChar(n: nat): (c: char)
    requires n < 16
    ensures IsLowerHexDigit(c)
  {
    if n < 10 then ('0' as int + n) as char else ('a' as int + n - 10) as char
  }

  lemma HexCharOfValue(c: char)
    requires IsHexDigit(c)
    ensures HexChar(HexValue(c)) == ToLowerAscii(c)
  {
  }

  /** ASCII lower-casing, the identity on every other character. */
  function ToLowerAscii(c: char): char
  {
    if 'A' <= c <= 'Z' then (c as int + 32) as char else c
  }

  function ToLowerAsciiString(s: string): (r: string)
    ensures |r| == |s| && forall i :: 0 <= i < |s| ==> r[i] == ToLowerAscii(s[i])
  {
    if s == [] then [] else [ToLowerAscii(s[0])] + ToLowerAsciiString(s[1..])
  }

  /** `hex::encode`: two lower-case digits per byte, high nibble first. */
  function HexEncode(b: seq<byte>): (r: string)
    ensures |r| == 2 * |b|
    ensures IsLowerHex(r)
  {
    if b == [] then [] else [HexChar(b[0] / 16), HexChar(b[0] % 16)] + HexEncode(b[1..])
  }

  /** Decoding of a string already known to be an even number of hex digits. */
  function DecodePairs(s: string): (r: seq<byte>)
    requires |s| % 2 == 0 && AllHexDigits(s)
    ensures 2 * |r| == |s|
  {
    if s == [] then [] else [HexValue(s[0]) * 16 + HexValue(s[1])] + DecodePairs(s[2..])
  }

  lemma {:induction false} AsciiByteLen(s: string)
    requires AllHexDigits(s)
    ensures ByteLen(s) == |s|
  {
    if s != [] {
      AsciiByteLen(s[1..]);
    }
  }

  /** `decode_hex`: strip the prefix, then trim; nothing left decodes to no
      bytes; an odd byte length is an error; otherwise the hex crate decodes. */
  function DecodeHex(s: string): (r: Result<seq<byte>, HexError>)
    ensures r.Ok? <==> AllHexDigits(Trim(Strip0x(s))) && |Trim(Strip0x(s))| % 2 == 0
    ensures r.Ok? ==> 2 * |r.value| == |Trim(Strip0x(s))|
    ensures r == Err(OddLength) <==> ByteLen(Trim(Strip0x(s))) % 2 != 0
  {
    var raw := Trim(Strip0x(s));
    if raw == [] then Ok([])
    else if ByteLen(raw) % 2 != 0 then
      (if AllHexDigits(raw) then AsciiByteLen(raw); Err(OddLength) else Err(OddLength))
    else if !AllHexDigits(raw) then Err(InvalidHexCharacter)
    else
      AsciiByteLen(raw);
      Ok(DecodePairs(raw))
  }

  /** `encode_hex_prefixed`: "0x" and then `hex::encode`. */
  function EncodeHexPrefixed(b: seq<byte>): (r: string)
    ensures |r| == 2 + 2 * |b|
    ensures r[..2] == "0x" && IsLowerHex(r[2..])
  {
    var body := HexEncode(b);
    assert ("0x" + body)[2..] == body;
    "0x" + body
  }

  /** `normalize_hex_no_prefix`: decode, then re-encode without a prefix. */
  function NormalizeHexNoPrefix(s: string): (r: Result<string, HexError>)
  {
    match DecodeHex(s)
    case Ok(bytes) => Ok(HexEncode(bytes))
    case Err(e) => Err(e)
  }

  lemma {:induction false} DecodeEncodePairs(b: seq<byte>)
    ensures DecodePairs(HexEncode(b)) == b
  {
    if b != [] {
      var e := HexEncode(b);
      assert e[2..] == HexEncode(b[1..]);
      DecodeEncodePairs(b[1..]);
      assert HexValue(HexChar(b[0] / 16)) == b[0] / 16;
      assert HexValue(HexChar(b[0] % 16)) == b[0] % 16;
    }
  }

  lemma {:induction false} EncodeDecodePairs(s: string)
    requires |s| % 2 == 0 && AllHexDigits(s)
    ensures HexEncode(DecodePairs(s)) == ToLowerAsciiString(s)
  {
    if s != [] {
      var rest := s[2..];
      assert AllHexDigits(rest) by {
        forall i | 0 <= i < |rest| ensures IsHexDigit(rest[i]) {
          assert rest[i] == s[i + 2];
        }
      }
      EncodeDecodePairs(rest);
      var v := HexValue(s[0]) * 16 + HexValue(s[1]);
      var r := DecodePairs(s);
      assert r == [v] + DecodePairs(rest);
      assert r[1..] == DecodePairs(rest);
      assert v / 16 == HexValue(s[0]) && v % 16 == HexValue(s[1]);
      HexCharOfValue(s[0]);
      HexCharOfValue(s[1]);
      assert HexEncode(r) == [ToLowerAscii(s[0]), ToLowerAscii(s[1])] + HexEncode(DecodePairs(rest));
      assert s[1..][1..] == rest;
      assert ToLowerAsciiString(s) == [ToLowerAscii(s[0]), ToLowerAscii(s[1])] + ToLowerAsciiString(rest);
    }
  }

  lemma NoWhitespaceInHex(s: string)
    requires AllHexDigits(s)
    ensures Trim(s) == s
  {
    if s != [] {
      assert !IsWhitespace(s[0]) && !IsWhitespace(s[|s| - 1]);
    }
  }

  /** A string of lower-case digits does not start with a hex prefix:
      'x' and 'X' are not hex digits. */
  lemma LowerHexHasNoPrefix(s: string)
    requires IsLowerHex(s)
    ensures Strip0x(s) == s
  {
    if |s| >= 2 {
      assert IsLowerHexDigit(s[1]);
    }
  }

  /** `strip_0x` removes exactly one prefix, whichever of the two spellings
      it is, and leaves any further "0x" in place. */
  lemma StripRemovesOnePrefix(p: string, t: string)
    requires p == "0x" || p == "0X"
    ensures Strip0x(p + t) == t
    ensures Strip0x(p + p + t) == p + t
  {
    assert (p + t)[..2] == p && (p + t)[2..] == t;
    assert (p + p + t)[..2] == p && (p + p + t)[2..] == p + t;
  }

  /** A string that is empty once the prefix is stripped and it is trimmed
      decodes to no bytes, whatever whitespace it held. */
  lemma DecodeBlankIsEmpty(s: string)
    requires Trim(Strip0x(s)) == []
    ensures DecodeHex(s) == Ok([])
  {
  }

  lemma DecodeOddLengthFails(s: string)
    requires ByteLen(Trim(Strip0x(s))) % 2 == 1
    ensures DecodeHex(s) == Err(OddLength)
  {
  }

  /** Round trip: decoding an encoding gives the bytes back. */
  lemma DecodeEncodeRoundTrip(b: seq<byte>)
    ensures DecodeHex(EncodeHexPrefixed(b)) == Ok(b)
  {
    var body := HexEncode(b);
    assert EncodeHexPrefixed(b) == "0x" + body;
    StripRemovesOnePrefix("0x", body);
    assert AllHexDigits(body) by {
      forall i | 0 <= i < |body| ensures IsHexDigit(body[i]) {
        assert IsLowerHexDigit(body[i]);
      }
    }
    NoWhitespaceInHex(body);
    assert Trim(Strip0x(EncodeHexPrefixed(b))) == body;
    if body != [] {
      AsciiByteLen(body);
      DecodeEncodePairs(b);
    }
  }

  /** Normalising gives the trimmed, unprefixed input in lower case: the same
      digits, unprefixed, lower-case and of even length. */
  lemma NormalizeIsLowercasedInput(s: string)
    requires NormalizeHexNoPrefix(s).Ok?
    ensures NormalizeHexNoPrefix(s).value == ToLowerAsciiString(Trim(Strip0x(s)))
    ensures IsLowerHex(NormalizeHexNoPrefix(s).value)
    ensures !HasHexPrefix(NormalizeHexNoPrefix(s).value)
  {
    var raw := Trim(Strip0x(s));
    if raw != [] {
      AsciiByteLen(raw);
      EncodeDecodePairs(raw);
    }
    LowerHexHasNoPrefix(NormalizeHexNoPrefix(s).value);
  }

  /** Normalising twice is normalising once. */
  lemma NormalizeIdempotent(s: string)
    requires NormalizeHexNoPrefix(s).Ok?
    ensures NormalizeHexNoPrefix(NormalizeHexNoPrefix(s).value) == NormalizeHexNoPrefix(s)
  {
    var bytes := DecodeHex(s).value;
    var h := HexEncode(bytes);
    assert NormalizeHexNoPrefix(s) == Ok(h);
    assert DecodeHex("0x" + h) == Ok(bytes) by {
      DecodeEncodeRoundTrip(bytes);
    }
    LowerHexHasNoPrefix(h);
    StripRemovesOnePrefix("0x", h);
    assert Strip0x(h) == Strip0x("0x" + h);
    assert DecodeHex(h) == Ok(bytes);
  }
}
