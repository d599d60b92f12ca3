/** The hex handling of the CLVM workbench command-line tool
    (crates/clvm-workbench/src/main.rs): `looks_like_hex` decides whether a
    program argument is serialized bytes or CLVM text, `decode_hex_input`
    decodes it. Unlike `Hex.DecodeHex`, the classifier does not trim. */
module Workbench {
  import opened Wrappers
  import opened Hex

  /** The two failures of `decode_hex_input`: the length check, and the
      hex crate's decoder (which, given an even length, can only reject a
      character). */
  datatype DecodeInputError = EvenLengthRequired | HexDecodeFailed

  /** The failures of `normalize_program_input`: decoding the hex, or turning
      the bytes into a CLVM tree (the clvmr deserializer, not modelled here). */
  datatype ProgramInputError = BadHex(e: DecodeInputError) | BadSerialization(message: string)

  /** `decode_hex_input`. */
  function DecodeHexInput(input: string): (r: Result<seq<byte>, DecodeInputError>)
    ensures r == Err(EvenLengthRequired) <==> ByteLen(Trim(Strip0x(input))) % 2 == 1
    ensures r.Ok? ==> 2 * |r.value| == |Trim(Strip0x(input))|
  {
    var raw := Trim(Strip0x(input));
    if raw == [] then Ok([])
    else if ByteLen(raw) % 2 != 0 then Err(EvenLengthRequired)
    else if !AllHexDigits(raw) then Err(HexDecodeFailed)
    else
      AsciiByteLen(raw);
      Ok(DecodePairs(raw))
  }

  /** `looks_like_hex`: after stripping one prefix, something is left, its
      UTF-8 length is even, and every byte is an ASCII hex digit. */
  function LooksLikeHex(input: string): (r: bool)
    ensures r <==> var raw := Strip0x(input); raw != [] && |raw| % 2 == 0 && AllHexDigits(raw)
  {
    var raw := Strip0x(input);
    if AllHexDigits(raw) then AsciiByteLen(raw); raw != [] && ByteLen(raw) % 2 == 0
    else false
  }

  /** The branch of `normalize_program_input`: text that looks like hex is
      decoded and handed to `deserialize` (the deserializer followed by the
      disassembler); anything else is passed through unchanged. */
  function NormalizeProgramInput(input: string, deserialize: seq<byte> -> Result<string, string>)
    : (r: Result<string, ProgramInputError>)
    ensures !LooksLikeHex(input) ==> r == Ok(input)
    ensures LooksLikeHex(input) ==> DecodeHexInput(input).Ok? && (r.Ok? || r.error.BadSerialization?)
  {
    if LooksLikeHex(input) then
      LooksLikeHexDecodes(input);
      match DecodeHexInput(input)
      case Err(e) => Err(BadHex(e))
      case Ok(bytes) =>
        match deserialize(bytes)
        case Ok(text) => Ok(text)
        case Err(m) => Err(BadSerialization(m))
    else Ok(input)
  }

  /** Text that looks like hex always decodes, to half as many bytes as it has
      digits after the prefix. */
  lemma LooksLikeHexDecodes(input: string)
    requires LooksLikeHex(input)
    ensures DecodeHexInput(input).Ok?
    ensures 2 * |DecodeHexInput(input).value| == |Strip0x(input)|
  {
    NoWhitespaceInHex(Strip0x(input));
  }

  /** The workbench decoder accepts exactly what the core's `decode_hex`
      accepts, with the same bytes, and fails on odd lengths in both. */
  lemma DecodeHexInputAgreesWithCore(input: string)
    ensures DecodeHexInput(input).Ok? <==> DecodeHex(input).Ok?
    ensures DecodeHexInput(input).Ok? ==> DecodeHexInput(input).value == DecodeHex(input).value
    ensures DecodeHexInput(input) == Err(EvenLengthRequired) <==> DecodeHex(input) == Err(OddLength)
  {
  }

  /** Where classifier and decoder disagree: "0x" decodes to no bytes but does
      not look like hex, since nothing is left after the prefix. */
  lemma BarePrefixDecodesButIsNotHex()
    ensures DecodeHexInput("0x") == Ok([]) && !LooksLikeHex("0x")
  {
    assert Strip0x("0x") == [];
  }

  /** A padded string decodes after trimming, but the classifier, which does
      not trim, rejects it. */
  lemma PaddedHexDecodesButIsNotHex()
    ensures DecodeHexInput(" ab") == Ok([0xab]) && !LooksLikeHex(" ab")
  {
    PaddedHexTrims();
    HexPairAb();
    assert !IsHexDigit(" ab"[0]);
  }

  lemma PaddedHexTrims()
    ensures Strip0x(" ab") == " ab" && Trim(Strip0x(" ab")) == "ab"
  {
    SpacedHasNoPrefix();
    SpacedTrimStart();
    HexPairTrimEnd();
  }

  lemma SpacedHasNoPrefix()
    ensures Strip0x(" ab") == " ab"
  {
    assert " ab"[..2][0] == ' ';
  }

  lemma SpacedTrimStart()
    ensures TrimStart(" ab") == "ab"
  {
    assert IsWhitespace(' ') && " ab"[1..] == "ab";
    assert !IsWhitespace('a');
  }

  lemma HexPairTrimEnd()
    ensures TrimEnd("ab") == "ab"
  {
    assert !IsWhitespace('b');
  }

  lemma HexPairAb()
    ensures AllHexDigits("ab") && ByteLen("ab") == 2 && DecodePairs("ab") == [0xab]
  {
    AsciiByteLen("ab");
    assert HexValue('a') == 10 && HexValue('b') == 11;
    assert "ab"[2..] == [];
  }
}
