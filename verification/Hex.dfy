/** Hexadecimal text, as section 8 of RFC 4648 defines it, for values of a fixed size. */
module Hex {
  import opened Values
  import opened Text

  datatype Error = Required | PrefixMissing | InvalidHex | WrongSize

  predicate IsHexDigit(c: char) { IsDigit(c) || 'a' <= c <= 'f' || 'A' <= c <= 'F' }

  function HexValue(c: char): int
    requires IsHexDigit(c)
  {
    if IsDigit(c) then c as int - '0' as int
    else if 'a' <= c <= 'f' then c as int - 'a' as int + 10
    else c as int - 'A' as int + 10
  }

  function HexDigit(v: int): char
    requires 0 <= v < 16
  {
    if v < 10 then ('0' as int + v) as char else ('a' as int + v - 10) as char
  }

  function LowerChar(c: char): char {
    if 'A' <= c <= 'Z' then (c as int - 'A' as int + 'a' as int) as char else c
  }

  function Lower(s: string): string {
    seq(|s|, i requires 0 <= i < |s| => LowerChar(s[i]))
  }

  function Encode(bytes: seq<byte>): string {
    if bytes == [] then ""
    else [HexDigit(bytes[0] / 16), HexDigit(bytes[0] % 16)] + Encode(bytes[1..])
  }

  function Decode(s: string): Option<seq<byte>> {
    if s == "" then Some([])
    else if |s| == 1 || !IsHexDigit(s[0]) || !IsHexDigit(s[1]) then None
    else
      var rest := Decode(s[2..]);
      if rest.None? then None else Some([(16 * HexValue(s[0]) + HexValue(s[1])) as byte] + rest.value)
  }

  lemma {:induction false} DecodeUndoesEncode(bytes: seq<byte>)
    ensures Decode(Encode(bytes)) == Some(bytes) && |Encode(bytes)| == 2 * |bytes|
    ensures forall i | 0 <= i < |Encode(bytes)| :: IsHexDigit(Encode(bytes)[i])
  {
    if bytes != [] {
      DecodeUndoesEncode(bytes[1..]);
      var s := Encode(bytes);
      assert s[2..] == Encode(bytes[1..]);
      assert bytes == [bytes[0]] + bytes[1..];
    }
  }

  // The alphabet of section 8.
  lemma DigitIsInTable(v: int)
    requires 0 <= v < 16
    ensures HexDigit(v) == "0123456789abcdef"[v]
  {
    if v < 8 { assert v in {0, 1, 2, 3, 4, 5, 6, 7}; } else { assert v in {8, 9, 10, 11, 12, 13, 14, 15}; }
  }

  // Every byte is two digits, the high one first.
  lemma {:induction false} EncodedByte(bytes: seq<byte>, i: nat)
    requires i < |bytes|
    ensures |Encode(bytes)| == 2 * |bytes|
    ensures Encode(bytes)[2 * i] == HexDigit(bytes[i] / 16) && Encode(bytes)[2 * i + 1] == HexDigit(bytes[i] % 16)
  {
    DecodeUndoesEncode(bytes);
    if i > 0 { EncodedByte(bytes[1..], i - 1); }
  }

  // Two digits and the byte they stand for.
  lemma ByteOfDigits(a: char, b: char)
    requires IsHexDigit(a) && IsHexDigit(b)
    ensures 0 <= 16 * HexValue(a) + HexValue(b) < 256
    ensures HexDigit((16 * HexValue(a) + HexValue(b)) / 16) == LowerChar(a)
    ensures HexDigit((16 * HexValue(a) + HexValue(b)) % 16) == LowerChar(b)
  {
    assert (16 * HexValue(a) + HexValue(b)) / 16 == HexValue(a);
  }

  lemma LowerTwo(s: string)
    requires |s| >= 2
    ensures Lower(s) == [LowerChar(s[0]), LowerChar(s[1])] + Lower(s[2..])
  {
  }

  // Decoding forgets nothing but the case of the letters.
  lemma {:induction false} EncodeUndoesDecode(s: string)
    requires Decode(s).Some?
    ensures Encode(Decode(s).value) == Lower(s)
  {
    if s != "" {
      var bytes, rest := Decode(s).value, Decode(s[2..]).value;
      EncodeUndoesDecode(s[2..]);
      LowerTwo(s);
      ByteOfDigits(s[0], s[1]);
      assert bytes[0] == 16 * HexValue(s[0]) + HexValue(s[1]) && bytes[1..] == rest;
    }
  }

  // The text with its prefix and its letters normalized, and the bytes it stands for.
  function NormalizeFixed(raw: string, size: nat): Result<(string, seq<byte>), Error> {
    var trimmed := Trim(raw);
    if trimmed == "" then Failure(Required)
    else if !("0x" <= trimmed || "0X" <= trimmed) then Failure(PrefixMissing)
    else
      var decoded := Decode(trimmed[2..]);
      if decoded.None? then Failure(InvalidHex)
      else if |decoded.value| != size then Failure(WrongSize)
      else Success(("0x" + Lower(trimmed[2..]), decoded.value))
  }

  function Canonical(bytes: seq<byte>): string { "0x" + Encode(bytes) }

  lemma CanonicalIsTrimmed(bytes: seq<byte>)
    ensures Trimmed(Canonical(bytes)) && Trim(Canonical(bytes)) == Canonical(bytes)
    ensures forall c | c in Canonical(bytes) :: IsHexDigit(c) || c == 'x'
  {
    DecodeUndoesEncode(bytes);
    TrimOfTrimmed(Canonical(bytes));
  }

  // The normalized text is a function of the bytes, and reads back as the same bytes: two
  // texts have one normal form exactly when they stand for the same bytes.
  lemma NormalFormIsCanonical(raw: string, size: nat)
    requires NormalizeFixed(raw, size).Success?
    ensures var (text, bytes) := NormalizeFixed(raw, size).value;
      |bytes| == size && text == Canonical(bytes) && NormalizeFixed(text, size) == Success((text, bytes))
  {
    var trimmed := Trim(raw);
    EncodeUndoesDecode(trimmed[2..]);
    CanonicalNormalizes(NormalizeFixed(raw, size).value.1);
  }

  lemma SpacingIsIrrelevant(a: string, raw: string, b: string, size: nat)
    requires AllSpace(a) && AllSpace(b)
    ensures NormalizeFixed(a + raw + b, size) == NormalizeFixed(raw, size)
  {
    TrimDropsSpace(a, raw, b);
  }

  lemma CanonicalNormalizes(bytes: seq<byte>)
    ensures NormalizeFixed(Canonical(bytes), |bytes|) == Success((Canonical(bytes), bytes))
  {
    var text := Canonical(bytes);
    CanonicalIsTrimmed(bytes);
    DecodeUndoesEncode(bytes);
    assert text[2..] == Encode(bytes);
    EncodeUndoesDecode(text[2..]);
  }

  lemma CanonicalIsInjective(a: seq<byte>, b: seq<byte>)
    requires Canonical(a) == Canonical(b)
    ensures a == b
  {
    assert Canonical(a)[2..] == Encode(a) && Canonical(b)[2..] == Encode(b);
    DecodeUndoesEncode(a);
    DecodeUndoesEncode(b);
  }
}
