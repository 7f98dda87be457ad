/**
 * Formatting of a version-4 UUID string (RFC 4122, section 3 for the string
 * layout and section 4.4 for random UUIDs). The 36 random draws are an input.
 */
module Uuid {

  /** One draw of `Math.floor(Math.random() * 16)`. */
  newtype Nibble = x: int | 0 <= x < 16

  /** The 36 draws the generator makes, one per character position. */
  type RandomNibbles = s: seq<Nibble> | |s| == 36 witness seq(36, _ => 0 as Nibble)

  /** A slot of the working array: a number, or the string "-". */
  datatype Slot = Digit(value: Nibble) | Dash

  const HEX_DIGITS: string := "0123456789abcdef"

  /** Positions overwritten with "-". */
  predicate IsDashPosition(i: int)
  {
    i == 8 || i == 13 || i == 18 || i == 23
  }

  /** Positions that keep their random draw. */
  predicate IsRandomPosition(i: int)
  {
    0 <= i < 36 && !IsDashPosition(i) && i != 14 && i != 19
  }

  /** `n.toString(16)`: the lower-case hexadecimal digit. */
  function HexDigit(n: Nibble): char
  {
    HEX_DIGITS[n]
  }

  /** The value of a hexadecimal digit of either case, as the UUID grammar reads it. */
  function HexValue(c: char): int
  {
    if '0' <= c <= '9' then c as int - '0' as int
    else if 'a' <= c <= 'f' then c as int - 'a' as int + 10
    else if 'A' <= c <= 'F' then c as int - 'A' as int + 10
    else -1
  }

  predicate IsHexDigit(c: char)
  {
    '0' <= c <= '9' || 'a' <= c <= 'f' || 'A' <= c <= 'F'
  }

  /** `n &= ~(1 << 2)` then `n |= 1 << 3`: clear bit 2, set bit 3. */
  function VariantNibble(n: Nibble): (v: Nibble)
    ensures 8 <= v < 12
    ensures v % 4 == n % 4
  {
    var b := ((n as bv4) & !(1 << 2)) | (1 << 3);
    b as int as Nibble
  }

  /** The working array after it was filled and overwritten. */
  function Layout(draws: RandomNibbles): (slots: seq<Slot>)
  {
    seq(36, i requires 0 <= i < 36 =>
      if IsDashPosition(i) then Dash
      else if i == 14 then Digit(4)
      else if i == 19 then Digit(VariantNibble(draws[19]))
      else Digit(draws[i]))
  }

  /** `x.toString(16)` of one slot. */
  function SlotChar(s: Slot): char
  {
    match s
    case Digit(n) => HexDigit(n)
    case Dash => '-'
  }

  /** The string `uuidV4` returns for the given draws. */
  function UuidText(draws: RandomNibbles): string
  {
    var slots := Layout(draws);
    seq(36, i requires 0 <= i < 36 => SlotChar(slots[i]))
  }

  /**
   * `uuidV4()`: fill a 36-slot array with the draws, overwrite the version,
   * variant and dash positions in place, then map each slot to its digit and join.
   */
  method UuidV4(draws: RandomNibbles) returns (id: string)
    ensures id == UuidText(draws)
  {
    var uuid := new Slot[36];
    for i := 0 to 36
      invariant forall j :: 0 <= j < i ==> uuid[j] == Digit(draws[j])
    {
      uuid[i] := Digit(draws[i]);
    }
    uuid[14] := Digit(4);
    uuid[19] := Digit(VariantNibble(uuid[19].value));
    uuid[8], uuid[13], uuid[18], uuid[23] := Dash, Dash, Dash, Dash;
    assert uuid[..] == Layout(draws);
    id := [];
    for i := 0 to 36
      invariant |id| == i
      invariant forall j :: 0 <= j < i ==> id[j] == SlotChar(uuid[j])
    {
      id := id + [SlotChar(uuid[i])];
    }
  }

  /**
   * The string form of a version-4 UUID in RFC 4122: five groups of 8, 4, 4, 4
   * and 12 hexadecimal digits joined by "-", the third group starting with the
   * version digit 4 and the fourth with a digit whose top two bits are 10.
   */
  ghost predicate IsVersion4Uuid(s: string)
  {
    exists a, b, c, d, e ::
      && s == a + "-" + b + "-" + c + "-" + d + "-" + e
      && |a| == 8 && |b| == 4 && |c| == 4 && |d| == 4 && |e| == 12
      && AllHex(a) && AllHex(b) && AllHex(c) && AllHex(d) && AllHex(e)
      && c[0] == '4'
      && 8 <= HexValue(d[0]) < 12
  }

  ghost predicate AllHex(s: string)
  {
    forall i :: 0 <= i < |s| ==> IsHexDigit(s[i])
  }

  /** Every string the generator produces is a version-4 UUID. */
  lemma UuidTextIsVersion4(draws: RandomNibbles)
    ensures IsVersion4Uuid(UuidText(draws))
  {
    var s := UuidText(draws);
    forall i | 0 <= i < 36 && !IsDashPosition(i)
      ensures IsHexDigit(s[i])
    {
      HexDigitIsHex(Layout(draws)[i].value);
    }
    var a, b, c, d, e := s[..8], s[9..13], s[14..18], s[19..23], s[24..];
    SplitAtDashes(s);
    assert AllHex(a) && AllHex(b) && AllHex(c) && AllHex(d) && AllHex(e);
    HexValueOfDigit(VariantNibble(draws[19]));
    assert c[0] == '4' && 8 <= HexValue(d[0]) < 12;
  }

  lemma SplitAtDashes(s: string)
    requires |s| == 36 && s[8] == '-' && s[13] == '-' && s[18] == '-' && s[23] == '-'
    ensures s == s[..8] + "-" + s[9..13] + "-" + s[14..18] + "-" + s[19..23] + "-" + s[24..]
  {
    assert s == s[..8] + [s[8]] + s[9..13] + [s[13]] + s[14..18] + [s[18]] + s[19..23] + [s[23]] + s[24..];
  }

  lemma HexDigitIsHex(n: Nibble)
    ensures IsHexDigit(HexDigit(n))
  {
  }

  lemma HexValueOfDigit(n: Nibble)
    ensures HexValue(HexDigit(n)) == n as int
  {
  }

  /**
   * The layout of the result: 36 characters, "-" at 8, 13, 18 and 23, the
   * version digit 4 at 14, one of 8, 9, a, b at 19, and the lower-case digit of
   * its own draw everywhere else.
   */
  lemma UuidTextLayout(draws: RandomNibbles)
    ensures |UuidText(draws)| == 36
    ensures forall i :: 0 <= i < 36 && IsDashPosition(i) ==> UuidText(draws)[i] == '-'
    ensures UuidText(draws)[14] == '4'
    ensures UuidText(draws)[19] in "89ab"
    ensures forall i :: IsRandomPosition(i) ==> UuidText(draws)[i] == HexDigit(draws[i])
  {
    var v := VariantNibble(draws[19]);
    assert v == 8 || v == 9 || v == 10 || v == 11;
  }

  /**
   * The draws the generator keeps can be read back from the string: the 30
   * random positions give their draws, position 19 the two low bits of its draw.
   */
  lemma DrawsRecoverable(draws: RandomNibbles)
    ensures forall i :: IsRandomPosition(i) ==> HexValue(UuidText(draws)[i]) == draws[i] as int
    ensures HexValue(UuidText(draws)[19]) % 4 == draws[19] as int % 4
  {
    forall i | IsRandomPosition(i)
      ensures HexValue(UuidText(draws)[i]) == draws[i] as int
    {
      HexValueOfDigit(draws[i]);
    }
    HexValueOfDigit(VariantNibble(draws[19]));
  }

  /** Two sets of draws that differ at a kept position give different strings. */
  lemma DistinctDrawsDistinctIds(d1: RandomNibbles, d2: RandomNibbles, i: int)
    requires IsRandomPosition(i) && d1[i] != d2[i]
    ensures UuidText(d1) != UuidText(d2)
  {
    DrawsRecoverable(d1);
    DrawsRecoverable(d2);
  }
}
