/** The transaction token MakePayment hands back: the text of a fresh GUID.
    The random 128-bit value itself is an input of the model. */
module Guids {

  type Nibble = x: int | 0 <= x < 16

  /** A GUID as its 32 hexadecimal digits, in the order its text shows them. */
  type Guid = s: seq<Nibble> | |s| == 32 witness seq(32, _ => 0)

  predicate IsHexChar(c: char) {
    ('0' <= c <= '9') || ('a' <= c <= 'f')
  }

  /** Lower-case hexadecimal digit, as Guid.ToString() writes it. */
  function HexChar(x: Nibble): (c: char)
    ensures IsHexChar(c)
  {
    if x < 10 then ('0' as int + x) as char else ('a' as int + x - 10) as char
  }

  function Hex(ns: seq<Nibble>): (s: string)
    ensures |s| == |ns|
    ensures forall i | 0 <= i < |ns| :: s[i] == HexChar(ns[i])
  {
    seq(|ns|, i requires 0 <= i < |ns| => HexChar(ns[i]))
  }

  /** The "D" format: 8-4-4-4-12 hexadecimal digits separated by hyphens. */
  function Format(g: Guid): (s: string)
    ensures |s| == 36
    ensures s[8] == '-' && s[13] == '-' && s[18] == '-' && s[23] == '-'
    ensures forall i | 0 <= i < 32 :: s[DigitPosition(i)] == HexChar(g[i])
  {
    Hex(g[..8]) + "-" + Hex(g[8..12]) + "-" + Hex(g[12..16]) + "-" + Hex(g[16..20]) + "-" + Hex(g[20..])
  }

  /** Position in the text of the i-th hexadecimal digit: one hyphen follows digits 8, 12, 16 and 20. */
  function DigitPosition(i: int): int {
    if i < 8 then i else if i < 12 then i + 1 else if i < 16 then i + 2 else if i < 20 then i + 3 else i + 4
  }

  lemma HexCharInjective(x: Nibble, y: Nibble)
    requires HexChar(x) == HexChar(y)
    ensures x == y
  {
  }

  /** Distinct GUIDs give distinct transaction tokens. */
  lemma FormatInjective(g: Guid, h: Guid)
    requires Format(g) == Format(h)
    ensures g == h
  {
    forall i | 0 <= i < 32
      ensures g[i] == h[i]
    {
      HexCharInjective(g[i], h[i]);
    }
  }
}
