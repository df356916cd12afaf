/** Small arithmetic and decimal digits, shared by several components. */
module Numbers {
  import opened Bytes

  function Min(a: int, b: int): int
  {
    if a < b then a else b
  }

  function Max(a: int, b: int): int
  {
    if a < b then b else a
  }

  /** The character of a decimal digit. */
  function Digit(n: nat): byte
    requires n < 10
  {
    (48 + n) as byte
  }

  predicate IsDigit(c: byte)
  {
    48 <= c <= 57
  }

  /** The character of a hexadecimal digit. */
  function HexDigit(n: nat, upper: bool): byte
    requires n < 16
  {
    if n < 10 then (48 + n) as byte else if upper then (55 + n) as byte else (87 + n) as byte
  }

  predicate IsHex(c: byte)
  {
    48 <= c <= 57 || 65 <= c <= 70 || 97 <= c <= 102
  }

  /** The digit of a character, in either case. */
  function HexValue(c: byte): (n: nat)
    requires IsHex(c)
    ensures n < 16
  {
    if c <= 57 then c as nat - 48 else if c <= 70 then c as nat - 55 else c as nat - 87
  }

  /** What is left of octets whose length goes through 16 bits. */
  function Cut(s: seq<byte>): seq<byte>
  {
    s[..|s| % 0x1_0000]
  }

  /** They are whole exactly when there are fewer than 65536. */
  lemma CutIsWhole(s: seq<byte>)
    ensures Cut(s) == s <==> |s| < 0x1_0000
    ensures |Cut(s)| <= |s| && (|Cut(s)| == |s| <==> |s| < 0x1_0000)
  {
    assert |s| < 0x1_0000 ==> s[..|s|] == s;
  }
}
