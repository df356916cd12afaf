/** Octets, and the few facts about sequences of them that several components share. */
module Bytes {
  newtype byte = x: int | 0 <= x < 256

  datatype Option<+T> = None | Some(value: T)

  /** The octets of a string literal. */
  function Ascii(s: string): (r: seq<byte>)
    ensures |r| == |s|
  {
    seq(|s|, i requires 0 <= i < |s| => (s[i] as int % 256) as byte)
  }

  /** The ASCII lower-case transformation. */
  function Lower(c: nat): nat { if 65 <= c <= 90 then c + 32 else c }

  function LowerAll(s: seq<byte>): (r: seq<byte>)
    ensures |r| == |s|
  {
    seq(|s|, i requires 0 <= i < |s| => Lower(s[i] as nat) as byte)
  }

  /** The place of the first zero octet. */
  function Terminator(s: seq<byte>): (n: nat)
    requires exists i :: 0 <= i < |s| && s[i] == 0
    ensures n < |s| && s[n] == 0 && forall i :: 0 <= i < n ==> s[i] != 0
  {
    if s[0] == 0 then 0
    else
      assert exists i :: 0 <= i < |s[1..]| && s[1..][i] == 0 by {
        var i :| 0 <= i < |s| && s[i] == 0;
        assert s[1..][i - 1] == 0;
      }
      1 + Terminator(s[1..])
  }

  /** A length of zero stands for everything up to the terminator. */
  function Extent(s: seq<byte>, len: nat): (n: nat)
    requires len <= |s| && (len == 0 ==> 0 in s)
    ensures n <= |s|
  {
    if len > 0 then len else Terminator(s)
  }

  /** The C library's strlen. */
  method StrLen(s: seq<byte>) returns (n: nat)
    requires 0 in s
    ensures n == Terminator(s)
  {
    n := 0;
    while s[n] != 0
      invariant n < |s| && forall i :: 0 <= i < n ==> s[i] != 0
      decreases |s| - n
    {
      n := n + 1;
    }
  }

  /** The C library's memcpy into `dst` at `at`. */
  method MemCopy<T>(dst: array<T>, at: nat, src: seq<T>)
    requires at + |src| <= dst.Length
    modifies dst
    ensures dst[..] == old(dst[..at]) + src + old(dst[at + |src|..])
  {
    for i := 0 to |src|
      invariant dst[..] == old(dst[..at]) + src[..i] + old(dst[at + i..])
    {
      dst[at + i] := src[i];
    }
    assert src[..|src|] == src;
  }
}
