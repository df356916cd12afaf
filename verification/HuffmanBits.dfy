/** Bit strings, most significant bit first, and the path numbers that stand for them. */
module HuffmanBits {
  import opened Bytes
  import opened HuffmanTables

  /** The bits a path number stands for: all but its leading one. */
  function Bits(q: nat): (r: seq<bool>)
    requires q >= 1
  {
    if q == 1 then [] else Bits(q / 2) + [q % 2 == 1]
  }

  function NibbleBits(n: nat): (r: seq<bool>)
    ensures |r| == 4
  {
    [n / 8 % 2 == 1, n / 4 % 2 == 1, n / 2 % 2 == 1, n % 2 == 1]
  }

  function OctetBits(b: byte): (r: seq<bool>)
    ensures |r| == 8
  {
    NibbleBits(b as nat / 16) + NibbleBits(b as nat % 16)
  }

  function BitsOf(s: seq<byte>): (r: seq<bool>)
  {
    if s == [] then [] else OctetBits(s[0]) + BitsOf(s[1..])
  }

  ghost predicate AllOnes(bits: seq<bool>) { forall i :: 0 <= i < |bits| ==> bits[i] }

  lemma BitsSnoc(q: nat, b: bool)
    requires q >= 1
    ensures Bits(2 * q + if b then 1 else 0) == Bits(q) + [b]
  {
  }

  lemma NibbleDigits(n: nat)
    requires n < 16
    ensures n == 8 * (n / 8) + 4 * (n / 4 % 2) + 2 * (n / 2 % 2) + n % 2 && n / 8 < 2
    ensures NibbleBits(n) == [n / 8 == 1] + [n / 4 % 2 == 1] + [n / 2 % 2 == 1] + [n % 2 == 1]
  {
  }

  lemma BitsNibble(q: nat, n: nat)
    requires q >= 1 && n < 16
    ensures Bits(16 * q + n) == Bits(q) + NibbleBits(n)
  {
    hide Bits;
    var d1, d2, d3, d4 := n / 8, n / 4 % 2, n / 2 % 2, n % 2;
    NibbleDigits(n);
    hide NibbleBits;
    var q1 := 2 * q + d1;
    var q2 := 2 * q1 + d2;
    var q3 := 2 * q2 + d3;
    BitsSnoc(q, d1 == 1);
    BitsSnoc(q1, d2 == 1);
    BitsSnoc(q2, d3 == 1);
    BitsSnoc(q3, d4 == 1);
  }

  /** A path of at most three bits below another. */
  lemma BitsSplit(x: nat, k: nat, q: nat)
    requires Splits(x, k, q) && k >= 1
    ensures q >= 1 && x >= 1 && Bits(x) == Bits(k) + Bits(q)
  {
    if q == 1 {
    } else if q < 4 {
      BitsSnoc(k, q == 3);
      BitsSnoc(1, q == 3);
    } else {
      var q', x' := q / 2, x / 2;
      assert Splits(x', k, q');
      BitsSplit(x', k, q');
      BitsSnoc(x', q % 2 == 1);
      BitsSnoc(q', q % 2 == 1);
    }
  }

  lemma {:induction false} BitsOfSplit(a: seq<byte>, b: seq<byte>)
    ensures BitsOf(a + b) == BitsOf(a) + BitsOf(b)
  {
    hide OctetBits;
    if a == [] {
      assert a + b == b;
    } else {
      BitsOfSplit(a[1..], b);
      assert (a + b)[1..] == a[1..] + b;
    }
  }

  lemma OctetOnly(b: byte)
    ensures BitsOf([b]) == OctetBits(b)
  {
    hide OctetBits;
    assert [b][1..] == [];
  }

  lemma {:induction false} BitsOfLength(s: seq<byte>)
    ensures |BitsOf(s)| == 8 * |s|
  {
    if s != [] {
      BitsOfLength(s[1..]);
    }
  }

  lemma {:induction false} OnesNumbers(q: nat)
    requires 1 <= q < 0x4000_0000
    ensures IsOnes(q) <==> AllOnes(Bits(q))
  {
    if q != 1 {
      OnesNumbers(q / 2);
      var up := Bits(q / 2);
      var bits := up + [q % 2 == 1];
      assert Bits(q) == bits;
      assert AllOnes(bits) <==> AllOnes(up) && q % 2 == 1 by {
        assert bits[|up|] == (q % 2 == 1);
        assert bits[..|up|] == up;
        assert forall i :: 0 <= i < |up| ==> bits[i] == up[i];
      }
      OnesHalf(q);
    }
  }

  lemma OnesHalf(q: nat)
    requires 1 < q < 0x4000_0000
    ensures IsOnes(q) <==> IsOnes(q / 2) && q % 2 == 1
  {
  }
}
