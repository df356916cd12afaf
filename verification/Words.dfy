/** Unsigned words of some number of bits: shifts and bitwise or, and what they do to the bits. */
module Words {
  import opened Bytes

  /** The low `n` bits of `v`, most significant first. */
  function ToBits(v: nat, n: nat): (r: seq<bool>)
    ensures |r| == n
  {
    if n == 0 then [] else ToBits(v / 2, n - 1) + [v % 2 == 1]
  }

  function Pow2(n: nat): (r: nat)
    ensures r > 0
  {
    if n == 0 then 1 else 2 * Pow2(n - 1)
  }

  function Double(w: nat, n: nat): (r: nat)
    requires n > 0 && w < Pow2(n)
    ensures r < Pow2(n)
  {
    if w < Pow2(n - 1) then 2 * w else 2 * (w - Pow2(n - 1))
  }

  /** `w << k` in words of `n` bits: bits pushed past the word are lost. */
  function ShiftLeft(w: nat, k: nat, n: nat): (r: nat)
    requires w < Pow2(n) && k < n
    ensures r < Pow2(n)
    decreases k
  {
    if k == 0 then w else ShiftLeft(Double(w, n), k - 1, n)
  }

  /** `w >> k` */
  function ShiftRight(w: nat, k: nat): (r: nat)
    ensures r <= w
    decreases k
  {
    if k == 0 then w else ShiftRight(w / 2, k - 1)
  }

  /** `a | b` */
  function Or(a: nat, b: nat): nat
  {
    if a == 0 then b
    else if b == 0 then a
    else 2 * Or(a / 2, b / 2) + if a % 2 == 1 || b % 2 == 1 then 1 else 0
  }

  function Zeros(k: nat): (r: seq<bool>)
    ensures |r| == k && forall i :: 0 <= i < k ==> !r[i]
  {
    seq(k, i => false)
  }

  lemma {:induction false} BitsOfZero(n: nat)
    ensures ToBits(0, n) == Zeros(n)
  {
    if n > 0 {
      BitsOfZero(n - 1);
    }
  }

  lemma Powers()
    ensures Pow2(0) == 0x1 && Pow2(1) == 0x2 && Pow2(2) == 0x4 && Pow2(3) == 0x8
    ensures Pow2(4) == 0x10 && Pow2(5) == 0x20 && Pow2(6) == 0x40 && Pow2(7) == 0x80
    ensures Pow2(8) == 0x100 && Pow2(9) == 0x200 && Pow2(10) == 0x400 && Pow2(11) == 0x800
    ensures Pow2(12) == 0x1000 && Pow2(13) == 0x2000 && Pow2(14) == 0x4000 && Pow2(15) == 0x8000
    ensures Pow2(16) == 0x10000 && Pow2(17) == 0x20000 && Pow2(18) == 0x40000 && Pow2(19) == 0x80000
    ensures Pow2(20) == 0x100000 && Pow2(21) == 0x200000 && Pow2(22) == 0x400000 && Pow2(23) == 0x800000
    ensures Pow2(24) == 0x1000000 && Pow2(25) == 0x2000000 && Pow2(26) == 0x4000000 && Pow2(27) == 0x8000000
    ensures Pow2(28) == 0x10000000 && Pow2(29) == 0x20000000 && Pow2(30) == 0x40000000 && Pow2(31) == 0x80000000
  {
  }

  lemma {:induction false} OrBits(a: nat, b: nat, n: nat)
    ensures forall i :: 0 <= i < n ==> ToBits(Or(a, b), n)[i] == (ToBits(a, n)[i] || ToBits(b, n)[i])
    decreases n
  {
    if n > 0 {
      BitsOfZero(n);
      OrBits(a / 2, b / 2, n - 1);
      assert a > 0 && b > 0 ==> Or(a, b) / 2 == Or(a / 2, b / 2);
    }
  }

  lemma {:induction false} OrFits(a: nat, b: nat, n: nat)
    requires a < Pow2(n) && b < Pow2(n)
    ensures Or(a, b) < Pow2(n)
    decreases n
  {
    if n > 0 {
      OrFits(a / 2, b / 2, n - 1);
    }
  }

  lemma {:induction false} TopBit(high: nat, low: nat, n: nat)
    requires high < 2 && low < Pow2(n)
    ensures ToBits((if high == 1 then Pow2(n) else 0) + low, n + 1) == [high == 1] + ToBits(low, n)
    decreases n
  {
    var v := (if high == 1 then Pow2(n) else 0) + low;
    if n == 0 {
      assert ToBits(v, 1) == ToBits(v / 2, 0) + [v % 2 == 1];
    } else {
      TopBit(high, low / 2, n - 1);
      assert v / 2 == (if high == 1 then Pow2(n - 1) else 0) + low / 2;
      assert v % 2 == low % 2;
    }
  }

  lemma {:induction false} PowGrows(a: nat, b: nat)
    requires a <= b
    ensures Pow2(a) <= Pow2(b)
  {
    if a < b {
      PowGrows(a, b - 1);
    }
  }

  lemma DoubleBits(w: nat, n: nat)
    requires n > 0 && w < Pow2(n)
    ensures ToBits(Double(w, n), n) == ToBits(w, n)[1..] + [false]
  {
    assert Pow2(n) == 2 * Pow2(n - 1);
    hide ToBits, Pow2;
    var high := if w < Pow2(n - 1) then 0 else 1;
    var low := if high == 1 then w - Pow2(n - 1) else w;
    TopBit(high, low, n - 1);
    NextBit(low, 0, n - 1);
    assert Double(w, n) == 2 * low;
  }

  lemma NextBit(v: nat, d: nat, n: nat)
    requires d < 2
    ensures ToBits(2 * v + d, n + 1) == ToBits(v, n) + [d == 1]
  {
  }

  lemma {:induction false} ShiftLeftBits(w: nat, k: nat, n: nat)
    requires w < Pow2(n) && k < n
    ensures ToBits(ShiftLeft(w, k, n), n) == ToBits(w, n)[k..] + Zeros(k)
    decreases k
  {
    hide ToBits, Double, Pow2;
    var bits := ToBits(w, n);
    if k == 0 {
      assert bits[0..] + Zeros(0) == bits;
    } else {
      DoubleBits(w, n);
      ShiftLeftBits(Double(w, n), k - 1, n);
      assert (bits[1..] + [false])[k - 1..] + Zeros(k - 1) == bits[k..] + Zeros(k);
    }
  }

  lemma {:induction false} ShiftRightBits(w: nat, k: nat, n: nat)
    requires w < Pow2(n) && k <= n
    ensures ToBits(ShiftRight(w, k), n) == Zeros(k) + ToBits(w, n)[..n - k]
    decreases k
  {
    hide Pow2;
    if k == 0 {
      hide ToBits;
      assert Zeros(0) + ToBits(w, n)[..n] == ToBits(w, n);
    } else {
      HalfBits(w, n);
      ShiftRightBits(w / 2, k - 1, n);
      hide ToBits;
      assert Zeros(k - 1) + ([false] + ToBits(w, n)[..n - 1])[..n - (k - 1)] == Zeros(k) + ToBits(w, n)[..n - k];
    }
  }

  lemma OneZero(k: nat)
    requires k == 1
    ensures Zeros(k) == [false]
  {
  }

  lemma ButLast(bits: seq<bool>, b: bool)
    ensures (bits + [b])[..|bits|] == bits
  {
  }

  lemma Halved(w: nat, n: nat)
    requires n > 0 && w < Pow2(n)
    ensures w / 2 < Pow2(n - 1) && ToBits(w, n) == ToBits(w / 2, n - 1) + [w % 2 == 1]
  {
  }

  lemma HalfBits(w: nat, n: nat)
    requires n > 0 && w < Pow2(n)
    ensures ToBits(w / 2, n) == [false] + ToBits(w, n)[..n - 1] && w / 2 < Pow2(n)
  {
    hide ToBits, Pow2;
    Halved(w, n);
    LeadingZeros(w / 2, n - 1, n);
    OneZero(n - (n - 1));
    ButLast(ToBits(w / 2, n - 1), w % 2 == 1);
  }

  lemma {:induction false} LowBits(v: nat, n: nat, m: nat)
    ensures ToBits(v, n + m)[n..] == ToBits(v, m)
    decreases m
  {
    if m > 0 {
      LowBits(v / 2, n, m - 1);
      assert ToBits(v, n + m) == ToBits(v / 2, n + m - 1) + [v % 2 == 1];
    } else {
      assert ToBits(v, n + m)[n..] == [];
    }
  }

  /** The bits of a shifted number are the higher bits of the number. */
  lemma {:induction false} HighBits(w: nat, k: nat, m: nat)
    ensures ToBits(ShiftRight(w, k), m) == ToBits(w, m + k)[..m]
    decreases k
  {
    if k == 0 {
      assert ToBits(w, m)[..m] == ToBits(w, m);
    } else {
      HighBits(w / 2, k - 1, m);
      assert ToBits(w, m + k) == ToBits(w / 2, m + k - 1) + [w % 2 == 1];
    }
  }

  lemma {:induction false} LeadingZeros(v: nat, n: nat, m: nat)
    requires v < Pow2(n) && n <= m
    ensures ToBits(v, m) == Zeros(m - n) + ToBits(v, n)
    decreases m
  {
    if n == 0 {
      BitsOfZero(m);
      assert Zeros(m) + [] == Zeros(m);
    } else {
      LeadingZeros(v / 2, n - 1, m - 1);
    }
  }

  /** Whole multiples of a power of two do not show in the lower bits. */
  lemma {:induction false} CutBits(q: nat, x: nat, n: nat)
    ensures ToBits(q * Pow2(n) + x, n) == ToBits(x, n)
  {
    if n > 0 {
      CutBits(q, x / 2, n - 1);
      Twice(q, Pow2(n - 1));
      NextCut(q * Pow2(n - 1), x, n - 1);
    }
  }

  lemma Twice(q: nat, p: nat)
    ensures q * (2 * p) == 2 * (q * p)
  {
  }

  lemma NextCut(a: nat, x: nat, n: nat)
    requires ToBits(a + x / 2, n) == ToBits(x / 2, n)
    ensures ToBits(2 * a + x, n + 1) == ToBits(x, n + 1)
  {
    assert (2 * a + x) / 2 == a + x / 2;
  }
}
