/** Integers of HPACK: what the writer emits, what section 5.1 of RFC 7541 reads, and what the parser accepts. */
module HpackIntegers {
  import opened Bytes
  import opened Words

  /** Octets of an integer that the parser reads at most. */
  const INT_OCTETS: nat := 4

  /** The mask of an `n`-bit prefix. */
  function Mask(n: nat): nat
    requires 1 <= n <= 8
  {
    Pow2(n) - 1
  }

  /** `a & b` */
  function And(a: nat, b: nat): nat
  {
    if a == 0 || b == 0 then 0
    else 2 * And(a / 2, b / 2) + if a % 2 == 1 && b % 2 == 1 then 1 else 0
  }

  /** Bits above the mask and bits below it are put together by adding, and taken apart again. */
  lemma {:induction false} SplitBits(high: nat, low: nat, n: nat)
    requires n > 0 && And(high, Pow2(n) - 1) == 0 && low < Pow2(n)
    ensures Or(high, low) == high + low && And(high + low, Pow2(n) - 1) == low
    decreases n
  {
    var m := Pow2(n) - 1;
    if n == 1 {
      assert Pow2(1) == 2 && m == 1;
      OneBit(high, low);
    } else {
      assert m / 2 == Pow2(n - 1) - 1 && m % 2 == 1;
      assert high > 0 ==> And(high, m) == 2 * And(high / 2, m / 2) + high % 2;
      SplitBits(high / 2, low / 2, n - 1);
      assert (high + low) / 2 == high / 2 + low / 2;
    }
  }

  lemma OneBit(high: nat, low: nat)
    requires And(high, 1) == 0 && low < 2
    ensures Or(high, low) == high + low && And(high + low, 1) == low
  {
    assert And(high / 2, 0) == 0;
    assert high % 2 == 0;
  }

  lemma LowSeven(octet: byte)
    ensures And(octet as nat, 127) == if octet < 128 then octet as nat else octet as nat - 128
  {
    assert Pow2(7) == 128;
    assert And(128, 127) == 0;
    SplitBits(if octet < 128 then 0 else 128, if octet < 128 then octet as nat else octet as nat - 128, 7);
  }

  /** The continuation of an integer: base 128, least significant first. */
  function Tail(v: nat): (r: seq<byte>)
    ensures |r| > 0
  {
    if v < 128 then [v as byte] else [(v % 128 + 128) as byte] + Tail(v / 128)
  }

  /** Section 5.1 of RFC 7541, encoding, below the bits of `kind` above the prefix. */
  function Encoded(kind: byte, n: nat, v: nat): (r: seq<byte>)
    requires 1 <= n <= 8 && And(kind as nat, Mask(n)) == 0 && kind as nat + Mask(n) < 256
    ensures |r| > 0
  {
    if v < Mask(n) then [(kind as nat + v) as byte] else [(kind as nat + Mask(n)) as byte] + Tail(v - Mask(n))
  }

  datatype Read = Read(value: nat, size: nat)

  function ReadTail(s: seq<byte>): (r: Option<Read>)
    ensures r.Some? ==> 0 < r.value.size <= |s|
  {
    if s == [] then None
    else if s[0] < 128 then Some(Read(s[0] as nat, 1))
    else
      var rest := ReadTail(s[1..]);
      if rest.None? then None else Some(Read(s[0] as nat - 128 + 128 * rest.value.value, 1 + rest.value.size))
  }

  /** Section 5.1 of RFC 7541, decoding. */
  function ReadInt(n: nat, s: seq<byte>): (r: Option<Read>)
    requires 1 <= n <= 8
    ensures r.Some? ==> 0 < r.value.size <= |s|
  {
    if s == [] then None
    else
      var first := And(s[0] as nat, Mask(n));
      if first != Mask(n) then Some(Read(first, 1))
      else
        var rest := ReadTail(s[1..]);
        if rest.None? then None else Some(Read(Mask(n) + rest.value.value, 1 + rest.value.size))
  }

  lemma {:induction false} TailReads(v: nat, rest: seq<byte>)
    ensures ReadTail(Tail(v) + rest) == Some(Read(v, |Tail(v)|))
  {
    if v >= 128 {
      TailReads(v / 128, rest);
      assert (Tail(v) + rest)[1..] == Tail(v / 128) + rest;
    }
  }

  /** Every integer reads back, whatever follows it. */
  lemma EncodedReads(kind: byte, n: nat, v: nat, rest: seq<byte>)
    requires 1 <= n <= 8 && And(kind as nat, Mask(n)) == 0 && kind as nat + Mask(n) < 256
    ensures ReadInt(n, Encoded(kind, n, v) + rest) == Some(Read(v, |Encoded(kind, n, v)|))
  {
    hide And, Pow2, Tail, ReadTail;
    var s := Encoded(kind, n, v) + rest;
    SplitBits(kind as nat, if v < Mask(n) then v else Mask(n), n);
    if v >= Mask(n) {
      TailReads(v - Mask(n), rest);
      assert s[0] == Encoded(kind, n, v)[0];
      assert s[1..] == Tail(v - Mask(n)) + rest;
    }
  }

  function Bound(k: nat): nat { if k == 0 then 1 else 128 * Bound(k - 1) }

  lemma {:induction false} TailLength(v: nat, k: nat)
    requires k > 0
    ensures |Tail(v)| <= k <==> v < Bound(k)
  {
    if v >= 128 && k > 1 {
      TailLength(v / 128, k - 1);
    } else if k > 1 {
      assert Bound(k) >= 128 by { BoundGrows(k); }
    }
  }

  lemma {:induction false} BoundGrows(k: nat)
    requires k > 0
    ensures Bound(k) >= 128
  {
    if k > 1 {
      BoundGrows(k - 1);
    }
  }

  /** A 64-bit value takes at most eleven octets. */
  lemma EncodedLength(kind: byte, n: nat, v: nat)
    requires 1 <= n <= 8 && And(kind as nat, Mask(n)) == 0 && kind as nat + Mask(n) < 256 && v < 0x1_0000_0000_0000_0000
    ensures |Encoded(kind, n, v)| <= 11
  {
    hide Tail;
    Bounds();
    TailLength(if v < Mask(n) then 0 else v - Mask(n), 10);
  }

  lemma Bounds()
    ensures Bound(3) == 0x20_0000 && Bound(10) == 0x40_0000_0000_0000_0000
  {
    assert Bound(5) == 0x8_0000_0000;
  }

  datatype Parse = Value(value: nat, size: nat) | Again | Declined | Error

  /** What the parser makes of the octets at hand when `length` octets of the block are left. */
  function Parsed(n: nat, s: seq<byte>, length: nat): Parse
    requires 1 <= n <= 8
  {
    var seen := if |s| > 4 then s[..4] else s;
    match ReadInt(n, seen)
    case Some(r) => if r.size <= length then Value(r.value, r.size) else Error
    case None => if |seen| >= length then Error else if |seen| == 4 then Declined else Again
  }

  /** A continuation read from the middle on, with what the octets before it made. */
  function Onward(value: nat, shift: nat, size: nat, rest: Option<Read>): Option<Read>
  {
    if rest.None? then None else Some(Read(value + rest.value.value * Pow2(shift), size + rest.value.size))
  }

  lemma OneOctet(value: nat, shift: nat, seen: seq<byte>, p: nat)
    requires 1 <= p < |seen|
    ensures var low := And(seen[p] as nat, 127);
      if seen[p] < 128 then
        Onward(value, shift, p, ReadTail(seen[p..])) == Some(Read(value + low * Pow2(shift), p + 1))
      else
        Onward(value, shift, p, ReadTail(seen[p..]))
        == Onward(value + low * Pow2(shift), shift + 7, p + 1, ReadTail(seen[p + 1..]))
  {
    hide And, Pow2;
    PowSeven();
    LowSeven(seen[p]);
    PowSum(shift, 7);
    var tail := ReadTail(seen[p + 1..]);
    assert seen[p..][1..] == seen[p + 1..];
    if seen[p] >= 128 && tail.Some? {
      Distribute(seen[p] as nat - 128, tail.value.value, Pow2(shift));
    }
  }

  lemma PowSeven()
    ensures Pow2(7) == 128
  {
  }

  lemma Distribute(a: nat, b: nat, w: nat)
    ensures (a + 128 * b) * w == a * w + b * (w * 128)
  {
  }

  lemma {:induction false} PowSum(a: nat, b: nat)
    ensures Pow2(a + b) == Pow2(a) * Pow2(b)
    decreases b
  {
    if b > 0 {
      PowSum(a, b - 1);
    }
  }

  lemma NoneLeft(value: nat, shift: nat, p: nat, seen: seq<byte>)
    requires p == |seen|
    ensures Onward(value, shift, p, ReadTail(seen[p..])) == None
  {
  }

  lemma Opening(n: nat, seen: seq<byte>)
    requires 1 <= n <= 8 && seen != []
    ensures var first := And(seen[0] as nat, Mask(n));
      ReadInt(n, seen) ==
        if first != Mask(n) then Some(Read(first, 1))
        else Onward(Mask(n), 0, 1, ReadTail(seen[1..]))
  {
  }

  /** The parser's loop; `length` octets of the header block are left, and so many after it. */
  method ParseInt(n: nat, s: seq<byte>, length: nat) returns (r: Parse, left: nat)
    requires 1 <= n <= 8 && |s| > 0
    ensures r == Parsed(n, s, length)
    ensures left == if r.Value? then length - r.size else length
  {
    hide And, Pow2, ReadTail, ReadInt, Onward;
    left := length;
    Opening(n, if |s| > 4 then s[..4] else s);
    var value: nat := And(s[0] as nat, Mask(n));
    if value != Mask(n) {
      return if length == 0 then Error else Value(value, 1), if length == 0 then 0 else length - 1;
    }
    var end := |s|;
    if end > INT_OCTETS {
      end := INT_OCTETS;
    }
    ghost var seen := if |s| > 4 then s[..4] else s;
    var p, shift := 1, 0;
    while p != end
      invariant 1 <= p <= end && shift == 7 * (p - 1)
      invariant ReadInt(n, seen) == Onward(value, shift, p, ReadTail(seen[p..]))
    {
      var octet := s[p];
      OneOctet(value, shift, seen, p);
      p := p + 1;
      value := value + And(octet as nat, 127) * Pow2(shift);
      if octet < 128 {
        if p > length {
          return Error, length;
        }
        return Value(value, p), length - p;
      }
      shift := shift + 7;
    }
    NoneLeft(value, shift, p, seen);
    if end >= length {
      return Error, length;
    }
    if end == INT_OCTETS {
      return Declined, length;
    }
    return Again, length;
  }

  lemma {:induction false} TailCut(v: nat, k: nat)
    requires k < |Tail(v)|
    ensures ReadTail(Tail(v)[..k]) == None
  {
    if k > 0 {
      TailCut(v / 128, k - 1);
      assert Tail(v)[..k][1..] == Tail(v / 128)[..k - 1];
    }
  }

  /** An integer cut short after any of its octets is not read. */
  lemma CutReadsNothing(kind: byte, n: nat, v: nat, k: nat)
    requires 1 <= n <= 8 && And(kind as nat, Mask(n)) == 0 && kind as nat + Mask(n) < 256
    requires 0 < k < |Encoded(kind, n, v)|
    ensures ReadInt(n, Encoded(kind, n, v)[..k]) == None
  {
    hide And, Pow2, Tail, ReadTail;
    var e := Encoded(kind, n, v);
    SplitBits(kind as nat, Mask(n), n);
    TailCut(v - Mask(n), k - 1);
    assert e[..k][1..] == Tail(v - Mask(n))[..k - 1];
    assert e[..k][0] == e[0];
  }

  /**
   What the parser says when only some octets are received yet, of an integer and of what follows it, and
   `length` octets of the header block are left: the integer when it is there within four octets and within
   the block; an error when the block ends before the integer does; and otherwise that it is too long, when
   four octets are there, or that more octets have to come.
   */
  lemma ReceivedInParts(kind: byte, n: nat, v: nat, rest: seq<byte>, k: nat, length: nat)
    requires 1 <= n <= 8 && And(kind as nat, Mask(n)) == 0 && kind as nat + Mask(n) < 256
    requires 0 < k <= |Encoded(kind, n, v)| + |rest|
    ensures var size := |Encoded(kind, n, v)|;
      Parsed(n, (Encoded(kind, n, v) + rest)[..k], length) ==
        if size <= k && size <= 4 then (if size <= length then Value(v, size) else Error)
        else if length <= k && length <= 4 then Error
        else if k >= 4 then Declined
        else Again
  {
    hide And, Pow2, Tail, ReadTail, Encoded, ReadInt;
    var e := Encoded(kind, n, v);
    var s := (e + rest)[..k];
    var seen := if |s| > 4 then s[..4] else s;
    if |e| <= |seen| {
      EncodedReads(kind, n, v, rest[..|seen| - |e|]);
      assert seen == e + rest[..|seen| - |e|];
    } else {
      CutReadsNothing(kind, n, v, |seen|);
      assert seen == e[..|seen|];
    }
  }

  lemma FourOctets(kind: byte, n: nat, v: nat)
    requires 1 <= n <= 8 && And(kind as nat, Mask(n)) == 0 && kind as nat + Mask(n) < 256
    ensures |Encoded(kind, n, v)| <= 4 <==> v < Mask(n) + 0x20_0000
  {
    hide Tail;
    Bounds();
    TailLength(if v < Mask(n) then 0 else v - Mask(n), 3);
  }

  /** The parser takes what the writer emits exactly when it took at most four octets. */
  lemma ParserTakes(kind: byte, n: nat, v: nat, rest: seq<byte>, length: nat)
    requires 1 <= n <= 8 && And(kind as nat, Mask(n)) == 0 && kind as nat + Mask(n) < 256
    requires length >= |Encoded(kind, n, v)|
    ensures Parsed(n, Encoded(kind, n, v) + rest, length) ==
      if v < Mask(n) + 0x20_0000 then Value(v, |Encoded(kind, n, v)|) else Declined
  {
    hide And, Pow2, Encoded, Parsed;
    var s := Encoded(kind, n, v) + rest;
    FourOctets(kind, n, v);
    ReceivedInParts(kind, n, v, rest, |s|, length);
    assert s[..|s|] == s;
  }

  lemma {:induction false} TailStops(s: seq<byte>)
    ensures ReadTail(s) == None <==> forall p :: 0 <= p < |s| ==> s[p] >= 128
    ensures ReadTail(s).Some? ==>
      && ReadTail(s).value.size <= |s| && s[ReadTail(s).value.size - 1] < 128
      && forall p :: 0 <= p < ReadTail(s).value.size - 1 ==> s[p] >= 128
  {
    if s != [] && s[0] >= 128 {
      TailStops(s[1..]);
      forall p | 0 < p < |s|
        ensures s[p] == s[1..][p - 1]
      {
      }
    }
  }

  /** The same of any octets: when more are asked for, when they are too many, and that no value is made up. */
  lemma AnyOctets(n: nat, s: seq<byte>, length: nat)
    requires 1 <= n <= 8 && s != []
    ensures var going := And(s[0] as nat, Mask(n)) == Mask(n) && forall p :: 1 <= p < |s| && p < 4 ==> s[p] >= 128;
      && (Parsed(n, s, length).Again? <==> going && |s| < 4 && |s| < length)
      && (Parsed(n, s, length).Declined? <==> going && |s| >= 4 && length > 4)
      && (Parsed(n, s, length).Value? <==> !going && ReadInt(n, s).Some? && ReadInt(n, s).value.size <= length)
    ensures Parsed(n, s, length).Value? ==>
      ReadInt(n, s) == Some(Read(Parsed(n, s, length).value, Parsed(n, s, length).size))
  {
    hide And, Pow2, ReadTail;
    var seen := if |s| > 4 then s[..4] else s;
    TailStops(s[1..]);
    TailStops(seen[1..]);
    assert seen[0] == s[0];
    assert forall p :: 1 <= p < |seen| ==> seen[p] == s[p] == seen[1..][p - 1] == s[1..][p - 1];
    if ReadTail(seen[1..]).Some? {
      TailPrefix(seen[1..], s[1..][|seen| - 1..]);
    }
    assert s[1..] == seen[1..] + s[1..][|seen| - 1..];
  }

  /** What is read of a continuation does not depend on what follows it. */
  lemma {:induction false} TailPrefix(s: seq<byte>, rest: seq<byte>)
    requires ReadTail(s).Some?
    ensures ReadTail(s + rest) == ReadTail(s)
  {
    if s[0] >= 128 {
      TailPrefix(s[1..], rest);
      assert (s + rest)[1..] == s[1..] + rest;
    }
  }
}
