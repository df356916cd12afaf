/** How the encoder's machine words reach memory. A word goes through 32 bits on its way, whatever its size. */
module HuffmanStores {
  import opened Bytes
  import opened HuffmanBits
  import opened Words

  /**
   Builds differ in the size of a pointer, which is the size of a word, and in what the store
   takes it to be: words of four octets; words of eight; or words of eight stored as four.
   */
  datatype Build = Four | Eight | EightAsFour

  function Width(b: Build): (n: nat)
    ensures n == 32 || n == 64
  {
    if b.Four? then 32 else 64
  }

  /** What is in memory where a word was stored, given what was there before. */
  function StoredWord(b: Build, word: seq<bool>, before: seq<bool>): (r: seq<bool>)
    requires |word| == |before| == Width(b)
    ensures |r| == Width(b)
  {
    match b
    case Four => word
    case Eight => Zeros(32) + word[32..]
    case EightAsFour => word[32..] + before[32..]
  }

  /** What is in memory after whole words were stored; the bits that are left are added as they are. */
  function Output(b: Build, bits: seq<bool>, before: seq<bool>): (r: seq<bool>)
    requires |before| >= |bits|
    ensures |r| == |bits|
    decreases |bits|
  {
    var n := Width(b);
    if |bits| < n then bits
    else StoredWord(b, bits[..n], before[..n]) + Output(b, bits[n..], before[n..])
  }

  /** The words lose nothing: each begins with 32 zeros, or has equal halves that were in memory anyway. */
  ghost predicate Survives(b: Build, bits: seq<bool>, before: seq<bool>)
    requires |before| >= |bits|
    decreases |bits|
  {
    b.Four? || |bits| < 64 || (
      && (if b.Eight? then bits[..32] == Zeros(32) else bits[..32] == bits[32..64] == before[32..64])
      && Survives(b, bits[64..], before[64..]))
  }

  /** Right in a build of four octets, and otherwise exactly when no word that is stored has anything to lose. */
  lemma {:induction false} RightExactlyWhen(b: Build, bits: seq<bool>, before: seq<bool>)
    requires |before| >= |bits|
    ensures Output(b, bits, before) == bits <==> Survives(b, bits, before)
    decreases |bits|
  {
    var n := Width(b);
    if |bits| >= n {
      RightExactlyWhen(b, bits[n..], before[n..]);
      var first, rest := StoredWord(b, bits[..n], before[..n]), Output(b, bits[n..], before[n..]);
      assert Output(b, bits, before)[..n] == first && Output(b, bits, before)[n..] == rest;
      assert bits == bits[..n] + bits[n..];
      FirstSurvives(b, bits[..n], before[..n]);
      if b.Four? {
        FourSurvive(bits[n..], before[n..]);
      }
    }
  }

  lemma SomeMemorySpoils(bits: seq<bool>) returns (before: seq<bool>)
    requires |bits| >= 64
    ensures |before| == |bits| && !Survives(EightAsFour, bits, before)
  {
    before := seq(|bits|, i => !bits[32]);
    assert bits[32..64][0] == bits[32] && before[32..64][0] != bits[32];
  }

  /** Where four octets of each word keep what was there: right whatever that was, exactly when no word is stored. */
  lemma RightWhateverWasThere(bits: seq<bool>)
    ensures (forall before: seq<bool> :: |before| >= |bits| ==> Output(EightAsFour, bits, before) == bits)
      <==> |bits| < 64
  {
    if |bits| < 64 {
      hide Survives;
    } else {
      hide Output, Survives;
      var before := SomeMemorySpoils(bits);
      RightExactlyWhen(EightAsFour, bits, before);
      assert !(Output(EightAsFour, bits, before) == bits);
    }
  }

  lemma FourSurvive(bits: seq<bool>, before: seq<bool>)
    requires |before| >= |bits|
    ensures Survives(Four, bits, before)
  {
  }

  lemma FirstSurvives(b: Build, word: seq<bool>, before: seq<bool>)
    requires |word| == |before| == Width(b)
    ensures b.Four? ==> StoredWord(b, word, before) == word
    ensures b.Eight? ==> (StoredWord(b, word, before) == word <==> word[..32] == Zeros(32))
    ensures b.EightAsFour? ==> (StoredWord(b, word, before) == word <==> word[..32] == word[32..] == before[32..])
  {
    var r := StoredWord(b, word, before);
    if b.Eight? {
      assert r[..32] == Zeros(32) && r[32..] == word[32..];
    } else if b.EightAsFour? {
      assert r[..32] == word[32..] && r[32..] == before[32..];
    }
    assert |word| >= 32 && word == word[..32] + word[32..];
  }

  /** Nothing but whole words. */
  predicate Whole(b: Build, bits: seq<bool>)
    decreases |bits|
  {
    bits == [] || (|bits| >= Width(b) && Whole(b, bits[Width(b)..]))
  }

  lemma OutputStep(b: Build, bits: seq<bool>, before: seq<bool>)
    requires |before| >= |bits| >= Width(b)
    ensures Output(b, bits, before)
      == StoredWord(b, bits[..Width(b)], before[..Width(b)]) + Output(b, bits[Width(b)..], before[Width(b)..])
  {
    hide StoredWord;
  }

  lemma WholeStep(b: Build, bits: seq<bool>)
    requires bits != [] && (Whole(b, bits) || |bits| >= Width(b))
    ensures |bits| >= Width(b) && (Whole(b, bits) <==> Whole(b, bits[Width(b)..]))
  {
  }

  lemma Nothing(b: Build, before: seq<bool>)
    ensures Whole(b, []) && Output(b, [], before) == []
  {
  }

  lemma FirstWord(b: Build, word: seq<bool>, before: seq<bool>)
    requires |word| == Width(b) && |before| >= |word|
    ensures Whole(b, word) && Output(b, word, before) == StoredWord(b, word, before[..|word|])
  {
    hide StoredWord;
    assert word[..|word|] == word && word[|word|..] == [];
  }

  lemma Joins(a: seq<bool>, b: seq<bool>, c: seq<bool>)
    ensures a + (b + c) == a + b + c
  {
  }

  lemma Later(done: seq<bool>, more: seq<bool>, before: seq<bool>, n: nat)
    requires n <= |done| && |before| >= |done| + |more|
    ensures (done + more)[..n] == done[..n] && (done + more)[n..] == done[n..] + more
    ensures before[n..][|done[n..]|..|done[n..]| + |more|] == before[|done|..|done| + |more|]
  {
  }

  /** One word more. */
  lemma {:induction false} OutputWord(b: Build, done: seq<bool>, word: seq<bool>, before: seq<bool>)
    requires Whole(b, done) && |word| == Width(b) && |before| >= |done| + |word|
    ensures Whole(b, done + word)
    ensures Output(b, done + word, before)
      == Output(b, done, before) + StoredWord(b, word, before[|done|..|done| + |word|])
    decreases |done|
  {
    hide StoredWord, Output, Whole;
    var n := Width(b);
    if done == [] {
      FirstWord(b, word, before);
      Nothing(b, before);
      assert [] + word == word && before[0..|word|] == before[..|word|];
    } else {
      WholeStep(b, done);
      OutputStep(b, done + word, before);
      WholeStep(b, done + word);
      OutputStep(b, done, before);
      OutputWord(b, done[n..], word, before[n..]);
      Later(done, word, before, n);
      Joins(StoredWord(b, done[..n], before[..n]), Output(b, done[n..], before[n..]),
        StoredWord(b, word, before[|done|..|done| + |word|]));
    }
  }

  /** Bits that do not fill a word come out as they are. */
  lemma {:induction false} OutputRest(b: Build, done: seq<bool>, rest: seq<bool>, before: seq<bool>)
    requires Whole(b, done) && |rest| < Width(b) && |before| >= |done| + |rest|
    ensures Output(b, done + rest, before) == Output(b, done, before) + rest
    decreases |done|
  {
    hide StoredWord, Whole;
    var n := Width(b);
    if done == [] {
      Nothing(b, before);
      assert [] + rest == rest;
    } else {
      WholeStep(b, done);
      hide Output;
      OutputStep(b, done + rest, before);
      OutputStep(b, done, before);
      OutputRest(b, done[n..], rest, before[n..]);
      Later(done, rest, before, n);
      Joins(StoredWord(b, done[..n], before[..n]), Output(b, done[n..], before[n..]), rest);
    }
  }

  lemma LowNibble(q: nat, r: nat, n: nat)
    requires r < 16
    ensures ToBits(16 * q + r, n + 4) == ToBits(q, n) + NibbleBits(r)
  {
    hide ToBits;
    var d1, d2, d3, d4 := r / 8, r / 4 % 2, r / 2 % 2, r % 2;
    NibbleDigits(r);
    hide NibbleBits;
    var q1 := 2 * q + d1;
    var q2 := 2 * q1 + d2;
    var q3 := 2 * q2 + d3;
    NextBit(q, d1, n);
    NextBit(q1, d2, n + 1);
    NextBit(q2, d3, n + 2);
    NextBit(q3, d4, n + 3);
    assert 16 * q + r == 2 * q3 + d4;
  }

  lemma NoBits(v: nat)
    ensures ToBits(v, 0) == []
  {
  }

  lemma TwoNibbles(h: nat, x: nat, y: nat)
    requires x < 16 && y < 16
    ensures ToBits(16 * (16 * h + x) + y, 8) == NibbleBits(x) + NibbleBits(y)
  {
    hide ToBits, NibbleBits;
    NoBits(h);
    LowNibble(h, x, 0);
    LowNibble(16 * h + x, y, 4);
  }

  lemma NibblesOf(v: nat)
    ensures v == 16 * (16 * (v / 256) + v / 16 % 16) + v % 16
    ensures v % 256 / 16 == v / 16 % 16 && v % 256 % 16 == v % 16
  {
  }

  lemma LowOctet(v: nat)
    ensures ToBits(v, 8) == OctetBits((v % 256) as byte)
  {
    hide ToBits, NibbleBits;
    NibblesOf(v);
    TwoNibbles(v / 256, v / 16 % 16, v % 16);
  }

  /** The octet of a word that starts `k` bits above its low end. */
  function OctetOf(w: nat, k: nat): byte
  {
    (ShiftRight(w, k) % 256) as byte
  }

  lemma OctetOfBits(w: nat, k: nat, n: nat)
    requires k + 8 <= n
    ensures OctetBits(OctetOf(w, k)) == ToBits(w, n)[n - k - 8..n - k]
  {
    hide ToBits, ShiftRight, OctetBits;
    LowOctet(ShiftRight(w, k));
    HighBits(w, k, 8);
    LowBits(w, n - k - 8, k + 8);
    var all := ToBits(w, n);
    assert all[n - k - 8..][..8] == all[n - k - 8..n - k];
  }

  lemma Appended(s: seq<byte>)
    requires s != []
    ensures BitsOf(s) == BitsOf(s[..|s| - 1]) + OctetBits(s[|s| - 1])
  {
    OctetOnly(s[|s| - 1]);
    hide BitsOf, OctetBits;
    BitsOfSplit(s[..|s| - 1], [s[|s| - 1]]);
    assert s == s[..|s| - 1] + [s[|s| - 1]];
  }

  /** Stores the low `8 * count` bits of a word, most significant octet first. */
  method PutOctets(dst: array<byte>, at: nat, w: nat, count: nat)
    requires at + count <= dst.Length
    modifies dst
    ensures forall k :: 0 <= k < at || at + count <= k < dst.Length ==> dst[k] == old(dst[k])
    ensures BitsOf(dst[..at + count]) == BitsOf(old(dst[..at])) + ToBits(w, 8 * count)
  {
    hide ToBits, OctetOf, OctetBits, BitsOf;
    ghost var was, bits := BitsOf(dst[..at]), ToBits(w, 8 * count);
    var pending := 8 * count;
    var hlen := at;
    while pending > 0
      invariant pending % 8 == 0 && 0 <= pending <= 8 * count && hlen == at + count - pending / 8
      invariant forall k :: 0 <= k < at || at + count <= k < dst.Length ==> dst[k] == old(dst[k])
      invariant BitsOf(dst[..hlen]) == was + bits[..8 * count - pending]
    {
      pending := pending - 8;
      ghost var done := dst[..hlen];
      dst[hlen] := OctetOf(w, pending);
      hlen := hlen + 1;
      assert dst[..hlen][..hlen - 1] == done;
      Appended(dst[..hlen]);
      NextSlice(w, 8 * count, pending);
    }
    assert bits[..8 * count] == bits;
  }

  lemma NextSlice(w: nat, n: nat, k: nat)
    requires k + 8 <= n
    ensures ToBits(w, n)[..n - k - 8] + OctetBits(OctetOf(w, k)) == ToBits(w, n)[..n - k]
  {
    hide ToBits, OctetBits, OctetOf;
    OctetOfBits(w, k, n);
  }

  /** Going through 32 bits keeps the low half of a word. */
  lemma NarrowBits(w: nat, n: nat)
    requires n == 32 || n == 64
    ensures var x := w % 0x1_0000_0000;
      ToBits(x, 32) == ToBits(w, n)[n - 32..] && ToBits(x, n) == Zeros(n - 32) + ToBits(w, n)[n - 32..]
  {
    hide ToBits, Pow2;
    Half();
    var x, q := w % 0x1_0000_0000, w / 0x1_0000_0000;
    CutBits(q, x, 32);
    assert q * Pow2(32) + x == w;
    LowBits(w, n - 32, 32);
    LeadingZeros(x, 32, n);
  }

  lemma Half()
    ensures Pow2(32) == 0x1_0000_0000
  {
    Powers();
    assert Pow2(32) == 2 * Pow2(31);
  }

  /** The store of a word in each build. */
  method PutWord(b: Build, dst: array<byte>, at: nat, w: nat)
    requires at + Width(b) / 8 <= dst.Length
    modifies dst
    ensures forall k :: 0 <= k < at || at + Width(b) / 8 <= k < dst.Length ==> dst[k] == old(dst[k])
    ensures |BitsOf(old(dst[at..at + Width(b) / 8]))| == Width(b)
    ensures BitsOf(dst[..at + Width(b) / 8])
      == BitsOf(old(dst[..at])) + StoredWord(b, ToBits(w, Width(b)), BitsOf(old(dst[at..at + Width(b) / 8])))
  {
    hide ToBits, BitsOf;
    ghost var end := at + Width(b) / 8;
    NarrowBits(w, Width(b));
    BitsOfLength(dst[at..end]);
    ghost var was := dst[..];
    var narrow := w % 0x1_0000_0000;
    if b.Eight? {
      PutOctets(dst, at, narrow, 8);
    } else {
      PutOctets(dst, at, narrow, 4);
    }
    if b.EightAsFour? {
      assert dst[..end] == dst[..at + 4] + was[at + 4..end];
      BitsOfSplit(dst[..at + 4], was[at + 4..end]);
      assert was[at..end] == was[at..at + 4] + was[at + 4..end];
      BitsOfSplit(was[at..at + 4], was[at + 4..end]);
      BitsOfLength(was[at..at + 4]);
    }
    assert was[..at] == old(dst[..at]) && was[at..end] == old(dst[at..end]);
  }

  /** Bit by bit: with words of eight octets the high half of each whole word is lost, in one way or another. */
  lemma {:induction false} StoredAt(b: Build, bits: seq<bool>, before: seq<bool>, i: nat)
    requires |before| >= |bits| && i < |bits|
    ensures Output(b, bits, before)[i] ==
      if b.Four? || i / 64 == |bits| / 64 then bits[i]
      else if b.Eight? then i % 64 >= 32 && bits[i]
      else if i % 64 < 32 then bits[i + 32] else before[i]
    decreases |bits|
  {
    var n := Width(b);
    if |bits| >= n && i >= n {
      StoredAt(b, bits[n..], before[n..], i - n);
      if !b.Four? {
        assert (i - 64) % 64 == i % 64 && (i - 64) / 64 == i / 64 - 1 && (|bits| - 64) / 64 == |bits| / 64 - 1;
      }
    }
  }
}
