/** The server's Huffman encoder: codes packed into machine words, given up unless they are shorter. */
module HuffmanEncoder {
  import opened Bytes
  import opened HuffmanCodes
  import opened HuffmanTree
  import opened HuffmanTables
  import opened HuffmanBits
  import opened HuffmanReading
  import opened HuffmanDecoder
  import opened HuffmanStores
  import opened Words

  /** What is encoded: the text itself, or its ASCII lower-casing. */
  function Text(src: seq<byte>, lower: bool): (r: seq<byte>)
    ensures |r| == |src|
  {
    if lower then LowerAll(src) else src
  }

  /** Number of octets that hold so many bits. */
  function OctetsFor(bits: nat): nat { (bits + 7) / 8 }

  /** The table's word for a code is the code, at the low end of the word. */
  lemma CodeWord(c: byte, n: nat)
    requires n >= 32
    ensures var code := Plain(c as nat);
            && 5 <= code.len <= 30 && code.bits < Pow2(n)
            && ToBits(code.bits, n) == Zeros(n - code.len) + CodeBits(c)
            && |CodeBits(c)| == code.len
  {
    hide Plain, CodePath, Pow2;
    PathBounds(c as nat);
    PlainPaths(c as nat);
    PlainFits(c as nat);
    var code := Plain(c as nat);
    PathIsBits(code.bits, code.len);
    PowGrows(code.len, n);
    LeadingZeros(code.bits, code.len, n);
  }

  lemma PlainFits(c: nat)
    requires c < 256
    ensures Plain(c).len < 32 && Plain(c).bits < Pow2(Plain(c).len)
  {
    hide Pow2;
    Powers();
  }

  lemma {:induction false} PathIsBits(v: nat, n: nat)
    requires n < 32 && v < Pow2(n)
    ensures v + Pow2(n) >= 1 && Bits(v + Pow2(n)) == ToBits(v, n)
  {
    if n > 0 {
      assert Pow2(n) == 2 * Pow2(n - 1);
      PathIsBits(v / 2, n - 1);
      assert (v + Pow2(n)) / 2 == v / 2 + Pow2(n - 1);
      assert (v + Pow2(n)) % 2 == v % 2;
    }
  }

  lemma OrIsWord(a: nat, b: nat, n: nat)
    requires a < Pow2(n) && b < Pow2(n)
    ensures Or(a, b) < Pow2(n)
  {
    OrFits(a, b, n);
  }

  /** Packing a code that fits the word behind what is pending there. */
  lemma PackFits(n: nat, buf: nat, pending: seq<bool>, c: byte)
    requires n >= 32 && buf < Pow2(n) && |pending| < n
    requires ToBits(buf, n) == pending + Zeros(n - |pending|)
    requires |pending| + Plain(c as nat).len < n
    ensures 5 <= Plain(c as nat).len <= 30 && Plain(c as nat).bits < Pow2(n)
    ensures var total := |pending| + Plain(c as nat).len;
            var word := Or(buf, ShiftLeft(Plain(c as nat).bits, n - total, n));
            && |pending + CodeBits(c)| == total
            && word < Pow2(n) && ToBits(word, n) == pending + CodeBits(c) + Zeros(n - total)
  {
    hide Plain, CodeBits, ToBits, ShiftLeft, Or, Pow2;
    CodeWord(c, n);
    var code, more := Plain(c as nat), pending + CodeBits(c);
    var k := n - |more|;
    ShiftLeftBits(code.bits, k, n);
    var shifted := ShiftLeft(code.bits, k, n);
    OrBits(buf, shifted, n);
    OrIsWord(buf, shifted, n);
    assert ToBits(shifted, n) == Zeros(|pending|) + CodeBits(c) + Zeros(k);
    assert ToBits(Or(buf, shifted), n) == more + Zeros(k);
  }

  /** A code that fills the word: its first bits complete it, the others start the next word. */
  lemma PackFills(n: nat, buf: nat, pending: seq<bool>, c: byte)
    requires n >= 32 && buf < Pow2(n) && |pending| < n
    requires ToBits(buf, n) == pending + Zeros(n - |pending|)
    requires |pending| + Plain(c as nat).len >= n
    ensures 5 <= Plain(c as nat).len <= 30 && Plain(c as nat).bits < Pow2(n)
    ensures var over := |pending| + Plain(c as nat).len - n;
            var word := Or(buf, ShiftRight(Plain(c as nat).bits, over));
            var rest := if over > 0 then ShiftLeft(Plain(c as nat).bits, n - over, n) else 0;
            && |CodeBits(c)| == Plain(c as nat).len
            && word < Pow2(n) && ToBits(word, n) == pending + CodeBits(c)[..|CodeBits(c)| - over]
            && rest < Pow2(n) && ToBits(rest, n) == CodeBits(c)[|CodeBits(c)| - over..] + Zeros(n - over)
  {
    hide Plain, CodeBits, ToBits, ShiftLeft, ShiftRight, Or, Pow2;
    CodeWord(c, n);
    var code := Plain(c as nat);
    var bits := CodeBits(c);
    var over := |pending| + code.len - n;
    ShiftRightBits(code.bits, over, n);
    var head := ShiftRight(code.bits, over);
    OrBits(buf, head, n);
    OrIsWord(buf, head, n);
    assert ToBits(head, n) == Zeros(|pending|) + bits[..|bits| - over];
    assert ToBits(Or(buf, head), n) == pending + bits[..|bits| - over];
    if over > 0 {
      ShiftLeftBits(code.bits, n - over, n);
    } else {
      BitsOfZero(n);
      assert bits[|bits|..] + Zeros(n) == Zeros(n);
    }
  }

  /** What the encoder keeps: the codes so far are whole words that were stored and the bits pending in `buf`. */
  ghost predicate Packed(b: Build, codes: seq<bool>, done: seq<bool>, pending: seq<bool>, buf: nat)
  {
    && codes == done + pending && |pending| < Width(b) && Whole(b, done)
    && buf < Pow2(Width(b)) && ToBits(buf, Width(b)) == pending + Zeros(Width(b) - |pending|)
  }

  lemma PackedSize(b: Build, codes: seq<bool>, done: seq<bool>, pending: seq<bool>, buf: nat)
    requires Packed(b, codes, done, pending, buf)
    ensures buf < Pow2(Width(b)) && |pending| < Width(b) && codes == done + pending
    ensures |codes| == |done| + |pending| && Whole(b, done)
    ensures ToBits(buf, Width(b)) == pending + Zeros(Width(b) - |pending|)
  {
    hide ToBits, Whole, Pow2;
  }

  lemma Repacked(b: Build, codes: seq<bool>, done: seq<bool>, pending: seq<bool>, buf: nat)
    requires codes == done + pending && |pending| < Width(b) && Whole(b, done)
    requires buf < Pow2(Width(b)) && ToBits(buf, Width(b)) == pending + Zeros(Width(b) - |pending|)
    ensures Packed(b, codes, done, pending, buf)
  {
    hide ToBits, Whole, Pow2;
  }

  lemma CodeJoins(b: Build, codes: seq<bool>, done: seq<bool>, pending: seq<bool>, buf: nat, c: byte)
    requires Packed(b, codes, done, pending, buf) && |pending| + Plain(c as nat).len < Width(b)
    ensures 5 <= Plain(c as nat).len <= 30 && Plain(c as nat).bits < Pow2(Width(b))
    ensures var total := |pending| + Plain(c as nat).len;
            var word := Or(buf, ShiftLeft(Plain(c as nat).bits, Width(b) - total, Width(b)));
            |pending + CodeBits(c)| == total && Packed(b, codes + CodeBits(c), done, pending + CodeBits(c), word)
  {
    hide ToBits, Or, ShiftLeft, Plain, CodeBits, Pow2, Whole;
    PackFits(Width(b), buf, pending, c);
    assert codes + CodeBits(c) == done + (pending + CodeBits(c));
  }

  lemma Regrouped(done: seq<bool>, pending: seq<bool>, more: seq<bool>, k: nat)
    requires k <= |more|
    ensures done + pending + more == done + (pending + more[..k]) + more[k..]
  {
  }

  /** A word is completed. */
  lemma CodeOverflows(b: Build, codes: seq<bool>, done: seq<bool>, pending: seq<bool>, buf: nat, c: byte)
    requires Packed(b, codes, done, pending, buf) && |pending| + Plain(c as nat).len >= Width(b)
    ensures 5 <= Plain(c as nat).len <= 30 && Plain(c as nat).bits < Pow2(Width(b))
    ensures var over := |pending| + Plain(c as nat).len - Width(b);
            var word := Or(buf, ShiftRight(Plain(c as nat).bits, over));
            var rest := if over > 0 then ShiftLeft(Plain(c as nat).bits, Width(b) - over, Width(b)) else 0;
            && over <= |CodeBits(c)|
            && Packed(b, codes + CodeBits(c), done + ToBits(word, Width(b)), CodeBits(c)[|CodeBits(c)| - over..], rest)
  {
    hide ToBits, Or, ShiftLeft, ShiftRight, Plain, CodeBits, Pow2, Whole, Packed;
    PackedSize(b, codes, done, pending, buf);
    PackFills(Width(b), buf, pending, c);
    var over := |pending| + Plain(c as nat).len - Width(b);
    var first := |CodeBits(c)| - over;
    var word := Or(buf, ShiftRight(Plain(c as nat).bits, over));
    var rest := if over > 0 then ShiftLeft(Plain(c as nat).bits, Width(b) - over, Width(b)) else 0;
    OutputWord(b, done, ToBits(word, Width(b)), done + ToBits(word, Width(b)));
    Regrouped(done, pending, CodeBits(c), first);
    Repacked(b, codes + CodeBits(c), done + ToBits(word, Width(b)), CodeBits(c)[first..], rest);
  }

  /** What is in memory of the codes, whose last bits are padded with ones to a whole octet. */
  ghost predicate Encodes(b: Build, codes: seq<bool>, octets: seq<byte>, before: seq<byte>)
  {
    && |codes| <= 8 * |octets| <= 8 * |before| == |BitsOf(before)|
    && BitsOf(octets) == Output(b, codes, BitsOf(before)) + Ones(8 * |octets| - |codes|)
  }

  /** Everything the loop keeps. */
  ghost predicate Going(b: Build, codes: seq<bool>, done: seq<bool>, more: seq<bool>, buf: nat,
      dst: array<byte>, hlen: nat, was: seq<byte>)
    reads dst
  {
    && Packed(b, codes, done, more, buf) && |done| == 8 * hlen && |BitsOf(was)| == 8 * |was|
    && hlen <= |was| <= dst.Length && dst[hlen..|was|] == was[hlen..]
    && BitsOf(dst[..hlen]) == Output(b, done, BitsOf(was))
  }

  /** Stores a word where nothing has been written yet. */
  method StoreWord(b: Build, dst: array<byte>, at: nat, word: nat, ghost was: seq<byte>)
    requires at + Width(b) / 8 <= |was| <= dst.Length && dst[at..|was|] == was[at..] && |BitsOf(was)| == 8 * |was|
    modifies dst
    ensures dst[at + Width(b) / 8..|was|] == was[at + Width(b) / 8..]
    ensures forall k :: |was| <= k < dst.Length ==> dst[k] == old(dst[k])
    ensures BitsOf(dst[..at + Width(b) / 8])
      == BitsOf(old(dst[..at])) + StoredWord(b, ToBits(word, Width(b)), BitsOf(was)[8 * at..8 * at + Width(b)])
  {
    hide BitsOf, ToBits, StoredWord;
    ghost var end := at + Width(b) / 8;
    ghost var here := dst[at..end];
    assert here == dst[at..|was|][..end - at] == was[at..end];
    SameBefore(was, here, at);
    ghost var rest := dst[end..|was|];
    assert rest == dst[at..|was|][end - at..] == was[end..];
    PutWord(b, dst, at, word);
    assert dst[end..|was|] == rest;
  }

  /** A code that fills the word: the word is stored, and what is left of the code starts the next one. */
  method NextWord(b: Build, dst: array<byte>, at: nat, word: nat, next: Code, over: nat, ghost c: byte,
      ghost codes: seq<bool>, ghost done: seq<bool>, ghost more: seq<bool>, ghost was: seq<byte>)
    returns (hlen: nat, buf: nat, ghost done': seq<bool>, ghost more': seq<bool>)
    requires Going(b, codes, done, more, word, dst, at, was) && at + Width(b) / 8 < |was|
    requires next == Plain(c as nat) && |more| + next.len == Width(b) + over
    modifies dst
    ensures hlen == at + Width(b) / 8 && |more'| == over
    ensures Going(b, codes + CodeBits(c), done', more', buf, dst, hlen, was)
    ensures forall k :: |was| <= k < dst.Length ==> dst[k] == old(dst[k])
  {
    hide Packed, ToBits, Or, ShiftLeft, ShiftRight, BitsOf, Plain, CodeBits, Pow2, Output, StoredWord;
    PackedSize(b, codes, done, more, word);
    CodeWord(c, Width(b));
    CodeOverflows(b, codes, done, more, word, c);
    buf := Or(word, ShiftRight(next.bits, over));
    hlen := at + Width(b) / 8;
    OutputWord(b, done, ToBits(buf, Width(b)), BitsOf(was));
    StoreWord(b, dst, at, buf, was);
    done' := done + ToBits(buf, Width(b));
    buf := if over > 0 then ShiftLeft(next.bits, Width(b) - over, Width(b)) else 0;
    more' := CodeBits(c)[|CodeBits(c)| - over..];
  }

  /** Pads what is left of the last word, and writes it if that keeps the result short. */
  method Finish(b: Build, dst: array<byte>, hlen: nat, word: nat, pending: nat, len: nat,
      ghost codes: seq<bool>, ghost done: seq<bool>, ghost more: seq<bool>, ghost was: seq<byte>)
    returns (n: nat)
    requires Going(b, codes, done, more, word, dst, hlen, was) && |more| == pending && len == |was|
    requires hlen == 0 || hlen < len
    modifies dst
    ensures var total := OctetsFor(|codes|); n == if total < len then total else 0
    ensures n > 0 ==> Encodes(b, codes, dst[..n], was)
    ensures forall k :: len <= k < dst.Length ==> dst[k] == old(dst[k])
  {
    hide Packed, ToBits, BitsOf, Pow2, Output;
    PackedSize(b, codes, done, more, word);
    BitsOfLength(was);
    if pending == 0 {
      assert done + [] == done && Output(b, done, BitsOf(was)) + Ones(0) == Output(b, done, BitsOf(was));
      return hlen;
    }
    var buf := Padded(b, done, word, pending, more, codes);
    var bits := (pending + 7) / 8 * 8;
    if hlen + bits / 8 >= len {
      return 0;
    }
    n := Flush(b, dst, hlen, buf, bits, more);
    AllOut(b, codes, done, more, BitsOf(was), 8 * n - |codes|);
  }

  /**
   Encodes `src` into `dst`, which has room for as many octets. The result is the encoded
   length when that is less than the length of `src`, and 0 otherwise.
   */
  method Encode(b: Build, src: seq<byte>, dst: array<byte>, lower: bool) returns (n: nat)
    requires |src| <= dst.Length
    modifies dst
    ensures forall k :: |src| <= k < dst.Length ==> dst[k] == old(dst[k])
    ensures var codes := Codes(Text(src, lower));
            var total := OctetsFor(|codes|);
            && n == (if total < |src| then total else 0)
            && n <= |src|
            && (n > 0 ==> Encodes(b, codes, dst[..n], old(dst[..|src|])))
  {
    hide Packed, ToBits, Or, ShiftLeft, Codes, BitsOf, Plain, Lowered, CodeBits, Pow2, Output, StoredWord, Encodes;
    ghost var text, was := Text(src, lower), dst[..|src|];
    ghost var done: seq<bool>, more: seq<bool> := [], [];
    var hlen: nat, buf: nat, pending: nat := 0, 0, 0;
    NothingPacked(b, BitsOf(was));
    BitsOfLength(was);
    for i := 0 to |src|
      invariant hlen == 0 || hlen < |src|
      invariant |more| == pending && Going(b, Codes(text[..i]), done, more, buf, dst, hlen, was)
      invariant forall k :: |src| <= k < dst.Length ==> dst[k] == old(dst[k])
    {
      LoweredIsPlain(src[i] as nat);
      var next := if lower then Lowered(src[i] as nat) else Plain(src[i] as nat);
      ghost var c, codes := text[i], Codes(text[..i]);
      NextCode(text, i);
      CodeWord(c, Width(b));
      PackedSize(b, codes, done, more, buf);
      pending := pending + next.len;
      if pending < Width(b) {
        CodeJoins(b, codes, done, more, buf, c);
        buf := Or(buf, ShiftLeft(next.bits, Width(b) - pending, Width(b)));
        more := more + CodeBits(c);
        continue;
      }
      if hlen + Width(b) / 8 >= |src| {
        return 0;
      }
      pending := pending - Width(b);
      hlen, buf, done, more := NextWord(b, dst, hlen, buf, next, pending, c, codes, done, more, was);
    }
    assert text[..|src|] == text;
    n := Finish(b, dst, hlen, buf, pending, |src|, Codes(text), done, more, was);
  }

  /** The last word, filled up with ones. */
  method Padded(b: Build, ghost done: seq<bool>, buf: nat, pending: nat, ghost more: seq<bool>, ghost codes: seq<bool>)
    returns (word: nat)
    requires 0 < |more| == pending && Packed(b, codes, done, more, buf)
    ensures |more| < Width(b) && word < Pow2(Width(b)) && ToBits(word, Width(b)) == more + Ones(Width(b) - |more|)
  {
    hide ToBits, ShiftRight, Or, Pow2, Whole;
    word := Or(buf, ShiftRight(Pow2(Width(b)) - 1, pending));
    PadWithOnes(Width(b), buf, more);
  }

  lemma SameBefore(was: seq<byte>, here: seq<byte>, at: nat)
    requires at + |here| <= |was| && here == was[at..at + |here|]
    ensures |BitsOf(was)| == 8 * |was| && BitsOf(here) == BitsOf(was)[8 * at..8 * at + 8 * |here|]
  {
    hide BitsOf;
    var a, z := was[..at], was[at + |here|..];
    assert was == a + here + z;
    BitsOfSplit(a, here);
    BitsOfSplit(a + here, z);
    BitsOfLength(a);
    BitsOfLength(here);
    BitsOfLength(was);
  }

  lemma AllOut(b: Build, codes: seq<bool>, done: seq<bool>, more: seq<bool>, before: seq<bool>, k: nat)
    requires |before| >= |codes| && codes == done + more && |more| < Width(b) && Whole(b, done)
    ensures Output(b, done, before) + more + Ones(k) == Output(b, codes, before) + Ones(k)
  {
    hide Output, Whole;
    OutputRest(b, done, more, before);
  }

  lemma NothingPacked(b: Build, before: seq<bool>)
    ensures Packed(b, Codes([]), [], [], 0) && BitsOf([]) == Output(b, [], before) == []
  {
    BitsOfZero(Width(b));
    assert [] + Zeros(Width(b)) == Zeros(Width(b));
  }

  lemma NextCode(text: seq<byte>, i: nat)
    requires i < |text|
    ensures Codes(text[..i + 1]) == Codes(text[..i]) + CodeBits(text[i])
    ensures |Codes(text)| >= |Codes(text[..i + 1])|
  {
    assert text[..i + 1] == text[..i] + [text[i]];
    assert text == text[..i + 1] + text[i + 1..];
    CodesSnoc(text[..i], text[i]);
    hide Codes;
    CodesSplit(text[..i + 1], text[i + 1..]);
  }

  lemma PadWithOnes(n: nat, buf: nat, more: seq<bool>)
    requires 0 < |more| < n && buf < Pow2(n) && ToBits(buf, n) == more + Zeros(n - |more|)
    ensures var word := Or(buf, ShiftRight(Pow2(n) - 1, |more|));
            word < Pow2(n) && ToBits(word, n) == more + Ones(n - |more|)
  {
    hide ToBits, ShiftRight, Or, Pow2;
    OnesValue(n);
    ShiftRightBits(Pow2(n) - 1, |more|, n);
    var tail := ShiftRight(Pow2(n) - 1, |more|);
    OrBits(buf, tail, n);
    OrIsWord(buf, tail, n);
    assert ToBits(tail, n) == Zeros(|more|) + Ones(n - |more|);
    assert ToBits(Or(buf, tail), n) == more + Ones(n - |more|);
  }

  lemma {:induction false} OnesValue(n: nat)
    ensures ToBits(Pow2(n) - 1, n) == Ones(n)
  {
    if n > 0 {
      OnesValue(n - 1);
      NextBit(Pow2(n - 1) - 1, 1, n - 1);
      assert Pow2(n) - 1 == 2 * (Pow2(n - 1) - 1) + 1;
      assert Ones(n) == Ones(n - 1) + [true];
    }
  }

  /** Writes the octets still in the word, `bits` bits of it, from the most significant down. */
  method Flush(b: Build, dst: array<byte>, at: nat, word: nat, bits: nat, ghost more: seq<bool>) returns (n: nat)
    requires word < Pow2(Width(b)) && 0 < |more| <= bits <= Width(b) && bits % 8 == 0 && bits < |more| + 8
    requires ToBits(word, Width(b)) == more + Ones(Width(b) - |more|)
    requires at + bits / 8 <= dst.Length
    modifies dst
    ensures n == at + bits / 8
    ensures forall k :: 0 <= k < at || n <= k < dst.Length ==> dst[k] == old(dst[k])
    ensures BitsOf(dst[..n]) == BitsOf(old(dst[..at])) + more + Ones(bits - |more|)
  {
    hide ToBits, ShiftRight, BitsOf, Pow2;
    var buf := ShiftRight(word, Width(b) - bits);
    HighBits(word, Width(b) - bits, bits);
    assert (more + Ones(Width(b) - |more|))[..bits] == more + Ones(bits - |more|);
    PutOctets(dst, at, buf, bits / 8);
    n := at + bits / 8;
    assert 8 * (bits / 8) == bits;
  }
}
