/** Encoding and decoding undo each other. */
module HuffmanRoundTrip {
  import opened Bytes
  import opened HuffmanTree
  import opened HuffmanBits
  import opened HuffmanReading
  import opened HuffmanDecoder
  import opened HuffmanEncoder
  import opened HuffmanStores

  /** Codes padded with ones to a whole number of octets are read back, and end well. */
  lemma PaddedCodesDecode(text: seq<byte>, encoded: seq<byte>)
    requires 0 <= 8 * |encoded| - |Codes(text)| < 8
    requires BitsOf(encoded) == Codes(text) + Ones(8 * |encoded| - |Codes(text)|)
    ensures var r := Read(At(0, []), BitsOf(encoded)); r.At? && r.out == text && r.state < 256 && Ending(r.state)
  {
    hide Codes, BitsOf, Read, Ending;
    EndsWell(BitsOf(encoded), text, 8 * |encoded| - |Codes(text)|);
  }

  /** No two texts have the same encoding. */
  lemma EncodingIsInjective(a: seq<byte>, b: seq<byte>, i: nat, j: nat)
    requires i < 30 && j < 30 && Codes(a) + Ones(i) == Codes(b) + Ones(j)
    ensures a == b && i == j
  {
    hide Codes, Read, Ending, StateBits;
    var s := OnesState(i);
    var t := OnesState(j);
    ReadComplete(a, s);
    ReadComplete(b, t);
  }

  /**
   Whatever the encoder shortens, the decoder gives back, lower-cased if that was asked for: always
   when words have four octets, or when no word was stored, and otherwise exactly when the words
   that were stored had nothing to lose.
   */
  method EncodeThenDecode(b: Build, src: seq<byte>, lower: bool)
    returns (n: nat, ok: bool, text: seq<byte>, ghost before: seq<byte>)
    ensures n > 0 <==> |src| > 0 && OctetsFor(|Codes(Text(src, lower))|) < |src|
    ensures n > 0 ==> |Codes(Text(src, lower))| <= |BitsOf(before)|
    ensures n > 0 ==> (ok && text == Text(src, lower) <==> Survives(b, Codes(Text(src, lower)), BitsOf(before)))
    ensures n > 0 && (b.Four? || |Codes(Text(src, lower))| < 64) ==> ok && text == Text(src, lower)
  {
    hide Codes, BitsOf, Read, Ending, StateBits, Spells, WellFormed, Output, Survives;
    var packed := new byte[|src|];
    before := packed[..|src|];
    n := Encode(b, src, packed, lower);
    ok, text := false, [];
    ghost var codes := Codes(Text(src, lower));
    CodesAreLong(Text(src, lower));
    if n > 0 {
      var encoded := packed[..n];
      var out := new byte[8 * n / 5];
      RootHasNoBits();
      var state, pos;
      ok, state, pos := Decode(0, encoded, out, 0, true);
      text := out[0..pos];
      assert StateBits(0) + BitsOf(encoded) == BitsOf(encoded);
      RightExactlyWhen(b, codes, BitsOf(before));
      FewSurvive(b, codes, BitsOf(before));
      if Output(b, codes, BitsOf(before)) == codes {
        PaddedCodesDecode(Text(src, lower), encoded);
      } else if ok && text == Text(src, lower) {
        OnlyItsCodes(encoded, text, Output(b, codes, BitsOf(before)), 8 * n - |codes|);
      }
    }
  }

  lemma FewSurvive(b: Build, bits: seq<bool>, before: seq<bool>)
    requires |before| >= |bits|
    ensures b.Four? || |bits| < 64 ==> Survives(b, bits, before)
  {
  }

  /** Octets that spell a text, and are as long as its codes would make them, are its codes. */
  lemma OnlyItsCodes(encoded: seq<byte>, text: seq<byte>, bits: seq<bool>, k: nat)
    requires Spells(BitsOf(encoded), text) && BitsOf(encoded) == bits + Ones(k) && |bits| == |Codes(text)|
    ensures bits == Codes(text)
  {
    hide Codes, BitsOf;
    var j: nat :| j < 30 && BitsOf(encoded) == Codes(text) + Ones(j);
    assert bits == BitsOf(encoded)[..|bits|] == Codes(text);
  }

  /** The code of the letter a: 00011. */
  lemma CodeOfA()
    ensures CodeBits(97) == [false, false, false, true, true]
  {
    assert CodePath(97) == 35;
    assert Bits(2) == [false] && Bits(4) == [false, false] && Bits(8) == [false, false, false];
    assert Bits(17) == [false, false, false, true];
    assert Bits(35) == [false, false, false, true, true];
  }

  function As(n: nat): (r: seq<byte>)
    ensures |r| == n
  {
    seq(n, i => 97)
  }

  lemma {:induction false} ManyAs(n: nat)
    ensures |Codes(As(n))| == 5 * n
    ensures forall i :: 0 <= i < 5 * n ==> Codes(As(n))[i] == (i % 5 >= 3)
  {
    CodeOfA();
    hide CodeBits, Codes;
    if n > 0 {
      ManyAs(n - 1);
      CodesSnoc(As(n - 1), 97);
      assert As(n) == As(n - 1) + [97];
    } else {
      NoCodes();
      assert As(0) == [];
    }
  }

  /** Sixteen times the letter a takes ten octets, and in no build of eight-octet words the right ones. */
  lemma LosesWords(b: Build, before: seq<bool>)
    requires !b.Four? && |before| >= 80
    ensures |Codes(As(16))| == 80 && OctetsFor(80) < 16
    ensures !Survives(b, Codes(As(16)), before)
  {
    hide Codes;
    ManyAs(16);
    var bits := Codes(As(16));
    assert bits[..32][3] && !bits[32..64][3];
  }
}
