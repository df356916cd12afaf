/** The server's Huffman decoder: a nibble at a time through the automaton, resumable. */
module HuffmanDecoder {
  import opened Bytes
  import opened Parts
  import opened HuffmanCodes
  import opened HuffmanAutomaton
  import opened HuffmanTree
  import opened HuffmanTables
  import opened HuffmanBits
  import opened HuffmanReading
  import opened Words

  /** What decoding from some state gives, after octets `before`. */
  function Prefixed(before: seq<byte>, x: Scan): Scan
  {
    match x
    case Bad => Bad
    case At(t, out) => At(t, before + out)
  }

  lemma {:induction false} OutIsAppended(s: nat, before: seq<byte>, bits: seq<bool>)
    requires s < 256
    ensures Read(At(s, before), bits) == Prefixed(before, Read(At(s, []), bits))
    decreases bits
  {
    hide Take, Codes, StateBits, EosBits;
    if bits == [] {
      assert before + [] == before;
    } else {
      TakeSound(At(s, []), bits[0]);
      TakeAppends(s, before, bits[0]);
      var x := Take(At(s, []), bits[0]);
      if x.At? {
        OutIsAppended(x.state, before + x.out, bits[1..]);
        OutIsAppended(x.state, x.out, bits[1..]);
        var y := Read(At(x.state, []), bits[1..]);
        if y.At? {
          assert before + x.out + y.out == before + (x.out + y.out);
        }
      } else {
        BadStays(bits[1..]);
      }
    }
  }

  lemma TakeAppends(s: nat, before: seq<byte>, b: bool)
    requires s < 256
    ensures Take(At(s, before), b) == Prefixed(before, Take(At(s, []), b))
  {
    hide Zero, One;
    assert before + [] == before;
  }

  /** Reading on from a state is reading from the root what led to the state and what follows. */
  lemma ReadFromState(s: nat, bits: seq<bool>)
    requires s < 256
    ensures Read(At(s, []), bits) == Read(At(0, []), StateBits(s) + bits)
  {
    hide Take, StateBits;
    PathLeadsToState(s, []);
    ReadSplit(At(0, []), StateBits(s), bits);
  }

  lemma {:induction false} LongPath(q: nat, k: nat)
    requires k <= 5 && q >= Pow2(k)
    ensures q >= 1 && |Bits(q)| >= k
  {
    if k > 0 {
      assert Pow2(k) == 2 * Pow2(k - 1);
      LongPath(q / 2, k - 1);
    }
  }

  lemma {:induction false} CodesAreLong(s: seq<byte>)
    ensures |Codes(s)| >= 5 * |s|
  {
    if s != [] {
      var c := s[|s| - 1];
      PathBounds(c as nat);
      LongPath(CodePath(c as nat), 5);
      CodesAreLong(s[..|s| - 1]);
    }
  }

  /** Since codes have at least five bits, the output cannot be long. */
  lemma OutputBound(s: nat, bits: seq<bool>)
    requires s < 256
    ensures var r := Read(At(s, []), bits);
            r.At? ==> r.state < 256 && 5 * |r.out| <= |StateBits(s)| + |bits|
  {
    hide StateBits, Codes, Take;
    ReadFromState(s, bits);
    ReadSound(StateBits(s) + bits);
    var r := Read(At(s, []), bits);
    if r.At? {
      CodesAreLong(r.out);
    }
  }

  /** One cell of the automaton is four bits of bit-by-bit decoding. */
  lemma NibbleIsFourBits(s: nat, n: nat, out: seq<byte>)
    requires s < 256 && n < 16
    ensures var cell := CellOf(s, n);
            && (cell.next == s || (cell.next < 256 && cell.sym < 256 && (cell.ending != 0 <==> Ending(cell.next))))
            && Read(At(s, out), NibbleBits(n))
               == if cell.next == s then Bad
                  else At(cell.next, if cell.emit == 0 then out else out + [cell.sym as byte])
  {
    hide CellOf, PathOf, CodePath, Bits, Take, Read;
    PathBounds(s);
    CellsFit(s, n);
    var cell := CellOf(s, n);
    var q := PathOf(s);
    var x := 16 * q + n;
    BitsNibble(q, n);
    PathLeadsToState(s, out);
    ReadSplit(At(0, out), StateBits(s), NibbleBits(n));
    assert Read(At(s, out), NibbleBits(n)) == Read(At(0, out), Bits(x));
    if cell.next == s {
      ThroughEos(x, out);
    } else if cell.emit == 0 {
      PathLeadsToState(cell.next, out);
    } else {
      PathBounds(cell.sym);
      BitsSplit(x, CodePath(cell.sym), PathOf(cell.next));
      var c := cell.sym as byte;
      CodeEmits(c, out);
      PathLeadsToState(cell.next, out + [c]);
      ReadSplit(At(0, out), CodeBits(c), StateBits(cell.next));
    }
  }

  lemma ThroughEos(x: nat, out: seq<byte>)
    requires RunsThroughEos(x)
    ensures Read(At(0, out), Bits(x)) == Bad
  {
    var eos := 0x7fff_ffff;
    var q := if x == eos then 1 else if x < 0x1_0000_0000 then x - 2 * eos + 2
             else if x < 0x2_0000_0000 then x - 4 * eos + 4 else x - 8 * eos + 8;
    assert Splits(x, eos, q);
    assert CodePath(256) == eos;
    hide Read, Bits, CodePath;
    BitsSplit(x, eos, q);
    EosIsBad(out);
    ReadSplit(At(0, out), Bits(eos), Bits(q));
    BadStays(Bits(q));
  }

  /**
   One nibble. The error mark leaves everything as it was; otherwise the state and `ending` are
   replaced and at most one octet is written.
   */
  method DecodeNibble(state: nat, n: nat, dst: array<byte>, ghost at: nat, pos: nat, ghost out: seq<byte>)
    returns (ok: bool, state': nat, pos': nat, ending: bool)
    requires state < 256 && n < 16 && at <= pos <= dst.Length && dst[at..pos] == out
    requires var r := Read(At(state, out), NibbleBits(n)); r.At? ==> pos + |r.out| - |out| <= dst.Length
    modifies dst
    ensures match Read(At(state, out), NibbleBits(n))
      case Bad => !ok && state' == state && pos' == pos && dst[..] == old(dst[..])
      case At(t, out') =>
        && ok && t < 256 && state' == t && ending == Ending(t)
        && pos <= pos' <= dst.Length && dst[at..pos'] == out'
        && (forall k :: 0 <= k < pos || pos' <= k < dst.Length ==> dst[k] == old(dst[k]))
  {
    hide CellOf, Read, Ending, NibbleBits;
    NibbleIsFourBits(state, n, out);
    var cell := CellOf(state, n);
    if cell.next == state {
      return false, state, pos, false;
    }
    pos' := pos;
    if cell.emit != 0 {
      dst[pos'] := cell.sym as byte;
      pos' := pos' + 1;
    }
    ending := cell.ending != 0;
    state' := cell.next;
    ok := true;
  }

  function Ones(k: nat): (r: seq<bool>)
    ensures |r| == k && AllOnes(r)
  {
    seq(k, i => true)
  }

  /** For every k below 30 some state stands for k ones. */
  lemma {:induction false} OnesState(k: nat) returns (t: nat)
    requires k < 30
    ensures t < 256 && StateBits(t) == Ones(k) && Ending(t)
    decreases 30 - k
  {
    if k == 29 {
      t := 255;
      LastOnes();
    } else {
      var below := OnesState(k + 1);
      t := UpOf(below);
      StepUp(below);
      assert StateBits(t) == Ones(k + 1)[..k] == Ones(k);
      OnesEnd(t);
    }
  }

  /** The bits of a number one less than a power of two. */
  lemma {:induction false} LongOnes(k: nat)
    ensures Pow2(k + 1) >= 2 && Bits(Pow2(k + 1) - 1) == Ones(k)
  {
    assert Pow2(k + 1) == 2 * Pow2(k);
    if k > 0 {
      LongOnes(k - 1);
      hide Pow2;
      assert (Pow2(k + 1) - 1) / 2 == Pow2(k) - 1;
      assert Ones(k) == Ones(k - 1) + [true];
    }
  }

  lemma LastOnes()
    ensures StateBits(255) == Ones(29) && Ending(255)
  {
    LongOnes(29);
    Powers();
    assert PathOf(255) == 0x3fff_ffff;
    hide Pow2, PathOf, Bits, Ending;
    OnesEnd(255);
  }

  lemma OnesEnd(t: nat)
    requires t < 256
    ensures Ending(t) <==> AllOnes(StateBits(t))
  {
    hide PathOf, IsOnes, Ending, Bits;
    EndingStates(t);
    PathBounds(t);
    OnesNumbers(PathOf(t));
  }

  lemma StepUp(s: nat)
    requires s < 256 && StateBits(s) != []
    ensures var u := UpOf(s); u < 256 && |StateBits(u)| == |StateBits(s)| - 1 && StateBits(u) <= StateBits(s)
  {
    RootHasNoBits();
    hide PathOf, Zero, One, UpOf, Bits;
    Parents(s);
    var u := UpOf(s);
    PathBounds(u);
    var b := One(u) == Go(s);
    assert Child(u, b) == Go(s);
    ChildEdge(u, b);
    BitsSnoc(PathOf(u), b);
  }

  /** These bits are the codes of a text and then fewer than thirty ones: the beginning of the end-of-string code. */
  ghost predicate Spells(bits: seq<bool>, text: seq<byte>)
  {
    exists k: nat :: k < 30 && bits == Codes(text) + Ones(k)
  }

  ghost predicate WellFormed(bits: seq<bool>)
  {
    exists text :: Spells(bits, text)
  }

  lemma EndsWell(bits: seq<bool>, text: seq<byte>, k: nat)
    requires k < 30 && bits == Codes(text) + Ones(k)
    ensures var r := Read(At(0, []), bits); r.At? && r.out == text && r.state < 256 && Ending(r.state)
  {
    hide StateBits, Ending, Read, Codes;
    var t := OnesState(k);
    ReadComplete(text, t);
  }

  /** What a final call checks: the bits since the root spell a text, which then is the one that was read. */
  lemma WellEnded(state: nat, bits: seq<bool>)
    requires state < 256
    ensures var r := Read(At(state, []), bits);
      && (r.At? && r.state < 256 && Ending(r.state) <==> WellFormed(StateBits(state) + bits))
      && (r.At? && r.state < 256 && Ending(r.state) ==> Spells(StateBits(state) + bits, r.out))
  {
    hide Ending, Read, Codes, StateBits;
    ReadFromState(state, bits);
    var all := StateBits(state) + bits;
    ReadSound(all);
    var r := Read(At(0, []), all);
    if r.At? && Ending(r.state) {
      OnesEnd(r.state);
      FewBits(r.state);
      assert StateBits(r.state) == Ones(|StateBits(r.state)|);
      assert Spells(all, r.out);
    }
    forall text | Spells(all, text)
      ensures r.At? && r.state < 256 && Ending(r.state)
    {
      var k: nat :| k < 30 && all == Codes(text) + Ones(k);
      EndsWell(all, text, k);
    }
  }

  lemma FewBits(s: nat)
    requires s < 256
    ensures |StateBits(s)| < 30
  {
    hide PathOf, Bits, Pow2;
    PathBounds(s);
    Powers();
    ShortPath(PathOf(s), 29);
  }

  lemma {:induction false} ShortPath(q: nat, k: nat)
    requires k <= 29 && 1 <= q < 2 * Pow2(k)
    ensures |Bits(q)| <= k
  {
    if q > 1 {
      assert Pow2(k) == 2 * Pow2(k - 1);
      ShortPath(q / 2, k - 1);
    }
  }

  /**
   Decodes a piece of a string. `state` carries over from one piece to the next; after the last
   one it is the root again. What is left over at the end must be the beginning of the
   end-of-string code; a last piece that is empty is not checked.
   */
  method Decode(state: nat, src: seq<byte>, dst: array<byte>, at: nat, last: bool)
    returns (ok: bool, state': nat, pos: nat)
    requires state < 256
    requires at + (8 * |src| + |StateBits(state)|) / 5 <= dst.Length
    modifies dst
    ensures at <= pos <= dst.Length
    ensures forall k :: 0 <= k < at || pos <= k < dst.Length ==> dst[k] == old(dst[k])
    ensures var r := Read(At(state, []), BitsOf(src));
            && (ok <==> r.At? && (last && src != [] ==> r.state < 256 && Ending(r.state)))
            && (r.At? ==> dst[at..pos] == r.out)
            && (ok ==> state' == if last then 0 else r.state)
    ensures last && src != [] ==> (ok <==> WellFormed(StateBits(state) + BitsOf(src)))
    ensures last && src != [] && ok ==> Spells(StateBits(state) + BitsOf(src), dst[at..pos])
  {
    hide Read, BitsOf, StateBits, Ending, Spells, WellFormed;
    WellEnded(state, BitsOf(src));
    state', pos := state, at;
    var ending := true;
    ReadNothing(At(state, []));
    for i := 0 to |src|
      invariant state' < 256 && at <= pos <= dst.Length
      invariant forall k :: 0 <= k < at || pos <= k < dst.Length ==> dst[k] == old(dst[k])
      invariant Read(At(state, []), BitsOf(src[..i])) == At(state', dst[at..pos])
      invariant ending == (i == 0 || Ending(state'))
    {
      var ch := src[i];
      ghost var out := dst[at..pos];
      NextOctet(state, src, i, state', out);
      var more;
      more, state', pos, ending := DecodeNibble(state', ch as nat / 16, dst, at, pos, out);
      if !more {
        return false, state', pos;
      }
      ghost var out' := dst[at..pos];
      more, state', pos, ending := DecodeNibble(state', ch as nat % 16, dst, at, pos, out');
      if !more {
        return false, state', pos;
      }
    }
    assert src[..|src|] == src;
    if last {
      if !ending {
        return false, state', pos;
      }
      state' := 0;
    }
    ok := true;
  }

  lemma ReadNothing(x: Scan)
    ensures Read(x, BitsOf([])) == x
  {
  }

  /** Reading one octet more: through both nibbles, with room for what they emit. */
  lemma NextOctet(state: nat, src: seq<byte>, i: nat, s: nat, out: seq<byte>)
    requires state < 256 && i < |src| && s < 256
    requires Read(At(state, []), BitsOf(src[..i])) == At(s, out)
    ensures var high, low := src[i] as nat / 16, src[i] as nat % 16;
            var x := Read(At(s, out), NibbleBits(high));
            var y := Read(x, NibbleBits(low));
            && y == Read(At(state, []), BitsOf(src[..i + 1]))
            && (x.At? ==> 5 * |x.out| <= |StateBits(state)| + 8 * |src|)
            && (y.At? ==> 5 * |y.out| <= |StateBits(state)| + 8 * |src|)
            && (x.Bad? ==> y.Bad?)
            && (y.Bad? ==> Read(At(state, []), BitsOf(src)).Bad?)
  {
    hide Read, StateBits, NibbleBits, Codes;
    var a, b, c := BitsOf(src[..i]), NibbleBits(src[i] as nat / 16), NibbleBits(src[i] as nat % 16);
    var rest := BitsOf(src[i + 1..]);
    OctetAt(src, i);
    BitsOfLength(src);
    hide BitsOf;
    assert a + OctetBits(src[i]) == a + b + c;
    var from := At(state, []);
    ReadSplit(from, a, b);
    ReadSplit(from, a + b, c);
    ReadSplit(from, a + b + c, rest);
    OutputBound(state, a + b);
    OutputBound(state, a + b + c);
    BadStays(c);
    BadStays(rest);
  }

  lemma OctetAt(src: seq<byte>, i: nat)
    requires i < |src|
    ensures BitsOf(src[..i + 1]) == BitsOf(src[..i]) + OctetBits(src[i])
    ensures BitsOf(src) == BitsOf(src[..i]) + OctetBits(src[i]) + BitsOf(src[i + 1..])
  {
    hide OctetBits, BitsOf;
    OctetBetween(src[..i], src[i], src[i + 1..]);
    assert src[..i + 1] == src[..i] + [src[i]];
    assert src == src[..i + 1] + src[i + 1..];
  }

  lemma OctetBetween(a: seq<byte>, b: byte, c: seq<byte>)
    ensures BitsOf(a + [b]) == BitsOf(a) + OctetBits(b)
    ensures BitsOf(a + [b] + c) == BitsOf(a) + OctetBits(b) + BitsOf(c)
  {
    hide OctetBits, BitsOf;
    OctetOnly(b);
    BitsOfSplit(a, [b]);
    BitsOfSplit(a + [b], c);
  }

  /** Decoding a string in two pieces is decoding it in one. */
  lemma PiecesJoin(state: nat, a: seq<byte>, b: seq<byte>)
    requires state < 256
    ensures Read(At(state, []), BitsOf(a + b))
            == match Read(At(state, []), BitsOf(a))
               case Bad => Bad
               case At(t, out) => Prefixed(out, Read(At(t, []), BitsOf(b)))
  {
    hide StateBits, Take, BitsOf;
    BitsOfSplit(a, b);
    ReadSplit(At(state, []), BitsOf(a), BitsOf(b));
    OutputBound(state, BitsOf(a));
    var r := Read(At(state, []), BitsOf(a));
    if r.At? {
      OutIsAppended(r.state, r.out, BitsOf(b));
    } else {
      BadStays(BitsOf(b));
    }
  }

  /** Room left for the rest of a string after its first pieces. */
  lemma RoomLeft(pieces: seq<seq<byte>>, i: nat, state: nat, out: seq<byte>)
    requires i < |pieces| && state < 256 && Read(At(0, []), BitsOf(Flat(pieces[..i]))) == At(state, out)
    ensures |out| + (8 * |pieces[i]| + |StateBits(state)|) / 5 <= 8 * |Flat(pieces)| / 5
  {
    hide Flat, Read, BitsOf, StateBits, Codes;
    Exposed(pieces, i + 1);
    ReadSound(BitsOf(Flat(pieces[..i])));
    BitsOfLength(Flat(pieces[..i]));
    CodesAreLong(out);
  }

  lemma NoPieces(pieces: seq<seq<byte>>)
    requires pieces != []
    ensures Read(At(0, []), BitsOf(Flat(pieces[..0]))) == At(0, [])
    ensures Flat(pieces) == [] ==> WellFormed(BitsOf(Flat(pieces)))
  {
    assert pieces[..0] == [];
    assert [] == Codes([]) + Ones(0);
    assert Spells([], []);
  }

  /** What the next piece does to a string read so far. */
  lemma NextPiece(pieces: seq<seq<byte>>, i: nat, state: nat, out: seq<byte>)
    requires i < |pieces| && state < 256 && Read(At(0, []), BitsOf(Flat(pieces[..i]))) == At(state, out)
    ensures var r, all := Read(At(state, []), BitsOf(pieces[i])), BitsOf(Flat(pieces));
      && (r.Bad? ==> !WellFormed(all))
      && (r.At? && i + 1 < |pieces| ==>
            r.state < 256 && Read(At(0, []), BitsOf(Flat(pieces[..i + 1]))) == At(r.state, out + r.out))
      && (r.At? && i + 1 == |pieces| ==>
            && (WellFormed(all) <==> r.state < 256 && Ending(r.state))
            && (WellFormed(all) ==> Spells(all, out + r.out)))
  {
    hide Flat, Read, BitsOf, StateBits, Codes, Spells, Ending, WellFormed;
    var a, b := Flat(pieces[..i]), pieces[i];
    OneMore(pieces, i + 1);
    PiecesJoin(0, a, b);
    FlatCut(pieces, i + 1);
    PiecesJoin(0, a + b, Flat(pieces[i + 1..]));
    OutputBound(state, BitsOf(b));
    RootHasNoBits();
    assert StateBits(0) + BitsOf(Flat(pieces)) == BitsOf(Flat(pieces));
    WellEnded(0, BitsOf(Flat(pieces)));
    if i + 1 == |pieces| {
      assert pieces[..i + 1] == pieces;
    }
  }

  /**
   A string that arrives in pieces, the last of them not empty unless all are: it is accepted
   exactly when it spells a text, however it is cut, and that text is what was written.
   */
  method DecodePieces(pieces: seq<seq<byte>>, dst: array<byte>) returns (ok: bool, pos: nat)
    requires pieces != [] && (pieces[|pieces| - 1] != [] || Flat(pieces) == [])
    requires 8 * |Flat(pieces)| / 5 <= dst.Length
    modifies dst
    ensures pos <= dst.Length
    ensures ok <==> WellFormed(BitsOf(Flat(pieces)))
    ensures ok ==> Spells(BitsOf(Flat(pieces)), dst[..pos])
  {
    hide Read, BitsOf, StateBits, Ending, Flat, Spells, WellFormed;
    NoPieces(pieces);
    ghost var all := BitsOf(Flat(pieces));
    var state := 0;
    pos := 0;
    for i := 0 to |pieces|
      invariant state < 256 && pos <= dst.Length
      invariant i < |pieces| ==> Read(At(0, []), BitsOf(Flat(pieces[..i]))) == At(state, dst[..pos])
      invariant i == |pieces| ==> WellFormed(all) && Spells(all, dst[..pos])
    {
      RoomLeft(pieces, i, state, dst[..pos]);
      ghost var s0, out0 := state, dst[..pos];
      var at := pos;
      ok, state, pos := Decode(state, pieces[i], dst, at, i == |pieces| - 1);
      NextPiece(pieces, i, s0, out0);
      if !ok {
        return;
      }
      assert dst[..at] == out0;
      assert dst[..pos] == dst[..at] + dst[at..pos];
    }
    ok := true;
  }
}
