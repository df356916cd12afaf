/**
 Bit-by-bit decoding of the prefix code, and what it means: the bits read are the codes of
 the symbols emitted, followed by the path to the node reached.
 */
module HuffmanReading {
  import opened Bytes
  import opened HuffmanCodes
  import opened HuffmanTree
  import opened HuffmanTables
  import opened HuffmanBits

  /** Decoding in progress: the end of string was met, or a node and the octets emitted so far. */
  datatype Scan = Bad | At(state: nat, out: seq<byte>)

  /** Takes one bit: an inner child is entered; a leaf is emitted and decoding is back at the root. */
  function Take(x: Scan, b: bool): Scan
  {
    if x.Bad? || x.state >= 256 then Bad
    else match Child(x.state, b)
      case Go(t) => At(t, x.out)
      case Emit(c) => if c >= 256 then Bad else At(0, x.out + [c as byte])
  }

  function Read(x: Scan, bits: seq<bool>): Scan
    decreases bits
  {
    if bits == [] then x else Read(Take(x, bits[0]), bits[1..])
  }

  /** The code of an octet as bits. */
  function CodeBits(c: byte): seq<bool> { PathBits(CodePath(c as nat)) }

  /** The bits of a path number, which is never zero for a node of the tree. */
  function PathBits(q: nat): seq<bool> { if q == 0 then [] else Bits(q) }

  function StateBits(s: nat): seq<bool>
    requires s < 256
  {
    PathBits(PathOf(s))
  }

  function EosBits(): seq<bool> { PathBits(CodePath(256)) }

  /** The codes of a string of octets, one after the other. */
  function Codes(s: seq<byte>): seq<bool>
  {
    if s == [] then [] else Codes(s[..|s| - 1]) + CodeBits(s[|s| - 1])
  }

  lemma {:induction false} ReadSplit(x: Scan, a: seq<bool>, b: seq<bool>)
    ensures Read(x, a + b) == Read(Read(x, a), b)
    decreases a
  {
    hide Take;
    if a == [] {
      assert a + b == b;
    } else {
      ReadSplit(Take(x, a[0]), a[1..], b);
      assert (a + b)[1..] == a[1..] + b;
    }
  }

  lemma ReadSnoc(x: Scan, a: seq<bool>, b: bool)
    ensures Read(x, a + [b]) == Take(Read(x, a), b)
  {
    hide Take;
    ReadSplit(x, a, [b]);
    assert [b][1..] == [];
  }

  lemma {:induction false} BadStays(bits: seq<bool>)
    ensures Read(Bad, bits) == Bad
  {
    if bits != [] {
      BadStays(bits[1..]);
    }
  }

  lemma CodesSnoc(s: seq<byte>, c: byte)
    ensures Codes(s + [c]) == Codes(s) + CodeBits(c)
  {
    assert (s + [c])[..|s|] == s;
  }

  lemma {:induction false} CodesSplit(a: seq<byte>, b: seq<byte>)
    ensures Codes(a + b) == Codes(a) + Codes(b)
  {
    hide CodeBits;
    if b == [] {
      assert a + b == a;
    } else {
      var n := |b| - 1;
      CodesSplit(a, b[..n]);
      CodesSnoc(a + b[..n], b[n]);
      CodesSnoc(b[..n], b[n]);
      hide Codes;
      assert a + b == a + b[..n] + [b[n]] && b == b[..n] + [b[n]];
    }
  }

  /** Following the path of an inner node from the root leads there and emits nothing. */
  lemma {:induction false} PathLeadsToState(s: nat, out: seq<byte>)
    requires s < 256
    ensures Read(At(0, out), StateBits(s)) == At(s, out)
    decreases PathOf(s)
  {
    PathBounds(s);
    if s == 0 {
      assert PathOf(0) == 1;
    } else {
      hide PathOf, Zero, One, UpOf;
      Parents(s);
      var u := UpOf(s);
      PathBounds(u);
      ZeroEdges(u);
      OneEdges(u);
      var b := One(u) == Go(s);
      assert Child(u, b) == Go(s);
      assert PathOf(s) == 2 * PathOf(u) + if b then 1 else 0;
      PathLeadsToState(u, out);
      BitsSnoc(PathOf(u), b);
      ReadSnoc(At(0, out), StateBits(u), b);
    }
  }

  /** Following a code from the root emits its octet. */
  lemma CodeEmits(c: byte, out: seq<byte>)
    ensures Read(At(0, out), CodeBits(c)) == At(0, out + [c])
  {
    hide PathOf, Zero, One, OctetUp, OctetPath, Bits, Read;
    var k := c as nat;
    Leaves(k);
    PathBounds(k);
    var u := LeafUp(k);
    PathBounds(u);
    var b := One(u) == Emit(k);
    assert Child(u, b) == Emit(k);
    ChildEdge(u, b);
    assert CodePath(k) == 2 * PathOf(u) + if b then 1 else 0;
    PathLeadsToState(u, out);
    BitsSnoc(PathOf(u), b);
    ReadSnoc(At(0, out), StateBits(u), b);
  }

  lemma EosIsBad(out: seq<byte>)
    ensures Read(At(0, out), EosBits()) == Bad
  {
    assert One(255) == Emit(256) && PathOf(255) == 0x3fff_ffff && CodePath(256) == 0x7fff_ffff;
    assert Child(255, true) == Emit(256);
    hide PathOf, Zero, One, CodePath;
    PathLeadsToState(255, out);
    BitsSnoc(PathOf(255), true);
    ReadSnoc(At(0, out), StateBits(255), true);
  }

  /** Codes followed by the beginning of a code are read as exactly that. */
  lemma {:induction false} ReadComplete(s: seq<byte>, state: nat)
    requires state < 256
    ensures Read(At(0, []), Codes(s) + StateBits(state)) == At(state, s)
    decreases |s|
  {
    hide StateBits, CodeBits, Take;
    ReadSplit(At(0, []), Codes(s), StateBits(state));
    if s != [] {
      var n := |s| - 1;
      ReadComplete(s[..n], 0);
      RootHasNoBits();
      assert Codes(s[..n]) + [] == Codes(s[..n]);
      ReadSplit(At(0, []), Codes(s[..n]), CodeBits(s[n]));
      CodeEmits(s[n], s[..n]);
      assert s[..n] + [s[n]] == s;
    }
    PathLeadsToState(state, s);
  }

  lemma RootHasNoBits()
    ensures StateBits(0) == []
  {
    assert PathOf(0) == 1;
  }

  /** What one more bit adds to what was read. */
  lemma TakeSound(x: Scan, b: bool)
    requires x.At? && x.state < 256
    ensures match Take(x, b)
      case At(t, out) =>
        t < 256 && Codes(out) + StateBits(t) == Codes(x.out) + StateBits(x.state) + [b]
      case Bad => EosBits() == StateBits(x.state) + [b]
  {
    hide PathOf, OctetPath, Zero, One, Bits, Codes;
    var s := x.state;
    ChildEdge(s, b);
    PathBounds(s);
    BitsSnoc(PathOf(s), b);
    var q := 2 * PathOf(s) + if b then 1 else 0;
    assert PathBits(q) == StateBits(s) + [b];
    match Child(s, b) {
      case Go(t) =>
        assert StateBits(t) == PathBits(q);
      case Emit(c) =>
        RootHasNoBits();
        if c < 256 {
          assert CodeBits(c as byte) == PathBits(q);
          CodesSnoc(x.out, c as byte);
        }
    }
  }

  lemma ChildEdge(s: nat, b: bool)
    requires s < 256
    ensures EdgeFits(Child(s, b), 2 * PathOf(s) + if b then 1 else 0)
  {
    hide EdgeFits, PathOf, Zero, One;
    ZeroEdges(s);
    OneEdges(s);
  }

  /** Whatever is read is the codes of the octets emitted and the path to the state reached. */
  lemma {:induction false} ReadSound(bits: seq<bool>)
    ensures var r := Read(At(0, []), bits);
            r.At? ==> r.state < 256 && bits == Codes(r.out) + StateBits(r.state)
    decreases |bits|
  {
    hide Take, Codes, StateBits, EosBits;
    if bits == [] {
      RootHasNoBits();
      NoCodes();
    } else {
      var n := |bits| - 1;
      var a, b := bits[..n], bits[n];
      assert bits == a + [b];
      ReadSound(a);
      ReadSnoc(At(0, []), a, b);
      var r := Read(At(0, []), a);
      if r.At? {
        TakeSound(r, b);
      } else {
        BadTakes(b);
      }
    }
  }

  lemma NoCodes() ensures Codes([]) == [] {}

  lemma BadTakes(b: bool) ensures Take(Bad, b) == Bad {}

  /** Decoding fails exactly when an end of string follows some codes. */
  lemma BadExactlyOnEos(bits: seq<bool>)
    ensures Read(At(0, []), bits).Bad? <==> exists s: seq<byte> :: Codes(s) + EosBits() <= bits
  {
    if Read(At(0, []), bits).Bad? {
      var s := FindEos(bits);
      assert Codes(s) + EosBits() <= bits;
    }
    forall s: seq<byte> | Codes(s) + EosBits() <= bits
      ensures Read(At(0, []), bits).Bad?
    {
      EosAfter(s, bits);
    }
  }

  lemma {:induction false} FindEos(bits: seq<bool>) returns (s: seq<byte>)
    requires Read(At(0, []), bits).Bad?
    ensures Codes(s) + EosBits() <= bits
    decreases |bits|
  {
    hide Take, Codes, StateBits, EosBits;
    var n := |bits| - 1;
    var a, b := bits[..n], bits[n];
    assert bits == a + [b];
    ReadSnoc(At(0, []), a, b);
    var r := Read(At(0, []), a);
    if r.Bad? {
      s := FindEos(a);
    } else {
      ReadSound(a);
      TakeSound(r, b);
      s := r.out;
      assert Codes(s) + EosBits() == bits;
    }
  }

  lemma EosAfter(s: seq<byte>, bits: seq<bool>)
    requires Codes(s) + EosBits() <= bits
    ensures Read(At(0, []), bits).Bad?
  {
    hide Take, Codes, StateBits, EosBits;
    var a := Codes(s) + EosBits();
    assert bits == a + bits[|a|..];
    ReadSplit(At(0, []), a, bits[|a|..]);
    ReadSplit(At(0, []), Codes(s), EosBits());
    ReadComplete(s, 0);
    RootHasNoBits();
    assert Codes(s) + [] == Codes(s);
    EosIsBad(s);
    BadStays(bits[|a|..]);
  }
}
