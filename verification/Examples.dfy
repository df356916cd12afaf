/** Examples that the standards work out, octet by octet: they fix what the definitions elsewhere mean. */
module Examples {
  import opened Bytes
  import opened Words
  import opened HpackFifo
  import opened HpackStatic
  import opened HpackIntegers
  import opened HpackBlock
  import opened HuffmanReading
  import Chunks = ChunkedReading
  import Frames = DataFrames
  import Base64
  import Percent = PercentCoding
  import Canonical = HuffmanCanonical

  /** Appendix C.1 of RFC 7541. */
  lemma Integers()
    ensures And(0, Mask(5)) == 0 && Mask(5) == 31 && And(0, Mask(8)) == 0 && Mask(8) == 255
    ensures Encoded(0, 5, 10) == [10] && Encoded(0, 5, 1337) == [31, 154, 10] && Encoded(0, 8, 42) == [42]
  {
    assert Tail(1306) == [154] + Tail(10);
  }

  /** Section 4.1 and appendix C.2.1 of RFC 7541: the size of an entry. */
  lemma EntrySize()
    ensures Cost(Header(Ascii("custom-key"), Ascii("custom-header"))) == 55
  {
  }

  function Request(): seq<Emitted>
  {
    [Indexed(2), Indexed(6), Indexed(4), Named(1, Ascii("www.example.com"))]
  }

  function RequestHeaders(): seq<Header>
  {
    [Header(Ascii(":method"), Ascii("GET")), Header(Ascii(":scheme"), Ascii("http")),
     Header(Ascii(":path"), Ascii("/")), Header(Ascii(":authority"), Ascii("www.example.com"))]
  }

  /** Appendix C.3.1 of RFC 7541: the octets of a request's block, its headers, and the table after it. */
  lemma RequestBlock()
    ensures AllWritten(Request()) == [0x82, 0x86, 0x84, 0x41, 0x0f] + Ascii("www.example.com")
    ensures ReadBlock(Fifo([], 4096), AllWritten(Request()))
      == Some(Block(RequestHeaders(), Fifo([RequestHeaders()[3]], 4096)))
    ensures TotalCost([RequestHeaders()[3]]) == 57
  {
    RequestOctets();
    RequestMeanings();
    RequestTable();
    hide ReadBlock, AllWritten, Meanings, AllEffects, RequestHeaders, Ascii;
    BlockReads(Fifo([], 4096), Request());
  }

  lemma RequestOctets()
    ensures AllWritten(Request()) == [0x82, 0x86, 0x84, 0x41, 0x0f] + Ascii("www.example.com")
  {
    hide Ascii;
    var es := Request();
    var name := Ascii("www.example.com");
    assert Written(es[3]) == [0x41, 0x0f] + name by {
      LeadIsSmall(15);
      assert Encoded(0, 7, 15) == [15];
    }
    hide Raw;
    assert es[1..][1..][1..][1..] == [];
    assert es[1..][0] == es[1] && es[1..][1..][0] == es[2] && es[1..][1..][1..][0] == es[3];
    assert AllWritten(es[1..][1..][1..]) == [0x41, 0x0f] + name + [];
  }

  lemma RequestMeanings()
    ensures Meanings(Request()) == RequestHeaders()
  {
    hide Ascii;
  }

  lemma RequestTable()
    ensures AllEffects(Fifo([], 4096), Request()) == Fifo([RequestHeaders()[3]], 4096)
    ensures TotalCost([RequestHeaders()[3]]) == 57
  {
    var es, t := Request(), Fifo([], 4096);
    var h := RequestHeaders()[3];
    assert Cost(h) == 57 && Insert(t, h) == Fifo([h], 4096);
    assert es[1..][0] == es[1] && es[1..][1..][0] == es[2] && es[1..][1..][1..][0] == es[3];
    hide Insert, Ascii, Cost, TotalCost;
    assert Effect(t, es[3]) == Fifo([h], 4096);
    assert AllEffects(t, es[1..][1..][1..]) == AllEffects(Fifo([h], 4096), es[1..][1..][1..][1..]);
    assert es[1..][1..][1..][1..] == [];
  }

  /** Appendix C.5.1 of RFC 7541: the first field of a response. */
  lemma StatusOctets()
    ensures Written(StatusField(302)) == [0x48, 0x03] + Ascii("302") && Written(StatusField(200)) == [0x88]
  {
  }

  /** A protocol upgrade within HTTP is not passed on, and another one is. */
  lemma Upgrading()
    ensures Passed([Header(Ascii("Upgrade"), Ascii("H2c")), Header(Ascii("Upgrade"), Ascii("websocket"))])
      == [Header(Ascii("upgrade"), Ascii("websocket"))]
  {
    var a, b := Header(Ascii("Upgrade"), Ascii("H2c")), Header(Ascii("Upgrade"), Ascii("websocket"));
    assert LowerAll(Ascii("Upgrade")) == Ascii("upgrade") && LowerAll(Ascii("H2c")) == Ascii("h2c");
    assert |LowerAll(Ascii("websocket"))| == 9;
    assert Skipped(a) && !Skipped(b);
    assert [a, b][1..] == [b];
  }

  /** Section 4.1 of RFC 7540: length, type, flags and stream, the first octet the most significant one. */
  lemma FrameLayout()
    ensures Frames.FrameHeader(0x01_0203, 4, 5, 0x0607_0809) == [1, 2, 3, 4, 5, 6, 7, 8, 9]
  {
    assert Frames.BigEndian(0x0102_0304) == [1, 2, 3, 4] && Frames.BigEndian(0x0607_0809) == [6, 7, 8, 9];
    hide Frames.BigEndian;
  }

  /** A frame of five octets, when five are left of the declared length and when six are. */
  lemma LastFrame(hello: seq<byte>)
    requires |hello| == 5
    ensures Frames.OneFrame(5, 1, hello) == [0, 0, 5, 0, 1, 0, 0, 0, 1] + hello
    ensures Frames.OneFrame(6, 1, hello) == [0, 0, 5, 0, 0, 0, 0, 0, 1] + hello
  {
    assert Frames.BigEndian(0x500) == [0, 0, 5, 0] && Frames.BigEndian(1) == [0, 0, 0, 1];
    hide Frames.BigEndian;
  }

  /** A chunk by section 7.1 of RFC 9112, and a size with a letter in it. */
  lemma ChunkText()
    ensures Chunks.Chunk(Ascii("hello")) == Ascii("5\r\nhello\r\n") && Chunks.Hex(26) == Ascii("1a")
  {
    assert Chunks.Hex(1) == [49];
  }

  /** Section 10 of RFC 4648. */
  lemma Base64Vectors()
    ensures Base64.Encoded(['f' as byte]) == [90, 103, 61, 61]
    ensures Base64.Encoded(['f' as byte, 'o' as byte]) == [90, 109, 56, 61]
    ensures Ascii("Zg==") == [90, 103, 61, 61] && Ascii("Zm8=") == [90, 109, 56, 61]
  {
    assert Base64.Group(102, 0, 0) == [90, 103, 65, 65];
    assert Base64.Group(102, 111, 0) == [90, 109, 56, 65];
    hide Base64.Group, Ascii;
    VectorText();
  }

  lemma VectorText()
    ensures Ascii("Zg==") == [90, 103, 61, 61] && Ascii("Zm8=") == [90, 109, 56, 61]
  {
  }

  lemma Base64Groups()
    ensures Base64.Group('f' as byte, 'o' as byte, 'o' as byte) == Ascii("Zm9v")
    ensures Base64.Group('b' as byte, 'a' as byte, 'r' as byte) == Ascii("YmFy")
  {
    assert Base64.Group(102, 111, 111) == [90, 109, 57, 118];
    assert Base64.Group(98, 97, 114) == [89, 109, 70, 121];
    hide Base64.Group;
  }

  /** Section 2.1 of RFC 3986: a percent sign and two digits for an octet; this writer escapes a tilde too. */
  lemma PercentText()
    ensures Percent.Encoded([32]) == Ascii("%20") && Percent.Encoded([126]) == Ascii("%7E")
  {
    assert [32 as byte][1..] == [] && [126 as byte][1..] == [];
  }

  lemma TextOfPercent()
    ensures Percent.Decoded(Ascii("%2f"), true) == ['/' as byte] && Percent.Decoded(Ascii("%4"), true) == Ascii("%4")
    ensures Percent.Decoded(['+' as byte], true) == [32] && Percent.Decoded(['+' as byte], false) == ['+' as byte]
  {
    assert Ascii("%2f") == [37, 50, 102] && Ascii("%4") == [37, 52];
    hide Ascii;
    assert [37, 50, 102 as byte][3..] == [] && [37, 52 as byte][1..] == [52] && [52 as byte][1..] == [];
    assert [43 as byte][1..] == [];
  }

  /** Appendix C.4.2 of RFC 7541, letter by letter: the code of "no-cache". */
  lemma HuffmanLetters()
    ensures CodeBits('n' as byte) == ToBits(0x2a, 6) && CodeBits('o' as byte) == ToBits(0x7, 5)
    ensures CodeBits('-' as byte) == ToBits(0x16, 6) && CodeBits('c' as byte) == ToBits(0x4, 5)
    ensures CodeBits('a' as byte) == ToBits(0x3, 5) && CodeBits('h' as byte) == ToBits(0x27, 6)
    ensures CodeBits('e' as byte) == ToBits(0x5, 5)
  {
    hide CodeBits, ToBits, Canonical.First;
    Canonical.FirstIsStart(5);
    Canonical.FirstIsStart(6);
    Canonical.BitsByPlace(6, 22);
    Canonical.BitsByPlace(5, 7);
    Canonical.BitsByPlace(6, 2);
    Canonical.BitsByPlace(5, 4);
    Canonical.BitsByPlace(5, 3);
    Canonical.BitsByPlace(6, 19);
    Canonical.BitsByPlace(5, 5);
  }
}
