/** How a recipient reads an HTTP/1.1 response: lines, and the chunked coding of section 7.1 of RFC 9112. */
module ChunkedReading {
  import opened Bytes
  import opened Numbers
  import opened Parts

  const CR: byte := 13
  const LF: byte := 10

  function Crlf(): seq<byte> { [13, 10] }

  datatype Line = Line(text: seq<byte>, rest: seq<byte>)

  /** Everything up to the first CRLF, and what follows it. */
  function ReadLine(s: seq<byte>): (r: Option<Line>)
    ensures r.Some? ==> |r.value.rest| + |r.value.text| + 2 == |s|
  {
    if |s| < 2 then None
    else if s[0] == CR && s[1] == LF then Some(Line([], s[2..]))
    else
      var r := ReadLine(s[1..]);
      if r.None? then None else Some(Line([s[0]] + r.value.text, r.value.rest))
  }

  datatype Section = Section(lines: seq<seq<byte>>, rest: seq<byte>)

  /** Lines up to the first empty one. */
  function ReadSection(s: seq<byte>): (r: Option<Section>)
    ensures r.Some? ==> |r.value.rest| < |s|
    decreases |s|
  {
    var l := ReadLine(s);
    if l.None? then None
    else if l.value.text == [] then Some(Section([], l.value.rest))
    else
      var r := ReadSection(l.value.rest);
      if r.None? then None else Some(Section([l.value.text] + r.value.lines, r.value.rest))
  }

  /** The size of a chunk: hexadecimal digits only, at least one. */
  function ReadHex(s: seq<byte>): Option<nat>
  {
    if s == [] || !IsHex(s[|s| - 1]) then None
    else
      var last := HexValue(s[|s| - 1]);
      if |s| == 1 then Some(last)
      else
        var high := ReadHex(s[..|s| - 1]);
        if high.None? then None else Some(16 * high.value + last)
  }

  datatype Body = Body(octets: seq<byte>, trailers: seq<seq<byte>>, rest: seq<byte>)

  /** Section 7.1: chunks up to the one of size zero, then the trailer section. */
  function ReadChunks(s: seq<byte>): (r: Option<Body>)
    decreases |s|
  {
    var l := ReadLine(s);
    if l.None? then None
    else
      var size := ReadHex(l.value.text);
      if size.None? then None
      else if size.value == 0 then
        var t := ReadSection(l.value.rest);
        if t.None? then None else Some(Body([], t.value.lines, t.value.rest))
      else
        var data := l.value.rest;
        if |data| < size.value + 2 || data[size.value..size.value + 2] != Crlf() then None
        else
          var r := ReadChunks(data[size.value + 2..]);
          if r.None? then None
          else Some(r.value.(octets := data[..size.value] + r.value.octets))
  }

  datatype Response = Response(head: seq<seq<byte>>, body: Body)

  /** A whole response with a chunked body. */
  function ReadResponse(s: seq<byte>): Option<Response>
  {
    var head := ReadSection(s);
    if head.None? then None
    else
      var body := ReadChunks(head.value.rest);
      if body.None? then None else Some(Response(head.value.lines, body.value))
  }

  /** A line that can stand on the wire: not empty, and without a CR. */
  predicate Plain(line: seq<byte>)
  {
    line != [] && CR !in line
  }

  predicate AllPlain(lines: seq<seq<byte>>)
  {
    forall i :: 0 <= i < |lines| ==> Plain(lines[i])
  }

  predicate NoneEmpty(datas: seq<seq<byte>>)
  {
    forall i :: 0 <= i < |datas| ==> datas[i] != []
  }

  lemma {:induction false} LineReads(line: seq<byte>, rest: seq<byte>)
    requires CR !in line
    ensures ReadLine(line + Crlf() + rest) == Some(Line(line, rest))
  {
    var s := line + Crlf() + rest;
    if line == [] {
      assert s == Crlf() + rest;
      assert s[2..] == rest;
    } else {
      assert s[0] == line[0];
      LineReads(line[1..], rest);
      assert s[1..] == line[1..] + Crlf() + rest;
      assert [line[0]] + line[1..] == line;
    }
  }

  /** Lines, each with its CRLF. */
  function Ended(lines: seq<seq<byte>>): seq<byte>
  {
    if lines == [] then [] else lines[0] + Crlf() + Ended(lines[1..])
  }

  lemma {:induction false} SectionReads(lines: seq<seq<byte>>, rest: seq<byte>)
    requires AllPlain(lines)
    ensures ReadSection(Ended(lines) + Crlf() + rest) == Some(Section(lines, rest))
  {
    hide ReadLine;
    var s := Ended(lines) + Crlf() + rest;
    if lines == [] {
      LineReads([], rest);
      assert s == [] + Crlf() + rest;
    } else {
      var after := Ended(lines[1..]) + Crlf() + rest;
      LineReads(lines[0], after);
      assert s == lines[0] + Crlf() + after;
      SectionReads(lines[1..], rest);
      assert [lines[0]] + lines[1..] == lines;
    }
  }

  /** A line read is what stands before the first CRLF. */
  lemma {:induction false} LineStands(s: seq<byte>)
    requires ReadLine(s).Some?
    ensures var l := ReadLine(s).value;
      |l.text| + 2 <= |s| && s[|l.text|] == CR && s[|l.text| + 1] == LF && l.rest == s[|l.text| + 2..]
  {
    if !(s[0] == CR && s[1] == LF) {
      LineStands(s[1..]);
    }
  }

  lemma {:induction false} FirstCrlf(s: seq<byte>, p: nat)
    requires p + 2 <= |s| && s[p] == CR && s[p + 1] == LF
    ensures ReadLine(s).Some? && |ReadLine(s).value.text| <= p
  {
    if p > 0 && !(s[0] == CR && s[1] == LF) {
      FirstCrlf(s[1..], p - 1);
    }
  }

  /** A section is as long as its lines, their ends and the empty line. */
  lemma {:induction false} SectionLength(s: seq<byte>)
    requires ReadSection(s).Some?
    ensures var r := ReadSection(s).value; |Ended(r.lines)| + 2 + |r.rest| == |s|
    decreases |s|
  {
    var l := ReadLine(s).value;
    if l.text != [] {
      SectionLength(l.rest);
      var lines := ReadSection(l.rest).value.lines;
      assert ([l.text] + lines)[1..] == lines;
    }
  }

  /** It is over at the first blank line, wherever that came from. */
  lemma {:induction false} BlankEnds(s: seq<byte>, p: nat)
    requires p + 4 <= |s| && s[p] == CR && s[p + 1] == LF && s[p + 2] == CR && s[p + 3] == LF
    ensures ReadSection(s).Some? && |ReadSection(s).value.rest| + p + 4 >= |s|
    decreases |s|
  {
    hide ReadLine;
    FirstCrlf(s, p);
    LineStands(s);
    var l := ReadLine(s).value;
    var q := |l.text|;
    if q > 0 {
      if q == p {
        FirstCrlf(l.rest, 0);
        LineStands(l.rest);
      } else {
        assert q + 1 != p;
        BlankEnds(l.rest, p - q - 2);
      }
    }
  }

  /** The C library's `%x`. */
  function Hex(n: nat): (r: seq<byte>)
    ensures r != []
  {
    if n < 16 then [HexDigit(n, false)] else Hex(n / 16) + [HexDigit(n % 16, false)]
  }

  lemma {:induction false} HexReads(n: nat)
    ensures ReadHex(Hex(n)) == Some(n) && CR !in Hex(n)
  {
    if n >= 16 {
      HexReads(n / 16);
      assert Hex(n)[..|Hex(n)| - 1] == Hex(n / 16);
    }
  }

  /** A chunk as the server writes it. */
  function Chunk(data: seq<byte>): seq<byte>
  {
    Hex(|data|) + Crlf() + data + Crlf()
  }

  function Chunks(datas: seq<seq<byte>>): seq<byte>
  {
    if datas == [] then [] else Chunk(datas[0]) + Chunks(datas[1..])
  }

  lemma ChunkReads(data: seq<byte>, rest: seq<byte>)
    requires data != []
    ensures ReadChunks(Chunk(data) + rest) ==
      var r := ReadChunks(rest);
      if r.None? then None else Some(r.value.(octets := data + r.value.octets))
  {
    hide ReadLine, ReadHex, Hex, ReadSection;
    HexReads(|data|);
    var after := data + Crlf() + rest;
    LineReads(Hex(|data|), after);
    assert Chunk(data) + rest == Hex(|data|) + Crlf() + after;
    assert after[|data|..|data| + 2] == Crlf();
    assert after[..|data|] == data && after[|data| + 2..] == rest;
  }

  /** A chunk without data is the last one to whoever reads it. */
  lemma EmptyChunkEnds(rest: seq<byte>)
    ensures ReadChunks(Chunk([]) + rest) == Some(Body([], [], rest))
  {
    hide ReadLine, ReadHex, Hex;
    HexReads(0);
    var after := Crlf() + rest;
    LineReads(Hex(0), after);
    assert Chunk([]) + rest == Hex(0) + Crlf() + after;
    LineReads([], rest);
    assert after == [] + Crlf() + rest;
  }

  /** The last chunk: its size line, trailers, and the empty line. */
  function Closing(trailers: seq<seq<byte>>): seq<byte>
  {
    Hex(0) + Crlf() + Ended(trailers) + Crlf()
  }

  lemma ClosingReads(trailers: seq<seq<byte>>, rest: seq<byte>)
    requires AllPlain(trailers)
    ensures ReadChunks(Closing(trailers) + rest) == Some(Body([], trailers, rest))
  {
    hide ReadLine, ReadHex, Hex, ReadSection, Ended;
    HexReads(0);
    var after := Ended(trailers) + Crlf() + rest;
    LineReads(Hex(0), after);
    assert Closing(trailers) + rest == Hex(0) + Crlf() + after;
    SectionReads(trailers, rest);
  }

  lemma {:induction false} ChunksRead(datas: seq<seq<byte>>, rest: seq<byte>)
    requires NoneEmpty(datas)
    ensures ReadChunks(Chunks(datas) + rest) ==
      var r := ReadChunks(rest);
      if r.None? then None else Some(r.value.(octets := Flat(datas) + r.value.octets))
  {
    hide ReadChunks, Chunk;
    if datas == [] {
      assert Chunks(datas) + rest == rest;
      var r := ReadChunks(rest);
      assert r.Some? ==> [] + r.value.octets == r.value.octets;
    } else {
      ChunkReads(datas[0], Chunks(datas[1..]) + rest);
      ChunksRead(datas[1..], rest);
      assert Chunks(datas) + rest == Chunk(datas[0]) + (Chunks(datas[1..]) + rest);
      var r := ReadChunks(rest);
      assert r.Some? ==> datas[0] + (Flat(datas[1..]) + r.value.octets) == Flat(datas) + r.value.octets;
    }
  }
}
