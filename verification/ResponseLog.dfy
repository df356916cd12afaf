/** What the calls made on a response put on the wire, and how a recipient reads it. */
module ResponseLog {
  import opened Bytes
  import opened Numbers
  import opened Parts
  import opened ChunkedReading

  /** A status line and header fields, each field as `name: value`. */
  datatype Head = Head(line: seq<byte>, fields: seq<seq<byte>>)

  function FieldsText(fields: seq<seq<byte>>): seq<byte>
  {
    if fields == [] then [] else FieldsText(fields[..|fields| - 1]) + Crlf() + fields[|fields| - 1]
  }

  /** Fields are written after the CRLF that ends the line before them. */
  function HeadText(h: Head): seq<byte>
  {
    h.line + FieldsText(h.fields) + Crlf() + Crlf()
  }

  /** A field as it is handed over: in one segment, or a known name and a value in two. */
  datatype Given = Spelled(name: seq<byte>, value: seq<byte>) | Known(name: seq<byte>, value: seq<byte>)

  /** What is gathered for a head: the status line and the fields. */
  datatype Gathered = Gathered(line: seq<byte>, givens: seq<Given>)

  function Field(name: seq<byte>, value: seq<byte>): seq<byte>
  {
    name + Ascii(": ") + value
  }

  /** What of a field gets into the head. */
  function Kept(g: Given): seq<byte>
  {
    match g
    case Spelled(name, value) => Cut(Crlf() + Field(name, value))
    case Known(name, value) => Cut(Crlf() + Field(name, [])) + Cut(value)
  }

  predicate Fits(g: Given)
  {
    match g
    case Spelled(name, value) => |name| + |value| + 4 < 0x1_0000
    case Known(name, value) => |name| + 4 < 0x1_0000 && |value| < 0x1_0000
  }

  function KeptAll(givens: seq<Given>): seq<byte>
  {
    if givens == [] then [] else KeptAll(givens[..|givens| - 1]) + Kept(givens[|givens| - 1])
  }

  /** The head as it is sent. */
  function SentText(g: Gathered): seq<byte>
  {
    Cut(g.line) + KeptAll(g.givens) + Crlf() + Crlf()
  }

  predicate FitAll(givens: seq<Given>)
  {
    forall i :: 0 <= i < |givens| ==> Fits(givens[i])
  }

  predicate AllFit(g: Gathered)
  {
    |g.line| < 0x1_0000 && FitAll(g.givens)
  }

  function FieldsOf(givens: seq<Given>): (r: seq<seq<byte>>)
    ensures |r| == |givens|
  {
    seq(|givens|, i requires 0 <= i < |givens| => Field(givens[i].name, givens[i].value))
  }

  /** The head that was meant. */
  function Meant(g: Gathered): Head
  {
    Head(g.line, FieldsOf(g.givens))
  }

  /** The head gains the whole field exactly when its segments fit, and less than that otherwise. */
  lemma KeptIsWhole(g: Given)
    ensures Kept(g) == Crlf() + Field(g.name, g.value) <==> Fits(g)
    ensures |Kept(g)| <= |Crlf() + Field(g.name, g.value)|
    ensures !Fits(g) ==> |Kept(g)| < |Crlf() + Field(g.name, g.value)|
  {
    hide Cut;
    assert |Ascii(": ")| == 2;
    match g
    case Spelled(name, value) =>
      CutIsWhole(Crlf() + Field(name, value));
    case Known(name, value) =>
      CutIsWhole(Crlf() + Field(name, []));
      CutIsWhole(value);
      assert Crlf() + Field(name, []) + value == Crlf() + Field(name, value);
  }

  /** A field that a request may well carry, and that vanishes: 32 octets of name and 65500 of value. */
  lemma VanishingField(name: seq<byte>, value: seq<byte>)
    requires |name| == 32 && |value| == 65500
    ensures Kept(Spelled(name, value)) == []
  {
    assert |Crlf() + Field(name, value)| == 0x1_0000;
  }

  lemma {:induction false} KeptAllIsWhole(givens: seq<Given>)
    ensures |KeptAll(givens)| <= |FieldsText(FieldsOf(givens))|
    ensures if FitAll(givens) then KeptAll(givens) == FieldsText(FieldsOf(givens))
      else |KeptAll(givens)| < |FieldsText(FieldsOf(givens))|
  {
    hide FitAll, KeptAll, FieldsText, FieldsOf;
    if givens == [] {
      NothingGiven();
    } else {
      var n := |givens| - 1;
      KeptAllIsWhole(givens[..n]);
      OneMoreGiven(givens[..n], givens[n]);
      assert givens[..n] + [givens[n]] == givens;
    }
  }

  lemma NothingGiven()
    ensures FitAll([]) && KeptAll([]) == FieldsText(FieldsOf([])) == []
  {
  }

  lemma OneMoreGiven(givens: seq<Given>, g: Given)
    requires |KeptAll(givens)| <= |FieldsText(FieldsOf(givens))|
    requires if FitAll(givens) then KeptAll(givens) == FieldsText(FieldsOf(givens))
      else |KeptAll(givens)| < |FieldsText(FieldsOf(givens))|
    ensures var all := givens + [g];
      && |KeptAll(all)| <= |FieldsText(FieldsOf(all))|
      && if FitAll(all) then KeptAll(all) == FieldsText(FieldsOf(all)) else |KeptAll(all)| < |FieldsText(FieldsOf(all))|
  {
    KeptIsWhole(g);
    hide Kept, Fits, Field, FitAll;
    var all := givens + [g];
    assert all[..|givens|] == givens;
    assert FieldsOf(all)[..|givens|] == FieldsOf(givens);
    FitOneMore(givens, g);
    hide FieldsOf;
    var before, field := FieldsText(FieldsOf(givens)), Field(g.name, g.value);
    assert before + Crlf() + field == before + (Crlf() + field);
  }

  lemma FitOneMore(givens: seq<Given>, g: Given)
    ensures FitAll(givens + [g]) <==> FitAll(givens) && Fits(g)
  {
    hide Fits;
    var all := givens + [g];
    assert all[|givens|] == g;
    assert forall i :: 0 <= i < |givens| ==> all[i] == givens[i];
  }

  /** The head sent is the head meant exactly when every segment fits, and shorter otherwise. */
  lemma SentIsMeant(g: Gathered)
    ensures SentText(g) == HeadText(Meant(g)) <==> AllFit(g)
    ensures !AllFit(g) ==> |SentText(g)| < |HeadText(Meant(g))|
  {
    KeptAllIsWhole(g.givens);
    CutIsWhole(g.line);
    hide KeptAll, Cut, FieldsText;
  }

  /** A recipient of a head that was cut anywhere never reads the one that was meant. */
  lemma CutMisreads(g: Gathered, rest: seq<byte>)
    requires !AllFit(g)
    ensures var r := ReadResponse(SentText(g) + rest); r.Some? ==> r.value.head != [g.line] + FieldsOf(g.givens)
  {
    SentIsMeant(g);
    HeadIsLines(Meant(g));
    var s := SentText(g) + rest;
    var n := |SentText(g)|;
    assert SentText(g) == Cut(g.line) + KeptAll(g.givens) + Crlf() + Crlf();
    hide ReadSection, ReadChunks, Ended, HeadText, SentText, AllFit, FieldsOf;
    assert s[n - 4] == CR && s[n - 3] == LF && s[n - 2] == CR && s[n - 1] == LF;
    BlankEnds(s, n - 4);
    SectionLength(s);
  }

  datatype Event = Wrote(data: seq<byte>) | Trailed(line: seq<byte>) | Finished

  /** The head goes out with the first write, or at the end. */
  predicate Begun(log: seq<Event>)
  {
    exists i :: 0 <= i < |log| && !log[i].Trailed?
  }

  /** The line of the last chunk goes out with the first trailer, or at the end. */
  predicate Zeroed(log: seq<Event>)
  {
    exists i :: 0 <= i < |log| && !log[i].Wrote?
  }

  function ZeroLine(): seq<byte>
  {
    Hex(0) + Crlf()
  }

  /** The octets that one more call adds. */
  function Adds(chunked: bool, head: seq<byte>, log: seq<Event>, e: Event): seq<byte>
  {
    var late := if Begun(log) then [] else head;
    var zero := if Zeroed(log) then [] else ZeroLine();
    match e
    case Wrote(data) => late + if chunked then Chunk(data) else data
    case Trailed(line) => if chunked then zero + line + Crlf() else []
    case Finished => late + if chunked then zero + Crlf() else []
  }

  function Wire(chunked: bool, head: seq<byte>, log: seq<Event>): seq<byte>
  {
    if log == [] then []
    else
      var before := log[..|log| - 1];
      Wire(chunked, head, before) + Adds(chunked, head, before, log[|log| - 1])
  }

  function Writes(datas: seq<seq<byte>>): seq<Event>
  {
    seq(|datas|, i requires 0 <= i < |datas| => Wrote(datas[i]))
  }

  function Trails(lines: seq<seq<byte>>): seq<Event>
  {
    seq(|lines|, i requires 0 <= i < |lines| => Trailed(lines[i]))
  }

  /** The calls of one response: writes, then trailers, then the end. */
  function Whole(datas: seq<seq<byte>>, trailers: seq<seq<byte>>): seq<Event>
  {
    Writes(datas) + Trails(trailers) + [Finished]
  }

  lemma WireOneMore(chunked: bool, head: seq<byte>, log: seq<Event>, e: Event)
    ensures Wire(chunked, head, log + [e]) == Wire(chunked, head, log) + Adds(chunked, head, log, e)
  {
    hide Adds;
    assert (log + [e])[..|log|] == log;
  }

  lemma {:induction false} WirePrefix(chunked: bool, head: seq<byte>, log: seq<Event>, k: nat)
    requires k <= |log|
    ensures Wire(chunked, head, log[..k]) <= Wire(chunked, head, log)
    decreases |log|
  {
    hide Adds;
    if k < |log| {
      WirePrefix(chunked, head, log[..|log| - 1], k);
      assert log[..|log| - 1][..k] == log[..k];
    } else {
      assert log[..k] == log;
    }
  }

  lemma FlagsOneMore(log: seq<Event>, e: Event)
    ensures Begun(log + [e]) <==> Begun(log) || !e.Trailed?
    ensures Zeroed(log + [e]) <==> Zeroed(log) || !e.Wrote?
    ensures !Begun([]) && !Zeroed([])
  {
    var all := log + [e];
    assert all[|log|] == e;
    assert forall i :: 0 <= i < |log| ==> all[i] == log[i];
  }

  lemma {:induction false} ChunksOneMore(datas: seq<seq<byte>>, data: seq<byte>)
    ensures Chunks(datas + [data]) == Chunks(datas) + Chunk(data)
  {
    hide Chunk;
    var all := datas + [data];
    if datas == [] {
      assert all[1..] == [];
    } else {
      ChunksOneMore(datas[1..], data);
      assert all[1..] == datas[1..] + [data];
    }
  }

  lemma {:induction false} EndedOneMore(lines: seq<seq<byte>>, line: seq<byte>)
    ensures Ended(lines + [line]) == Ended(lines) + line + Crlf()
  {
    var all := lines + [line];
    if lines == [] {
      assert all[1..] == [];
    } else {
      EndedOneMore(lines[1..], line);
      assert all[1..] == lines[1..] + [line];
    }
  }

  lemma SameTail(a: seq<byte>, b: seq<byte>, tail: seq<byte>)
    requires a + tail == b + tail
    ensures a == b
  {
    assert a == (a + tail)[..|a|] && b == (b + tail)[..|b|];
  }

  /** The head, as the lines a recipient reads. */
  lemma {:induction false} HeadIsLines(h: Head)
    ensures HeadText(h) == Ended([h.line] + h.fields) + Crlf()
    decreases |h.fields|
  {
    var lines := [h.line] + h.fields;
    if h.fields == [] {
      assert lines[1..] == [];
    } else {
      var n := |h.fields| - 1;
      HeadIsLines(Head(h.line, h.fields[..n]));
      EndedOneMore([h.line] + h.fields[..n], h.fields[n]);
      assert lines == [h.line] + h.fields[..n] + [h.fields[n]];
      SameTail(h.line + FieldsText(h.fields[..n]) + Crlf(), Ended([h.line] + h.fields[..n]), Crlf());
    }
  }

  lemma {:induction false} WireOfWrites(head: seq<byte>, datas: seq<seq<byte>>)
    ensures Wire(true, head, Writes(datas)) == (if datas == [] then [] else head) + Chunks(datas)
    ensures !Zeroed(Writes(datas)) && (Begun(Writes(datas)) <==> datas != [])
  {
    hide Chunk, Begun, Zeroed, Wire;
    if datas == [] {
      NothingYet(head);
      FlagsOneMore([], Finished);
      assert Writes(datas) == [];
    } else {
      var n := |datas| - 1;
      var log := Writes(datas[..n]);
      WireOfWrites(head, datas[..n]);
      ChunksOneMore(datas[..n], datas[n]);
      assert datas[..n] + [datas[n]] == datas;
      assert Writes(datas) == log + [Wrote(datas[n])];
      WireOneMore(true, head, log, Wrote(datas[n]));
      FlagsOneMore(log, Wrote(datas[n]));
    }
  }

  lemma NothingYet(head: seq<byte>)
    ensures Wire(true, head, []) == []
  {
  }

  lemma {:induction false} WireOfTrailers(head: seq<byte>, datas: seq<seq<byte>>, trailers: seq<seq<byte>>)
    ensures Wire(true, head, Writes(datas) + Trails(trailers)) ==
      Wire(true, head, Writes(datas)) + if trailers == [] then [] else ZeroLine() + Ended(trailers)
    ensures Zeroed(Writes(datas) + Trails(trailers)) <==> trailers != []
    ensures Begun(Writes(datas) + Trails(trailers)) <==> datas != []
  {
    hide Chunk, Begun, Zeroed, Wire, Hex, Ended;
    var log := Writes(datas) + Trails(trailers);
    WireOfWrites(head, datas);
    if trailers == [] {
      assert log == Writes(datas);
    } else {
      var n := |trailers| - 1;
      var before := Writes(datas) + Trails(trailers[..n]);
      WireOfTrailers(head, datas, trailers[..n]);
      EndedOneMore(trailers[..n], trailers[n]);
      assert trailers[..n] + [trailers[n]] == trailers;
      assert log == before + [Trailed(trailers[n])];
      WireOneMore(true, head, before, Trailed(trailers[n]));
      FlagsOneMore(before, Trailed(trailers[n]));
      EndedNone();
      TrailerText(Wire(true, head, Writes(datas)), trailers[..n], trailers[n]);
    }
  }

  lemma TrailerText(before: seq<byte>, trailers: seq<seq<byte>>, line: seq<byte>)
    ensures before + (if trailers == [] then [] else ZeroLine() + Ended(trailers))
        + ((if trailers == [] then ZeroLine() else []) + line + Crlf())
      == before + (ZeroLine() + (Ended(trailers) + line + Crlf()))
  {
    EndedNone();
    hide Ended, Hex;
  }

  lemma EndedNone()
    ensures Ended([]) == []
  {
  }

  lemma Regroup(a: seq<byte>, b: seq<byte>, c: seq<byte>, d: seq<byte>)
    ensures a + b + c + d == a + (b + c + d)
  {
  }

  /** What a whole response puts on the wire: the head comes first unless a trailer was sent before any write. */
  lemma WireOfWhole(head: seq<byte>, datas: seq<seq<byte>>, trailers: seq<seq<byte>>)
    ensures Wire(true, head, Whole(datas, trailers)) ==
      if datas == [] && trailers != [] then ZeroLine() + Ended(trailers) + (head + Crlf())
      else head + Chunks(datas) + Closing(trailers)
  {
    hide Chunk, Chunks, Wire, Hex, Begun, Zeroed, Ended, ZeroLine;
    var log := Writes(datas) + Trails(trailers);
    ChunksNone();
    EndedNone();
    WireOfWrites(head, datas);
    WireOfTrailers(head, datas, trailers);
    WireOneMore(true, head, log, Finished);
    ClosingIs(trailers);
    Assembled(head, Chunks(datas), ZeroLine(), Ended(trailers), datas != [], trailers != []);
  }

  lemma ClosingIs(trailers: seq<seq<byte>>)
    ensures Closing(trailers) == ZeroLine() + Ended(trailers) + Crlf()
  {
  }

  /** The pieces of a response in the order of the calls, put together. */
  lemma Assembled(head: seq<byte>, c: seq<byte>, z: seq<byte>, e: seq<byte>, wrote: bool, trailed: bool)
    requires (!wrote ==> c == []) && (!trailed ==> e == [])
    ensures (if wrote then head else []) + c + (if trailed then z + e else [])
        + ((if wrote then [] else head) + ((if trailed then [] else z) + Crlf()))
      == if !wrote && trailed then z + e + (head + Crlf()) else head + c + (z + e + Crlf())
  {
    if wrote && trailed {
      Regroup(head + c, z, e, Crlf());
    }
  }

  /** What a recipient should make of a whole response followed by `next`. */
  function Intended(h: Head, datas: seq<seq<byte>>, trailers: seq<seq<byte>>, next: seq<byte>): Response
  {
    Response([h.line] + h.fields, Body(Flat(datas), trailers, next))
  }

  predicate AllLines(h: Head, trailers: seq<seq<byte>>)
  {
    AllPlain([h.line] + h.fields) && AllPlain(trailers)
  }

  lemma HeadReads(h: Head, rest: seq<byte>)
    requires AllPlain([h.line] + h.fields)
    ensures ReadResponse(HeadText(h) + rest) ==
      var body := ReadChunks(rest);
      if body.None? then None else Some(Response([h.line] + h.fields, body.value))
  {
    hide ReadChunks, ReadSection, HeadText, AllPlain;
    HeadIsLines(h);
    SectionReads([h.line] + h.fields, rest);
  }

  lemma BodyReads(datas: seq<seq<byte>>, trailers: seq<seq<byte>>, next: seq<byte>)
    requires NoneEmpty(datas) && AllPlain(trailers)
    ensures ReadChunks(Chunks(datas) + Closing(trailers) + next) == Some(Body(Flat(datas), trailers, next))
  {
    hide ReadChunks, Closing, AllPlain, NoneEmpty, Chunks, Flat;
    ClosingReads(trailers, next);
    ChunksRead(datas, Closing(trailers) + next);
    assert Chunks(datas) + Closing(trailers) + next == Chunks(datas) + (Closing(trailers) + next);
    assert Flat(datas) + [] == Flat(datas);
  }

  lemma {:induction false} ChunksSplit(a: seq<seq<byte>>, b: seq<seq<byte>>)
    ensures Chunks(a + b) == Chunks(a) + Chunks(b)
  {
    hide Chunk, Chunks;
    if a == [] {
      ChunksNone();
      assert a + b == b;
    } else {
      ChunksSplit(a[1..], b);
      ChunksFirst(a[0], a[1..]);
      ChunksFirst(a[0], a[1..] + b);
      assert [a[0]] + a[1..] == a && [a[0]] + (a[1..] + b) == a + b;
    }
  }

  lemma ChunksNone()
    ensures Chunks([]) == []
  {
  }

  /** An empty write ends the body there, and leaves the rest of the response over. */
  lemma EmptyWriteCuts(datas: seq<seq<byte>>, k: nat, trailers: seq<seq<byte>>, next: seq<byte>)
    requires k < |datas| && datas[k] == [] && NoneEmpty(datas[..k])
    ensures var r := ReadChunks(Chunks(datas) + Closing(trailers) + next);
      r.Some? && |r.value.rest| > |next|
  {
    hide ReadChunks, Chunk, Flat, Hex, Ended, NoneEmpty, Chunks;
    var rest := Chunks(datas[k + 1..]) + Closing(trailers) + next;
    assert datas == datas[..k] + ([datas[k]] + datas[k + 1..]);
    ChunksSplit(datas[..k], [datas[k]] + datas[k + 1..]);
    ChunksFirst(datas[k], datas[k + 1..]);
    EmptyChunkEnds(rest);
    ChunksRead(datas[..k], Chunk([]) + rest);
    assert Chunks(datas) + Closing(trailers) + next == Chunks(datas[..k]) + (Chunk([]) + rest);
  }

  lemma ChunksFirst(data: seq<byte>, datas: seq<seq<byte>>)
    ensures Chunks([data] + datas) == Chunk(data) + Chunks(datas)
  {
    assert ([data] + datas)[1..] == datas;
  }

  lemma {:induction false} FirstEmpty(datas: seq<seq<byte>>) returns (k: nat)
    requires !NoneEmpty(datas)
    ensures k < |datas| && datas[k] == [] && NoneEmpty(datas[..k])
  {
    if datas[0] == [] {
      k := 0;
    } else {
      k := FirstEmpty(datas[1..]);
      k := k + 1;
      assert forall i :: 0 < i < k ==> datas[..k][i] == datas[1..][..k - 1][i - 1];
    }
  }

  lemma ZeroFirst(h: Head, rest: seq<byte>)
    requires h.line != Hex(0)
    ensures var r := ReadResponse(ZeroLine() + rest); r.Some? ==> r.value.head != [h.line] + h.fields
  {
    hide ReadChunks, ReadLine, Hex;
    HexReads(0);
    LineReads(Hex(0), rest);
    var r := ReadResponse(ZeroLine() + rest);
    if r.Some? {
      assert r.value.head[0] == Hex(0);
      assert ([h.line] + h.fields)[0] == h.line;
    }
  }

  lemma FittingReads(g: Gathered, datas: seq<seq<byte>>, trailers: seq<seq<byte>>, next: seq<byte>)
    requires AllLines(Meant(g), trailers) && AllFit(g)
    ensures ReadResponse(SentText(g) + (Chunks(datas) + Closing(trailers) + next))
      == Some(Intended(Meant(g), datas, trailers, next))
      <==> NoneEmpty(datas)
  {
    hide ReadResponse, HeadText, SentText, Chunks, Closing, ReadChunks;
    hide AllPlain, Flat, NoneEmpty, Ended, AllFit, FieldsOf;
    SentIsMeant(g);
    HeadReads(Meant(g), Chunks(datas) + Closing(trailers) + next);
    if NoneEmpty(datas) {
      BodyReads(datas, trailers, next);
    } else {
      var k := FirstEmpty(datas);
      EmptyWriteCuts(datas, k, trailers, next);
    }
  }

  /**
   A recipient gets the head, the bodies put together, the trailers, and the octets after the
   response, exactly when every segment of the head fits 16 bits, no write was empty, and no
   trailer was sent before the first write.
   */
  lemma WholeReads(g: Gathered, datas: seq<seq<byte>>, trailers: seq<seq<byte>>, next: seq<byte>)
    requires AllLines(Meant(g), trailers) && g.line != Hex(0)
    ensures ReadResponse(Wire(true, SentText(g), Whole(datas, trailers)) + next)
            == Some(Intended(Meant(g), datas, trailers, next))
      <==> AllFit(g) && NoneEmpty(datas) && (datas != [] || trailers == [])
  {
    hide ReadResponse, Wire, SentText, Chunks, Closing, AllPlain, Flat, Hex, NoneEmpty, Ended, AllFit, FieldsOf;
    var head := SentText(g);
    WireOfWhole(head, datas, trailers);
    if datas == [] && trailers != [] {
      Regroup(ZeroLine(), Ended(trailers), head + Crlf(), next);
      ZeroFirst(Meant(g), Ended(trailers) + (head + Crlf()) + next);
    } else {
      Regroup(head, Chunks(datas), Closing(trailers), next);
      if AllFit(g) {
        FittingReads(g, datas, trailers, next);
      } else {
        CutMisreads(g, Chunks(datas) + Closing(trailers) + next);
      }
    }
  }

  /** A field line splits at its first colon into the name and, behind one space, the value. */
  lemma FieldParts(name: seq<byte>, value: seq<byte>)
    requires 58 !in name
    ensures var f := Field(name, value);
      && |f| == |name| + 2 + |value| && f[..|name|] == name && f[|name| + 2..] == value
      && f[|name|] == 58 && f[|name| + 1] == 32 && forall i :: 0 <= i < |name| ==> f[i] != 58
  {
    assert Ascii(": ") == [58, 32];
    assert forall i :: 0 <= i < |name| ==> name[i] in name;
  }

  lemma PlainAdds(head: seq<byte>, log: seq<Event>, data: seq<byte>)
    ensures Adds(false, head, log, Wrote(data)) == if Begun(log) then data else head + data
    ensures Adds(false, head, log, Finished) == if Begun(log) then [] else head
  {
    hide Begun, Zeroed, ZeroLine;
    assert head + [] == head && [] + data == data;
  }

  lemma NoWrites(head: seq<byte>)
    ensures Wire(false, head, Writes([])) == [] && !Begun(Writes([]))
  {
  }

  /** Without chunks the writes come to the head and the octets written, and the end to nothing more. */
  lemma {:induction false} WireOfPlain(head: seq<byte>, datas: seq<seq<byte>>)
    ensures Wire(false, head, Writes(datas)) == if datas == [] then [] else head + Flat(datas)
    ensures Wire(false, head, Writes(datas) + [Finished]) == head + Flat(datas)
    ensures Begun(Writes(datas)) <==> datas != []
    decreases |datas|
  {
    hide Flat, Wire, Adds, Begun;
    FlatNone();
    if datas == [] {
      NoWrites(head);
    } else {
      var n := |datas| - 1;
      var before, data := datas[..n], datas[n];
      WireOfPlain(head, before);
      assert Writes(datas) == Writes(before) + [Wrote(data)] && datas == before + [data];
      WireOneMore(false, head, Writes(before), Wrote(data));
      FlagsOneMore(Writes(before), Wrote(data));
      PlainAdds(head, Writes(before), data);
      FlatAppend(before, data);
    }
    WireOneMore(false, head, Writes(datas), Finished);
    PlainAdds(head, Writes(datas), []);
  }
}
