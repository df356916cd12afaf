/** The server's side of one HTTP/1.1 response, call by call. */
module ResponseSink {
  import opened Bytes
  import opened Numbers
  import opened Parts
  import opened ChunkedReading
  import opened ResponseWire
  import opened ResponseLog

  /** The calls made so far, and what the connection had carried before the first of them. */
  datatype Story = Story(head: Gathered, started: bool, log: seq<Event>, before: seq<byte>)

  class Sink {
    const cn: Connection
    const rc: ResponseContext
    var statusSent: bool
    var chunked: bool
    var sentChunk0: bool
    var close: bool
    // octets of a body of known length still to be written, or -1
    var responseLeft: int
    ghost var story: Story

    /** Before the body starts the head is only collected. */
    ghost predicate Collecting()
      reads this, rc, rc.chain, cn
    {
      && !story.started && story.log == [] && !chunked && !sentChunk0 && cn.wire == story.before
      && rc.Valid() && rc.Text() == Cut(story.head.line) + KeptAll(story.head.givens)
      && (statusSent <==> story.head.line != [])
      && (rc.chain == [] <==> !statusSent && story.head.givens == [])
    }

    /** Afterwards the wire is as the calls so far make it, and the head waits for the first write. */
    ghost predicate Sending()
      reads this, rc, rc.chain, cn
    {
      && story.started && rc.Valid() && cn.wire == story.before + Wire(chunked, SentText(story.head), story.log)
      && (if Begun(story.log) then rc.chain == [] else rc.chain != [] && rc.Text() == SentText(story.head))
      && (chunked ==> responseLeft == -1 && sentChunk0 == Zeroed(story.log))
    }

    /** On a new connection, or after another response on the same one. */
    constructor (cn: Connection)
      ensures this.cn == cn && fresh(rc) && Collecting()
      ensures story == Story(Gathered([], []), false, [], cn.wire) && !close
    {
      this.cn := cn;
      rc := new ResponseContext();
      statusSent, chunked, sentChunk0, close, responseLeft := false, false, false, false, -1;
      story := Story(Gathered([], []), false, [], cn.wire);
      new;
      assert rc.Text() == [];
    }

    /** The status line goes in front, whenever it is given; a second one is refused. */
    method ResponseStatus(line: seq<byte>) returns (ok: bool)
      requires Collecting() && line != []
      modifies this`statusSent, this`story, rc
      ensures ok == !old(statusSent) && Collecting()
      ensures rc.Text() == if ok then Cut(line) + old(rc.Text()) else old(rc.Text())
      ensures story == if ok then old(story).(head := Gathered(line, old(story).head.givens)) else old(story)
      ensures forall b :: b in rc.chain ==> b in old(rc.chain) || fresh(b)
    {
      hide Flat, KeptAll, Wire, SentText, TextOf, Leads;
      if statusSent {
        return false;
      }
      rc.HeadInsertConst(line);
      statusSent := true;
      assert Cut([]) == [];
      story := story.(head := Gathered(line, story.head.givens));
      return true;
    }

    /** A field in one segment. */
    method ResponseHeader(name: seq<byte>, value: seq<byte>)
      requires Collecting()
      modifies this`story, rc, (if rc.last == null then {} else {rc.last})`next
      ensures Collecting()
      ensures rc.Text() == old(rc.Text()) + Kept(Spelled(name, value))
      ensures rc.Text() == old(rc.Text()) + (Crlf() + Field(name, value)) <==> |name| + |value| + 4 < 0x1_0000
      ensures story
        == old(story).(head := Gathered(old(story).head.line, old(story).head.givens + [Spelled(name, value)]))
      ensures forall b :: b in rc.chain ==> b in old(rc.chain) || fresh(b)
    {
      hide Flat, KeptAll, Cut, Wire, SentText, TextOf, Leads, Ascii;
      ghost var g := Spelled(name, value);
      KeptIsWhole(g);
      GivenAppended(story.head, g);
      assert Crlf() + name + Ascii(": ") + value == Crlf() + Field(name, value);
      rc.HeadAppend(Crlf() + name + Ascii(": ") + value);
      SameFront(old(rc.Text()), Kept(g), Crlf() + Field(name, value));
      story := story.(head := Gathered(story.head.line, story.head.givens + [g]));
    }

    /** A field whose name the server knows, in two segments. */
    method ResponseKnownHeader(name: seq<byte>, value: seq<byte>)
      requires Collecting()
      modifies this`story, rc, (if rc.last == null then {} else {rc.last})`next
      ensures Collecting()
      ensures rc.Text() == old(rc.Text()) + Kept(Known(name, value))
      ensures rc.Text() == old(rc.Text()) + (Crlf() + Field(name, value))
        <==> |name| + 4 < 0x1_0000 && |value| < 0x1_0000
      ensures story
        == old(story).(head := Gathered(old(story).head.line, old(story).head.givens + [Known(name, value)]))
      ensures forall b :: b in rc.chain ==> b in old(rc.chain) || fresh(b)
    {
      hide Flat, KeptAll, Cut, Wire, SentText, TextOf, Leads, Ascii;
      ghost var g := Known(name, value);
      KeptIsWhole(g);
      GivenAppended(story.head, g);
      assert Crlf() + name + Ascii(": ") == Crlf() + Field(name, []);
      rc.HeadAppend(Crlf() + name + Ascii(": "));
      rc.HeadAppend(value);
      SameFront(old(rc.Text()), Kept(g), Crlf() + Field(name, value));
      story := story.(head := Gathered(story.head.line, story.head.givens + [g]));
    }

    /** Ends the head. The body is chunked when its length is not known and the request allows it. */
    method StartResponseBody(size: int, transferChunked: bool) returns (headerLen: nat)
      requires Collecting() && (transferChunked ==> size == -1)
      modifies this`responseLeft, this`chunked, this`story, rc, (if rc.last == null then {} else {rc.last})`next
      ensures old(rc.chain) == [] ==> headerLen == 0 && Collecting() && story == old(story)
      ensures old(rc.chain) != [] ==>
        && Sending() && story == old(story).(started := true) && responseLeft == size && chunked == transferChunked
        && headerLen == |SentText(story.head)|
      ensures forall b :: b in rc.chain ==> b in old(rc.chain) || fresh(b)
    {
      hide Flat, KeptAll, Wire, TextOf, Leads;
      HeadWaits();
      if rc.head == null {
        return 0;
      }
      chunked := transferChunked;
      responseLeft := size;
      assert Cut(Crlf() + Crlf()) == Crlf() + Crlf();
      rc.HeadAppend(Crlf() + Crlf());
      story := story.(started := true);
      NothingSent(chunked, SentText(story.head));
      return rc.totalLen;
    }

    /** Counts octets of the body as written. */
    method OnSuccessResponse(len: int)
      modifies this`responseLeft
      ensures responseLeft
        == if len > 0 && old(responseLeft) >= 0 then Max(old(responseLeft) - len, 0) else old(responseLeft)
    {
      if len > 0 {
        if responseLeft >= 0 {
          responseLeft := responseLeft - len;
          if responseLeft < 0 {
            responseLeft := 0;
          }
        }
      }
    }

    /** Writes the first `len` octets of some segments, behind the head if that is still waiting. */
    method InternalWrite(buf: Kbuf?, len: nat, suffix: seq<byte>, ghost body: seq<Kbuf>) returns (left: nat)
      requires rc.Valid() && Leads(buf, body, null) && len <= |TextOf(body)| && forall b :: b in body ==> b !in rc.chain
      modifies this`responseLeft, rc, (if rc.last == null then {} else {rc.last})`next, cn
      ensures rc.Valid() && rc.chain == []
      ensures var all := WithSuffix(old(rc.Text()) + TextOf(body)[..len], suffix);
        && Took(old(cn.wire), old(cn.room), all, cn.wire, cn.room)
        && left == |old(rc.Text())| + len + |suffix| - Min(old(cn.room), |all|)
      ensures responseLeft ==
        if len - left > 0 && old(responseLeft) >= 0 then Max(old(responseLeft) - (len - left), 0) else old(responseLeft)
    {
      hide Flat, TextOf, WithSuffix;
      if rc.head != null {
        ghost var head := rc.chain;
        rc.Attach(buf, len, body);
        TakeBoth(TextOf(head), TextOf(body), len);
        left := WriteBuf(cn, rc.head, rc.totalLen, suffix, head + body);
        rc.Clean();
        OnSuccessResponse(len - left);
        return;
      }
      NoText();
      assert old(rc.Text()) + TextOf(body)[..len] == TextOf(body)[..len];
      left := WriteBuf(cn, buf, len, suffix, body);
      OnSuccessResponse(len - left);
    }

    lemma LastKnown()
      requires Collecting() || Sending()
      ensures rc.last != null ==> rc.last in rc.chain
    {
      hide Flat, Wire;
    }

    lemma Collected()
      requires Collecting()
      ensures rc.chain == [] <==> story.head == Gathered([], [])
    {
      hide Flat, Wire;
    }

    lemma Sent()
      requires Sending()
      ensures cn.wire == story.before + Wire(chunked, SentText(story.head), story.log)
    {
      hide Flat, Wire;
    }

    lemma HeadWaits()
      requires rc.Valid()
      ensures rc.head == null <==> rc.chain == []
    {
      hide Flat;
    }

    /** Hands over one write of `str`, already in segments and with the suffix that its chunk needs. */
    method Deliver(buf: Kbuf?, len: nat, suffix: seq<byte>, ghost body: seq<Kbuf>, ghost str: seq<byte>)
      returns (left: nat)
      requires Sending() && Leads(buf, body, null) && len <= |TextOf(body)| && forall b :: b in body ==> b !in rc.chain
      requires TextOf(body)[..len] + suffix == Framed(chunked, str) && (suffix != [] ==> len > 0)
      requires responseLeft >= 0 ==> len <= responseLeft
      modifies this`responseLeft, this`story, rc, (if rc.last == null then {} else {rc.last})`next, cn
      ensures left == 0 ==> Sending() && story == old(story).(log := old(story).log + [Wrote(str)])
      ensures rc.chain == []
      ensures old(responseLeft) < 0 ==> responseLeft == old(responseLeft)
      ensures left == 0 && old(responseLeft) >= 0 ==> responseLeft == old(responseLeft) - len
      ensures var all := Adds(chunked, SentText(old(story).head), old(story).log, Wrote(str));
        && Took(old(cn.wire), old(cn.room), all, cn.wire, cn.room)
        && (left == 0 <==> cn.wire == old(cn.wire) + all) && (left == 0 <==> |all| <= old(cn.room))
    {
      hide Flat, TextOf, SentText, Begun, Zeroed, Wire, Adds, WithSuffix, Leads, Framed;
      WireOneMore(chunked, SentText(story.head), story.log, Wrote(str));
      FlagsOneMore(story.log, Wrote(str));
      WriteAdds(chunked, SentText(story.head), story.log, str);
      NoText();
      Together(rc.Text(), TextOf(body)[..len], suffix);
      left := InternalWrite(buf, len, suffix, body);
      story := story.(log := story.log + [Wrote(str)]);
    }

    /** Writes octets of the body. */
    method WriteAll(str: seq<byte>) returns (left: nat)
      requires Sending() && (responseLeft >= 0 ==> |str| <= responseLeft)
      modifies this`responseLeft, this`story, rc, (if rc.last == null then {} else {rc.last})`next, cn
      ensures left == 0 ==> Sending() && story == old(story).(log := old(story).log + [Wrote(str)])
      ensures rc.chain == []
      ensures old(responseLeft) < 0 ==> responseLeft == old(responseLeft)
      ensures left == 0 && old(responseLeft) >= 0 ==> responseLeft == old(responseLeft) - |str|
      ensures var all := Adds(chunked, SentText(old(story).head), old(story).log, Wrote(str));
        && Took(old(cn.wire), old(cn.room), all, cn.wire, cn.room)
        && (left == 0 <==> cn.wire == old(cn.wire) + all) && (left == 0 <==> |all| <= old(cn.room))
    {
      hide Flat, TextOf, SentText, Begun, Zeroed, Wire, Hex, Adds, WithSuffix, Leads;
      HeadWaits();
      if chunked {
        var header := Hex(|str|) + Crlf();
        var buf := new Kbuf(header);
        var data := new Kbuf(str);
        buf.next := data;
        TextOfTwo(buf, data);
        PairLeads(buf, data);
        left := Deliver(buf, |str| + |header|, Crlf(), [buf, data], str);
      } else if rc.head != null {
        var buf := new Kbuf(str);
        TextOfOne(buf);
        OneLeads(buf);
        left := Deliver(buf, |str|, [], [buf], str);
      } else {
        WireOneMore(chunked, SentText(story.head), story.log, Wrote(str));
        FlagsOneMore(story.log, Wrote(str));
        WriteAdds(chunked, SentText(story.head), story.log, str);
        left := SendAll(str);
        story := story.(log := story.log + [Wrote(str)]);
      }
    }

    /** Writes straight to the connection, as often as it takes. */
    method SendAll(str: seq<byte>) returns (left: nat)
      modifies this`responseLeft, cn
      ensures left <= |str| && Took(old(cn.wire), old(cn.room), str, cn.wire, cn.room)
      ensures left == |str| - Min(old(cn.room), |str|)
      ensures responseLeft
        == if old(responseLeft) >= 0 then Max(old(responseLeft) - (|str| - left), 0) else old(responseLeft)
    {
      left := |str|;
      while left > 0
        invariant left <= |str| && cn.wire == old(cn.wire) + str[..|str| - left]
        invariant cn.room + |str| - left == old(cn.room)
        invariant responseLeft
          == if old(responseLeft) >= 0 then Max(old(responseLeft) - (|str| - left), 0) else old(responseLeft)
      {
        var got := cn.Write(str[|str| - left..]);
        OnSuccessResponse(got);
        if got <= 0 {
          return;
        }
        left := left - got;
      }
    }

    /** Writes the first `len` octets of some segments of the body. */
    method WriteAllList(buf: Kbuf?, len: nat, ghost body: seq<Kbuf>) returns (left: nat)
      requires Sending() && (responseLeft >= 0 ==> len <= responseLeft)
      requires Leads(buf, body, null) && len <= |TextOf(body)| && forall b :: b in body ==> b !in rc.chain
      modifies this`responseLeft, this`story, rc, (if rc.last == null then {} else {rc.last})`next, cn
      ensures left == 0 ==> Sending() && story == old(story).(log := old(story).log + [Wrote(TextOf(body)[..len])])
      ensures rc.chain == []
      ensures left == 0 && old(responseLeft) >= 0 ==> responseLeft == old(responseLeft) - len
      ensures old(responseLeft) < 0 ==> responseLeft == old(responseLeft)
      ensures var all := Adds(chunked, SentText(old(story).head), old(story).log, Wrote(TextOf(body)[..len]));
        && Took(old(cn.wire), old(cn.room), all, cn.wire, cn.room)
        && (left == 0 <==> cn.wire == old(cn.wire) + all) && (left == 0 <==> |all| <= old(cn.room))
    {
      hide Flat, TextOf, SentText, Begun, Zeroed, Wire, Hex, Adds, WithSuffix, Leads;
      ghost var str := TextOf(body)[..len];
      if chunked {
        var header := Hex(len) + Crlf();
        var chunkedBuf := new Kbuf(header);
        chunkedBuf.next := buf;
        TextBehind(chunkedBuf, body, len);
        LeadsBehind(chunkedBuf, buf, body);
        left := Deliver(chunkedBuf, len + |header|, Crlf(), [chunkedBuf] + body, str);
      } else {
        left := Deliver(buf, len, [], body, str);
      }
    }

    /** Sends a trailer, the first one after the line of the last chunk. */
    method ResponseTrailer(name: seq<byte>, value: seq<byte>) returns (ok: bool)
      requires Sending()
      modifies this`sentChunk0, this`story, cn
      ensures ok ==> Sending() && story == old(story).(log := old(story).log + [Trailed(Field(name, value))])
      ensures var all := Adds(chunked, SentText(old(story).head), old(story).log, Trailed(Field(name, value)));
        && Took(old(cn.wire), old(cn.room), all, cn.wire, cn.room)
        && (ok <==> cn.wire == old(cn.wire) + all) && (ok <==> |all| <= old(cn.room))
    {
      hide Flat, TextOf, SentText, Begun, Zeroed, Wire, Hex, Adds, Field, Ascii;
      ghost var line := Field(name, value);
      TrailerAdds(chunked, SentText(story.head), story.log, name, value);
      WireOneMore(chunked, SentText(story.head), story.log, Trailed(line));
      FlagsOneMore(story.log, Trailed(line));
      if chunked {
        var bufs := [name, Ascii(": "), value, Crlf()];
        if !sentChunk0 {
          sentChunk0 := true;
          bufs := [Ascii("0\r\n")] + bufs;
        }
        var got;
        got, ok := cn.WritevFull(bufs);
      } else {
        ok := true;
      }
      story := story.(log := story.log + [Trailed(line)]);
    }

    /** Sends a head that is still waiting. */
    method FlushHead() returns (left: nat)
      requires rc.Valid()
      modifies cn
      ensures Took(old(cn.wire), old(cn.room), rc.Text(), cn.wire, cn.room)
      ensures left == 0 <==> |rc.Text()| <= old(cn.room)
    {
      hide Flat, TextOf;
      left := 0;
      NoText();
      if rc.head != null {
        left := WriteBuf(cn, rc.head, rc.totalLen, [], rc.chain);
        assert rc.Text()[..rc.totalLen] == rc.Text();
      }
    }

    /** The end of the chunks: the zero line, unless it is sent, and the empty line behind it. */
    method LastChunk() returns (ok: bool)
      modifies this`sentChunk0, this`close, cn
      ensures sentChunk0 && close == (old(close) || !ok)
      ensures var all := Flat([if old(sentChunk0) then Crlf() else Ascii("0\r\n\r\n")]);
        Took(old(cn.wire), old(cn.room), all, cn.wire, cn.room) && (ok <==> |all| <= old(cn.room))
    {
      hide Flat, Ascii;
      var bufs := Crlf();
      if !sentChunk0 {
        sentChunk0 := true;
        bufs := Ascii("0\r\n\r\n");
      }
      var got;
      got, ok := cn.WritevFull([bufs]);
      if !ok {
        close := true;
      }
    }

    /** Sends what is left to send. The connection is closed when a body of known length fell short. */
    method EndRequest() returns (ok: bool)
      requires Sending()
      modifies this`sentChunk0, this`close, this`story, rc, cn
      ensures ok ==> Sending() && story == old(story).(log := old(story).log + [Finished])
      ensures close == (old(close) || !ok)
      ensures responseLeft <= 0 ==>
        var all := Adds(chunked, SentText(old(story).head), old(story).log, Finished);
        && Took(old(cn.wire), old(cn.room), all, cn.wire, cn.room)
        && (ok <==> cn.wire == old(cn.wire) + all) && (ok <==> |all| <= old(cn.room))
      ensures responseLeft > 0 ==> !ok && Took(old(cn.wire), old(cn.room), old(rc.Text()), cn.wire, cn.room)
    {
      hide Flat, TextOf, SentText, Begun, Zeroed, Wire, Hex, Adds, Ascii, Leads, Took;
      NoText();
      ghost var was, room, late := cn.wire, cn.room, rc.Text();
      ghost var all := Adds(chunked, SentText(story.head), story.log, Finished);
      FinishAdds(chunked, SentText(story.head), story.log);
      WireOneMore(chunked, SentText(story.head), story.log, Finished);
      FlagsOneMore(story.log, Finished);
      ok := false;
      var left := FlushHead();
      if left != 0 {
        TookNoMore(was, room, late, all, cn.wire, cn.room);
        TookLess(was, room, all, cn.wire, cn.room);
        close := true;
        return;
      }
      ghost var mid, rest := cn.wire, cn.room;
      TookWhole(was, room, late, mid, rest);
      if responseLeft > 0 {
        close := true;
        return;
      }
      rc.Clean();
      ok := true;
      if chunked && responseLeft == -1 {
        ghost var last := Flat([if sentChunk0 then Crlf() else Ascii("0\r\n\r\n")]);
        ok := LastChunk();
        TookMore(was, room, late, mid, rest, last, cn.wire, cn.room);
      } else {
        assert late + [] == late;
      }
      if ok {
        TookWhole(was, room, all, cn.wire, cn.room);
      } else {
        TookLess(was, room, all, cn.wire, cn.room);
      }
      story := story.(log := story.log + [Finished]);
    }
  }

  lemma OneLeads(buf: Kbuf)
    requires buf.next == null
    ensures Leads(buf, [buf], null)
  {
  }

  lemma PairLeads(a: Kbuf, b: Kbuf)
    requires a.next == b && b.next == null
    ensures Leads(a, [a, b], null)
  {
  }

  lemma TextBehind(first: Kbuf, body: seq<Kbuf>, len: nat)
    requires len <= |TextOf(body)|
    ensures TextOf([first] + body) == first.data + TextOf(body)
    ensures TextOf([first] + body)[..len + |first.data|] == first.data + TextOf(body)[..len]
  {
    hide Flat;
    assert Datas([first] + body) == [first.data] + Datas(body);
    FlatHead(first.data, Datas(body));
  }

  lemma LeadsBehind(first: Kbuf, buf: Kbuf?, body: seq<Kbuf>)
    requires Leads(buf, body, null) && first.next == buf
    ensures Leads(first, [first] + body, null)
  {
  }

  lemma FlatFour(a: seq<byte>, b: seq<byte>, c: seq<byte>, d: seq<byte>)
    ensures Flat([a, b, c, d]) == a + b + c + d
  {
    FlatHead(a, [b, c, d]);
    FlatHead(b, [c, d]);
    FlatHead(c, [d]);
    FlatOne(d);
    hide Flat;
    assert [a] + [b, c, d] == [a, b, c, d] && [b] + [c, d] == [b, c, d] && [c] + [d] == [c, d];
  }

  lemma ZeroLineIs()
    ensures ZeroLine() == Ascii("0\r\n") && ZeroLine() + Crlf() == Ascii("0\r\n\r\n")
  {
  }

  function Framed(chunked: bool, str: seq<byte>): seq<byte>
  {
    if chunked then Chunk(str) else str
  }

  lemma WriteAdds(chunked: bool, head: seq<byte>, log: seq<Event>, str: seq<byte>)
    ensures Adds(chunked, head, log, Wrote(str)) == (if Begun(log) then [] else head) + Framed(chunked, str)
  {
    hide Begun, Chunk;
  }

  lemma Together(late: seq<byte>, text: seq<byte>, suffix: seq<byte>)
    requires suffix != [] ==> text != []
    ensures WithSuffix(late + text, suffix) == late + (text + suffix)
  {
  }

  /** What a trailer adds, in the pieces handed to the connection. */
  lemma TrailerAdds(chunked: bool, head: seq<byte>, log: seq<Event>, name: seq<byte>, value: seq<byte>)
    ensures var bufs := [name, Ascii(": "), value, Crlf()];
      Adds(chunked, head, log, Trailed(Field(name, value))) ==
        if !chunked then [] else Flat(if Zeroed(log) then bufs else [Ascii("0\r\n")] + bufs)
  {
    hide Flat, Begun, Zeroed, Hex;
    var bufs := [name, Ascii(": "), value, Crlf()];
    FlatFour(name, Ascii(": "), value, Crlf());
    FlatHead(Ascii("0\r\n"), bufs);
    ZeroLineIs();
    hide Ascii;
    assert name + Ascii(": ") + value + Crlf() == [] + Field(name, value) + Crlf();
    assert ZeroLine() + (name + Ascii(": ") + value + Crlf()) == ZeroLine() + Field(name, value) + Crlf();
  }

  lemma FinishAdds(chunked: bool, head: seq<byte>, log: seq<Event>)
    ensures var late := if Begun(log) then [] else head;
      Adds(chunked, head, log, Finished) ==
        late + if !chunked then [] else Flat([if Zeroed(log) then Crlf() else Ascii("0\r\n\r\n")])
  {
    hide Flat, Begun, Zeroed, Hex;
    FlatOne(if Zeroed(log) then Crlf() else Ascii("0\r\n\r\n"));
    ZeroLineIs();
    hide Ascii;
  }

  lemma TextOfOne(buf: Kbuf)
    ensures TextOf([buf]) == buf.data == buf.data[..|buf.data|]
  {
    assert Datas([buf]) == [buf.data];
    FlatOne(buf.data);
  }

  lemma TextOfTwo(a: Kbuf, b: Kbuf)
    ensures TextOf([a, b]) == a.data + b.data == (a.data + b.data)[..|b.data| + |a.data|]
  {
    assert Datas([a, b]) == [a.data] + [b.data];
    FlatHead(a.data, [b.data]);
    FlatOne(b.data);
  }

  lemma TakeBoth(a: seq<byte>, b: seq<byte>, len: nat)
    requires len <= |b|
    ensures (a + b)[..|a| + len] == a + b[..len]
  {
  }

  lemma NoText()
    ensures TextOf([]) == []
  {
  }

  lemma NothingSent(chunked: bool, head: seq<byte>)
    ensures Wire(chunked, head, []) == [] && !Begun([]) && !Zeroed([])
  {
  }

  lemma GivenAppended(head: Gathered, g: Given)
    ensures Cut(head.line) + KeptAll(head.givens + [g]) == Cut(head.line) + KeptAll(head.givens) + Kept(g)
  {
    hide Kept, Cut;
    assert (head.givens + [g])[..|head.givens|] == head.givens;
  }

  lemma SameFront(before: seq<byte>, a: seq<byte>, b: seq<byte>)
    ensures before + a == before + b <==> a == b
  {
    assert before + a == before + b ==> (before + a)[|before|..] == (before + b)[|before|..];
    assert (before + a)[|before|..] == a && (before + b)[|before|..] == b;
  }

  datatype NameValue = NameValue(name: seq<byte>, value: seq<byte>)

  function Lines(pairs: seq<NameValue>): (r: seq<seq<byte>>)
    ensures |r| == |pairs|
  {
    seq(|pairs|, i requires 0 <= i < |pairs| => Field(pairs[i].name, pairs[i].value))
  }

  lemma Grows<T>(s: seq<T>, k: nat)
    ensures s[..0] == [] && s[..|s|] == s
    ensures k < |s| ==> s[..k] + [s[k]] == s[..k + 1]
  {
  }

  /** The head of a response of chunks, all of it gathered and not yet sent. */
  method Head(cn: Connection, line: seq<byte>, headers: seq<Given>) returns (sink: Sink)
    requires line != []
    ensures fresh(sink) && fresh(sink.rc) && sink.cn == cn && (sink.rc.last == null || fresh(sink.rc.last))
    ensures sink.Sending() && sink.chunked && sink.responseLeft == -1
    ensures sink.story == Story(Gathered(line, headers), true, [], cn.wire)
  {
    hide Flat, TextOf, SentText, Begun, Zeroed, Wire, Adds;
    hide Leads, Field, Kept, Cut, KeptAll, Sink.Sending, Sink.Collecting;
    sink := new Sink(cn);
    sink.LastKnown();
    var ok := sink.ResponseStatus(line);
    var k := 0;
    Grows(headers, 0);
    while k < |headers|
      invariant k <= |headers| && sink.Collecting()
      invariant sink.story == Story(Gathered(line, headers[..k]), false, [], old(cn.wire))
      invariant forall b :: b in sink.rc.chain ==> fresh(b)
    {
      Grows(headers, k);
      sink.LastKnown();
      match headers[k] {
        case Spelled(name, value) => sink.ResponseHeader(name, value);
        case Known(name, value) => sink.ResponseKnownHeader(name, value);
      }
      k := k + 1;
    }
    sink.LastKnown();
    sink.Collected();
    var headerLen := sink.StartResponseBody(-1, true);
    sink.LastKnown();
  }

  /** Another event of a response: if it is taken whole all is, and if not the rest does not matter. */
  lemma Onward(was: seq<byte>, room: nat, head: seq<byte>, log: seq<Event>, k: nat, mid: seq<byte>, left: nat,
      now: seq<byte>, rest: nat)
    requires k < |log| && |Wire(true, head, log[..k])| <= room
    requires Took(was, room, Wire(true, head, log[..k]), mid, left)
    requires Took(mid, left, Adds(true, head, log[..k], log[k]), now, rest)
    ensures Took(was, room, Wire(true, head, log[..k + 1]), now, rest)
    ensures |Adds(true, head, log[..k], log[k])| <= left <==> |Wire(true, head, log[..k + 1])| <= room
    ensures |Adds(true, head, log[..k], log[k])| > left ==>
      Took(was, room, Wire(true, head, log), now, rest) && |Wire(true, head, log)| > room
  {
    hide Wire, Adds;
    assert log[..k + 1] == log[..k] + [log[k]];
    WireOneMore(true, head, log[..k], log[k]);
    TookMore(was, room, Wire(true, head, log[..k]), mid, left, Adds(true, head, log[..k], log[k]), now, rest);
    if |Adds(true, head, log[..k], log[k])| > left {
      WirePrefix(true, head, log, k + 1);
      TookNoMore(was, room, Wire(true, head, log[..k + 1]), Wire(true, head, log), now, rest);
    }
  }

  /** The events of a response, one by one. */
  lemma EventAt(datas: seq<seq<byte>>, lines: seq<seq<byte>>, j: nat)
    requires j <= |datas| + |lines|
    ensures var log := Whole(datas, lines);
      && |log| == |datas| + |lines| + 1 && log[..j + 1] == log[..j] + [log[j]] && log[..0] == []
      && log[j] ==
        if j < |datas| then Wrote(datas[j]) else if j < |datas| + |lines| then Trailed(lines[j - |datas|]) else Finished
  {
  }

  /**
   A whole response, every call of it. The connection takes all of it, or as much as there is room for; the
   calls all succeed exactly when it takes all; and then a recipient makes of the octets sent what was meant
   exactly when every segment of the head fits 16 bits.
   */
  method Respond(cn: Connection, line: seq<byte>, headers: seq<Given>, datas: seq<seq<byte>>, trailers: seq<NameValue>)
    returns (ok: bool)
    requires AllLines(Meant(Gathered(line, headers)), Lines(trailers)) && line != [] && line != Hex(0)
    requires NoneEmpty(datas) && (datas != [] || trailers == [])
    modifies cn
    ensures var all := Wire(true, SentText(Gathered(line, headers)), Whole(datas, Lines(trailers)));
      Took(old(cn.wire), old(cn.room), all, cn.wire, cn.room) && (ok <==> |all| <= old(cn.room))
    ensures ok ==> old(cn.wire) <= cn.wire
    ensures ok ==>
      (ReadResponse(cn.wire[|old(cn.wire)|..])
        == Some(Intended(Meant(Gathered(line, headers)), datas, Lines(trailers), []))
       <==> AllFit(Gathered(line, headers)))
  {
    hide Flat, TextOf, SentText, Begun, Zeroed, Wire, Adds, Hex, Leads, Field, ReadResponse, AllLines, NoneEmpty;
    hide Kept, Cut, KeptAll, AllFit, Meant, Sink.Sending, Sink.Collecting, Whole, Writes, Trails, Took;
    ghost var was, room := cn.wire, cn.room;
    var sink := Head(cn, line, headers);
    ghost var lines := Lines(trailers);
    ghost var log, head := Whole(datas, lines), Gathered(line, headers);
    ghost var text := SentText(head);
    EventAt(datas, lines, 0);
    NothingTook(was, room, text);
    var k := 0;
    sink.LastKnown();
    while k < |datas|
      invariant k <= |datas| && sink.Sending() && sink.chunked && sink.responseLeft == -1
      invariant sink.rc.last == null || fresh(sink.rc.last)
      invariant sink.story == Story(head, true, log[..k], was)
      invariant Took(was, room, Wire(true, text, log[..k]), cn.wire, cn.room) && |Wire(true, text, log[..k])| <= room
    {
      ghost var mid, rest := cn.wire, cn.room;
      EventAt(datas, lines, k);
      var left := sink.WriteAll(datas[k]);
      Onward(was, room, text, log, k, mid, rest, cn.wire, cn.room);
      if left > 0 {
        return false;
      }
      sink.LastKnown();
      k := k + 1;
    }
    k := 0;
    while k < |trailers|
      invariant k <= |trailers| && sink.Sending() && sink.chunked && sink.responseLeft == -1
      invariant sink.story == Story(head, true, log[..|datas| + k], was)
      invariant var so := Wire(true, text, log[..|datas| + k]);
        Took(was, room, so, cn.wire, cn.room) && |so| <= room
    {
      ghost var mid, rest := cn.wire, cn.room;
      EventAt(datas, lines, |datas| + k);
      ok := sink.ResponseTrailer(trailers[k].name, trailers[k].value);
      Onward(was, room, text, log, |datas| + k, mid, rest, cn.wire, cn.room);
      if !ok {
        return;
      }
      k := k + 1;
    }
    ghost var mid, rest := cn.wire, cn.room;
    EventAt(datas, lines, |datas| + |lines|);
    ok := sink.EndRequest();
    assert log[..|log|] == log;
    Onward(was, room, text, log, |log| - 1, mid, rest, cn.wire, cn.room);
    if ok {
      TookWhole(was, room, Wire(true, text, log), cn.wire, cn.room);
      WholeReads(head, datas, lines, []);
      assert Wire(true, text, log) + [] == Wire(true, text, log);
    }
  }

  lemma NothingTook(was: seq<byte>, room: nat, head: seq<byte>)
    ensures Wire(true, head, []) == [] && Took(was, room, [], was, room)
  {
    assert was + [] == was;
  }
}
