/** DATA framing of a stream's body (section 6.1 of RFC 7540), with the accounting of its declared length. */
module DataFrames {
  import opened Bytes
  import opened Numbers
  import opened Parts
  import opened WriteQueue

  function Joined(segments: Segments): seq<byte>
  {
    match segments
    case Empty => []
    case Segment(data, next) => data + Joined(next)
  }

  const DATA: nat := 0
  const END_STREAM: nat := 1
  const HEADER_SIZE: nat := 9

  function BigEndian(v: nat): (r: seq<byte>)
    requires v < 0x1_0000_0000
    ensures |r| == 4
  {
    [(v / 0x100_0000) as byte, (v / 0x1_0000 % 0x100) as byte, (v / 0x100 % 0x100) as byte, (v % 0x100) as byte]
  }

  /** The packed record of length and type, flags and stream identifier, in network order. */
  function FrameHeader(length: nat, kind: nat, flags: nat, id: nat): (r: seq<byte>)
    requires length < 0x100_0000 && kind < 0x100 && flags < 0x100 && id < 0x1_0000_0000
    ensures |r| == 9
  {
    BigEndian(length * 0x100 + kind) + [flags as byte] + BigEndian(id)
  }

  datatype Frame = Frame(kind: nat, flags: nat, id: nat, payload: seq<byte>)

  datatype Parsed = NeedMore | Parsed(frame: Frame, size: nat)

  /** The frame layout of section 4.1 of RFC 7540, read off the front of some octets. */
  function ReadFrame(wire: seq<byte>): (r: Parsed)
    ensures r.Parsed? ==> 9 <= r.size <= |wire|
  {
    if |wire| < 9 then NeedMore
    else
      var length := wire[0] as nat * 0x1_0000 + wire[1] as nat * 0x100 + wire[2] as nat;
      var id := (wire[5] as nat % 0x80) * 0x100_0000
        + wire[6] as nat * 0x1_0000 + wire[7] as nat * 0x100 + wire[8] as nat;
      if |wire| < 9 + length then NeedMore
      else Parsed(Frame(wire[3] as nat, wire[4] as nat, id, wire[9..9 + length]), 9 + length)
  }

  function ReadFrames(wire: seq<byte>): seq<Frame>
    decreases |wire|
  {
    match ReadFrame(wire)
    case NeedMore => []
    case Parsed(frame, size) => [frame] + ReadFrames(wire[size..])
  }

  lemma BigEndianReads(v: nat)
    requires v < 0x1_0000_0000
    ensures var r := BigEndian(v);
      r[0] as nat * 0x100_0000 + r[1] as nat * 0x1_0000 + r[2] as nat * 0x100 + r[3] as nat == v
    ensures (BigEndian(v)[0] as nat % 0x80) * 0x100_0000 + v % 0x100_0000 == v % 0x8000_0000
  {
    assert v == v / 0x100 * 0x100 + v % 0x100;
    assert v / 0x100 == v / 0x1_0000 * 0x100 + v / 0x100 % 0x100;
    assert v / 0x1_0000 == v / 0x100_0000 * 0x100 + v / 0x1_0000 % 0x100;
  }

  lemma HeaderReads(length: nat, kind: nat, flags: nat, id: nat, payload: seq<byte>, rest: seq<byte>)
    requires length == |payload| < 0x100_0000 && kind < 0x100 && flags < 0x100 && id < 0x1_0000_0000
    ensures ReadFrame(FrameHeader(length, kind, flags, id) + payload + rest)
            == Parsed(Frame(kind, flags, id % 0x8000_0000, payload), 9 + length)
  {
    BigEndianReads(length * 0x100 + kind);
    BigEndianReads(id);
    var h := FrameHeader(length, kind, flags, id);
    var wire := h + payload + rest;
    assert forall i :: 0 <= i < 9 ==> wire[i] == h[i];
    assert wire[9..9 + length] == payload;
    assert (length * 0x100 + kind) % 0x100 == kind;
  }

  /** A fresh list of buffers, none of them anyone's last, that owe these parts. */
  ghost predicate Built(first: Buffer?, last: Buffer?, nodes: seq<Buffer>, parts: seq<seq<byte>>)
    reads nodes
  {
    && |parts| == |nodes| && Distinct(nodes) && IsList(first, nodes) && AllOwe(nodes, parts, 0)
    && last == (if nodes == [] then null else nodes[|nodes| - 1])
    && forall i :: 0 <= i < |nodes| ==> nodes[i].ctx == null && !nodes[i].nodelay
  }

  method Link(first: Buffer?, last: Buffer?, buf: Buffer, ghost nodes: seq<Buffer>,
      ghost parts: seq<seq<byte>>, ghost part: seq<byte>)
    returns (first': Buffer)
    requires Built(first, last, nodes, parts)
    requires buf !in nodes && buf.next == null && buf.ctx == null && !buf.nodelay && buf.Owes(0, part)
    modifies (if last == null then {} else {last})`next
    ensures Built(first', buf, nodes + [buf], parts + [part])
  {
    if last != null {
      last.next := buf;
      first' := first;
    } else {
      first' := buf;
    }
  }

  lemma NothingBuilt()
    ensures Built(null, null, [], []) && Flat([]) == []
  {
  }

  lemma Taken(all: seq<byte>, total: nat, hot: Segments, used: nat)
    requires total <= |all| && hot.Segment? && Joined(hot) == all[total..] && used <= |hot.data|
    ensures total + used <= |all| && all[..total] + hot.data[..used] == all[..total + used]
    ensures used == |hot.data| ==> Joined(hot.next) == all[total + used..]
  {
    assert all == all[..total] + (hot.data + Joined(hot.next));
  }

  /** Points one buffer after another at the segments, up to `len` octets of the first `bufLen`. */
  method PointAt(segments: Segments, bufLen: nat, len: nat)
    returns (first: Buffer?, last: Buffer?, total: nat, ghost nodes: seq<Buffer>, ghost parts: seq<seq<byte>>)
    requires Min(len, bufLen) <= |Joined(segments)|
    ensures Built(first, last, nodes, parts) && fresh(nodes) && (last != null ==> fresh(last))
    ensures total == Min(len, bufLen) && Flat(parts) == Joined(segments)[..total]
    ensures total > 0 ==> nodes != [] && parts[|parts| - 1] != []
  {
    hide Flat, Built, Distinct;
    var hot, bufLeft, left := segments, bufLen, len;
    first, last, total, nodes, parts := null, null, 0, [], [];
    NothingBuilt();
    while bufLeft > 0
      invariant total + bufLeft == bufLen && total + left == len && bufLeft >= 0 && left >= 0
      invariant Built(first, last, nodes, parts) && fresh(nodes) && (last != null ==> fresh(last))
      invariant total <= |Joined(segments)| && Flat(parts) == Joined(segments)[..total]
      invariant bufLeft > 0 && left > 0 ==> Joined(hot) == Joined(segments)[total..]
      invariant total > 0 && (bufLeft == 0 || left == 0) ==> nodes != [] && parts[|parts| - 1] != []
      decreases bufLeft, hot
    {
      if left <= 0 {
        break;
      }
      assert hot.Segment?;
      var mine := Min(|hot.data|, bufLeft);
      var used := Min(left, mine);
      var buf := new Buffer(hot.data, used, false, 0);
      ghost var part := hot.data[..used];
      first := Link(first, last, buf, nodes, parts, part);
      FlatAppend(parts, part);
      nodes, parts, last := nodes + [buf], parts + [part], buf;
      left, bufLeft := left - used, bufLeft - used;
      Taken(Joined(segments), total, hot, used);
      if used == |hot.data| {
        hot := hot.next;
      }
      total := total + used;
    }
  }

  lemma OneBuilt(buf: Buffer, part: seq<byte>)
    requires buf.Owes(0, part) && buf.next == null && buf.ctx == null && !buf.nodelay
    ensures Built(buf, buf, [buf], [part]) && Flat([part]) == part
  {
  }

  /** Octets in the next frame: a file's length goes through 16 bits. */
  function FrameLength(sendfile: bool, len: nat, bufLen: nat): nat
  {
    if sendfile then Min(len, bufLen) % 0x1_0000 else Min(len, bufLen)
  }

  /** Octets of a body in the next frame, when so many are allowed. */
  function Total(body: Body, allowed: nat): nat
  {
    FrameLength(body.File?, allowed, body.length)
  }

  /** There is something to frame, and it is all there. */
  predicate Offers(body: Body, allowed: nat)
  {
    var total := Total(body, allowed);
    total > 0 && if body.File? then body.offset + total <= |body.content| else total <= |Joined(body.segments)|
  }

  function Payload(body: Body, allowed: nat): (r: seq<byte>)
    requires Offers(body, allowed)
    ensures |r| == Total(body, allowed)
  {
    var total := Total(body, allowed);
    if body.File? then body.content[body.offset..body.offset + total] else Joined(body.segments)[..total]
  }

  /** The frame that brings what is left of a declared length to zero, or below, ends the stream. */
  predicate Ends(contentLeft: int, total: nat)
  {
    0 < contentLeft <= total
  }

  function LeftAfter(contentLeft: int, total: nat): int
  {
    if contentLeft > 0 then contentLeft - total else contentLeft
  }

  lemma LengthIsSmall(sendfile: bool, len: nat, bufLen: nat)
    requires len < 0x100_0000
    ensures FrameLength(sendfile, len, bufLen) < 0x100_0000 && FrameLength(sendfile, len, bufLen) <= len
    ensures FrameLength(false, len, bufLen) == Min(len, bufLen)
  {
  }

  lemma OfferedIs(body: Body, allowed: nat)
    requires allowed < 0x100_0000 && Offers(body, allowed)
    ensures 0 < |Payload(body, allowed)| < 0x100_0000 && |Payload(body, allowed)| <= allowed
  {
    LengthIsSmall(body.File?, allowed, body.length);
  }

  /** One buffer for a piece of a file. */
  method PointAtFile(content: seq<byte>, offset: nat, bufLen: nat, len: nat)
    returns (first: Buffer, last: Buffer, total: nat, ghost nodes: seq<Buffer>, ghost parts: seq<seq<byte>>)
    requires FrameLength(true, len, bufLen) > 0 && offset + FrameLength(true, len, bufLen) <= |content|
    ensures total == FrameLength(true, len, bufLen) && Flat(parts) == content[offset..offset + total]
    ensures Built(first, last, nodes, parts) && fresh(nodes) && fresh(last)
    ensures nodes != [] && parts[|parts| - 1] != []
  {
    total := Min(len, bufLen) % 0x1_0000;
    var newBuf := new Buffer(content, total, true, offset);
    first, last := newBuf, newBuf;
    nodes, parts := [newBuf], [content[offset..offset + total]];
    OneBuilt(newBuf, parts[0]);
  }

  /** A list of buffers that is one DATA frame with this payload; its last buffer reports to `stream`. */
  ghost predicate IsFrame(head: Buffer?, nodes: seq<Buffer>, parts: seq<seq<byte>>, stream: Stream, ends: bool,
      payload: seq<byte>)
    reads nodes
    requires stream.id < 0x1_0000_0000
  {
    && IsList(head, nodes) && Distinct(nodes) && |parts| == |nodes| && AllOwe(nodes, parts, 0)
    && nodes != [] && parts[|parts| - 1] != []
    && |payload| < 0x100_0000
    && Flat(parts) == FrameHeader(|payload|, DATA, if ends then END_STREAM else 0, stream.id) + payload
    && forall i :: 0 <= i < |nodes| ==>
      && nodes[i].ctx == (if i == |nodes| - 1 then stream else null)
      && (nodes[i].nodelay <==> ends && i == |nodes| - 1)
  }

  lemma BuiltLast(first: Buffer?, last: Buffer?, nodes: seq<Buffer>, parts: seq<seq<byte>>)
    requires Built(first, last, nodes, parts) && nodes != []
    ensures last == nodes[|nodes| - 1] && |parts| == |nodes| && Distinct(nodes)
    ensures IsList(first, nodes) && AllOwe(nodes, parts, 0)
    ensures forall i :: 0 <= i < |nodes| ==>
      nodes[i].ctx == null && !nodes[i].nodelay && (i == |nodes| - 1 || nodes[i] != last)
  {
  }

  /** The header's buffer in front of a payload's buffers makes a frame. */
  lemma Framed(head: Buffer, first: Buffer?, nodes: seq<Buffer>, parts: seq<seq<byte>>, stream: Stream,
      ends: bool, payload: seq<byte>)
    requires |nodes| == |parts| && IsList(first, nodes) && Distinct(nodes) && AllOwe(nodes, parts, 0) && head !in nodes
    requires nodes != [] && parts[|parts| - 1] != [] && Flat(parts) == payload && |payload| < 0x100_0000
    requires forall i :: 0 <= i < |nodes| ==>
      && nodes[i].ctx == (if i == |nodes| - 1 then stream else null)
      && (nodes[i].nodelay <==> ends && i == |nodes| - 1)
    requires stream.id < 0x1_0000_0000
    requires head.next == first && head.ctx == null && !head.nodelay
    requires head.Owes(0, FrameHeader(|payload|, DATA, if ends then END_STREAM else 0, stream.id))
    ensures IsFrame(head, [head] + nodes,
        [FrameHeader(|payload|, DATA, if ends then END_STREAM else 0, stream.id)] + parts, stream, ends, payload)
  {
    hide Flat, FrameHeader;
    FlatHead(FrameHeader(|payload|, DATA, if ends then END_STREAM else 0, stream.id), parts);
  }

  /** Charges a frame to the declared length, and has its last buffer report to the stream. */
  method Account(stream: Stream, last: Buffer, total: nat) returns (flags: nat)
    modifies stream`contentLeft, stream`outClosed, stream`len, last`ctx, last`nodelay
    ensures stream.len == total && last.ctx == stream
    ensures var ends := Ends(old(stream.contentLeft), total);
      && stream.contentLeft == LeftAfter(old(stream.contentLeft), total)
      && stream.outClosed == (old(stream.outClosed) || ends)
      && last.nodelay == (old(last.nodelay) || ends)
      && flags == if ends then END_STREAM else 0
  {
    stream.len := total;
    last.ctx := stream;
    flags := 0;
    if stream.contentLeft > 0 {
      stream.contentLeft := stream.contentLeft - total;
      if stream.contentLeft <= 0 {
        flags := END_STREAM;
        stream.outClosed := true;
        last.nodelay := true;
      }
    }
  }

  /** The payload's buffers, of either kind of body. */
  method PointAtBody(body: Body, len: nat)
    returns (first: Buffer, last: Buffer, total: nat, ghost nodes: seq<Buffer>, ghost parts: seq<seq<byte>>)
    requires len < 0x100_0000 && Offers(body, len)
    ensures total == Total(body, len) < 0x100_0000 && Flat(parts) == Payload(body, len)
    ensures Built(first, last, nodes, parts) && fresh(nodes) && fresh(last)
    ensures nodes != [] && parts[|parts| - 1] != []
  {
    hide Flat, Built, Distinct, Joined, FrameLength;
    LengthIsSmall(body.File?, len, body.length);
    if body.File? {
      first, last, total, nodes, parts := PointAtFile(body.content, body.offset, body.length, len);
    } else {
      var bufOut: Buffer?, end: Buffer?;
      bufOut, end, total, nodes, parts := PointAt(body.segments, body.length, len);
      BuiltLast(bufOut, end, nodes, parts);
      first, last := bufOut, end;
    }
  }

  /** Frames as much of the body that waits as `len` allows. */
  method BuildWriteBuffer(stream: Stream, len: nat)
    returns (head: Buffer, total: nat, ghost nodes: seq<Buffer>, ghost parts: seq<seq<byte>>)
    requires stream.id < 0x1_0000_0000 && len < 0x100_0000 && Offers(stream.body, len)
    modifies stream`contentLeft, stream`outClosed, stream`len
    ensures fresh(nodes) && total == Total(stream.body, len) == stream.len
    ensures IsFrame(head, nodes, parts, stream, Ends(old(stream.contentLeft), total), Payload(stream.body, len))
    ensures stream.contentLeft == LeftAfter(old(stream.contentLeft), total)
    ensures stream.outClosed == (old(stream.outClosed) || Ends(old(stream.contentLeft), total))
  {
    hide Flat, Built, Distinct, IsFrame, IsList, AllOwe, FrameHeader, Offers, Payload, Total, LeftAfter, Ends;
    var bufOut: Buffer, last: Buffer;
    bufOut, last, total, nodes, parts := PointAtBody(stream.body, len);
    BuiltLast(bufOut, last, nodes, parts);
    ghost var ends := Ends(stream.contentLeft, total);
    var flags := Account(stream, last, total);
    var data := FrameHeader(total, DATA, flags, stream.id);
    head := new Buffer(data, HEADER_SIZE, false, 0);
    head.next := bufOut;
    Framed(head, bufOut, nodes, parts, stream, ends, Flat(parts));
    nodes, parts := [head] + nodes, [data] + parts;
  }

  lemma FramePushes(head: Buffer?, nodes: seq<Buffer>, parts: seq<seq<byte>>, stream: Stream, ends: bool,
      payload: seq<byte>)
    requires stream.id < 0x1_0000_0000 && IsFrame(head, nodes, parts, stream, ends, payload)
    ensures |parts| == |nodes| && IsList(head, nodes) && Distinct(nodes) && AllOwe(nodes, parts, 0)
    ensures nodes != [] && parts[|parts| - 1] != [] && |payload| < 0x100_0000
    ensures Flat(parts) == FrameHeader(|payload|, DATA, if ends then END_STREAM else 0, stream.id) + payload
    ensures forall i :: 0 <= i < |nodes| ==> nodes[i].ctx == if i == |nodes| - 1 then stream else null
  {
  }

  function OneFrame(contentLeft: int, id: nat, payload: seq<byte>): seq<byte>
    requires |payload| < 0x100_0000 && id < 0x1_0000_0000
  {
    FrameHeader(|payload|, DATA, if Ends(contentLeft, |payload|) then END_STREAM else 0, id) + payload
  }

  /** What is left of a declared length after a run of frames with these payloads. */
  function LeftAfterAll(contentLeft: int, payloads: seq<seq<byte>>): int
  {
    if payloads == [] then contentLeft else LeftAfterAll(LeftAfter(contentLeft, |payloads[0]|), payloads[1..])
  }

  /** The octets of a run of frames. */
  function Wire(contentLeft: int, id: nat, payloads: seq<seq<byte>>): seq<byte>
    requires id < 0x1_0000_0000 && forall p :: p in payloads ==> |p| < 0x100_0000
  {
    if payloads == [] then []
    else OneFrame(contentLeft, id, payloads[0]) + Wire(LeftAfter(contentLeft, |payloads[0]|), id, payloads[1..])
  }

  /** Another frame adds just what `Connection.OnWriteWindowReady` queues, given what is then left. */
  lemma {:induction false} WireExtends(contentLeft: int, id: nat, payloads: seq<seq<byte>>, payload: seq<byte>)
    requires id < 0x1_0000_0000 && |payload| < 0x100_0000 && forall p :: p in payloads ==> |p| < 0x100_0000
    ensures LeftAfterAll(contentLeft, payloads + [payload]) == LeftAfter(LeftAfterAll(contentLeft, payloads), |payload|)
    ensures Wire(contentLeft, id, payloads + [payload])
            == Wire(contentLeft, id, payloads) + OneFrame(LeftAfterAll(contentLeft, payloads), id, payload)
  {
    hide OneFrame;
    var all := payloads + [payload];
    if payloads == [] {
      assert all[1..] == [];
    } else {
      assert all[1..] == payloads[1..] + [payload];
      WireExtends(LeftAfter(contentLeft, |payloads[0]|), id, payloads[1..], payload);
    }
  }

  /** While writers stay within the declared length, what is left and what was framed add up to it. */
  lemma {:induction false} LengthIsConserved(contentLeft: int, payloads: seq<seq<byte>>)
    requires contentLeft >= |Flat(payloads)|
    ensures LeftAfterAll(contentLeft, payloads) + |Flat(payloads)| == contentLeft
  {
    if payloads != [] {
      LengthIsConserved(LeftAfter(contentLeft, |payloads[0]|), payloads[1..]);
    }
  }

  /** The frame that ends a stream of declared length `contentLeft`, if the run gets there. */
  predicate Completes(contentLeft: int, payloads: seq<seq<byte>>, k: nat)
    requires k < |payloads|
  {
    |Flat(payloads[..k])| < contentLeft <= |Flat(payloads[..k + 1])|
  }

  /**
   A reader of frames sees each payload once and in order, and END_STREAM on exactly the frame
   whose payload reaches the declared length; never without one.
   */
  lemma {:induction false} RunReads(contentLeft: int, id: nat, payloads: seq<seq<byte>>)
    requires id < 0x1_0000_0000 && forall p :: p in payloads ==> |p| < 0x100_0000
    ensures ReadFrames(Wire(contentLeft, id, payloads)) == seq(|payloads|, k requires 0 <= k < |payloads| =>
      Frame(DATA, if Completes(contentLeft, payloads, k) then END_STREAM else 0, id % 0x8000_0000, payloads[k]))
    decreases |payloads|
  {
    hide ReadFrame, FrameHeader, Flat;
    if payloads != [] {
      var p, left := payloads[0], LeftAfter(contentLeft, |payloads[0]|);
      var flags := if Ends(contentLeft, |p|) then END_STREAM else 0;
      var rest := Wire(left, id, payloads[1..]);
      HeaderReads(|p|, DATA, flags, id, p, rest);
      RunReads(left, id, payloads[1..]);
      var wire := Wire(contentLeft, id, payloads);
      assert wire == FrameHeader(|p|, DATA, flags, id) + p + rest;
      assert wire[9 + |p|..] == rest;
      forall k | 0 <= k < |payloads|
        ensures Completes(contentLeft, payloads, k)
          <==> if k == 0 then Ends(contentLeft, |p|) else Completes(left, payloads[1..], k - 1)
      {
        CompletesLater(contentLeft, payloads, k);
      }
    }
  }

  lemma CompletesLater(contentLeft: int, payloads: seq<seq<byte>>, k: nat)
    requires k < |payloads|
    ensures Completes(contentLeft, payloads, k) <==>
      if k == 0 then Ends(contentLeft, |payloads[0]|)
      else Completes(LeftAfter(contentLeft, |payloads[0]|), payloads[1..], k - 1)
  {
    hide Flat;
    FlatNone();
    FlatHead(payloads[0], payloads[1..][..k]);
    assert payloads[..k + 1] == [payloads[0]] + payloads[1..][..k];
    if k > 0 {
      FlatHead(payloads[0], payloads[1..][..k - 1]);
      assert payloads[..k] == [payloads[0]] + payloads[1..][..k - 1];
    } else {
      assert payloads[..0] == [] && payloads[1..][..0] == [];
    }
  }

  lemma {:induction false} SomeCompletes(contentLeft: int, payloads: seq<seq<byte>>, n: nat) returns (k: nat)
    requires n <= |payloads| && 0 < contentLeft <= |Flat(payloads[..n])|
    ensures k < n && Completes(contentLeft, payloads, k)
  {
    hide Flat;
    FlatNone();
    assert payloads[..0] == [];
    if contentLeft <= |Flat(payloads[..n - 1])| {
      k := SomeCompletes(contentLeft, payloads, n - 1);
    } else {
      k := n - 1;
    }
  }

  /**
   A stream of declared length ends, in the eyes of a reader of its frames, exactly when the length
   is positive and reached, and then once. With no length, or length zero, no frame ends it.
   */
  lemma EndsAsDeclared(length: int, id: nat, payloads: seq<seq<byte>>)
    requires id < 0x1_0000_0000 && forall p :: p in payloads ==> |p| < 0x100_0000
    ensures var frames := ReadFrames(Wire(Declared(length), id, payloads));
      && ((exists k :: 0 <= k < |frames| && frames[k].flags == END_STREAM) <==> 0 < length <= |Flat(payloads)|)
      && (forall j, k :: 0 <= j < k < |frames| && frames[j].flags == END_STREAM ==> frames[k].flags != END_STREAM)
  {
    hide Flat, Wire, ReadFrames;
    RunReads(Declared(length), id, payloads);
    var frames := ReadFrames(Wire(Declared(length), id, payloads));
    assert payloads[..|payloads|] == payloads;
    if 0 < length <= |Flat(payloads)| {
      var k := SomeCompletes(length, payloads, |payloads|);
      assert frames[k].flags == END_STREAM;
    }
    forall j, k | 0 <= j < k < |frames| && frames[j].flags == END_STREAM
      ensures frames[k].flags != END_STREAM
    {
      Longer(payloads, j + 1, k);
    }
    forall k | 0 <= k < |frames| && frames[k].flags == END_STREAM
      ensures 0 < length <= |Flat(payloads)|
    {
      Longer(payloads, k + 1, |payloads|);
    }
  }

  /** A file's frame carries all that was allowed exactly when that fits 16 bits. */
  lemma FileFrameIsWhole(len: nat, bufLen: nat)
    ensures FrameLength(true, len, bufLen) == Min(len, bufLen) <==> len < 0x1_0000 || bufLen < 0x1_0000
    ensures FrameLength(true, 0x1_0001, 0x2_0000) == 1 && FrameLength(true, 0x1_0000, 0x2_0000) == 0
  {
    var n := Min(len, bufLen);
    assert n == n / 0x1_0000 * 0x1_0000 + n % 0x1_0000;
  }
}
