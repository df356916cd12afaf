/** A connection's output: frames of many streams through one queue, and what their writers are told. */
module Http2Output {
  import opened Bytes
  import opened Numbers
  import opened Parts
  import opened WriteQueue
  import opened DataFrames
  import opened Http2Wire

  /** For each buffer ever queued: the frame it ends, if any, and where in all octets accepted. */
  datatype Mark = Mark(stream: Stream?, payload: seq<byte>, ends: bool, end: nat)

  const BLANK: Mark := Mark(null, [], false, 0)

  function Blanks(n: nat): (r: seq<Mark>)
    ensures |r| == n && forall i :: 0 <= i < n ==> r[i].stream == null
  {
    seq(n, i => BLANK)
  }

  /** One frame more, in one buffer or several. */
  ghost predicate MarkedOnce(before: seq<Mark>, after: seq<Mark>, m: Mark)
  {
    && before <= after && |before| < |after| && after[|after| - 1] == m
    && forall p :: |before| <= p < |after| - 1 ==> after[p].stream == null
  }

  /** The octets of the frame stand in front of its mark. */
  ghost predicate Stands(accepted: seq<byte>, m: Mark)
  {
    m.stream != null ==>
      && m.stream.id < 0x1_0000_0000 && 0 < |m.payload| < 0x100_0000 && 9 + |m.payload| <= m.end <= |accepted|
      && accepted[m.end - 9 - |m.payload|..m.end]
         == FrameHeader(|m.payload|, DATA, if m.ends then END_STREAM else 0, m.stream.id) + m.payload
  }

  ghost predicate AllStand(accepted: seq<byte>, marks: seq<Mark>)
  {
    forall p :: 0 <= p < |marks| ==> Stands(accepted, marks[p])
  }

  /** A frame whose last buffer is handed back is sent. */
  ghost predicate SentEnds(marks: seq<Mark>, returned: nat, sent: nat)
  {
    forall p :: 0 <= p < returned && p < |marks| && marks[p].stream != null ==> marks[p].end <= sent
  }

  /** The `j`-th queued buffer: if it ends a frame it still owes that end. */
  ghost predicate QueuedEnd(marks: seq<Mark>, returned: nat, sent: nat, todo: seq<seq<byte>>, j: nat)
    requires j < |todo| && |marks| == returned + |todo|
  {
    var m := marks[returned + j];
    m.stream != null ==> m.end == sent + |Flat(todo[..j + 1])| && todo[j] != []
  }

  ghost predicate QueuedEnds(marks: seq<Mark>, returned: nat, sent: nat, todo: seq<seq<byte>>)
  {
    && |marks| == returned + |todo|
    && forall j :: 0 <= j < |todo| ==> QueuedEnd(marks, returned, sent, todo, j)
  }

  /** Frames end one behind the other. */
  ghost predicate Rising(marks: seq<Mark>)
  {
    forall p, q :: 0 <= p < q < |marks| && marks[p].stream != null && marks[q].stream != null
      ==> marks[p].end < marks[q].end
  }

  ghost predicate Placed(b: Ledger, marks: seq<Mark>)
  {
    && |marks| == |b.pushed| && |b.todo| == |b.chain| && |b.pushed| == |b.returned| + |b.chain|
    && AllStand(b.accepted, marks) && SentEnds(marks, |b.returned|, |b.sent|)
    && QueuedEnds(marks, |b.returned|, |b.sent|, b.todo) && Rising(marks)
  }

  /** No stream has two frames queued. */
  ghost predicate Single(marks: seq<Mark>, from: nat)
  {
    forall p, q :: from <= p < q < |marks| && marks[p].stream != null ==> marks[p].stream != marks[q].stream
  }

  /** Lengths of the frames of a stream among these, in order. */
  function Sizes(marks: seq<Mark>, s: Stream): seq<int>
  {
    if marks == [] then []
    else
      var m := marks[|marks| - 1];
      Sizes(marks[..|marks| - 1], s) + if m.stream == s then [|m.payload|] else []
  }

  /** Lengths of the frames of a stream whose last octet is among the first `sent`, in order. */
  function SentSizes(marks: seq<Mark>, s: Stream, sent: nat): seq<int>
  {
    if marks == [] then []
    else
      var m := marks[|marks| - 1];
      SentSizes(marks[..|marks| - 1], s, sent) + if m.stream == s && m.end <= sent then [|m.payload|] else []
  }

  lemma {:induction false} SizesAreSent(b: Ledger, marks: seq<Mark>, s: Stream, n: nat)
    requires Placed(b, marks) && n <= |marks|
    ensures SentSizes(marks[..n], s, |b.sent|) == Sizes(marks[..if n < |b.returned| then n else |b.returned|], s)
  {
    hide Stands, Flat;
    if n > 0 {
      SizesAreSent(b, marks, s, n - 1);
      assert marks[..n][..n - 1] == marks[..n - 1];
      if n > |b.returned| {
        LaterIsUnsent(b, marks, n - 1);
      }
    }
  }

  lemma LaterIsUnsent(b: Ledger, marks: seq<Mark>, p: nat)
    requires Placed(b, marks) && |b.returned| <= p < |marks|
    ensures marks[p].stream != null ==> marks[p].end > |b.sent|
  {
    hide Stands, Flat;
    var j := p - |b.returned|;
    assert QueuedEnd(marks, |b.returned|, |b.sent|, b.todo, j);
    OneMore(b.todo, j + 1);
  }

  /** Frames that no stream owns add nothing; one that it owns adds its length. */
  lemma {:induction false} SizesMore(marks: seq<Mark>, from: nat, n: nat, s: Stream)
    requires from <= n <= |marks| && Single(marks, from)
    ensures (forall p :: from <= p < n ==> marks[p].stream != s) ==> Sizes(marks[..n], s) == Sizes(marks[..from], s)
    ensures forall p :: from <= p < n && marks[p].stream == s ==>
      Sizes(marks[..n], s) == Sizes(marks[..from], s) + [|marks[p].payload|]
    decreases n
  {
    if from < n {
      SizesMore(marks, from, n - 1, s);
      assert marks[..n][..n - 1] == marks[..n - 1];
    }
  }

  lemma StandsStill(accepted: seq<byte>, more: seq<byte>, m: Mark)
    requires Stands(accepted, m)
    ensures Stands(accepted + more, m)
  {
    hide FrameHeader;
    if m.stream != null {
      assert (accepted + more)[m.end - 9 - |m.payload|..m.end] == accepted[m.end - 9 - |m.payload|..m.end];
    }
  }

  lemma AllStandMore(accepted: seq<byte>, more: seq<byte>, marks: seq<Mark>, blanks: nat, m: Mark)
    requires AllStand(accepted, marks) && Stands(accepted + more, m)
    ensures AllStand(accepted + more, marks + Blanks(blanks) + [m])
  {
    var marks' := marks + Blanks(blanks) + [m];
    forall p | 0 <= p < |marks'|
      ensures Stands(accepted + more, marks'[p])
    {
      if p < |marks| {
        StandsStill(accepted, more, marks[p]);
      }
    }
  }

  lemma QueuedMore(marks: seq<Mark>, r: nat, sent: nat, todo: seq<seq<byte>>, parts: seq<seq<byte>>, more: seq<Mark>)
    requires QueuedEnds(marks, r, sent, todo) && parts != [] && parts[|parts| - 1] != [] && |more| == |parts|
    requires forall i :: 0 <= i < |more| - 1 ==> more[i].stream == null
    requires more[|more| - 1].end == sent + |Flat(todo)| + |Flat(parts)|
    ensures QueuedEnds(marks + more, r, sent, todo + parts)
  {
    hide Flat, QueuedEnd;
    var marks', todo' := marks + more, todo + parts;
    FlatSplit(todo, parts);
    forall j | 0 <= j < |todo'|
      ensures QueuedEnd(marks', r, sent, todo', j)
    {
      if j < |todo| {
        EndStill(marks, marks', r, sent, todo, todo', j);
      } else {
        assert marks'[r + j] == more[j - |todo|];
        EndNew(marks', r, sent, todo', j);
      }
    }
  }

  lemma EndNew(marks: seq<Mark>, r: nat, sent: nat, todo: seq<seq<byte>>, j: nat)
    requires j < |todo| && |marks| == r + |todo|
    requires marks[r + j].stream != null ==> j == |todo| - 1 && marks[r + j].end == sent + |Flat(todo)| && todo[j] != []
    ensures QueuedEnd(marks, r, sent, todo, j)
  {
    hide Flat;
    assert todo[..|todo|] == todo;
  }

  lemma EndStill(marks: seq<Mark>, marks': seq<Mark>, r: nat, sent: nat, todo: seq<seq<byte>>,
      todo': seq<seq<byte>>, j: nat)
    requires QueuedEnds(marks, r, sent, todo) && j < |todo|
    requires |marks'| == r + |todo'| && todo <= todo' && marks <= marks'
    ensures QueuedEnd(marks', r, sent, todo', j)
  {
    hide Flat;
    assert QueuedEnd(marks, r, sent, todo, j);
    assert todo'[..j + 1] == todo[..j + 1];
  }

  lemma RisingMore(accepted: seq<byte>, marks: seq<Mark>, blanks: nat, m: Mark)
    requires Rising(marks) && AllStand(accepted, marks) && m.end > |accepted|
    ensures Rising(marks + Blanks(blanks) + [m])
  {
    var marks' := marks + Blanks(blanks) + [m];
    forall p, q | 0 <= p < q < |marks'| && marks'[p].stream != null && marks'[q].stream != null
      ensures marks'[p].end < marks'[q].end
    {
      assert p < |marks| && Stands(accepted, marks[p]);
    }
  }

  /** Queueing a list whose last buffer ends a frame, or no frame. */
  lemma PlacedMore(b: Ledger, nodes: seq<Buffer>, parts: seq<seq<byte>>, marks: seq<Mark>, m: Mark)
    requires Balanced(b) && Placed(b, marks)
    requires |nodes| == |parts| > 0 && parts[|parts| - 1] != []
    requires m.end == |b.accepted| + |Flat(parts)| && Stands(b.accepted + Flat(parts), m)
    ensures Placed(EnterAll(b, nodes, parts), marks + Blanks(|nodes| - 1) + [m])
  {
    hide Flat, Distinct, AllStand, SentEnds, QueuedEnds, Rising, Stands;
    LastIsLonger(parts);
    AllStandMore(b.accepted, Flat(parts), marks, |nodes| - 1, m);
    QueuedMore(marks, |b.returned|, |b.sent|, b.todo, parts, Blanks(|nodes| - 1) + [m]);
    RisingMore(b.accepted, marks, |nodes| - 1, m);
    SentStill(marks, Blanks(|nodes| - 1) + [m], |b.returned|, |b.sent|);
    assert marks + (Blanks(|nodes| - 1) + [m]) == marks + Blanks(|nodes| - 1) + [m];
  }

  lemma SentStill(marks: seq<Mark>, more: seq<Mark>, r: nat, sent: nat)
    requires r <= |marks| && SentEnds(marks, r, sent)
    ensures SentEnds(marks + more, r, sent)
  {
  }

  lemma LastIsLonger(parts: seq<seq<byte>>)
    requires parts != [] && parts[|parts| - 1] != []
    ensures Flat(parts) != []
  {
    OneMore(parts, |parts|);
    assert parts[..|parts|] == parts;
  }

  lemma SentPart(marks: seq<Mark>, r: nat, sent: nat, todo: seq<seq<byte>>, k: nat, more: nat)
    requires SentEnds(marks, r, sent) && QueuedEnds(marks, r, sent, todo)
    requires k <= |todo| && more >= sent + |Flat(todo[..k])|
    ensures SentEnds(marks, r + k, more)
  {
    hide Flat;
    forall p | 0 <= p < r + k && marks[p].stream != null
      ensures marks[p].end <= more
    {
      if p >= r {
        assert QueuedEnd(marks, r, sent, todo, p - r);
        Longer(todo, p - r + 1, k);
      }
    }
  }

  lemma QueuedPart(b: Ledger, k: nat, x: nat, marks: seq<Mark>)
    requires Within(b, k, x) && QueuedEnds(marks, |b.returned|, |b.sent|, b.todo)
    ensures QueuedEnds(marks, |b.returned| + k, |Part(b, k, x).sent|, Part(b, k, x).todo)
  {
    hide Flat, Part;
    SameLengths(b, k, x);
    var p, r := Part(b, k, x), |b.returned|;
    var r', sent', todo' := r + k, |p.sent|, p.todo;
    forall j | 0 <= j < |todo'|
      ensures QueuedEnd(marks, r', sent', todo', j)
    {
      assert QueuedEnd(marks, r, |b.sent|, b.todo, k + j);
      TailFlat(b, k, x, j);
    }
  }

  lemma SameLengths(b: Ledger, k: nat, x: nat)
    requires Within(b, k, x)
    ensures var p := Part(b, k, x);
      && |p.todo| == |p.chain| == |b.todo| - k && |p.returned| == |b.returned| + k
      && p.chain == b.chain[k..] && p.pushed == b.pushed && p.accepted == b.accepted
      && |p.sent| >= |b.sent| + |Flat(b.todo[..k])|
  {
    hide Flat;
  }

  /** Sending moves frames from the queue to the buffers handed back, exactly when their end is sent. */
  lemma PlacedPart(b: Ledger, k: nat, x: nat, marks: seq<Mark>)
    requires Placed(b, marks) && Within(b, k, x)
    ensures Placed(Part(b, k, x), marks)
  {
    hide Flat, Distinct, AllStand, SentEnds, QueuedEnds, Rising, Part;
    SameLengths(b, k, x);
    SentPart(marks, |b.returned|, |b.sent|, b.todo, k, |Part(b, k, x).sent|);
    QueuedPart(b, k, x, marks);
  }

  /** A prefix of what is left, and what is gone, make a prefix of what there was. */
  lemma TailFlat(b: Ledger, k: nat, x: nat, j: nat)
    requires Within(b, k, x) && k + j < |b.todo|
    ensures var p := Part(b, k, x);
      && |p.todo| == |b.todo| - k
      && |p.sent| + |Flat(p.todo[..j + 1])| == |b.sent| + |Flat(b.todo[..k + j + 1])|
      && (b.todo[k + j] != [] ==> p.todo[j] != [])
  {
    hide Flat;
    var p, todo := Part(b, k, x), b.todo;
    Remaining(b, k, x);
    FlatHead(todo[k][x..], todo[k + 1..k + j + 1]);
    assert p.todo[..j + 1] == [todo[k][x..]] + todo[k + 1..k + j + 1];
    FlatSplit(todo[..k + 1], todo[k + 1..k + j + 1]);
    assert todo[..k + j + 1] == todo[..k + 1] + todo[k + 1..k + j + 1];
    OneMore(todo, k + 1);
  }

  lemma SingleMore(marks: seq<Mark>, from: nat, blanks: nat, m: Mark)
    requires from <= |marks| && Single(marks, from)
    requires m.stream != null ==> forall p :: from <= p < |marks| ==> marks[p].stream != m.stream
    ensures Single(marks + Blanks(blanks) + [m], from)
  {
    hide Blanks;
  }

  /** Queued buffers report to the streams of their marks, each of which waits for just that frame. */
  ghost predicate Reports(chain: seq<Buffer>, marks: seq<Mark>, returned: nat)
    reads chain`ctx, (set m | m in marks && m.stream != null :: m.stream)`waiting
    reads (set m | m in marks && m.stream != null :: m.stream)`len
  {
    && |marks| == returned + |chain|
    && (forall j :: 0 <= j < |chain| ==> chain[j].ctx == marks[returned + j].stream)
    && (forall p :: returned <= p < |marks| && marks[p].stream != null ==>
          marks[p].stream.waiting && marks[p].stream.len == |marks[p].payload|)
  }

  ghost predicate IsQueued(marks: seq<Mark>, returned: nat, s: Stream)
  {
    exists p :: returned <= p < |marks| && marks[p].stream == s
  }

  /** A writer that waits for its frame has it queued. */
  ghost predicate Owned(streams: set<Stream>, marks: seq<Mark>, returned: nat)
    reads streams`waiting, streams`len
  {
    forall s :: s in streams && s.waiting && s.len >= 0 ==> IsQueued(marks, returned, s)
  }

  /** Which of the marks of `n` buffers belongs to the `i`-th one of a list, in either order. */
  function MarkOf(latestFirst: bool, returned: nat, n: nat, i: nat): nat
    requires i < n
  {
    if latestFirst then returned + n - 1 - i else returned + i
  }

  /** These buffers report to the streams of the marks from `returned` on. */
  ghost predicate Matches(nodes: seq<Buffer>, marks: seq<Mark>, returned: nat, latestFirst: bool)
    reads nodes`ctx
  {
    && returned + |nodes| <= |marks|
    && forall i :: 0 <= i < |nodes| ==> nodes[i].ctx == marks[MarkOf(latestFirst, returned, |nodes|, i)].stream
  }

  class Connection {
    const queue: Queue
    var frameSize: nat
    var sendWindow: int
    var streams: set<Stream>
    ghost var marks: seq<Mark>

    /** Each stream's writers were told the lengths of the frames whose buffers are all handed back. */
    ghost predicate Told()
      reads this`streams, this`marks, queue`book, streams`notices
    {
      && |queue.book.returned| <= |marks|
      && forall s :: s in streams ==> s.notices == Sizes(marks[..|queue.book.returned|], s)
    }

    ghost predicate Known()
      reads this`streams, this`marks
    {
      forall p :: 0 <= p < |marks| && marks[p].stream != null ==> marks[p].stream in streams
    }

    ghost predicate Consistent()
      reads this`frameSize, this`streams, this`marks
      reads queue`header, queue`last, queue`hot, queue`left, queue`book
      reads queue.book.chain`content, queue.book.chain`used, queue.book.chain`sendfile, queue.book.chain`offset
      reads queue.book.chain`next, queue.book.chain`ctx, (if queue.last == null then {} else {queue.last})`next
      reads streams`notices, streams`waiting, streams`len
      reads (set m | m in marks && m.stream != null :: m.stream)`waiting
      reads (set m | m in marks && m.stream != null :: m.stream)`len
    {
      && queue.Valid() && frameSize < 0x100_0000
      && Placed(queue.book, marks) && Single(marks, |queue.book.returned|)
      && Reports(queue.book.chain, marks, |queue.book.returned|) && Known() && Told()
    }

    ghost predicate Valid()
      reads this`frameSize, this`streams, this`marks
      reads queue`header, queue`last, queue`hot, queue`left, queue`book
      reads queue.book.chain`content, queue.book.chain`used, queue.book.chain`sendfile, queue.book.chain`offset
      reads queue.book.chain`next, queue.book.chain`ctx, (if queue.last == null then {} else {queue.last})`next
      reads streams`notices, streams`waiting, streams`len
      reads (set m | m in marks && m.stream != null :: m.stream)`waiting
      reads (set m | m in marks && m.stream != null :: m.stream)`len
    {
      Consistent() && Owned(streams, marks, |queue.book.returned|)
    }

    constructor (frameSize: nat, sendWindow: int)
      requires frameSize < 0x100_0000
      ensures Valid() && fresh(queue) && queue.book == EMPTY && streams == {} && marks == []
      ensures this.frameSize == frameSize && this.sendWindow == sendWindow
    {
      queue := new Queue();
      this.frameSize, this.sendWindow, streams, marks := frameSize, sendWindow, {}, [];
    }

    /** A new stream, with nothing queued and nobody told anything. */
    method Open(id: nat, sendWindow: int) returns (s: Stream)
      requires Valid() && id < 0x1_0000_0000
      modifies this`streams
      ensures Valid() && fresh(s) && streams == old(streams) + {s} && s !in old(streams)
      ensures s.id == id && s.sendWindow == sendWindow && s.contentLeft == 0 && !s.outClosed && !s.started
      ensures !s.waiting && s.notices == []
      ensures forall p :: 0 <= p < |marks| ==> marks[p].stream != s
    {
      hide Placed, Single, Queue.Valid;
      s := new Stream(id, sendWindow);
      NoneOf(marks[..|queue.book.returned|], s);
      streams := streams + {s};
    }

    /** A writer starts to wait for the window. */
    method CreateWriteWaitWindow(s: Stream, body: Body)
      requires Valid() && s in streams && !s.waiting
      modifies s`waiting, s`body, s`len
      ensures Valid() && s.waiting && s.body == body && s.len == -1
    {
      hide Placed, Single, Queue.Valid;
      s.waiting, s.body, s.len := true, body, -1;
    }

    /** A stream that waits for the window has nothing queued. */
    lemma NothingQueued(s: Stream)
      requires Consistent() && !(s.waiting && s.len >= 0)
      ensures |marks| == |queue.book.pushed| && |queue.book.returned| <= |marks|
      ensures forall p :: |queue.book.returned| <= p < |marks| ==> marks[p].stream != s
    {
      hide Queue.Valid, Single, Told;
    }

    /** Queues a list whose last buffer is the end of `m`'s frame, or of no frame. */
    method Queued(head: Buffer, ghost nodes: seq<Buffer>, ghost parts: seq<seq<byte>>, ghost m: Mark)
      requires Consistent() && (m.stream != null ==> m.stream in streams)
      requires IsList(head, nodes) && Distinct(nodes) && forall b :: b in nodes ==> b !in queue.book.pushed
      requires |parts| == |nodes| > 0 && AllOwe(nodes, parts, 0) && parts[|parts| - 1] != []
      requires forall i :: 0 <= i < |nodes| ==> nodes[i].ctx == if i == |nodes| - 1 then m.stream else null
      requires m.end == |queue.book.accepted| + |Flat(parts)| && Stands(queue.book.accepted + Flat(parts), m)
      requires m.stream != null ==> m.stream.waiting && m.stream.len == |m.payload|
      requires m.stream != null ==> forall p :: |queue.book.returned| <= p < |marks| ==> marks[p].stream != m.stream
      modifies this`marks, queue`left, queue`header, queue`last, queue`hot, queue`book
      modifies nodes`next, (if queue.last == null then {} else {queue.last})`next
      ensures Consistent() && queue.book == EnterAll(old(queue.book), nodes, parts)
      ensures marks == old(marks) + Blanks(|nodes| - 1) + [m]
    {
      hide Queue.Valid, Placed, Single, Reports, Flat, Balanced, Stands, AllOwe, Blanks;
      QueueBalanced(queue);
      PlacedMore(queue.book, nodes, parts, marks, m);
      PlacedLengths(queue.book, marks);
      SingleMore(marks, |queue.book.returned|, |nodes| - 1, m);
      ReportsMore(queue.book.chain, nodes, marks, m, |queue.book.returned|);
      queue.Push(head, nodes, parts);
      marks := marks + Blanks(|nodes| - 1) + [m];
      assert marks[..|queue.book.returned|] == old(marks)[..|queue.book.returned|];
    }

    /** A frame that no writer waits for, in one buffer. */
    method PushFrame(f: Frame)
      requires Valid() && Sound(f)
      modifies this`marks, queue`left, queue`header, queue`last, queue`hot, queue`book, queue.book.chain`next
      ensures Valid() && queue.Pending() == old(queue.Pending()) + FrameOctets(f)
      ensures queue.book.accepted == old(queue.book).accepted + FrameOctets(f)
      ensures queue.book.sent == old(queue.book).sent
      ensures MarkedOnce(old(marks), marks, Mark(null, [], false, |queue.book.accepted|))
      ensures forall b :: b in queue.book.chain ==> b in old(queue.book).chain || fresh(b)
    {
      hide Queue.Valid, Flat, Stands, Balanced, Placed, Single, IsQueued, FrameOctets;
      QueueOf();
      var octets := FrameOctets(f);
      var buf := new Buffer(octets, |octets|, false, 0);
      assert octets[0..] == octets;
      ghost var m := Mark(null, [], false, |queue.book.accepted| + |octets|);
      FlatOne(octets);
      Unmarked(queue.book.accepted + Flat([octets]), m);
      FlatSplit(queue.book.todo, [octets]);
      QueuedStill(marks, 0, m, |queue.book.returned|);
      Queued(buf, [buf], [octets], m);
      assert Blanks(0) == [];
    }

    /** Sends a stream's head and sets the length of its body; without a body this also ends it. */
    method StartResponse(s: Stream, length: int, block: seq<byte>)
      requires Valid() && s in streams && !s.started && s.id < 0x8000_0000 && |block| < 0x100_0000
      modifies this`marks, queue`left, queue`header, queue`last, queue`hot, queue`book, queue.book.chain`next
      modifies s`contentLeft, s`outClosed, s`started
      ensures Valid() && s.started && s.contentLeft == Declared(length)
      ensures s.outClosed == (old(s.outClosed) || Declared(length) == 0)
      ensures var f := HeadFrame(s.id, block, Declared(length));
        && queue.book.accepted == old(queue.book).accepted + FrameOctets(f) && queue.book.sent == old(queue.book).sent
        && queue.Pending() == old(queue.Pending()) + FrameOctets(f)
      ensures MarkedOnce(old(marks), marks, Mark(null, [], false, |queue.book.accepted|))
      ensures forall b :: b in queue.book.chain ==> b in old(queue.book).chain || fresh(b)
    {
      hide Queue.Valid, Placed, Single, FrameOctets, MarkedOnce, Queue.Pending, IsQueued;
      s.SetContentLength(length);
      PushFrame(HeadFrame(s.id, block, s.contentLeft));
      if s.contentLeft == 0 {
        s.outClosed := true;
      }
      s.started := true;
    }

    /** Ends a body whose length was not declared. */
    method WriteEnd(s: Stream)
      requires Valid() && s in streams && s.id < 0x8000_0000 && (!s.outClosed ==> s.contentLeft == -1)
      modifies this`marks, queue`left, queue`header, queue`last, queue`hot, queue`book, queue.book.chain`next
      modifies s`outClosed
      ensures Valid() && s.outClosed
      ensures old(s.outClosed) ==> queue.book == old(queue.book) && marks == old(marks)
      ensures !old(s.outClosed) ==>
        && queue.book.accepted == old(queue.book).accepted + FrameOctets(EndFrame(s.id))
        && queue.book.sent == old(queue.book).sent
        && queue.Pending() == old(queue.Pending()) + FrameOctets(EndFrame(s.id))
        && MarkedOnce(old(marks), marks, Mark(null, [], false, |queue.book.accepted|))
      ensures forall b :: b in queue.book.chain ==> b in old(queue.book).chain || fresh(b)
    {
      hide Queue.Valid, Placed, Single, FrameOctets, MarkedOnce, Queue.Pending, IsQueued;
      if s.outClosed {
        return;
      }
      PushFrame(EndFrame(s.id));
      s.outClosed := true;
    }

    lemma ChainKnown()
      requires Consistent()
      ensures Balanced(queue.book) && Distinct(queue.book.chain)
      ensures |marks| == |queue.book.pushed| == |queue.book.returned| + |queue.book.chain|
    {
      hide Flat, Distinct, AllStand, SentEnds, QueuedEnds, Rising, Single, Reports;
      ChainDistinct(queue.book);
    }

    lemma NoneLeft()
      requires Consistent()
      ensures queue.left >= 0
      ensures queue.left == 0 ==> queue.header == null && IsList(null, queue.book.chain)
    {
      hide Flat, Distinct, Placed, Reports, Single, Known, Told;
      queue.EndKnown();
      if queue.book.todo != [] {
        LastIsLonger(queue.book.todo);
      }
    }

    lemma LeftIsPending()
      requires Valid()
      ensures queue.book.accepted == queue.book.sent + queue.Pending()
      ensures queue.left == |queue.book.accepted| - |queue.book.sent|
    {
      hide Flat, Distinct, Placed, Reports, Single, Known, Told, Owned;
    }

    lemma QueueOf()
      requires Consistent()
      ensures queue.Valid() && frameSize < 0x100_0000
      ensures |queue.book.returned| <= |marks|
      ensures queue.last != null ==> queue.last in queue.book.pushed && queue.last in queue.book.chain
    {
      hide Flat, Placed, Single, Reports;
      queue.LastKnown();
    }

    /**
     Frames and queues what both windows and the frame size allow, and charges it to the windows.
     The stream must be waiting for the window; with a frame queued it then waits for that frame.
     */
    method OnWriteWindowReady(s: Stream) returns (len: int)
      requires Valid() && s in streams && s.waiting && s.len < 0 && s.id < 0x1_0000_0000
      requires var allowed := Min(Min(frameSize, s.sendWindow), sendWindow); allowed > 0 ==> Offers(s.body, allowed)
      modifies this`marks, this`sendWindow, s`sendWindow, s`contentLeft, s`outClosed, s`len
      modifies queue`left, queue`header, queue`last, queue`hot, queue`book, queue.book.chain`next
      ensures Valid() && s.waiting
      ensures forall b :: b in queue.book.chain ==> b in old(queue.book).chain || fresh(b)
      ensures var allowed := Min(Min(frameSize, old(s.sendWindow)), old(sendWindow));
        if allowed <= 0 then
          && len == allowed && s.len == old(s.len) && queue.book == old(queue.book) && marks == old(marks)
          && sendWindow == old(sendWindow) && s.sendWindow == old(s.sendWindow)
          && s.contentLeft == old(s.contentLeft) && s.outClosed == old(s.outClosed)
        else
          var payload := Payload(s.body, allowed);
          && len == |payload| == s.len && |payload| < 0x100_0000
          && sendWindow == old(sendWindow) - len >= 0 && s.sendWindow == old(s.sendWindow) - len >= 0
          && s.contentLeft == LeftAfter(old(s.contentLeft), len)
          && s.outClosed == (old(s.outClosed) || Ends(old(s.contentLeft), len))
          && queue.book.accepted == old(queue.book).accepted + OneFrame(old(s.contentLeft), s.id, payload)
          && queue.Pending() == old(queue.Pending()) + OneFrame(old(s.contentLeft), s.id, payload)
          && queue.book.sent == old(queue.book).sent
          && MarkedOnce(old(marks), marks, Mark(s, payload, Ends(old(s.contentLeft), len), |queue.book.accepted|))
    {
      hide Flat, IsFrame, FrameHeader, Queue.Valid, LeftAfter, Connection.Consistent, Stands, Reports, IsQueued;
      hide MarkedOnce, Offers, Payload, Total, Queue.Pending;
      QueueOf();
      NothingQueued(s);
      var allowed := Min(frameSize, s.sendWindow);
      allowed := Min(allowed, sendWindow);
      if allowed <= 0 {
        return allowed;
      }
      OfferedIs(s.body, allowed);
      ghost var left := s.contentLeft;
      var head: Buffer;
      ghost var nodes, parts;
      head, len, nodes, parts := Build(s, allowed);
      s.sendWindow := s.sendWindow - len;
      sendWindow := sendWindow - len;
      SendFrame(s, head, nodes, parts, Ends(left, len), Payload(s.body, allowed));
    }

    /** Queues a frame that its stream waits for. */
    method SendFrame(s: Stream, head: Buffer, ghost nodes: seq<Buffer>, ghost parts: seq<seq<byte>>, ghost ends: bool,
        ghost payload: seq<byte>)
      requires Consistent() && s in streams && s.waiting && s.len == |payload| > 0 && s.id < 0x1_0000_0000
      requires IsFrame(head, nodes, parts, s, ends, payload) && forall b :: b in nodes ==> b !in queue.book.pushed
      requires forall p :: |queue.book.returned| <= p < |marks| ==> marks[p].stream != s
      modifies this`marks, queue`left, queue`header, queue`last, queue`hot, queue`book
      modifies nodes`next, (if queue.last == null then {} else {queue.last})`next
      ensures Consistent() && |payload| < 0x100_0000
      ensures queue.Pending() == old(queue.Pending())
        + (FrameHeader(|payload|, DATA, if ends then END_STREAM else 0, s.id) + payload)
      ensures queue.book.accepted == old(queue.book).accepted
        + (FrameHeader(|payload|, DATA, if ends then END_STREAM else 0, s.id) + payload)
      ensures MarkedOnce(old(marks), marks, Mark(s, payload, ends, |queue.book.accepted|))
      ensures queue.book.returned == old(queue.book).returned && queue.book.sent == old(queue.book).sent
      ensures forall b :: b in queue.book.chain ==> b in old(queue.book).chain || b in nodes
      ensures forall t :: t in streams && (IsQueued(old(marks), |queue.book.returned|, t) || t == s) ==>
        IsQueued(marks, |queue.book.returned|, t)
    {
      hide Flat, IsFrame, FrameHeader, Queue.Valid, Connection.Consistent, Stands, IsQueued;
      QueueOf();
      FramePushes(head, nodes, parts, s, ends, payload);
      ghost var m := Mark(s, payload, ends, |queue.book.accepted| + |Flat(parts)|);
      NewStands(queue.book.accepted, Flat(parts), m);
      QueuedStill(marks, |nodes| - 1, m, |queue.book.returned|);
      FlatSplit(queue.book.todo, parts);
      Queued(head, nodes, parts, m);
    }

    /** Builds the frame; nothing that is queued notices. */
    method Build(s: Stream, allowed: nat)
      returns (head: Buffer, len: nat, ghost nodes: seq<Buffer>, ghost parts: seq<seq<byte>>)
      requires Consistent() && s in streams && s.waiting && s.len < 0 && s.id < 0x1_0000_0000
      requires allowed < 0x100_0000 && Offers(s.body, allowed)
      modifies s`contentLeft, s`outClosed, s`len
      ensures Consistent() && fresh(nodes) && len == |Payload(s.body, allowed)| == s.len
      ensures IsFrame(head, nodes, parts, s, Ends(old(s.contentLeft), len), Payload(s.body, allowed))
      ensures s.contentLeft == LeftAfter(old(s.contentLeft), len)
      ensures s.outClosed == (old(s.outClosed) || Ends(old(s.contentLeft), len))
    {
      hide Flat, IsFrame, FrameHeader, Queue.Valid, LeftAfter, Placed, Single, Offers, Total;
      head, len, nodes, parts := BuildWriteBuffer(s, allowed);
    }

    /** A writer waits for a frame exactly while some frame of its stream is not all sent. */
    lemma WaitsForFrame(s: Stream)
      requires Valid() && s in streams
      ensures s.waiting && s.len >= 0
        <==> SentSizes(marks, s, |queue.book.sent|) != SentSizes(marks, s, |queue.book.accepted|)
    {
      hide Queue.Valid, AllStand, SentEnds, QueuedEnds, Rising, Single, Sizes, SentSizes, Balanced, Told, Known;
      ChainKnown();
      ghost var r, n, b := |queue.book.returned|, |marks|, queue.book;
      SizesAreSent(b, marks, s, n);
      assert marks[..n] == marks;
      EndsAreAccepted(b, marks);
      AllSent(marks, s, |b.accepted|);
      SizesMore(marks, r, n, s);
    }

    /** Lets go of `n` buffers: tells the streams of their marks, and nobody else. */
    method Release(list: Buffer?, fin: bool, ghost nodes: seq<Buffer>, ghost r: nat, ghost latestFirst: bool)
      requires IsList(list, nodes) && Distinct(nodes) && Matches(nodes, marks, r, latestFirst)
      requires Single(marks, r) && Known()
      requires forall p :: r <= p < r + |nodes| && marks[p].stream != null ==> marks[p].stream.waiting
      modifies nodes`ctx, streams`waiting, streams`notices
      ensures forall p :: r <= p < r + |nodes| && marks[p].stream != null ==> var s := marks[p].stream;
        !s.waiting && s.notices == old(s.notices) + [if fin then -1 else s.len]
      ensures forall s :: s in streams && (forall p :: r <= p < r + |nodes| ==> marks[p].stream != s) ==>
        s.notices == old(s.notices) && s.waiting == old(s.waiting)
    {
      ArmedBy(nodes, streams, marks, r, latestFirst);
      hide Single;
      RemoveBuff(list, fin, nodes, streams);
      forall p | r <= p < r + |nodes| && marks[p].stream != null
        ensures var s := marks[p].stream; !s.waiting && s.notices == old(s.notices) + [if fin then -1 else s.len]
      {
        var i := if latestFirst then r + |nodes| - 1 - p else p - r;
        assert old(nodes[i].ctx) == marks[MarkOf(latestFirst, r, |nodes|, i)].stream;
      }
      forall s | s in streams && forall p :: r <= p < r + |nodes| ==> marks[p].stream != s
        ensures s.notices == old(s.notices) && s.waiting == old(s.waiting)
      {
        forall i | 0 <= i < |nodes|
          ensures old(nodes[i].ctx) != s
        {
          assert old(nodes[i].ctx) == marks[MarkOf(latestFirst, r, |nodes|, i)].stream;
        }
      }
    }

    /** `got` octets were sent: the writers whose frames this completed are told, each the length of its own. */
    method Sent(got: nat)
      requires Valid() && got <= queue.left
      modifies queue, queue.book.chain`used, queue.book.chain`offset, queue.book.chain`next, queue.book.chain`ctx
      modifies streams`waiting, streams`notices
      ensures Valid() && marks == old(marks) && streams == old(streams)
      ensures queue.Pending() == old(queue.Pending())[got..]
      ensures queue.book.sent == old(queue.book).sent + old(queue.Pending())[..got]
      ensures queue.book.accepted == old(queue.book).accepted
      ensures forall b :: b in queue.book.chain ==> b in old(queue.book).chain
      ensures forall s :: s in streams ==> (s.waiting ==> old(s.waiting)) && (s.len < 0 ==> s.waiting == old(s.waiting))
    {
      hide Queue.Valid, Placed, Flat, Distinct, Within, Part, Gone, IsList, Single, IsQueued, Reports, Owned;
      hide Reversed, WantsUncork, Queue.Pending, Sizes, Balanced;
      ghost var b, r := queue.book, |queue.book.returned|;
      ChainKnown();
      var removed: Buffer?;
      ghost var k, x;
      removed, k, x := queue.ReadSuccess(got);
      SameLengths(b, k, x);
      PlacedPart(b, k, x, marks);
      assert Placed(queue.book, marks);
      Tell(removed, b.chain, r, k);
      assert queue.Valid();
    }

    /** Lets go of the first `k` buffers of a chain, which come latest first. */
    method Tell(removed: Buffer?, ghost chain: seq<Buffer>, ghost r: nat, ghost k: nat)
      requires k <= |chain| && IsList(removed, Reversed(chain[..k])) && Distinct(chain)
      requires Reports(chain, marks, r) && Single(marks, r) && Known() && Owned(streams, marks, r)
      requires forall s :: s in streams ==> s.notices == Sizes(marks[..r], s)
      modifies chain`ctx, streams`waiting, streams`notices
      ensures Reports(chain[k..], marks, r + k) && Single(marks, r + k) && Owned(streams, marks, r + k)
      ensures forall s :: s in streams ==> s.notices == Sizes(marks[..r + k], s)
      ensures forall s :: s in streams ==> (s.waiting ==> old(s.waiting)) && (s.len < 0 ==> s.waiting == old(s.waiting))
    {
      hide Distinct, IsList, Single, IsQueued, Matches, Reversed, Sizes;
      ReversedDistinct(chain, k);
      MatchesFront(chain, marks, r, k);
      SingleLater(marks, r, r + k);
      Release(removed, false, Reversed(chain[..k]), r, true);
      forall s | s in streams
        ensures s.notices == Sizes(marks[..r + k], s) && (s.waiting && s.len >= 0 ==> IsQueued(marks, r + k, s))
      {
        Retold(marks, r, r + k, s, old(s.notices), old(s.waiting));
      }
    }

    /**
     While the invariant holds, which every call keeps: a stream's writers were told the lengths of just
     those of its frames whose last octet is sent, in the order of their ends; each frame stands in the
     accepted octets where its mark says, and what is sent is a prefix of these.
     */
    lemma NoticesAreSent(s: Stream)
      requires Valid() && s in streams
      ensures s.notices == SentSizes(marks, s, |queue.book.sent|)
      ensures Rising(marks) && AllStand(queue.book.accepted, marks) && queue.book.sent <= queue.book.accepted
    {
      hide Flat, Distinct, AllStand, Rising, Single, Reports, Owned, Known;
      ChainKnown();
      SizesAreSent(queue.book, marks, s, |marks|);
      assert marks[..|marks|] == marks;
    }

    lemma AllTold()
      requires Valid()
      ensures forall s :: s in streams ==> s.notices == SentSizes(marks, s, |queue.book.sent|)
    {
      hide Connection.Consistent, Owned;
      forall s | s in streams
        ensures s.notices == SentSizes(marks, s, |queue.book.sent|)
      {
        NoticesAreSent(s);
      }
    }

    /** Tells the writers that wait for the window that there will be no more of it. */
    method CancelWaits()
      modifies streams`waiting, streams`notices, streams`outClosed
      ensures forall s :: s in streams ==> s.outClosed && if old(s.waiting) && s.len < 0
        then !s.waiting && s.notices == old(s.notices) + [-1]
        else s.waiting == old(s.waiting) && s.notices == old(s.notices)
    {
      var rest := streams;
      while rest != {}
        invariant rest <= streams
        invariant forall s :: s in rest ==> s.waiting == old(s.waiting) && s.notices == old(s.notices)
        invariant forall s :: s in streams && s !in rest ==> s.outClosed && if old(s.waiting) && s.len < 0
          then !s.waiting && s.notices == old(s.notices) + [-1]
          else s.waiting == old(s.waiting) && s.notices == old(s.notices)
      {
        var s :| s in rest;
        s.outClosed := true;
        if s.waiting && !(s.len >= 0) {
          s.waiting := false;
          s.notices := s.notices + [-1];
        }
        rest := rest - {s};
      }
    }

    /** Gives the output up: every writer that still waits is told -1, once, and nobody else is told anything. */
    method Close()
      requires Valid()
      modifies queue`left, queue`header, queue`last, queue`hot, queue`book, queue.book.chain`ctx
      modifies streams`waiting, streams`notices, streams`outClosed
      ensures queue.Valid() && queue.left == 0 && queue.header == null
      ensures forall s :: s in streams ==>
        && !s.waiting && s.outClosed
        && s.notices == SentSizes(old(marks), s, |old(queue.book).sent|) + if old(s.waiting) then [-1] else []
    {
      hide Queue.Valid, Placed, Distinct, Single, IsList, Reports, Matches, Known, Sizes, SentSizes, Balanced;
      ghost var chain, r := queue.book.chain, |queue.book.returned|;
      ChainKnown();
      ChainMatches(chain, marks, r);
      AllTold();
      NoneLeft();
      var buf: Buffer? := null;
      if queue.left > 0 {
        buf := queue.Clean();
      }
      CancelWaits();
      Release(buf, true, chain, r, false);
    }

    /** The outcome of one write: octets sent, or with none of them the end of the output. */
    method OnWriteResult(got: int) returns (open: bool)
      requires Valid() && got <= queue.left
      modifies queue, queue.book.chain`used, queue.book.chain`offset, queue.book.chain`next, queue.book.chain`ctx
      modifies streams`waiting, streams`notices, streams`outClosed
      ensures open <==> got > 0
      ensures open ==>
        && Valid() && marks == old(marks) && streams == old(streams)
        && queue.book.accepted == old(queue.book).accepted
        && queue.book.sent == old(queue.book).sent + old(queue.Pending())[..got]
        && queue.Pending() == old(queue.Pending())[got..]
        && (forall s :: s in streams ==> s.notices == SentSizes(marks, s, |queue.book.sent|))
        && (forall s :: s in streams ==> (s.waiting ==> old(s.waiting)) && (s.len < 0 ==> s.waiting == old(s.waiting)))
        && (forall s :: s in streams ==> s.outClosed == old(s.outClosed))
        && (forall b :: b in queue.book.chain ==> b in old(queue.book).chain)
      ensures !open ==> queue.left == 0 && forall s :: s in streams ==>
        && !s.waiting
        && s.notices == SentSizes(old(marks), s, |old(queue.book).sent|) + if old(s.waiting) then [-1] else []
    {
      hide *;
      if got <= 0 {
        Close();
        return false;
      }
      Sent(got);
      AllTold();
      return true;
    }
  }

  /** A frame just accepted stands at the end. */
  lemma NewStands(accepted: seq<byte>, octets: seq<byte>, m: Mark)
    requires m.stream != null && m.stream.id < 0x1_0000_0000 && 0 < |m.payload| < 0x100_0000
    requires octets == FrameHeader(|m.payload|, DATA, if m.ends then END_STREAM else 0, m.stream.id) + m.payload
    requires m.end == |accepted| + |octets|
    ensures Stands(accepted + octets, m)
  {
    hide FrameHeader;
    assert (accepted + octets)[|accepted|..] == octets;
  }

  lemma Unmarked(accepted: seq<byte>, m: Mark)
    requires m.stream == null
    ensures Stands(accepted, m)
  {
  }

  lemma ReportsMore(chain: seq<Buffer>, nodes: seq<Buffer>, marks: seq<Mark>, m: Mark, returned: nat)
    requires Reports(chain, marks, returned) && nodes != []
    requires forall i :: 0 <= i < |nodes| ==> nodes[i].ctx == if i == |nodes| - 1 then m.stream else null
    requires m.stream != null ==> m.stream.waiting && m.stream.len == |m.payload|
    ensures Reports(chain + nodes, marks + Blanks(|nodes| - 1) + [m], returned)
  {
    hide Blanks;
    var all, marks' := chain + nodes, marks + Blanks(|nodes| - 1) + [m];
    forall j | 0 <= j < |all|
      ensures all[j].ctx == marks'[returned + j].stream
    {
      if j < |chain| {
        assert all[j] == chain[j] && marks'[returned + j] == marks[returned + j];
      } else {
        var i := j - |chain|;
        assert all[j] == nodes[i];
        assert marks'[returned + j] == if i < |nodes| - 1 then Blanks(|nodes| - 1)[i] else m;
      }
    }
  }

  lemma QueuedStill(marks: seq<Mark>, blanks: nat, m: Mark, returned: nat)
    requires returned <= |marks|
    ensures forall s: Stream :: IsQueued(marks, returned, s) || s == m.stream ==>
      IsQueued(marks + Blanks(blanks) + [m], returned, s)
  {
    var marks' := marks + Blanks(blanks) + [m];
    assert marks'[|marks'| - 1] == m;
    forall s: Stream | IsQueued(marks, returned, s)
      ensures IsQueued(marks', returned, s)
    {
      var p :| returned <= p < |marks| && marks[p].stream == s;
      assert marks'[p] == marks[p];
    }
  }

  lemma ArmedBy(nodes: seq<Buffer>, streams: set<Stream>, marks: seq<Mark>, r: nat, latestFirst: bool)
    requires Matches(nodes, marks, r, latestFirst) && Single(marks, r)
    requires forall p :: 0 <= p < |marks| && marks[p].stream != null ==> marks[p].stream in streams
    requires forall p :: r <= p < r + |nodes| && marks[p].stream != null ==> marks[p].stream.waiting
    ensures Armed(nodes, streams)
  {
    forall i, j | 0 <= i < j < |nodes| && nodes[i].ctx != null
      ensures nodes[i].ctx != nodes[j].ctx
    {
      var p, q := MarkOf(latestFirst, r, |nodes|, i), MarkOf(latestFirst, r, |nodes|, j);
      assert marks[p].stream == nodes[i].ctx && marks[q].stream == nodes[j].ctx;
    }
  }

  lemma ReversedDistinct(chain: seq<Buffer>, k: nat)
    requires Distinct(chain) && k <= |chain|
    ensures Distinct(Reversed(chain[..k]))
    ensures forall j :: k <= j < |chain| ==> chain[j] !in Reversed(chain[..k])
    ensures |Reversed(chain[..k])| == k && forall i :: 0 <= i < k ==> Reversed(chain[..k])[i] in chain
  {
  }

  lemma ChainMatches(chain: seq<Buffer>, marks: seq<Mark>, r: nat)
    requires Reports(chain, marks, r)
    ensures Matches(chain, marks, r, false)
    ensures forall p :: r <= p < r + |chain| && marks[p].stream != null ==>
      marks[p].stream.waiting && marks[p].stream.len >= 0
  {
  }

  lemma MatchesFront(chain: seq<Buffer>, marks: seq<Mark>, r: nat, k: nat)
    requires Reports(chain, marks, r) && k <= |chain|
    ensures Matches(Reversed(chain[..k]), marks, r, true)
  {
    var nodes := Reversed(chain[..k]);
    forall i | 0 <= i < |nodes|
      ensures nodes[i].ctx == marks[MarkOf(true, r, |nodes|, i)].stream
    {
      assert nodes[i] == chain[k - 1 - i];
    }
  }

  lemma SingleLater(marks: seq<Mark>, r: nat, n: nat)
    requires Single(marks, r) && r <= n <= |marks|
    ensures Single(marks, n)
    ensures forall p, q :: r <= p < n <= q < |marks| && marks[p].stream != null ==> marks[p].stream != marks[q].stream
  {
  }

  /** What a stream was told, together with what it is told next. */
  lemma Retold(marks: seq<Mark>, r: nat, n: nat, s: Stream, notices: seq<int>, waiting: bool)
    requires r <= n <= |marks| && Single(marks, r) && notices == Sizes(marks[..r], s)
    requires waiting && s.len >= 0 ==> IsQueued(marks, r, s)
    requires forall p :: r <= p < n && marks[p].stream == s ==>
      !s.waiting && s.notices == notices + [s.len] && s.len == |marks[p].payload|
    requires (forall p :: r <= p < n ==> marks[p].stream != s) ==> s.notices == notices && s.waiting == waiting
    ensures s.notices == Sizes(marks[..n], s)
    ensures s.waiting && s.len >= 0 ==> IsQueued(marks, n, s)
  {
    hide Single;
    SizesMore(marks, r, n, s);
  }

  lemma EndsAreAccepted(b: Ledger, marks: seq<Mark>)
    requires Placed(b, marks)
    ensures forall p :: 0 <= p < |marks| && marks[p].stream != null ==> marks[p].end <= |b.accepted|
  {
    hide SentEnds, QueuedEnds, Rising;
    forall p | 0 <= p < |marks| && marks[p].stream != null
      ensures marks[p].end <= |b.accepted|
    {
      assert Stands(b.accepted, marks[p]);
    }
  }

  lemma {:induction false} AllSent(marks: seq<Mark>, s: Stream, sent: nat)
    requires forall p :: 0 <= p < |marks| && marks[p].stream != null ==> marks[p].end <= sent
    ensures SentSizes(marks, s, sent) == Sizes(marks, s)
  {
    if marks != [] {
      AllSent(marks[..|marks| - 1], s, sent);
    }
  }

  /** One frame more adds its length to what its stream is told, once its end is sent. */
  lemma SentSizesMore(before: seq<Mark>, after: seq<Mark>, m: Mark, s: Stream, n: nat)
    requires MarkedOnce(before, after, m)
    ensures SentSizes(after, s, n)
      == SentSizes(before, s, n) + if m.stream == s && m.end <= n then [|m.payload|] else []
  {
    var init := after[..|after| - 1];
    assert after[|after| - 1] == m;
    assert init[..|before|] == before;
    BlanksAdd(init, |before|, |init|, s, n);
    assert init[..|init|] == init;
  }

  lemma {:induction false} BlanksAdd(marks: seq<Mark>, i: nat, k: nat, s: Stream, n: nat)
    requires i <= k <= |marks| && forall p :: i <= p < k ==> marks[p].stream == null
    ensures SentSizes(marks[..k], s, n) == SentSizes(marks[..i], s, n)
    decreases k
  {
    if i < k {
      BlanksAdd(marks, i, k - 1, s, n);
      assert marks[..k][..k - 1] == marks[..k - 1];
    }
  }

  lemma {:induction false} NoneSent(marks: seq<Mark>, s: Stream, n: nat)
    requires forall p :: 0 <= p < |marks| ==> marks[p].stream != s
    ensures SentSizes(marks, s, n) == []
  {
    if marks != [] {
      NoneSent(marks[..|marks| - 1], s, n);
    }
  }

  lemma QueueBalanced(queue: Queue)
    requires queue.Valid()
    ensures Balanced(queue.book)
  {
    hide Flat, Distinct;
  }

  lemma PlacedLengths(b: Ledger, marks: seq<Mark>)
    requires Placed(b, marks)
    ensures |marks| == |b.pushed| == |b.returned| + |b.chain| && |b.todo| == |b.chain|
  {
    hide AllStand, SentEnds, QueuedEnds, Rising;
  }

  lemma {:induction false} NoneOf(marks: seq<Mark>, s: Stream)
    requires forall p :: 0 <= p < |marks| ==> marks[p].stream != s
    ensures Sizes(marks, s) == []
  {
    if marks != [] {
      NoneOf(marks[..|marks| - 1], s);
    }
  }
}
