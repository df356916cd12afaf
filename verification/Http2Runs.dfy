/** Whole runs of a connection: the linked queue, the streams and their writers do what the plain values say. */
module Http2Runs {
  import opened Bytes
  import opened Numbers
  import opened Parts
  import opened WriteQueue
  import opened DataFrames
  import opened Http2Wire
  import opened Http2Model
  import opened Http2Output

  /** The marks tell of a stream's frames what the frames do, wherever the octets sent end. */
  ghost predicate Traced(marks: seq<Mark>, s: Stream, frames: seq<Frame>, id: nat)
  {
    AllSound(frames) && forall n: nat :: SentSizes(marks, s, n) == Pieces(frames[..WholeFrames(frames, n)], id)
  }

  ghost predicate Mirrors(s: Stream, p: Peer)
    reads s
  {
    && s.id == p.id && s.sendWindow == p.window && (s.started <==> p.talk.Talking?)
    && s.contentLeft == Left(p.talk) && s.outClosed == Over(p.talk)
    && (p.pending.Some? <==> s.waiting && s.len < 0) && (p.pending.Some? ==> s.body == p.pending.value)
  }

  /** The connection and its streams stand for these values. */
  ghost predicate Shows(c: Connection, order: seq<Stream>, net: Net)
    reads c, c.queue, c.queue.book.chain, c.streams, order, set m | m in c.marks && m.stream != null :: m.stream
    reads (if c.queue.last == null then {} else {c.queue.last})
  {
    && Sane(net) && net.open && c.Valid() && c.frameSize == net.frameSize && c.sendWindow == net.window
    && |order| == |net.peers| && c.streams == (set s | s in order)
    && Distinct(order)
    && (forall k :: 0 <= k < |order| ==> Mirrors(order[k], net.peers[k]))
    && (forall k :: 0 <= k < |order| ==> Traced(c.marks, order[k], net.frames, net.peers[k].id))
    && c.queue.book.accepted == WireOf(net.frames) && |c.queue.book.sent| == net.sent
  }

  /** What a mark says of a frame. */
  ghost predicate Marks(m: Mark, s: Stream, f: Frame, id: nat, end: nat)
  {
    && m.end == end && (m.stream == s <==> f.id == id && f.kind == DATA && f.payload != [])
    && (m.stream == s ==> m.payload == f.payload)
  }

  lemma TracedMore(before: seq<Mark>, after: seq<Mark>, m: Mark, s: Stream, frames: seq<Frame>, f: Frame, id: nat)
    requires Traced(before, s, frames, id) && MarkedOnce(before, after, m) && Sound(f)
    requires AllSound(frames + [f]) && Marks(m, s, f, id, |WireOf(frames + [f])|)
    ensures Traced(after, s, frames + [f], id)
  {
    hide Sound, SentSizes, Pieces, MarkedOnce, WholeFrames;
    var all := frames + [f];
    forall n: nat
      ensures SentSizes(after, s, n) == Pieces(all[..WholeFrames(all, n)], id)
    {
      SentSizesMore(before, after, m, s, n);
      WholeMore(frames, f, n);
      if |WireOf(all)| <= n {
        WireMore(frames, f);
        AllWhole(frames, n);
        PiecesMore(frames, f, id);
        assert frames[..|frames|] == frames && all[..|all|] == all;
      } else {
        assert all[..WholeFrames(frames, n)] == frames[..WholeFrames(frames, n)];
      }
    }
  }

  lemma TracedAll(before: seq<Mark>, after: seq<Mark>, m: Mark, order: seq<Stream>, net: Net, f: Frame)
    requires Sane(net) && |order| == |net.peers| && MarkedOnce(before, after, m) && Sound(f)
    requires forall k :: 0 <= k < |order| ==> Traced(before, order[k], net.frames, net.peers[k].id)
    requires AllSound(net.frames + [f])
    requires forall k :: 0 <= k < |order| ==> Marks(m, order[k], f, net.peers[k].id, |WireOf(net.frames + [f])|)
    ensures forall k :: 0 <= k < |order| ==> Traced(after, order[k], net.frames + [f], net.peers[k].id)
  {
    hide Traced, Marks, Sound;
    forall k | 0 <= k < |order|
      ensures Traced(after, order[k], net.frames + [f], net.peers[k].id)
    {
      TracedMore(before, after, m, order[k], net.frames, f, net.peers[k].id);
    }
  }

  /** A frame that no writer waits for. */
  method DoPush(c: Connection, order: seq<Stream>, f: Frame, ghost net: Net)
    requires Shows(c, order, net) && Sound(f) && (f.kind == DATA ==> f.payload == [])
    modifies c, c.queue, c.queue.book.chain
    ensures Shows(c, order, Accept(net, f))
    ensures forall b :: b in c.queue.book.chain ==> b in old(c.queue.book.chain) || fresh(b)
  {
    hide Sound, FrameOctets, WireOf, Traced, MarkedOnce, Mirrors, Connection.Valid, PeerSane, AllSound;
    WireMore(net.frames, f);
    ghost var before := c.marks;
    c.PushFrame(f);
    ghost var m := Mark(null, [], false, |c.queue.book.accepted|);
    TracedAll(before, c.marks, m, order, net, f);
  }

  /** A writer waits exactly when the values say so, and was told what they say. */
  lemma WaitingIs(c: Connection, order: seq<Stream>, net: Net, k: nat)
    requires Shows(c, order, net) && k < |order|
    ensures Idle(net, k) <==> !order[k].waiting
    ensures order[k].notices == SentSizes(c.marks, order[k], |c.queue.book.sent|) == Arrived(net, net.peers[k].id)
    ensures Outstanding(net, net.peers[k].id) <==> order[k].waiting && order[k].len >= 0
  {
    hide Connection.Valid, AllSound, WireOf, Pieces, SentSizes, ReadFrames, WholeFrames, PeerSane;
    var s := order[k];
    c.WaitsForFrame(s);
    c.NoticesAreSent(s);
    PrefixReads(net.frames, net.sent);
    PrefixReads(net.frames, |WireOf(net.frames)|);
    var wire := WireOf(net.frames);
    assert wire[..|wire|] == wire;
  }

  method DoStart(c: Connection, order: seq<Stream>, k: nat, length: int, block: seq<byte>, ghost net: Net)
    requires Shows(c, order, net) && Kept(net) && k < |order| && !order[k].started && |block| <= c.frameSize
    modifies c, c.queue, c.queue.book.chain, order
    ensures Shows(c, order, Step(net, Start(k, length, block)))
    ensures forall b :: b in c.queue.book.chain ==> b in old(c.queue.book.chain) || fresh(b)
  {
    hide Sound, FrameOctets, WireOf, Traced, MarkedOnce, Connection.Valid, AllSound, Kept, Said, Proper, Left;
    assert Mirrors(order[k], net.peers[k]);
    ghost var p := net.peers[k];
    ghost var f := HeadFrame(p.id, block, Declared(length));
    HeadIsSound(p.id, block, Declared(length));
    WireMore(net.frames, f);
    SaidStart(block, Declared(length), p.id);
    ghost var before := c.marks;
    c.StartResponse(order[k], length, block);
    ghost var m := Mark(null, [], false, |c.queue.book.accepted|);
    TracedAll(before, c.marks, m, order, net, f);
  }

  lemma HeadIsSound(id: nat, block: seq<byte>, declared: int)
    requires id < 0x8000_0000 && |block| < 0x100_0000
    ensures Sound(HeadFrame(id, block, declared))
  {
  }

  lemma DataIsSound(p: Peer, payload: seq<byte>)
    requires p.id < 0x8000_0000 && |payload| < 0x100_0000
    ensures var f := DataFrame(p, payload);
      Sound(f) && FrameOctets(f) == OneFrame(Left(p.talk), p.id, payload)
  {
    hide FrameHeader;
  }

  /** A stream that waits for the window frames what it can. */
  method DoReady(c: Connection, order: seq<Stream>, k: nat, ghost net: Net)
    requires Shows(c, order, net) && Kept(net) && k < |order| && net.peers[k].pending.Some?
    modifies c, c.queue, c.queue.book.chain, order
    ensures Shows(c, order, Ready(net, k))
    ensures forall b :: b in c.queue.book.chain ==> b in old(c.queue.book.chain) || fresh(b)
  {
    hide WireOf, Traced, Connection.Valid, AllSound, Kept, Over, Left, LeftAfter, Ends, Offers, Payload, Total, Framing;
    assert Mirrors(order[k], net.peers[k]);
    var s := order[k];
    var allowed := Min(Min(c.frameSize, s.sendWindow), c.sendWindow);
    if allowed <= 0 {
      var len := c.OnWriteWindowReady(s);
    } else if Offers(s.body, allowed) {
      DoFrame(c, order, k, allowed, net);
    }
  }

  method DoFrame(c: Connection, order: seq<Stream>, k: nat, allowed: nat, ghost net: Net)
    requires Shows(c, order, net) && Kept(net) && k < |order| && net.peers[k].pending.Some?
    requires allowed == Allowed(net, k) > 0 && Offers(net.peers[k].pending.value, allowed)
    modifies c, c.queue, c.queue.book.chain, order
    ensures Shows(c, order, Ready(net, k))
    ensures forall b :: b in c.queue.book.chain ==> b in old(c.queue.book.chain) || fresh(b)
  {
    hide Sound, FrameOctets, OneFrame, WireOf, Traced, MarkedOnce, Connection.Valid, AllSound, Kept, Said, Proper, Over;
    hide Left, LeftAfter, Ends, Offers, Payload, Total, Mirrors;
    MirrorsIs(order[k], net.peers[k]);
    var s := order[k];
    OfferedIs(s.body, allowed);
    ghost var p, before := net.peers[k], c.marks;
    ghost var payload := Payload(s.body, allowed);
    ghost var f := DataFrame(p, payload);
    DataIsSound(p, payload);
    WireMore(net.frames, f);
    PeerIs(net, k);
    SaidMore(p.talk, p.id, payload);
    var len := c.OnWriteWindowReady(s);
    IdsDiffer(net, k);
    TracedAll(before, c.marks, Mark(s, payload, f.flags == END_STREAM, |c.queue.book.accepted|), order, net, f);
    Mirroring(s, Ready(net, k).peers[k]);
  }

  lemma MirrorsIs(s: Stream, p: Peer)
    requires Mirrors(s, p)
    ensures s.id == p.id && s.sendWindow == p.window && s.contentLeft == Left(p.talk) && s.outClosed == Over(p.talk)
    ensures (p.pending.Some? <==> s.waiting && s.len < 0) && (p.pending.Some? ==> s.body == p.pending.value)
    ensures s.started <==> p.talk.Talking?
  {
    hide Over, Left;
  }

  lemma Mirroring(s: Stream, p: Peer)
    requires s.id == p.id && s.sendWindow == p.window && s.contentLeft == Left(p.talk) && s.outClosed == Over(p.talk)
    requires (p.pending.Some? <==> s.waiting && s.len < 0) && (p.pending.Some? ==> s.body == p.pending.value)
    requires s.started <==> p.talk.Talking?
    ensures Mirrors(s, p)
  {
    hide Over, Left;
  }

  lemma PeerIs(net: Net, k: nat)
    requires Kept(net) && k < |net.peers|
    ensures Proper(net.peers[k].talk) && PeerSane(net.peers[k])
    ensures net.peers[k].pending.Some? ==> !Over(net.peers[k].talk)
  {
    hide Said, Proper, Over, OfStream, Pieces;
    assert Speaks(net.peers[k], net.frames);
  }

  lemma IdsDiffer(net: Net, k: nat)
    requires Kept(net) && k < |net.peers|
    ensures forall j :: 0 <= j < |net.peers| && j != k ==> net.peers[j].id != net.peers[k].id
  {
    hide Speaks, OfStream, Pieces;
  }

  method DoWrite(c: Connection, order: seq<Stream>, k: nat, body: Body, ghost net: Net)
    requires Shows(c, order, net) && Kept(net) && MayWrite(net, k)
    modifies c, c.queue, c.queue.book.chain, order
    ensures Shows(c, order, Step(net, Write(k, body)))
    ensures forall b :: b in c.queue.book.chain ==> b in old(c.queue.book.chain) || fresh(b)
  {
    hide WireOf, Traced, Connection.Valid, AllSound, Kept, Over, Left, Ready, Idle;
    WaitingIs(c, order, net, k);
    assert Mirrors(order[k], net.peers[k]);
    ghost var waits := SetPeer(net, k, net.peers[k].(pending := Some(body)));
    KeptPeer(net, k, net.peers[k].(pending := Some(body)));
    c.CreateWriteWaitWindow(order[k], body);
    DoReady(c, order, k, waits);
  }

  /** A stream that waits tries again, if it does wait. */
  method DoResume(c: Connection, order: seq<Stream>, k: nat, ghost net: Net)
    requires Shows(c, order, net) && Kept(net) && k < |order|
    modifies c, c.queue, c.queue.book.chain, order
    ensures Shows(c, order, Resumed(net, k))
    ensures forall b :: b in c.queue.book.chain ==> b in old(c.queue.book.chain) || fresh(b)
  {
    hide Kept, Ready, Traced, Connection.Valid, WireOf;
    assert Mirrors(order[k], net.peers[k]);
    if order[k].waiting && order[k].len < 0 {
      DoReady(c, order, k, net);
    }
  }

  method DoGrow(c: Connection, order: seq<Stream>, k: nat, more: int, ghost net: Net)
    requires Shows(c, order, net) && Kept(net) && k < |order|
    modifies c, c.queue, c.queue.book.chain, order
    ensures Shows(c, order, Step(net, Grow(k, more)))
    ensures forall b :: b in c.queue.book.chain ==> b in old(c.queue.book.chain) || fresh(b)
  {
    hide Kept, Resumed, Traced, Connection.Valid, WireOf, Over, Left, AllSound;
    PeerIs(net, k);
    assert Mirrors(order[k], net.peers[k]);
    ghost var p := net.peers[k];
    ghost var p' := p.(window := p.window + more, granted := p.granted + more);
    KeptPeer(net, k, p');
    order[k].sendWindow := order[k].sendWindow + more;
    DoResume(c, order, k, SetPeer(net, k, p'));
  }

  /** Those that wait try again, in the order of the index, until the connection's window is used up. */
  method CheckWriteWait(c: Connection, order: seq<Stream>, index: seq<nat>, ghost net: Net)
    requires Shows(c, order, net) && Kept(net)
    modifies c, c.queue, c.queue.book.chain, order
    ensures Shows(c, order, Checked(net, index))
    ensures forall b :: b in c.queue.book.chain ==> b in old(c.queue.book.chain) || fresh(b)
  {
    hide Shows, Kept, Checked, Tried;
    KeptIs(net);
    CheckedNone(net, index);
    var i := 0;
    while i < |index|
      invariant i <= |index| && Shows(c, order, Checked(net, index[..i])) && Kept(Checked(net, index[..i]))
      invariant forall b :: b in c.queue.book.chain ==> b in old(c.queue.book.chain) || fresh(b)
    {
      ghost var so := Checked(net, index[..i]);
      WindowIs(c, order, so, index[i]);
      if c.sendWindow <= 0 {
        UsedUp(net, index, i);
        return;
      }
      CheckedMore(net, index, i);
      KeptChecked(net, index[..i + 1]);
      ghost var chain := c.queue.book.chain;
      assert forall j :: 0 <= j < |chain| ==> chain[j] in chain;
      TryAgain(c, order, index[i], so);
      i := i + 1;
    }
    assert index[..|index|] == index;
  }

  method TryAgain(c: Connection, order: seq<Stream>, k: nat, ghost net: Net)
    requires Shows(c, order, net) && Kept(net) && c.sendWindow > 0
    modifies c, c.queue, c.queue.book.chain, order
    ensures Shows(c, order, Tried(net, k))
    ensures forall b :: b in c.queue.book.chain ==> b in old(c.queue.book.chain) || fresh(b)
  {
    hide Shows, Kept, Ready;
    WindowIs(c, order, net, k);
    if k < |order| && order[k].sendWindow > 0 && order[k].waiting && order[k].len < 0 {
      DoReady(c, order, k, net);
    }
  }

  lemma WindowIs(c: Connection, order: seq<Stream>, net: Net, k: nat)
    requires Shows(c, order, net)
    ensures Sane(net) && c.sendWindow == net.window && |order| == |net.peers|
    ensures k < |order| ==>
      && order[k].sendWindow == net.peers[k].window
      && (net.peers[k].pending.Some? <==> order[k].waiting && order[k].len < 0)
  {
    hide Connection.Valid, WireOf, Traced, AllSound, PeerSane, Over, Left;
    if k < |order| {
      assert Mirrors(order[k], net.peers[k]);
    }
  }

  lemma CheckedNone(net: Net, index: seq<nat>)
    requires Sane(net)
    ensures Checked(net, index[..0]) == net
  {
  }

  lemma CheckedMore(net: Net, index: seq<nat>, i: nat)
    requires Sane(net) && i < |index|
    ensures Checked(net, index[..i + 1]) == Tried(Checked(net, index[..i]), index[i])
  {
    hide Tried;
    assert index[..i + 1][..i] == index[..i];
  }

  /** Without a window left nothing more happens. */
  lemma {:induction false} UsedUp(net: Net, index: seq<nat>, i: nat)
    requires Sane(net) && i <= |index| && Checked(net, index[..i]).window <= 0
    ensures Checked(net, index) == Checked(net, index[..i])
    decreases |index| - i
  {
    hide Ready;
    if i < |index| {
      CheckedMore(net, index, i);
      UsedUp(net, index, i + 1);
    } else {
      assert index[..i] == index;
    }
  }

  predicate ListsAll(index: seq<nat>, n: nat)
    ensures ListsAll(index, n) <==> Lists(index, n)
  {
    forall k :: 0 <= k < n ==> k in index
  }

  method DoGrowAll(c: Connection, order: seq<Stream>, more: int, index: seq<nat>, ghost net: Net)
    requires Shows(c, order, net) && Kept(net) && Lists(index, |order|)
    modifies c, c.queue, c.queue.book.chain, order
    ensures Shows(c, order, Step(net, GrowAll(more, index)))
    ensures forall b :: b in c.queue.book.chain ==> b in old(c.queue.book.chain) || fresh(b)
  {
    hide Traced, Connection.Valid, WireOf, AllSound, PeerSane, Kept, Checked, Lists;
    KeptGrown(net, more);
    if c.sendWindow <= 0 {
      c.sendWindow := c.sendWindow + more;
      CheckWriteWait(c, order, index, net.(window := net.window + more, granted := net.granted + more));
    } else {
      c.sendWindow := c.sendWindow + more;
    }
  }

  method DoAdjust(c: Connection, order: seq<Stream>, delta: int, index: seq<nat>, ghost net: Net)
    requires Shows(c, order, net) && Kept(net) && Lists(index, |order|)
    modifies c, c.queue, c.queue.book.chain, order
    ensures Shows(c, order, Step(net, Adjust(delta, index)))
    ensures forall b :: b in c.queue.book.chain ==> b in old(c.queue.book.chain) || fresh(b)
  {
    hide Traced, Connection.Valid, WireOf, AllSound, PeerSane, Kept, Checked, Lists;
    AdjustWindows(c, order, delta, net);
    KeptAdjusted(net, delta);
    CheckWriteWait(c, order, index, AllAdjusted(net, delta));
  }

  /** The windows of all streams change with the initial window. */
  method AdjustWindows(c: Connection, order: seq<Stream>, delta: int, ghost net: Net)
    requires Shows(c, order, net) && Kept(net)
    modifies order`sendWindow
    ensures Shows(c, order, AllAdjusted(net, delta))
  {
    hide Traced, Connection.Valid, WireOf, AllSound, PeerSane, Kept, Over, Left;
    for i := 0 to |order|
      invariant c.Valid() && forall j :: 0 <= j < |order| ==>
        order[j].sendWindow == if j < i then Adjusted(net.peers[j], delta).window else old(order[j].sendWindow)
    {
      assert Mirrors(order[i], net.peers[i]);
      if !(delta > 0 && order[i].sendWindow > MAX_WINDOW - delta) {
        order[i].sendWindow := order[i].sendWindow + delta;
      }
    }
    AdjustedElse(net, delta);
    forall j | 0 <= j < |order|
      ensures Mirrors(order[j], AllAdjusted(net, delta).peers[j])
    {
      assert old(Mirrors(order[j], net.peers[j]));
    }
  }

  /** While it is not over, what is left is -1 exactly without a declared length. */
  lemma EndableIs(t: Talk)
    requires Proper(t) && t.Talking? && !Over(t)
    ensures Left(t) == -1 <==> t.declared < 0
  {
    LeftIs(t.declared, t.payloads);
  }

  method DoEnd(c: Connection, order: seq<Stream>, k: nat, ghost net: Net)
    requires Shows(c, order, net) && Kept(net) && MayWrite(net, k) && net.peers[k].talk.declared < 0
    modifies c, c.queue, c.queue.book.chain, order
    ensures Shows(c, order, Step(net, End(k)))
    ensures forall b :: b in c.queue.book.chain ==> b in old(c.queue.book.chain) || fresh(b)
  {
    hide Sound, FrameOctets, WireOf, Traced, MarkedOnce, Connection.Valid;
    hide AllSound, Kept, Said, Proper, Over, Left, Idle;
    assert Mirrors(order[k], net.peers[k]);
    ghost var p := net.peers[k];
    ghost var f := EndFrame(p.id);
    PeerIs(net, k);
    EndIsSound(p.id);
    WireMore(net.frames, f);
    EndableIs(p.talk);
    SaidEnd(p.talk, p.id);
    ghost var before := c.marks;
    c.WriteEnd(order[k]);
    ghost var m := Mark(null, [], false, |c.queue.book.accepted|);
    TracedAll(before, c.marks, m, order, net, f);
  }

  lemma EndIsSound(id: nat)
    requires id < 0x8000_0000
    ensures Sound(EndFrame(id))
  {
  }

  method DoOpen(c: Connection, order: seq<Stream>, id: nat, window: int, ghost net: Net) returns (order': seq<Stream>)
    requires Shows(c, order, net) && Kept(net) && Fresh(net, id)
    modifies c
    ensures Shows(c, order', Step(net, Open(id, window)))
    ensures c.queue.book == old(c.queue.book) && forall s :: s in order' ==> s in order || fresh(s)
  {
    hide WireOf, Connection.Valid, AllSound, Kept, Over, PeerSane, Traced;
    var s := c.Open(id, window);
    order' := order + [s];
    TracedNew(c.marks, s, net, id);
    ghost var p := Peer(id, window, window, Silent, Option.None);
    NotOver();
    assert Mirrors(s, p);
  }

  lemma NotOver()
    ensures !Over(Silent)
  {
  }

  lemma TracedNew(marks: seq<Mark>, s: Stream, net: Net, id: nat)
    requires Kept(net) && Fresh(net, id) && forall p :: 0 <= p < |marks| ==> marks[p].stream != s
    ensures Traced(marks, s, net.frames, id)
  {
    hide Speaks, Sound, SentSizes, Pieces, OfStream, WholeFrames;
    forall n: nat
      ensures SentSizes(marks, s, n) == Pieces(net.frames[..WholeFrames(net.frames, n)], id)
    {
      NoneSent(marks, s, n);
      FewerPieces(net.frames, WholeFrames(net.frames, n), id);
    }
  }

  lemma HeardAtEnd(net: Net, k: nat)
    requires Sane(net) && k < |net.peers|
    ensures Heard(Closed(net), k) == Arrived(net, net.peers[k].id) + if Idle(net, k) then [] else [-1]
  {
    hide WireOf, ReadFrames, Pieces;
  }

  /** Octets were sent; what is more than there is cannot have been. */
  method DoSent(c: Connection, order: seq<Stream>, got: nat, ghost net: Net)
    requires Shows(c, order, net) && got > 0
    modifies c, c.queue, c.queue.book.chain, order
    ensures Shows(c, order, Step(net, Result(got)))
    ensures forall b :: b in c.queue.book.chain ==> b in old(c.queue.book.chain) || fresh(b)
  {
    hide WireOf, Connection.Valid, AllSound, Traced, Over, Left, PeerSane;
    c.LeftIsPending();
    if got <= c.queue.left {
      var open := c.OnWriteResult(got);
    }
  }

  /** The connection is at its end: each writer has heard what it ever will. */
  method DoClose(c: Connection, order: seq<Stream>, got: int, ghost net: Net)
    requires Shows(c, order, net) && got <= 0
    modifies c, c.queue, c.queue.book.chain, order
    ensures |order| == |net.peers|
    ensures forall k :: 0 <= k < |order| ==> order[k].notices == Heard(Closed(net), k)
  {
    hide WireOf, Connection.Valid, AllSound, Traced, Idle, Outstanding, Arrived, SentSizes, Mirrors;
    c.LeftIsPending();
    forall k | 0 <= k < |order|
      ensures Idle(net, k) <==> !order[k].waiting
      ensures SentSizes(c.marks, order[k], |c.queue.book.sent|) == Arrived(net, net.peers[k].id)
      ensures Heard(Closed(net), k) == Arrived(net, net.peers[k].id) + if Idle(net, k) then [] else [-1]
    {
      WaitingIs(c, order, net, k);
      HeardAtEnd(net, k);
    }
    var open := c.OnWriteResult(got);
  }

  lemma MayIs(c: Connection, order: seq<Stream>, net: Net, k: nat)
    requires Shows(c, order, net)
    ensures MayWrite(net, k) <==> k < |order| && order[k].started && !order[k].outClosed && !order[k].waiting
  {
    hide Connection.Valid, WireOf, Traced, Idle, Over, AllSound, PeerSane;
    if k < |order| {
      WaitingIs(c, order, net, k);
      assert Mirrors(order[k], net.peers[k]);
    }
  }

  lemma FreshIs(c: Connection, order: seq<Stream>, net: Net, id: nat)
    requires Shows(c, order, net)
    ensures Fresh(net, id) <==> id < 0x8000_0000 && forall k :: 0 <= k < |order| ==> order[k].id != id
  {
    hide Connection.Valid, WireOf, Traced, AllSound, PeerSane, Over, Left;
    assert forall k :: 0 <= k < |order| ==> Mirrors(order[k], net.peers[k]);
  }

  /** One event; what the code asserts of its callers is looked up first. */
  method Act(c: Connection, order: seq<Stream>, op: Op, ghost net: Net) returns (open: bool, order': seq<Stream>)
    requires Shows(c, order, net) && Kept(net)
    modifies c, c.queue, c.queue.book.chain, order
    ensures open == Step(net, op).open && |order'| == |Step(net, op).peers|
    ensures open ==> Shows(c, order', Step(net, op))
    ensures open ==> forall b :: b in c.queue.book.chain ==> b in old(c.queue.book.chain) || fresh(b)
    ensures !open ==> forall k :: 0 <= k < |order'| ==> order'[k].notices == Heard(Step(net, op), k)
    ensures forall s :: s in order' ==> s in order || fresh(s)
  {
    hide Kept, Resumed, Ready, MayWrite, Fresh, WireOf, Traced, Connection.Valid, AllSound, PeerSane, Heard, Checked;
    open, order' := true, order;
    assert forall k :: 0 <= k < |order| ==> Mirrors(order[k], net.peers[k]);
    match op {
      case Open(id, window) =>
        FreshIs(c, order, net, id);
        if id < 0x8000_0000 && forall k :: 0 <= k < |order| ==> order[k].id != id {
          order' := DoOpen(c, order, id, window, net);
        }
      case Start(k, length, block) =>
        if k < |order| && !order[k].started && |block| <= c.frameSize {
          DoStart(c, order, k, length, block, net);
        }
      case Write(k, body) =>
        MayIs(c, order, net, k);
        if k < |order| && order[k].started && !order[k].outClosed && !order[k].waiting {
          DoWrite(c, order, k, body, net);
        }
      case Grow(k, more) =>
        if k < |order| {
          DoGrow(c, order, k, more, net);
        }
      case GrowAll(more, index) =>
        if ListsAll(index, |order|) {
          DoGrowAll(c, order, more, index, net);
        }
      case Adjust(delta, index) =>
        if ListsAll(index, |order|) {
          DoAdjust(c, order, delta, index, net);
        }
      case End(k) =>
        MayIs(c, order, net, k);
        if k < |order| && order[k].started && !order[k].outClosed && !order[k].waiting {
          Endable(c, order, net, k);
          if order[k].contentLeft == -1 {
            DoEnd(c, order, k, net);
          }
        }
      case Control(f) =>
        if IsControl(f) {
          DoPush(c, order, f, net);
        }
      case Result(got) =>
        open := got > 0;
        if open {
          DoSent(c, order, got, net);
        } else {
          DoClose(c, order, got, net);
        }
    }
  }

  lemma Endable(c: Connection, order: seq<Stream>, net: Net, k: nat)
    requires Shows(c, order, net) && Kept(net) && k < |order| && MayWrite(net, k)
    ensures order[k].contentLeft == -1 <==> net.peers[k].talk.declared < 0
  {
    hide Connection.Valid, WireOf, Traced, AllSound, PeerSane, Left, Over, Idle, Kept, Proper;
    PeerIs(net, k);
    assert Mirrors(order[k], net.peers[k]);
    EndableIs(net.peers[k].talk);
  }

  lemma BeginShows(c: Connection, net: Net, ops: seq<Op>)
    requires net.frameSize < 0x100_0000 && net == Begin(net.frameSize, net.window)
    requires c.Valid() && c.queue.book == EMPTY && c.streams == {} && c.marks == []
    requires c.frameSize == net.frameSize && c.sendWindow == net.window
    ensures After(net, ops[..0]) == net && Shows(c, [], net) && SentOctets(net) == [] && net.open && net.peers == []
  {
    hide Connection.Valid;
  }

  lemma SentIs(c: Connection, order: seq<Stream>, net: Net)
    requires Shows(c, order, net)
    ensures c.queue.book.sent == SentOctets(net)
  {
    hide Connection.Valid, WireOf, Traced, AllSound, PeerSane, Mirrors;
    c.LeftIsPending();
  }

  lemma HeardIs(c: Connection, order: seq<Stream>, net: Net, k: nat)
    requires Shows(c, order, net) && k < |order|
    ensures k < |net.peers| && order[k].notices == Heard(net, k)
  {
    hide Connection.Valid, WireOf, Traced, AllSound, PeerSane, Mirrors, Idle, Arrived;
    WaitingIs(c, order, net, k);
  }

  lemma {:induction false} StillOpen(net: Net, index: seq<nat>)
    requires Sane(net)
    ensures Checked(net, index).open == net.open
    decreases |index|
  {
    hide WireOf, AllSound, Offers, Payload;
    if index != [] {
      StillOpen(net, index[..|index| - 1]);
    }
  }

  /** Once the connection is at its end nothing more is sent, and getting there sends nothing. */
  lemma Stopped(net: Net, op: Op)
    requires Sane(net) && (!net.open || !Step(net, op).open)
    ensures SentOctets(Step(net, op)) == SentOctets(net) && |Step(net, op).peers| == |net.peers|
    ensures !net.open ==> Step(net, op) == net
  {
    hide WireOf, Idle, Over, Checked, Lists;
    match op
    case GrowAll(more, index) => StillOpen(net.(window := net.window + more, granted := net.granted + more), index);
    case Adjust(delta, index) => StillOpen(AllAdjusted(net, delta), index);
    case _ =>
  }

  lemma OneMore(net: Net, ops: seq<Op>, i: nat)
    requires Sane(net) && i < |ops|
    ensures After(net, ops[..i + 1]) == Step(After(net, ops[..i]), ops[i])
  {
    hide Step;
    assert ops[..i + 1][..i] == ops[..i];
  }

  /**
   Any run: what each writer is told, and the octets sent, are what the plain values say.
   A write result that is no success ends the connection, and what comes after it changes nothing.
   */
  method Run(frameSize: nat, window: int, ops: seq<Op>)
    returns (heard: seq<seq<int>>, open: bool, ghost sent: seq<byte>)
    requires frameSize < 0x100_0000
    ensures var net := After(Begin(frameSize, window), ops);
      && open == net.open && sent == SentOctets(net)
      && |heard| == |net.peers| && forall k :: 0 <= k < |heard| ==> heard[k] == Heard(net, k)
  {
    hide Kept, Step, Shows, Heard, WireOf, After, SentOctets, Connection.Valid;
    var c := new Connection(frameSize, window);
    var order: seq<Stream> := [];
    ghost var start := Begin(frameSize, window);
    open, sent := true, [];
    BeginShows(c, start, ops);
    for i := 0 to |ops|
      invariant fresh(c) && fresh(c.queue) && (forall s :: s in order ==> fresh(s))
      invariant open ==> forall b :: b in c.queue.book.chain ==> fresh(b)
      invariant var net := After(start, ops[..i]);
        && open == net.open && |order| == |net.peers| && sent == SentOctets(net)
        && (open ==> Shows(c, order, net))
        && (!open ==> forall k :: 0 <= k < |order| ==> order[k].notices == Heard(net, k))
    {
      ghost var net := After(start, ops[..i]);
      AlwaysKept(frameSize, window, ops[..i]);
      OneMore(start, ops, i);
      if open {
        ghost var chain := c.queue.book.chain;
        assert forall k :: 0 <= k < |order| ==> order[k] in order;
        assert forall k :: 0 <= k < |chain| ==> chain[k] in chain;
        open, order := Act(c, order, ops[i], net);
        if open {
          sent := c.queue.book.sent;
          SentIs(c, order, Step(net, ops[i]));
        } else {
          Stopped(net, ops[i]);
        }
      } else {
        Stopped(net, ops[i]);
      }
    }
    assert ops[..|ops|] == ops;
    heard := [];
    ghost var net := After(start, ops);
    for k := 0 to |order|
      invariant open ==> Shows(c, order, net)
      invariant !open ==> forall k :: 0 <= k < |order| ==> order[k].notices == Heard(net, k)
      invariant |heard| == k && forall j :: 0 <= j < k ==> heard[j] == Heard(net, j)
    {
      if open {
        HeardIs(c, order, net, k);
      }
      heard := heard + [order[k].notices];
    }
  }
}
