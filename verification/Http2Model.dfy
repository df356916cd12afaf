/** A connection's output as plain values: what its writers ask for, what goes out, and what they are told. */
module Http2Model {
  import opened Bytes
  import opened Numbers
  import opened Parts
  import opened WriteQueue
  import opened DataFrames
  import opened Http2Wire

  /** A stream: its window, all ever granted to it, what is said on it, and a body that waits. */
  datatype Peer = Peer(id: nat, window: int, granted: int, talk: Talk, pending: Option<Body>)

  /** The connection: its streams and window, the frames accepted, how many of their octets are sent. */
  datatype Net = Net(
    frameSize: nat,
    peers: seq<Peer>,
    window: int,
    granted: int,
    frames: seq<Frame>,
    sent: nat,
    open: bool)

  /**
   What may happen; streams are named by the order in which they were opened. `index` is the order in which
   the server's index of streams lists them, whatever that is.
   */
  datatype Op =
    | Open(id: nat, window: int)
    | Start(k: nat, length: int, block: seq<byte>)
    | Write(k: nat, body: Body)
    | Grow(k: nat, more: int)
    | GrowAll(more: int, index: seq<nat>)
    | Adjust(delta: int, index: seq<nat>)
    | End(k: nat)
    | Control(frame: Frame)
    | Result(got: int)

  predicate Sane(net: Net)
  {
    && net.frameSize < 0x100_0000 && AllSound(net.frames) && net.sent <= |WireOf(net.frames)|
    && forall k :: 0 <= k < |net.peers| ==> PeerSane(net.peers[k])
  }

  predicate PeerSane(p: Peer)
  {
    && p.id < 0x8000_0000 && (p.pending.Some? ==> p.talk.Talking?)
    && (p.talk.Talking? ==> AllShort(p.talk.payloads))
  }

  /** The octets sent so far. */
  function SentOctets(net: Net): seq<byte>
    requires Sane(net)
  {
    WireOf(net.frames)[..net.sent]
  }

  /** The lengths of the pieces of a stream that are out whole, as a reader of the octets sent finds them. */
  function Arrived(net: Net, id: nat): seq<int>
    requires Sane(net)
  {
    Pieces(ReadFrames(SentOctets(net)), id)
  }

  /** Some piece of a stream's body is framed and not all sent. */
  predicate Outstanding(net: Net, id: nat)
    requires Sane(net)
  {
    Pieces(ReadFrames(WireOf(net.frames)), id) != Arrived(net, id)
  }

  /** The stream's writer does not wait, neither for the window nor for a frame. */
  predicate Idle(net: Net, k: nat)
    requires Sane(net) && k < |net.peers|
  {
    net.peers[k].pending.None? && !Outstanding(net, net.peers[k].id)
  }

  /** What the writers of a stream were told: each length when its piece was out, and -1 at the end. */
  function Heard(net: Net, k: nat): seq<int>
    requires Sane(net) && k < |net.peers|
  {
    Arrived(net, net.peers[k].id) + if !net.open && !Idle(net, k) then [-1] else []
  }

  function Allowed(net: Net, k: nat): int
    requires k < |net.peers|
  {
    Min(Min(net.frameSize, net.peers[k].window), net.window)
  }

  /** Frames what the windows allow of the body that waits. */
  function Ready(net: Net, k: nat): (r: Net)
    requires Sane(net) && k < |net.peers| && net.peers[k].pending.Some?
    ensures Sane(r)
  {
    var p, allowed := net.peers[k], Allowed(net, k);
    var body := p.pending.value;
    if allowed <= 0 || !Offers(body, allowed) then net
    else
      var payload := Payload(body, allowed);
      LengthIsSmall(body.File?, allowed, body.length);
      Framing(net, k, DataFrame(p, payload), payload)
  }

  function DataFrame(p: Peer, payload: seq<byte>): Frame
  {
    Frame(DATA, if Ends(Left(p.talk), |payload|) then END_STREAM else 0, p.id, payload)
  }

  function Framing(net: Net, k: nat, f: Frame, payload: seq<byte>): (r: Net)
    requires Sane(net) && k < |net.peers| && net.peers[k].pending.Some? && Sound(f) && 0 < |payload| < 0x100_0000
    ensures Sane(r)
  {
    var p, n := net.peers[k], |payload|;
    WireMore(net.frames, f);
    var talk := p.talk.(payloads := p.talk.payloads + [payload]);
    net.(peers := net.peers[k := p.(window := p.window - n, talk := talk, pending := Option.None)],
      window := net.window - n, frames := net.frames + [f])
  }

  function Accept(net: Net, f: Frame): (r: Net)
    requires Sane(net) && Sound(f)
    ensures Sane(r)
  {
    WireMore(net.frames, f);
    net.(frames := net.frames + [f])
  }

  function SetPeer(net: Net, k: nat, p: Peer): (r: Net)
    requires Sane(net) && k < |net.peers| && PeerSane(p)
    ensures Sane(r)
  {
    net.(peers := net.peers[k := p])
  }

  predicate Fresh(net: Net, id: nat)
  {
    id < 0x8000_0000 && forall k :: 0 <= k < |net.peers| ==> net.peers[k].id != id
  }

  /** Its writer may write: the head is out, the end is not, and it does not wait. */
  predicate MayWrite(net: Net, k: nat)
    requires Sane(net)
  {
    k < |net.peers| && net.peers[k].talk.Talking? && !Over(net.peers[k].talk) && Idle(net, k)
  }

  predicate IsControl(f: Frame)
  {
    Sound(f) && f.kind != DATA && f.kind != HEADERS
  }

  /** The end of the connection. */
  function Closed(net: Net): (r: Net)
    requires Sane(net)
    ensures Sane(r) && |r.peers| == |net.peers|
  {
    net.(open := false)
  }

  /** One event. What the code asserts of its callers is a condition here: otherwise nothing happens. */
  function Step(net: Net, op: Op): (r: Net)
    requires Sane(net)
    ensures Sane(r)
  {
    if !net.open then net
    else
      match op
      case Open(id, window) =>
        if Fresh(net, id) then net.(peers := net.peers + [Peer(id, window, window, Silent, Option.None)]) else net
      case Start(k, length, block) =>
        if k < |net.peers| && net.peers[k].talk.Silent? && |block| <= net.frameSize then
          var p := net.peers[k];
          SetPeer(Accept(net, HeadFrame(p.id, block, Declared(length))), k,
            p.(talk := Talking(block, Declared(length), [], false)))
        else net
      case Write(k, body) =>
        if MayWrite(net, k) then Ready(SetPeer(net, k, net.peers[k].(pending := Some(body))), k) else net
      case Grow(k, more) =>
        if k < |net.peers| then
          var p := net.peers[k];
          Resumed(SetPeer(net, k, p.(window := p.window + more, granted := p.granted + more)), k)
        else net
      case GrowAll(more, index) =>
        if !Lists(index, |net.peers|) then net
        else
          var wide := net.(window := net.window + more, granted := net.granted + more);
          if net.window <= 0 then Checked(wide, index) else wide
      case Adjust(delta, index) =>
        if Lists(index, |net.peers|) then Checked(AllAdjusted(net, delta), index) else net
      case End(k) =>
        if MayWrite(net, k) && net.peers[k].talk.declared < 0 then
          var p := net.peers[k];
          SetPeer(Accept(net, EndFrame(p.id)), k, p.(talk := p.talk.(ended := true)))
        else net
      case Control(f) => if IsControl(f) then Accept(net, f) else net
      case Result(got) =>
        if got <= 0 then Closed(net)
        else if net.sent + got <= |WireOf(net.frames)| then net.(sent := net.sent + got)
        else net
  }

  predicate Lists(index: seq<nat>, n: nat)
  {
    forall k: nat :: k < n ==> k in index
  }

  const MAX_WINDOW: int := 0x7fff_ffff

  /** The window of a stream after a change of the initial window; one that would pass the greatest window stays. */
  function Adjusted(p: Peer, delta: int): Peer
  {
    if delta > 0 && p.window > MAX_WINDOW - delta then p
    else p.(window := p.window + delta, granted := p.granted + delta)
  }

  function AllAdjusted(net: Net, delta: int): (r: Net)
    requires Sane(net)
    ensures Sane(r) && |r.peers| == |net.peers|
    ensures forall k :: 0 <= k < |net.peers| ==> r.peers[k] == Adjusted(net.peers[k], delta)
  {
    net.(peers := seq(|net.peers|, k requires 0 <= k < |net.peers| => Adjusted(net.peers[k], delta)))
  }

  /** A stream that waits for the window tries again, when both windows are open. */
  function Tried(net: Net, k: nat): (r: Net)
    requires Sane(net)
    ensures Sane(r) && |r.peers| == |net.peers|
  {
    if net.window > 0 && k < |net.peers| && net.peers[k].window > 0 && net.peers[k].pending.Some? then Ready(net, k)
    else net
  }

  /** All that wait try again, one after the other. */
  function Checked(net: Net, index: seq<nat>): (r: Net)
    requires Sane(net)
    ensures Sane(r) && |r.peers| == |net.peers|
    decreases |index|
  {
    if index == [] then net else Tried(Checked(net, index[..|index| - 1]), index[|index| - 1])
  }

  /** A stream whose window grew tries again. */
  function Resumed(net: Net, k: nat): (r: Net)
    requires Sane(net) && k < |net.peers|
    ensures Sane(r)
  {
    if net.peers[k].pending.Some? then Ready(net, k) else net
  }

  function After(net: Net, ops: seq<Op>): (r: Net)
    requires Sane(net)
    ensures Sane(r)
    decreases |ops|
  {
    if ops == [] then net else Step(After(net, ops[..|ops| - 1]), ops[|ops| - 1])
  }

  /** A new connection. */
  function Begin(frameSize: nat, window: int): (r: Net)
    requires frameSize < 0x100_0000
    ensures Sane(r)
  {
    Net(frameSize, [], window, window, [], 0, true)
  }

  function BodyOf(t: Talk): seq<seq<byte>>
  {
    if t.Silent? then [] else t.payloads
  }

  function Lengths(payloads: seq<seq<byte>>): (r: seq<int>)
    ensures |r| == |payloads|
  {
    seq(|payloads|, i requires 0 <= i < |payloads| => |payloads[i]|)
  }

  /** All octets of bodies in some frames. */
  function BodyOctets(fs: seq<Frame>): nat
  {
    if fs == [] then 0
    else BodyOctets(fs[..|fs| - 1]) + if fs[|fs| - 1].kind == DATA then |fs[|fs| - 1].payload| else 0
  }

  lemma BodyOctetsMore(fs: seq<Frame>, f: Frame)
    ensures BodyOctets(fs + [f]) == BodyOctets(fs) + if f.kind == DATA then |f.payload| else 0
  {
    assert (fs + [f])[..|fs|] == fs;
  }

  /** Its frames say what is said on a stream, and its window is what was granted and not used. */
  ghost predicate Speaks(p: Peer, frames: seq<Frame>)
  {
    && PeerSane(p) && Proper(p.talk) && (p.pending.Some? ==> !Over(p.talk))
    && OfStream(frames, p.id) == Said(p.talk, p.id) && Pieces(frames, p.id) == Lengths(BodyOf(p.talk))
    && p.window == p.granted - |Flat(BodyOf(p.talk))|
  }

  /** What every event keeps. */
  ghost predicate Kept(net: Net)
  {
    && Sane(net)
    && (forall j, k :: 0 <= j < k < |net.peers| ==> net.peers[j].id != net.peers[k].id)
    && (forall k :: 0 <= k < |net.peers| ==> Speaks(net.peers[k], net.frames))
    && (forall id :: Fresh(net, id) ==> OfStream(net.frames, id) == [] && Pieces(net.frames, id) == [])
    && net.window == net.granted - BodyOctets(net.frames)
  }

  /** A frame of another stream, or none of any body or head, changes nothing for this one. */
  lemma SpeaksStill(p: Peer, frames: seq<Frame>, f: Frame)
    requires Speaks(p, frames) && (f.id != p.id || (f.kind != DATA && f.kind != HEADERS))
    ensures Speaks(p, frames + [f])
  {
    hide Said, Proper, Flat;
    OfStreamMore(frames, f, p.id);
    PiecesMore(frames, f, p.id);
  }

  lemma SpeaksMore(p: Peer, frames: seq<Frame>, f: Frame, talk: Talk, more: nat)
    requires Speaks(p, frames) && f.id == p.id && (f.kind == DATA || f.kind == HEADERS)
    requires Proper(talk) && Said(talk, p.id) == Said(p.talk, p.id) + [f]
    requires Lengths(BodyOf(talk))
      == Lengths(BodyOf(p.talk)) + if f.kind == DATA && f.payload != [] then [|f.payload|] else []
    requires |Flat(BodyOf(talk))| == |Flat(BodyOf(p.talk))| + more
    ensures Speaks(p.(talk := talk, window := p.window - more, pending := Option.None), frames + [f])
  {
    OfStreamMore(frames, f, p.id);
    PiecesMore(frames, f, p.id);
    hide Said, Flat, OfStream, Pieces;
  }

  /** One stream goes on by a frame of its own, and the others stay as they are. */
  lemma KeptMore(net: Net, k: nat, f: Frame, p: Peer, window: int)
    requires Kept(net) && k < |net.peers| && Sound(f) && f.id == p.id == net.peers[k].id
    requires Speaks(p, net.frames + [f])
    requires window == net.window - if f.kind == DATA then |f.payload| else 0
    ensures AllSound(net.frames + [f])
    ensures Kept(net.(peers := net.peers[k := p], frames := net.frames + [f], window := window))
  {
    hide Speaks, Sound, OfStream, Pieces, BodyOctets;
    WireMore(net.frames, f);
    BodyOctetsMore(net.frames, f);
    var net' := net.(peers := net.peers[k := p], frames := net.frames + [f], window := window);
    forall j | 0 <= j < |net'.peers|
      ensures Speaks(net'.peers[j], net'.frames)
    {
      if j != k {
        assert net.peers[j].id != net.peers[k].id;
        SpeaksStill(net.peers[j], net.frames, f);
      }
    }
    SpeaksSane(net');
    forall id | Fresh(net', id)
      ensures OfStream(net'.frames, id) == [] && Pieces(net'.frames, id) == []
    {
      assert net'.peers[k].id == f.id;
      StillFresh(net, net', id);
      OfStreamMore(net.frames, f, id);
      PiecesMore(net.frames, f, id);
    }
  }

  lemma StillFresh(net: Net, net': Net, id: nat)
    requires Fresh(net', id) && |net.peers| == |net'.peers|
    requires forall j :: 0 <= j < |net.peers| ==> net.peers[j].id == net'.peers[j].id
    ensures Fresh(net, id)
  {
    forall k | 0 <= k < |net.peers|
      ensures net.peers[k].id != id
    {
      assert net'.peers[k].id != id;
    }
  }

  lemma SpeaksSane(net: Net)
    requires forall k :: 0 <= k < |net.peers| ==> Speaks(net.peers[k], net.frames)
    ensures forall k :: 0 <= k < |net.peers| ==> PeerSane(net.peers[k])
  {
  }

  /** Nothing but a stream's window, grant or waiting body changes. */
  lemma KeptPeer(net: Net, k: nat, p: Peer)
    requires Kept(net) && k < |net.peers| && PeerSane(p) && p.id == net.peers[k].id && p.talk == net.peers[k].talk
    requires p.granted - p.window == net.peers[k].granted - net.peers[k].window && (p.pending.Some? ==> !Over(p.talk))
    ensures Kept(SetPeer(net, k, p))
  {
    hide Said, Proper, Flat, Over, OfStream, Pieces, BodyOctets;
    var net' := SetPeer(net, k, p);
    forall j | 0 <= j < |net'.peers|
      ensures Speaks(net'.peers[j], net'.frames)
    {
      assert Speaks(net.peers[j], net.frames);
    }
    forall id | Fresh(net', id)
      ensures OfStream(net'.frames, id) == [] && Pieces(net'.frames, id) == []
    {
      StillFresh(net, net', id);
    }
  }

  lemma KeptControl(net: Net, f: Frame)
    requires Kept(net) && IsControl(f)
    ensures Kept(Accept(net, f))
  {
    hide Speaks, OfStream, Pieces, BodyOctets, Sound;
    WireMore(net.frames, f);
    BodyOctetsMore(net.frames, f);
    var net' := Accept(net, f);
    forall j | 0 <= j < |net'.peers|
      ensures Speaks(net'.peers[j], net'.frames)
    {
      SpeaksStill(net.peers[j], net.frames, f);
    }
    forall id | Fresh(net', id)
      ensures OfStream(net'.frames, id) == [] && Pieces(net'.frames, id) == []
    {
      StillFresh(net, net', id);
      OfStreamMore(net.frames, f, id);
      PiecesMore(net.frames, f, id);
    }
  }

  lemma KeptOpen(net: Net, id: nat, window: int)
    requires Kept(net) && Fresh(net, id)
    ensures Kept(Step(net, Open(id, window)))
  {
    hide OfStream, Pieces, BodyOctets;
    var p := Peer(id, window, window, Silent, Option.None);
    var net' := net.(peers := net.peers + [p]);
    FlatNone();
    assert Lengths([]) == [];
    assert Speaks(p, net.frames);
    hide Speaks;
    forall x | Fresh(net', x)
      ensures OfStream(net'.frames, x) == [] && Pieces(net'.frames, x) == []
    {
      forall k | 0 <= k < |net.peers|
        ensures net.peers[k].id != x
      {
        assert net'.peers[k].id != x;
      }
      assert Fresh(net, x);
    }
    assert Sane(net') && net' == if net.open then Step(net, Open(id, window)) else net';
  }

  lemma KeptStart(net: Net, k: nat, length: int, block: seq<byte>)
    requires Kept(net) && k < |net.peers| && net.peers[k].talk.Silent? && |block| <= net.frameSize
    ensures Kept(Step(net, Start(k, length, block)))
  {
    hide OfStream, Pieces, Said, Flat, WireOf;
    var p, talk := net.peers[k], Talking(block, Declared(length), [], false);
    var f := HeadFrame(p.id, block, Declared(length));
    assert Speaks(p, net.frames);
    SaidStart(block, Declared(length), p.id);
    SpeaksMore(p, net.frames, f, talk, 0);
    assert p.pending.None?;
    KeptMore(net, k, f, p.(talk := talk), net.window);
  }

  lemma SpeaksAt(net: Net, k: nat)
    requires Kept(net) && k < |net.peers|
    ensures Speaks(net.peers[k], net.frames) && PeerSane(net.peers[k])
  {
    hide OfStream, Pieces, Said, Proper, Over;
  }

  lemma SpeaksEnded(p: Peer, frames: seq<Frame>)
    requires Speaks(p, frames) && p.talk.Talking? && !Over(p.talk) && p.talk.declared < 0 && p.pending.None?
    ensures Speaks(p.(talk := p.talk.(ended := true)), frames + [EndFrame(p.id)])
  {
    hide OfStream, Pieces, Said, Flat, Proper, Over;
    SaidEnd(p.talk, p.id);
    SpeaksMore(p, frames, EndFrame(p.id), p.talk.(ended := true), 0);
  }

  lemma KeptEnd(net: Net, k: nat)
    requires Kept(net) && MayWrite(net, k) && net.peers[k].talk.declared < 0
    ensures Kept(Step(net, End(k)))
  {
    hide OfStream, Pieces, WireOf, Outstanding, Speaks, Over, BodyOctets, Kept;
    var p := net.peers[k];
    SpeaksAt(net, k);
    SpeaksEnded(p, net.frames);
    KeptMore(net, k, EndFrame(p.id), p.(talk := p.talk.(ended := true)), net.window);
  }

  lemma SpeaksFramed(p: Peer, frames: seq<Frame>, payload: seq<byte>)
    requires Speaks(p, frames) && p.pending.Some? && 0 < |payload| < 0x100_0000
    ensures var talk := p.talk.(payloads := p.talk.payloads + [payload]);
      Speaks(p.(window := p.window - |payload|, talk := talk, pending := Option.None), frames + [DataFrame(p, payload)])
  {
    hide OfStream, Pieces, Said, Flat, Proper, Over, Left, Ends;
    SaidMore(p.talk, p.id, payload);
    FlatAppend(p.talk.payloads, payload);
    var talk := p.talk.(payloads := p.talk.payloads + [payload]);
    assert Lengths(talk.payloads) == Lengths(p.talk.payloads) + [|payload|];
    SpeaksMore(p, frames, DataFrame(p, payload), talk, |payload|);
  }

  lemma KeptFraming(net: Net, k: nat, payload: seq<byte>)
    requires Kept(net) && k < |net.peers| && net.peers[k].pending.Some? && 0 < |payload| < 0x100_0000
    ensures var f := DataFrame(net.peers[k], payload); Sound(f) && Kept(Framing(net, k, f, payload))
  {
    hide OfStream, Pieces, WireOf, Speaks, Ends, Left, BodyOctets, Kept;
    var p := net.peers[k];
    SpeaksAt(net, k);
    var talk, f := p.talk.(payloads := p.talk.payloads + [payload]), DataFrame(p, payload);
    SpeaksFramed(p, net.frames, payload);
    KeptMore(net, k, f, p.(window := p.window - |payload|, talk := talk, pending := Option.None),
      net.window - |payload|);
  }

  lemma KeptReady(net: Net, k: nat)
    requires Kept(net) && k < |net.peers| && net.peers[k].pending.Some?
    ensures Kept(Ready(net, k))
  {
    hide Kept, Offers, Payload, Total, WireOf, Framing, Left, Ends, AllSound;
    KeptIs(net);
    var body, allowed := net.peers[k].pending.value, Allowed(net, k);
    if allowed > 0 && Offers(body, allowed) {
      OfferedIs(body, allowed);
      KeptFraming(net, k, Payload(body, allowed));
    }
  }

  lemma KeptIs(net: Net)
    requires Kept(net)
    ensures Sane(net) && forall k :: 0 <= k < |net.peers| ==> PeerSane(net.peers[k])
    ensures forall k :: 0 <= k < |net.peers| && net.peers[k].pending.Some? ==> !Over(net.peers[k].talk)
  {
    hide Over, Said, OfStream, Pieces;
    forall k | 0 <= k < |net.peers|
      ensures net.peers[k].pending.Some? ==> !Over(net.peers[k].talk)
    {
      assert Speaks(net.peers[k], net.frames);
    }
  }

  lemma KeptResumed(net: Net, k: nat)
    requires Kept(net) && k < |net.peers|
    ensures Kept(Resumed(net, k))
  {
    hide Kept, Ready;
    if net.peers[k].pending.Some? {
      KeptReady(net, k);
    }
  }

  lemma OpenKeeps(net: Net, id: nat, window: int)
    requires Kept(net)
    ensures Kept(Step(net, Open(id, window)))
  {
    hide Kept, Fresh;
    if Fresh(net, id) {
      KeptOpen(net, id, window);
    }
  }

  lemma StartKeeps(net: Net, k: nat, length: int, block: seq<byte>)
    requires Kept(net)
    ensures Kept(Step(net, Start(k, length, block)))
  {
    hide Kept;
    if k < |net.peers| && net.peers[k].talk.Silent? && |block| <= net.frameSize {
      KeptStart(net, k, length, block);
    }
  }

  lemma WriteKeeps(net: Net, k: nat, body: Body)
    requires Kept(net)
    ensures Kept(Step(net, Write(k, body)))
  {
    hide Kept, Ready, Over, Idle;
    KeptIs(net);
    if MayWrite(net, k) {
      KeptPeer(net, k, net.peers[k].(pending := Some(body)));
      KeptReady(SetPeer(net, k, net.peers[k].(pending := Some(body))), k);
    }
  }

  lemma GrowKeeps(net: Net, k: nat, more: int)
    requires Kept(net)
    ensures Kept(Step(net, Grow(k, more)))
  {
    hide Kept, Resumed, Over;
    if k < |net.peers| {
      KeptIs(net);
      var p := net.peers[k];
      var p' := p.(window := p.window + more, granted := p.granted + more);
      KeptPeer(net, k, p');
      KeptResumed(SetPeer(net, k, p'), k);
    }
  }

  lemma EndKeeps(net: Net, k: nat)
    requires Kept(net)
    ensures Kept(Step(net, End(k)))
  {
    hide Kept, Over, Idle;
    KeptIs(net);
    if MayWrite(net, k) && net.peers[k].talk.declared < 0 {
      KeptEnd(net, k);
    }
  }

  lemma ControlKeeps(net: Net, f: Frame)
    requires Kept(net)
    ensures Kept(Step(net, Control(f)))
  {
    hide Kept, IsControl;
    if IsControl(f) {
      KeptControl(net, f);
    }
  }

  lemma {:induction false} KeptChecked(net: Net, index: seq<nat>)
    requires Kept(net)
    ensures Kept(Checked(net, index))
    decreases |index|
  {
    hide Kept, Ready;
    KeptIs(net);
    if index != [] {
      KeptChecked(net, index[..|index| - 1]);
      var r, k := Checked(net, index[..|index| - 1]), index[|index| - 1];
      if k < |r.peers| && r.peers[k].pending.Some? {
        KeptReady(r, k);
      }
    }
  }

  lemma KeptAdjusted(net: Net, delta: int)
    requires Kept(net)
    ensures Kept(AllAdjusted(net, delta))
  {
    hide Said, Proper, Flat, Over, OfStream, Pieces, BodyOctets, AllAdjusted;
    var r := AllAdjusted(net, delta);
    assert r.frames == net.frames && r.window == net.window && r.granted == net.granted by {
      AdjustedElse(net, delta);
    }
    forall j | 0 <= j < |r.peers|
      ensures Speaks(r.peers[j], r.frames)
    {
      assert Speaks(net.peers[j], net.frames);
    }
    forall id | Fresh(r, id)
      ensures OfStream(r.frames, id) == [] && Pieces(r.frames, id) == []
    {
      StillFresh(net, r, id);
    }
  }

  lemma AdjustedElse(net: Net, delta: int)
    requires Sane(net)
    ensures AllAdjusted(net, delta) == net.(peers := AllAdjusted(net, delta).peers)
  {
  }

  lemma AdjustKeeps(net: Net, delta: int, index: seq<nat>)
    requires Kept(net)
    ensures Kept(Step(net, Adjust(delta, index)))
  {
    hide Kept, Checked, AllAdjusted, Lists;
    KeptIs(net);
    KeptAdjusted(net, delta);
    KeptChecked(AllAdjusted(net, delta), index);
  }

  lemma KeptGrown(net: Net, more: int)
    requires Kept(net)
    ensures Kept(net.(window := net.window + more, granted := net.granted + more))
  {
    hide Speaks, OfStream, Pieces, BodyOctets;
    FreshSame(net, net.(window := net.window + more, granted := net.granted + more));
  }

  lemma GrowAllKeeps(net: Net, more: int, index: seq<nat>)
    requires Kept(net)
    ensures Kept(Step(net, GrowAll(more, index)))
  {
    hide Kept, Checked, Lists;
    KeptGrown(net, more);
    KeptChecked(net.(window := net.window + more, granted := net.granted + more), index);
  }

  lemma KeptResult(net: Net, got: int)
    requires Kept(net)
    ensures Kept(Step(net, Result(got)))
  {
    hide Speaks, OfStream, Pieces, BodyOctets;
    FreshSame(net, Step(net, Result(got)));
  }

  lemma FreshSame(a: Net, b: Net)
    requires a.peers == b.peers
    ensures forall id :: Fresh(a, id) <==> Fresh(b, id)
  {
  }

  lemma StepKept(net: Net, op: Op)
    requires Kept(net)
    ensures Kept(Step(net, op))
  {
    hide Kept, Step;
    match op
    case Open(id, window) => OpenKeeps(net, id, window);
    case Start(k, length, block) => StartKeeps(net, k, length, block);
    case Write(k, body) => WriteKeeps(net, k, body);
    case Grow(k, more) => GrowKeeps(net, k, more);
    case GrowAll(more, index) => GrowAllKeeps(net, more, index);
    case Adjust(delta, index) => AdjustKeeps(net, delta, index);
    case End(k) => EndKeeps(net, k);
    case Control(f) => ControlKeeps(net, f);
    case Result(got) => KeptResult(net, got);
  }

  /** On every run of a new connection. */
  lemma {:induction false} AlwaysKept(frameSize: nat, window: int, ops: seq<Op>)
    requires frameSize < 0x100_0000
    ensures Kept(After(Begin(frameSize, window), ops))
    decreases |ops|
  {
    hide Kept, Step;
    if ops == [] {
      BeginKept(frameSize, window);
    } else {
      var n := |ops| - 1;
      AlwaysKept(frameSize, window, ops[..n]);
      StepKept(After(Begin(frameSize, window), ops[..n]), ops[n]);
    }
  }

  lemma BeginKept(frameSize: nat, window: int)
    requires frameSize < 0x100_0000
    ensures Kept(Begin(frameSize, window))
  {
  }

  /** What a peer that reads the whole connection finds on one stream. */
  ghost predicate Understood(net: Net, p: Peer)
    requires Sane(net) && PeerSane(p)
  {
    var fs := ReadFrames(WireOf(net.frames));
    var said := OfStream(fs, p.id);
    && said == Said(p.talk, p.id)
    && (forall j :: 0 <= j < |said| ==> (said[j].flags % 2 == 1 <==> Over(p.talk) && j == |said| - 1))
    && Pieces(fs, p.id) == Lengths(BodyOf(p.talk))
  }

  /**
   On every run, whoever reads the octets accepted finds on each stream just what is said on it: its
   head, then its pieces whole and in order as if no other stream were there, and END_STREAM on the
   last frame when it is over and nowhere else.
   */
  lemma StreamReads(frameSize: nat, window: int, ops: seq<Op>, k: nat)
    requires frameSize < 0x100_0000
    ensures var net := After(Begin(frameSize, window), ops);
      k < |net.peers| ==> Understood(net, net.peers[k])
  {
    hide After, ReadFrames, WireOf, OfStream, Pieces, Said, Proper, Over, AllSound;
    AlwaysKept(frameSize, window, ops);
    var net := After(Begin(frameSize, window), ops);
    if k < |net.peers| {
      SpeaksAt(net, k);
      WholeReads(net);
      EndsOnce(net.peers[k].talk, net.peers[k].id);
    }
  }

  lemma WholeReads(net: Net)
    requires Sane(net)
    ensures ReadFrames(WireOf(net.frames)) == net.frames
  {
    hide ReadFrames, WireOf;
    ReadsOn(net.frames, []);
    NothingReads();
    assert WireOf(net.frames) + [] == WireOf(net.frames) && net.frames + [] == net.frames;
  }

  /** What writers hear of are the first pieces of their stream, and all of them once everything is sent. */
  lemma HeardInOrder(frameSize: nat, window: int, ops: seq<Op>, k: nat)
    requires frameSize < 0x100_0000
    ensures var net := After(Begin(frameSize, window), ops);
      k < |net.peers| ==>
        && Arrived(net, net.peers[k].id) <= Lengths(BodyOf(net.peers[k].talk))
        && (net.sent == |WireOf(net.frames)| ==> Arrived(net, net.peers[k].id) == Lengths(BodyOf(net.peers[k].talk)))
  {
    hide After, ReadFrames, WireOf, OfStream, Pieces, Said, Proper, Over, AllSound, WholeFrames;
    AlwaysKept(frameSize, window, ops);
    var net := After(Begin(frameSize, window), ops);
    if k < |net.peers| {
      SpeaksAt(net, k);
      PrefixReads(net.frames, net.sent);
      FewerPieces(net.frames, WholeFrames(net.frames, net.sent), net.peers[k].id);
      if net.sent == |WireOf(net.frames)| {
        AllWhole(net.frames, net.sent);
        assert net.frames[..|net.frames|] == net.frames;
      }
    }
  }

  /** Every octet of a body is charged to its stream's window and to the connection's, once. */
  lemma WindowsAccount(frameSize: nat, window: int, ops: seq<Op>)
    requires frameSize < 0x100_0000
    ensures var net := After(Begin(frameSize, window), ops);
      && net.window + BodyOctets(ReadFrames(WireOf(net.frames))) == net.granted
      && forall k :: 0 <= k < |net.peers| ==>
        net.peers[k].window + |Flat(BodyOf(net.peers[k].talk))| == net.peers[k].granted
  {
    hide After, ReadFrames, WireOf, OfStream, Pieces, Said, Proper, Over, AllSound, BodyOctets, Flat;
    AlwaysKept(frameSize, window, ops);
    var net := After(Begin(frameSize, window), ops);
    WholeReads(net);
    forall k | 0 <= k < |net.peers|
      ensures net.peers[k].window + |Flat(BodyOf(net.peers[k].talk))| == net.peers[k].granted
    {
      SpeaksAt(net, k);
    }
  }

  /** Whatever the windows are, even below zero, a piece of a body is framed only where both then cover it. */
  lemma FramedWithin(net: Net, op: Op, k: nat)
    requires Sane(net) && k < |net.peers|
    ensures var r := Step(net, op);
      && k < |r.peers|
      && (BodyOf(r.peers[k].talk) != BodyOf(net.peers[k].talk) ==> r.peers[k].window >= 0 && r.window >= 0)
  {
    hide WireOf, AllSound, Ready, Idle, Over, IsControl, Fresh, Checked, Lists;
    match op
    case Write(j, body) =>
      if MayWrite(net, j) {
        ReadyWithin(SetPeer(net, j, net.peers[j].(pending := Some(body))), j);
      }
    case Grow(j, more) =>
      if j < |net.peers| && net.peers[j].pending.Some? {
        var p := net.peers[j];
        ReadyWithin(SetPeer(net, j, p.(window := p.window + more, granted := p.granted + more)), j);
      }
    case GrowAll(more, index) =>
      CheckedWithin(net.(window := net.window + more, granted := net.granted + more), index, k);
    case Adjust(delta, index) => CheckedWithin(AllAdjusted(net, delta), index, k);
    case _ =>
  }

  lemma {:induction false} CheckedWithin(net: Net, index: seq<nat>, k: nat)
    requires Sane(net) && k < |net.peers|
    ensures var r := Checked(net, index);
      |r.peers| == |net.peers| && (r.peers[k].talk != net.peers[k].talk ==> r.peers[k].window >= 0 && r.window >= 0)
    decreases |index|
  {
    hide WireOf, AllSound, Ready;
    if index != [] {
      CheckedWithin(net, index[..|index| - 1], k);
      var r, j := Checked(net, index[..|index| - 1]), index[|index| - 1];
      if j < |r.peers| && r.peers[j].pending.Some? {
        ReadyWithin(r, j);
      }
    }
  }

  lemma ReadyWithin(net: Net, j: nat)
    requires Sane(net) && j < |net.peers| && net.peers[j].pending.Some?
    ensures var r := Ready(net, j);
      || r == net
      || (&& |r.peers| == |net.peers| && r.peers[j].window >= 0 && r.window >= 0
          && forall i :: 0 <= i < |net.peers| && i != j ==> r.peers[i] == net.peers[i])
  {
    hide WireOf, AllSound, Offers, Payload, Total, Left, Ends;
    var body, allowed := net.peers[j].pending.value, Allowed(net, j);
    if allowed > 0 && Offers(body, allowed) {
      OfferedIs(body, allowed);
    }
  }

  /** Nothing is ever taken back. */
  predicate Grants(op: Op)
  {
    match op
    case Open(_, window) => window >= 0
    case Grow(_, more) => more >= 0
    case GrowAll(more, _) => more >= 0
    case Adjust(delta, _) => delta >= 0
    case _ => true
  }

  ghost predicate Covered(net: Net)
  {
    net.window >= 0 && forall k :: 0 <= k < |net.peers| ==> net.peers[k].window >= 0
  }

  /** Where windows only grow, no more is framed than both windows allow. */
  lemma {:induction false} NeverOverdrawn(frameSize: nat, window: nat, ops: seq<Op>)
    requires frameSize < 0x100_0000 && forall op :: op in ops ==> Grants(op)
    ensures Covered(After(Begin(frameSize, window), ops))
    decreases |ops|
  {
    hide Step, Covered;
    if ops == [] {
      CoveredAtFirst(frameSize, window);
    } else {
      var n := |ops| - 1;
      NeverOverdrawn(frameSize, window, ops[..n]);
      StepCovered(After(Begin(frameSize, window), ops[..n]), ops[n]);
    }
  }

  lemma CoveredAtFirst(frameSize: nat, window: nat)
    requires frameSize < 0x100_0000
    ensures Covered(Begin(frameSize, window))
  {
  }

  lemma ReadyCovered(net: Net, k: nat)
    requires Sane(net) && Covered(net) && k < |net.peers| && net.peers[k].pending.Some?
    ensures Covered(Ready(net, k))
  {
    hide WireOf, AllSound, Offers, Payload, Total, Left, Ends;
    var body, allowed := net.peers[k].pending.value, Allowed(net, k);
    if allowed > 0 && Offers(body, allowed) {
      OfferedIs(body, allowed);
    }
  }

  lemma {:induction false} CheckedCovered(net: Net, index: seq<nat>)
    requires Sane(net) && Covered(net)
    ensures Covered(Checked(net, index))
    decreases |index|
  {
    hide Ready, Covered;
    if index != [] {
      CheckedCovered(net, index[..|index| - 1]);
      var r, k := Checked(net, index[..|index| - 1]), index[|index| - 1];
      if k < |r.peers| && r.peers[k].pending.Some? {
        ReadyCovered(r, k);
      }
    }
  }

  lemma StepCovered(net: Net, op: Op)
    requires Sane(net) && Covered(net) && Grants(op)
    ensures Covered(Step(net, op))
  {
    hide WireOf, AllSound, Ready, Idle, Over, IsControl, Fresh;
    match op
    case Write(k, body) =>
      if MayWrite(net, k) {
        ReadyCovered(SetPeer(net, k, net.peers[k].(pending := Some(body))), k);
      }
    case Grow(k, more) =>
      if k < |net.peers| && net.peers[k].pending.Some? {
        var p := net.peers[k];
        ReadyCovered(SetPeer(net, k, p.(window := p.window + more, granted := p.granted + more)), k);
      }
    case GrowAll(more, index) =>
      CheckedCovered(net.(window := net.window + more, granted := net.granted + more), index);
    case Adjust(delta, index) => CheckedCovered(AllAdjusted(net, delta), index);
    case _ =>
  }
}
