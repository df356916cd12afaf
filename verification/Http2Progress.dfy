/** What the events of a connection bring about: what is asked for is framed, and who writes is told in the end. */
module Http2Progress {
  import opened Bytes
  import opened Numbers
  import opened Parts
  import opened WriteQueue
  import opened DataFrames
  import opened Http2Wire
  import opened Http2Model

  /** The octets that a body offers in all. */
  function Content(body: Body): seq<byte>
    requires Holds(body)
  {
    match body
    case Memory(segments, length) => Joined(segments)[..length]
    case File(content, offset, length) => content[offset..offset + length]
  }

  /** A body has as many octets as it says. */
  predicate Holds(body: Body)
  {
    match body
    case Memory(segments, length) => length <= |Joined(segments)|
    case File(content, offset, length) => offset + length <= |content|
  }

  /** How much of a body goes into one frame: as much as is allowed, the length of a file being cut to 16 bits. */
  function Piece(body: Body, allowed: nat): nat
  {
    if body.Memory? then Min(allowed, body.length) else Min(allowed, body.length) % 0x1_0000
  }

  /** A body that has what it says offers its first octets, or nothing when there are none to go into a frame. */
  lemma OffersFirst(body: Body, allowed: nat)
    requires Holds(body)
    ensures Piece(body, allowed) <= |Content(body)|
    ensures Offers(body, allowed) <==> Piece(body, allowed) > 0
    ensures Offers(body, allowed) ==> Payload(body, allowed) == Content(body)[..Piece(body, allowed)]
  {
  }

  /** The writer of stream `k` may write: its head is out, nothing ends it, it waits for nothing. */
  predicate Writable(net: Net, k: nat)
    requires Sane(net)
  {
    && net.open && k < |net.peers| && net.peers[k].talk.Talking? && !Over(net.peers[k].talk)
    && net.peers[k].pending.None?
    && Pieces(ReadFrames(WireOf(net.frames)), net.peers[k].id) == Arrived(net, net.peers[k].id)
  }

  /** An event by which a body of stream `k` is to be framed. */
  predicate Tries(net: Net, op: Op, k: nat, body: Body)
    requires Sane(net)
  {
    && net.open && k < |net.peers|
    && match op
       case Write(j, b) => j == k && b == body && Writable(net, k)
       case Grow(j, _) => j == k && net.peers[k].pending == Some(body)
       case _ => false
  }

  function Wider(op: Op): int
  {
    if op.Grow? then op.more else 0
  }

  /** Only stream `k`, the windows and the frames are others than before. */
  predicate OthersStay(net: Net, r: Net, k: nat)
  {
    && |r.peers| == |net.peers| && r.frameSize == net.frameSize && r.sent == net.sent && r.open == net.open
    && r.granted == net.granted && forall j :: 0 <= j < |net.peers| && j != k ==> r.peers[j] == net.peers[j]
  }

  /** What may go into one frame, with the stream's window as it is now. */
  function Fitting(net: Net, window: int, body: Body): nat
  {
    var allowed := Min(Min(net.frameSize, window), net.window);
    if allowed <= 0 then 0 else Piece(body, allowed)
  }

  /** The first `n` octets of a body went into a frame, or with none of them the body waits. */
  predicate Went(p: Peer, q: Peer, frames: seq<Frame>, frames': seq<Frame>, body: Body, n: nat)
    requires Holds(body) && n <= |Content(body)|
  {
    if n == 0 then q.pending == Some(body) && q.talk == p.talk && frames' == frames
    else
      && p.talk.Talking? && q.pending.None?
      && q.talk == p.talk.(payloads := p.talk.payloads + [Content(body)[..n]])
      && frames' == frames + [Frame(DATA, if Ends(Left(p.talk), n) then END_STREAM else 0, p.id, Content(body)[..n])]
  }

  /** What became of trying to frame a body of stream `k`, its window being wider by `more`. */
  predicate Outcome(net: Net, r: Net, k: nat, body: Body, more: int)
    requires k < |net.peers| && Holds(body)
  {
    var p := net.peers[k];
    var n := Fitting(net, p.window + more, body);
    && n <= |Content(body)| && OthersStay(net, r, k) && r.window == net.window - n
    && r.peers[k].id == p.id && r.peers[k].granted == p.granted + more
    && r.peers[k].window == p.window + more - n
    && Went(p, r.peers[k], net.frames, r.frames, body, n)
  }

  lemma ReadyDoes(net: Net, k: nat, body: Body)
    requires Sane(net) && k < |net.peers| && net.peers[k].pending == Some(body) && Holds(body)
    ensures Outcome(net, Ready(net, k), k, body, 0)
  {
    hide WireOf, AllSound, Left, Ends, Payload, Offers, Content, Piece;
    var allowed := Allowed(net, k);
    PieceFits(body, allowed);
    if allowed > 0 {
      OffersFirst(body, allowed);
    }
  }

  lemma PieceFits(body: Body, allowed: int)
    requires Holds(body)
    ensures allowed > 0 ==> Piece(body, allowed) <= |Content(body)|
  {
  }

  /**
   Writing, and a wider window for what waits, put the first octets of the body into a frame, as many as the
   frame size and both windows allow; where these allow nothing the body waits, and nothing else happens.
   */
  lemma FramedOrWaits(net: Net, op: Op, k: nat, body: Body)
    requires Sane(net) && Tries(net, op, k, body) && Holds(body)
    ensures k < |net.peers| && Outcome(net, Step(net, op), k, body, Wider(op))
  {
    hide WireOf, AllSound, ReadFrames, Pieces, Over, Piece, Content, Ready, Left, Ends, Holds;
    var p := net.peers[k];
    match op
    case Write(_, _) => ReadyDoes(SetPeer(net, k, p.(pending := Some(body))), k, body);
    case Grow(_, more) =>
      ReadyDoes(SetPeer(net, k, p.(window := p.window + more, granted := p.granted + more)), k, body);
  }

  /** The stream's first frame is its head, which also ends it exactly when its body is declared to be empty. */
  lemma StartSays(net: Net, k: nat, length: int, block: seq<byte>)
    requires Sane(net) && net.open && k < |net.peers| && net.peers[k].talk.Silent? && |block| <= net.frameSize
    ensures var p, r := net.peers[k], Step(net, Start(k, length, block));
      && OthersStay(net, r, k) && r.window == net.window
      && r.peers[k] == p.(talk := Talking(block, if length >= 0 then length else -1, [], false))
      && r.frames == net.frames + [Frame(HEADERS, if length == 0 then 5 else 4, p.id, block)]
  {
    hide WireOf;
  }

  /** Ending a body of no declared length is an empty frame with END_STREAM. */
  lemma EndSays(net: Net, k: nat)
    requires Sane(net) && Writable(net, k) && net.peers[k].talk.declared < 0
    ensures var p, r := net.peers[k], Step(net, End(k));
      && OthersStay(net, r, k) && r.window == net.window && Over(r.peers[k].talk)
      && r.peers[k] == p.(talk := p.talk.(ended := true))
      && r.frames == net.frames + [Frame(DATA, 1, p.id, [])]
  {
    hide WireOf, ReadFrames, Pieces;
  }

  lemma {:induction false} CheckedElse(net: Net, index: seq<nat>)
    requires Sane(net)
    ensures var r := Checked(net, index);
      r.frameSize == net.frameSize && r.granted == net.granted && r.sent == net.sent && r.open == net.open
    decreases |index|
  {
    hide Ready;
    if index != [] {
      CheckedElse(net, index[..|index| - 1]);
      var r, k := Checked(net, index[..|index| - 1]), index[|index| - 1];
      if k < |r.peers| && r.peers[k].pending.Some? {
        ReadyElse(r, k);
      }
    }
  }

  /** What the other events do. */
  lemma OtherSteps(net: Net, op: Op)
    requires Sane(net) && net.open
    ensures var r := Step(net, op);
      match op
      case Open(id, window) =>
        Fresh(net, id) ==> r == net.(peers := net.peers + [Peer(id, window, window, Silent, Option.None)])
      case GrowAll(more, index) =>
        Lists(index, |net.peers|) ==>
          && r.granted == net.granted + more && r.sent == net.sent
          && (net.window > 0 ==> r == net.(window := net.window + more, granted := net.granted + more))
      case Grow(k, more) =>
        k < |net.peers| && net.peers[k].pending.None? ==>
          OthersStay(net, r, k) && r.window == net.window && r.frames == net.frames
          && r.peers[k] == net.peers[k].(window := net.peers[k].window + more, granted := net.peers[k].granted + more)
      case Control(f) =>
        Sound(f) && f.kind != DATA && f.kind != HEADERS ==> r == net.(frames := net.frames + [f])
      case Result(got) =>
        && (got <= 0 ==> r == net.(open := false))
        && (0 < got <= |WireOf(net.frames)| - net.sent ==> r == net.(sent := net.sent + got))
      case _ => true
  {
    hide WireOf, Sound, Checked, Lists;
    match op
    case GrowAll(more, index) => CheckedElse(net.(window := net.window + more, granted := net.granted + more), index);
    case _ =>
  }

  /** Something of the body goes into every frame of up to `frameSize` octets. */
  predicate Fills(body: Body, frameSize: nat)
  {
    Holds(body) && body.length > 0 && (body.File? ==> body.length < 0x1_0000 || frameSize < 0x1_0000)
  }

  /** Trying to frame what waits on one stream changes no other, and never widens a window. */
  lemma ReadyElse(net: Net, k: nat)
    requires Sane(net) && k < |net.peers| && net.peers[k].pending.Some?
    ensures OthersStay(net, Ready(net, k), k) && Ready(net, k).window <= net.window
    ensures Ready(net, k).window >= net.window - net.frameSize
    ensures Ready(net, k).peers[k].window <= net.peers[k].window && Ready(net, k).peers[k].id == net.peers[k].id
    ensures Ready(net, k).peers[k].pending.Some? ==> Ready(net, k) == net
    ensures net.frames <= Ready(net, k).frames
    ensures Ready(net, k) == net || |Ready(net, k).frames| == |net.frames| + 1
  {
    hide WireOf, AllSound, Left, Ends, Payload, Offers;
    var body, allowed := net.peers[k].pending.value, Allowed(net, k);
    if allowed > 0 && Offers(body, allowed) {
      OfferedIs(body, allowed);
    }
  }

  /** What waits on a stream, if it has something for every frame, waits for a window that is used up. */
  predicate Served(net: Net, k: nat)
    requires k < |net.peers|
  {
    net.peers[k].pending.Some? && net.frameSize > 0 && Fills(net.peers[k].pending.value, net.frameSize) ==>
      net.peers[k].window <= 0 || net.window <= 0
  }

  ghost predicate AllServed(net: Net)
  {
    forall k :: 0 <= k < |net.peers| ==> Served(net, k)
  }

  /** Trying serves that stream, if both windows are open, and unserves no other. */
  lemma TryingServes(net: Net, j: nat, k: nat)
    requires Sane(net) && k < |net.peers|
    ensures var r := Tried(net, j);
      && |r.peers| == |net.peers| && r.frameSize == net.frameSize
      && (j == k || Served(net, k) ==> Served(r, k))
  {
    hide WireOf, AllSound, Ready, Fitting, Content, Left, Ends, Holds;
    if j < |net.peers| && net.peers[j].pending.Some? {
      ReadyElse(net, j);
      if j == k && Fills(net.peers[k].pending.value, net.frameSize) && net.frameSize > 0 {
        FillsHolds(net.peers[k].pending.value, net.frameSize);
        ReadyDoes(net, k, net.peers[k].pending.value);
        OpenFits(net, net.peers[k].window, net.peers[k].pending.value);
      }
    }
  }

  lemma FillsHolds(body: Body, frameSize: nat)
    requires Fills(body, frameSize)
    ensures Holds(body) && body.length > 0
  {
  }

  lemma OpenFits(net: Net, window: int, body: Body)
    requires net.frameSize > 0 && Fills(body, net.frameSize)
    ensures Fitting(net, window, body) == if window <= 0 || net.window <= 0 then 0
      else Min(Min(Min(net.frameSize, window), net.window), body.length)
  {
  }

  lemma {:induction false} CheckingServes(net: Net, index: seq<nat>, k: nat)
    requires Sane(net) && k < |net.peers|
    ensures var r := Checked(net, index);
      && |r.peers| == |net.peers| && r.frameSize == net.frameSize
      && (k in index || Served(net, k) ==> Served(r, k))
    decreases |index|
  {
    hide Tried, Served;
    if index != [] {
      CheckingServes(net, index[..|index| - 1], k);
      TryingServes(Checked(net, index[..|index| - 1]), index[|index| - 1], k);
    }
  }

  lemma CheckedServes(net: Net, index: seq<nat>)
    requires Sane(net) && Lists(index, |net.peers|)
    ensures AllServed(Checked(net, index))
  {
    hide Checked, Served;
    forall k | 0 <= k < |net.peers|
      ensures Served(Checked(net, index), k)
    {
      CheckingServes(net, index, k);
    }
  }

  /** Nothing that waits has become able to go on. */
  predicate NoneFreed(net: Net, r: Net)
  {
    && r.frameSize == net.frameSize && r.window <= net.window && |r.peers| >= |net.peers|
    && (forall k :: 0 <= k < |net.peers| && r.peers[k].pending.Some? ==>
      r.peers[k].pending == net.peers[k].pending && r.peers[k].window <= net.peers[k].window)
    && forall k :: |net.peers| <= k < |r.peers| ==> r.peers[k].pending.None?
  }

  lemma StillServed(net: Net, r: Net)
    requires AllServed(net) && NoneFreed(net, r)
    ensures AllServed(r)
  {
    hide Fills;
    forall k | 0 <= k < |r.peers|
      ensures Served(r, k)
    {
      if k < |net.peers| {
        assert Served(net, k);
      }
    }
  }

  /** A stream whose window or waiting body is another, and which is tried then, is served, and the others were. */
  lemma TriedIsServed(net: Net, k: nat, p: Peer)
    requires Sane(net) && AllServed(net) && k < |net.peers| && PeerSane(p)
    ensures AllServed(Resumed(SetPeer(net, k, p), k))
  {
    hide WireOf, AllSound, Ready, Fills, Resumed;
    var waits := SetPeer(net, k, p);
    forall j | 0 <= j < |net.peers|
      ensures j < |Resumed(waits, k).peers| && Served(Resumed(waits, k), j)
    {
      assert Served(net, j);
      ResumingServes(waits, k, j);
    }
    ResumingServes(waits, k, k);
  }

  lemma ResumingServes(net: Net, j: nat, k: nat)
    requires Sane(net) && j < |net.peers| && k < |net.peers|
    ensures var r := Resumed(net, j);
      && |r.peers| == |net.peers| && (j == k || Served(net, k) ==> Served(r, k))
  {
    hide WireOf, AllSound, Ready, Fitting, Content, Left, Ends, Holds;
    if net.peers[j].pending.Some? {
      ReadyElse(net, j);
      if j == k && Fills(net.peers[k].pending.value, net.frameSize) && net.frameSize > 0 {
        FillsHolds(net.peers[k].pending.value, net.frameSize);
        ReadyDoes(net, k, net.peers[k].pending.value);
        OpenFits(net, net.peers[k].window, net.peers[k].pending.value);
      }
    }
  }

  lemma StepServes(net: Net, op: Op)
    requires Sane(net) && AllServed(net)
    ensures AllServed(Step(net, op))
  {
    hide WireOf, AllSound, Ready, Idle, Over, Checked, AllServed, Lists, Fresh, IsControl;
    if net.open {
      match op
      case Write(k, body) =>
        if MayWrite(net, k) {
          TriedIsServed(net, k, net.peers[k].(pending := Some(body)));
        }
      case Grow(k, more) =>
        if k < |net.peers| {
          var p := net.peers[k];
          TriedIsServed(net, k, p.(window := p.window + more, granted := p.granted + more));
        }
      case GrowAll(more, index) =>
        var wide := net.(window := net.window + more, granted := net.granted + more);
        if Lists(index, |net.peers|) {
          if net.window <= 0 {
            CheckedServes(wide, index);
          } else {
            OpenToAll(net, wide);
          }
        }
      case Adjust(delta, index) =>
        if Lists(index, |net.peers|) {
          CheckedServes(AllAdjusted(net, delta), index);
        }
      case _ => StillServed(net, Step(net, op));
    }
  }

  /** With the connection's window open, whatever waits does so for its own window. */
  lemma OpenToAll(net: Net, wide: Net)
    requires AllServed(net) && net.window > 0 && wide.peers == net.peers && wide.frameSize == net.frameSize
    ensures AllServed(wide)
  {
    hide Fills;
    forall k | 0 <= k < |wide.peers|
      ensures Served(wide, k)
    {
      assert Served(net, k);
    }
  }

  /**
   On every run a body waits only while its stream's window or the connection's is used up, although streams
   are looked through for those that wait only when the connection's window was used up before it grew.
   */
  lemma {:induction false} NoneWaitsInVain(frameSize: nat, window: int, ops: seq<Op>)
    requires frameSize < 0x100_0000
    ensures AllServed(After(Begin(frameSize, window), ops))
    decreases |ops|
  {
    hide Step, Served;
    if ops != [] {
      NoneWaitsInVain(frameSize, window, ops[..|ops| - 1]);
      StepServes(After(Begin(frameSize, window), ops[..|ops| - 1]), ops[|ops| - 1]);
    }
  }

  /** A first part of the body that waited went into a frame of its own. */
  predicate GotOut(p: Peer, q: Peer, body: Body)
    requires Holds(body)
  {
    && p.talk.Talking? && q.talk.Talking? && q.id == p.id && q.pending.None?
    && |q.talk.payloads| == |p.talk.payloads| + 1 && p.talk.payloads <= q.talk.payloads
    && q.talk == p.talk.(payloads := q.talk.payloads)
    && var piece := q.talk.payloads[|p.talk.payloads|]; piece != [] && piece <= Content(body)
  }

  lemma {:induction false} CheckGrantsNothing(net: Net, index: seq<nat>, k: nat)
    requires Sane(net) && k < |net.peers|
    ensures |Checked(net, index).peers| == |net.peers|
    ensures Checked(net, index).peers[k].granted == net.peers[k].granted
    decreases |index|
  {
    hide WireOf, AllSound, Offers, Payload;
    if index != [] {
      CheckGrantsNothing(net, index[..|index| - 1], k);
    }
  }

  /** A change of the initial window reaches the window of every stream that it does not take past the greatest one. */
  lemma AdjustGrants(net: Net, delta: int, index: seq<nat>, k: nat)
    requires Sane(net) && net.open && k < |net.peers| && Lists(index, |net.peers|)
    ensures var r := Step(net, Adjust(delta, index));
      && |r.peers| == |net.peers| && r.granted == net.granted
      && r.peers[k].granted
        == net.peers[k].granted + if delta > 0 && net.peers[k].window + delta > 0x7fff_ffff then 0 else delta
  {
    hide WireOf, Checked, Lists;
    CheckedElse(AllAdjusted(net, delta), index);
    CheckGrantsNothing(AllAdjusted(net, delta), index, k);
  }

  /** What one try, or a whole check, does to stream `k`. */
  predicate Moved(net: Net, r: Net, k: nat)
    requires k < |net.peers|
  {
    && |r.peers| == |net.peers| && net.frames <= r.frames && r.frameSize == net.frameSize
    && (r.peers[k] == net.peers[k]
        || (&& |r.frames| > |net.frames| && net.peers[k].pending.Some? && r.peers[k].pending.None?
            && (Holds(net.peers[k].pending.value) ==>
                GotOut(net.peers[k], r.peers[k], net.peers[k].pending.value))))
  }

  lemma TryMoves(net: Net, j: nat, k: nat)
    requires Sane(net) && k < |net.peers|
    ensures Moved(net, Tried(net, j), k) && Tried(net, j).window >= net.window - net.frameSize
  {
    hide WireOf, AllSound, Ready, Left, Ends, Content, Holds;
    if j < |net.peers| && net.peers[j].pending.Some? {
      ReadyElse(net, j);
      if j == k {
        ReadyMoves(net, k);
      }
    }
  }

  lemma ReadyMoves(net: Net, k: nat)
    requires Sane(net) && k < |net.peers| && net.peers[k].pending.Some?
    ensures Moved(net, Ready(net, k), k)
  {
    hide WireOf, AllSound, Ready, Left, Ends, Content, Holds, Fitting;
    ReadyElse(net, k);
    if Holds(net.peers[k].pending.value) {
      ReadyDoes(net, k, net.peers[k].pending.value);
    }
  }

  lemma {:induction false} CheckMoves(net: Net, index: seq<nat>, k: nat)
    requires Sane(net) && k < |net.peers|
    ensures Moved(net, Checked(net, index), k)
    ensures Checked(net, index).window >= net.window - |index| * net.frameSize
    decreases |index|
  {
    hide Tried, Holds, GotOut;
    if index != [] {
      CheckMoves(net, index[..|index| - 1], k);
      TryMoves(Checked(net, index[..|index| - 1]), index[|index| - 1], k);
      OneLess(|index|, net.frameSize);
    }
  }

  lemma OneLess(n: nat, w: nat)
    requires n > 0
    ensures n * w == (n - 1) * w + w
  {
  }

  /** How much wider a window has to be to allow an octet. */
  function Lack(window: int): nat
  {
    Max(0, 1 - window)
  }

  /** The window of a stream opens, and the connection's, wide enough for a frame of every stream before it. */
  function Opening(net: Net, k: nat, index: seq<nat>): seq<Op>
    requires k < |net.peers|
  {
    [Grow(k, Lack(net.peers[k].window)), GrowAll(Lack(net.window) + |index| * net.frameSize, index)]
  }

  lemma GrowMoves(net: Net, k: nat, body: Body, more: nat)
    requires Sane(net) && net.open && k < |net.peers| && net.peers[k].pending == Some(body)
    requires net.frameSize > 0 && Fills(body, net.frameSize) && net.peers[k].window + more > 0
    ensures var r := Step(net, Grow(k, more));
      && k < |r.peers| && |r.peers| == |net.peers| && r.open && r.frameSize == net.frameSize && r.sent == net.sent
      && net.frames <= r.frames && r.peers[k].id == net.peers[k].id
      && (if r.peers[k].pending.Some? then
            && net.window <= 0 && r.window == net.window && r.peers[k].window > 0 && r.peers[k].pending == Some(body)
            && r.peers[k].talk == net.peers[k].talk
          else GotOut(net.peers[k], r.peers[k], body) && |r.frames| > |net.frames|)
  {
    hide WireOf, AllSound, ReadFrames, Pieces, Over, Content, Left, Ends, Step, Fitting, Holds, Writable;
    FillsHolds(body, net.frameSize);
    FramedOrWaits(net, Grow(k, more), k, body);
    OpenFits(net, net.peers[k].window + more, body);
  }

  lemma GrowAllMoves(net: Net, k: nat, more: nat, index: seq<nat>)
    requires Sane(net) && net.open && k < |net.peers| && Lists(index, |net.peers|)
    ensures var r := Step(net, GrowAll(more, index));
      && r.open && r.sent == net.sent && Moved(net, r, k)
      && (net.window <= 0 && net.window + more > |index| * net.frameSize && net.peers[k].window > 0
          && net.peers[k].pending.Some? && net.frameSize > 0 && Fills(net.peers[k].pending.value, net.frameSize) ==>
            r.peers[k].pending.None?)
  {
    hide WireOf, AllSound, Checked, Holds, GotOut, Fills;
    var wide := net.(window := net.window + more, granted := net.granted + more);
    if net.window <= 0 {
      CheckedElse(wide, index);
      CheckMoves(wide, index, k);
      CheckingServes(wide, index, k);
    }
  }

  /** A body that waits, and has something for every frame, gets out when the windows open. */
  lemma OpeningFrees(net: Net, k: nat, body: Body, index: seq<nat>)
    requires Sane(net) && net.open && k < |net.peers| && net.peers[k].pending == Some(body)
    requires net.frameSize > 0 && Fills(body, net.frameSize) && Lists(index, |net.peers|)
    ensures var r := Step(Step(net, Opening(net, k, index)[0]), Opening(net, k, index)[1]);
      && k < |r.peers| && r.open && r.sent == net.sent && net.frames <= r.frames && |r.frames| > |net.frames|
      && GotOut(net.peers[k], r.peers[k], body)
  {
    hide WireOf, AllSound, Content, Step, Lists;
    GrowMoves(net, k, body, Lack(net.peers[k].window));
    var grown := Step(net, Opening(net, k, index)[0]);
    GrowAllMoves(grown, k, Lack(net.window) + |index| * net.frameSize, index);
  }

  /** A stream whose writer does not wait is left alone by windows that open. */
  lemma OpeningLeaves(net: Net, k: nat, x: Net, index: seq<nat>)
    requires Sane(net) && net.open && k < |net.peers| && net.peers[k].pending.None? && k < |x.peers|
    requires Lists(index, |net.peers|)
    ensures var r := Step(Step(net, Opening(x, k, index)[0]), Opening(x, k, index)[1]);
      && k < |r.peers| && r.open && r.sent == net.sent && net.frames <= r.frames
      && r.peers[k].talk == net.peers[k].talk && r.peers[k].id == net.peers[k].id && r.peers[k].pending.None?
  {
    hide WireOf, AllSound, Content, Step, Lists;
    OtherSteps(net, Opening(x, k, index)[0]);
    GrowAllMoves(Step(net, Opening(x, k, index)[0]), k, Lack(x.window) + |index| * x.frameSize, index);
  }

  /** A run after which everything accepted is sent. */
  function Flushed(frameSize: nat, window: int, ops: seq<Op>): (r: Net)
    requires frameSize < 0x100_0000
    ensures Sane(r)
  {
    var net := After(Begin(frameSize, window), ops);
    After(Begin(frameSize, window), ops + [Result(|WireOf(net.frames)| - net.sent)])
  }

  /** When everything accepted is sent, writers were told the lengths of all pieces. */
  lemma ToldWhenSent(frameSize: nat, window: int, ops: seq<Op>, k: nat)
    requires frameSize < 0x100_0000
    requires var net := After(Begin(frameSize, window), ops);
      net.open && k < |net.peers| && net.sent < |WireOf(net.frames)|
    ensures var net, all := After(Begin(frameSize, window), ops), Flushed(frameSize, window, ops);
      all.open && all.peers == net.peers && Heard(all, k) == Lengths(BodyOf(net.peers[k].talk))
  {
    hide After, WireOf, Arrived, Step, AllSound;
    var net := After(Begin(frameSize, window), ops);
    var rest := |WireOf(net.frames)| - net.sent;
    var more := ops + [Result(rest)];
    AfterOneMore(Begin(frameSize, window), ops, Result(rest));
    OtherSteps(net, Result(rest));
    HeardInOrder(frameSize, window, more, k);
  }

  lemma AfterOneMore(net: Net, ops: seq<Op>, op: Op)
    requires Sane(net)
    ensures After(net, ops + [op]) == Step(After(net, ops), op)
  {
    hide Step;
    assert (ops + [op])[..|ops|] == ops;
  }

  lemma AfterOpening(net: Net, ops: seq<Op>, k: nat, x: Net, index: seq<nat>)
    requires Sane(net) && k < |x.peers|
    ensures After(net, ops + Opening(x, k, index))
      == Step(Step(After(net, ops), Opening(x, k, index)[0]), Opening(x, k, index)[1])
  {
    hide Step, After;
    var two := Opening(x, k, index);
    AfterOneMore(net, ops, two[0]);
    AfterOneMore(net, ops + [two[0]], two[1]);
    assert ops + [two[0]] + [two[1]] == ops + two;
  }

  lemma {:induction false} MoreToSend(fs: seq<Frame>, n: nat)
    requires AllSound(fs) && n <= |fs|
    ensures |WireOf(fs)| >= |WireOf(fs[..n])| + |fs| - n
    decreases |fs|
  {
    if n < |fs| {
      MoreToSend(fs[..|fs| - 1], n);
      assert fs[..|fs| - 1][..n] == fs[..n];
    } else {
      assert fs[..n] == fs;
    }
  }

  /** What got out is heard of when everything is sent. */
  lemma HeardMore(frameSize: nat, window: int, ops: seq<Op>, net: Net, k: nat, body: Body)
    requires frameSize < 0x100_0000 && Sane(net) && k < |net.peers| && Holds(body)
    requires var r := After(Begin(frameSize, window), ops);
      && k < |r.peers| && r.open && r.sent == net.sent && net.frames <= r.frames && |r.frames| > |net.frames|
      && GotOut(net.peers[k], r.peers[k], body)
    ensures TellsNext(net, Flushed(frameSize, window, ops), k, body)
  {
    hide After, WireOf, Heard, Content, AllSound, Flushed;
    var r := After(Begin(frameSize, window), ops);
    MoreToSend(r.frames, |net.frames|);
    assert r.frames[..|net.frames|] == net.frames;
    ToldWhenSent(frameSize, window, ops, k);
    var piece := r.peers[k].talk.payloads[|net.peers[k].talk.payloads|];
    assert r.peers[k].talk.payloads == net.peers[k].talk.payloads + [piece];
    OneLonger(net.peers[k].talk.payloads, piece);
  }

  lemma OneLonger(payloads: seq<seq<byte>>, p: seq<byte>)
    ensures Lengths(payloads + [p]) == Lengths(payloads) + [|p|]
  {
  }

  /** All was sent, and the last thing a stream's writers heard is the length of a first part of this body. */
  predicate TellsNext(net: Net, all: Net, k: nat, body: Body)
    requires Sane(all) && k < |net.peers| && Holds(body)
  {
    && all.open && k < |all.peers| && GotOut(net.peers[k], all.peers[k], body)
    && Heard(all, k)
      == Lengths(BodyOf(net.peers[k].talk)) + [|all.peers[k].talk.payloads[|net.peers[k].talk.payloads|]|]
  }

  lemma {:induction false} FrameSizeStays(frameSize: nat, window: int, ops: seq<Op>)
    requires frameSize < 0x100_0000
    ensures After(Begin(frameSize, window), ops).frameSize == frameSize
    decreases |ops|
  {
    hide Step;
    if ops != [] {
      FrameSizeStays(frameSize, window, ops[..|ops| - 1]);
      StepFrameSize(After(Begin(frameSize, window), ops[..|ops| - 1]), ops[|ops| - 1]);
    }
  }

  lemma StepFrameSize(net: Net, op: Op)
    requires Sane(net)
    ensures Step(net, op).frameSize == net.frameSize
  {
    hide WireOf, Idle, Over, Checked, Lists;
    match op
    case GrowAll(more, index) => CheckedElse(net.(window := net.window + more, granted := net.granted + more), index);
    case Adjust(delta, index) => CheckedElse(AllAdjusted(net, delta), index);
    case _ =>
  }

  /**
   On every run a body that waits gets out, and its writer is told, once the windows open and everything is
   sent, whatever other streams wait and in whatever order they are looked through.
   */
  lemma NoWriterIsStuck(frameSize: nat, window: int, ops: seq<Op>, k: nat, body: Body, index: seq<nat>)
    requires 0 < frameSize < 0x100_0000 && Fills(body, frameSize)
    requires var net := After(Begin(frameSize, window), ops);
      net.open && k < |net.peers| && net.peers[k].pending == Some(body) && Lists(index, |net.peers|)
    ensures var net := After(Begin(frameSize, window), ops);
      TellsNext(net, Flushed(frameSize, window, ops + Opening(net, k, index)), k, body)
  {
    hide After, Step, GotOut, Flushed, Heard, TellsNext, Lists;
    var start := Begin(frameSize, window);
    var net := After(start, ops);
    FrameSizeStays(frameSize, window, ops);
    OpeningFrees(net, k, body, index);
    AfterOpening(start, ops, k, net, index);
    HeardMore(frameSize, window, ops + Opening(net, k, index), net, k, body);
  }

  /**
   On every run whoever may write, and writes, hears next the length of what went into its frame, once the
   windows open and everything is sent.
   */
  lemma EveryWriteIsHeard(frameSize: nat, window: int, ops: seq<Op>, k: nat, body: Body, index: seq<nat>)
    requires 0 < frameSize < 0x100_0000 && Fills(body, frameSize)
    requires Writable(After(Begin(frameSize, window), ops), k)
    requires Lists(index, |After(Begin(frameSize, window), ops).peers|)
    ensures var net := After(Begin(frameSize, window), ops);
      var taken := After(Begin(frameSize, window), ops + [Write(k, body)]);
      && k < |taken.peers|
      && var all := Flushed(frameSize, window, ops + [Write(k, body)] + Opening(taken, k, index));
        TellsNext(net, all, k, body) && Heard(net, k) == Lengths(BodyOf(net.peers[k].talk))
  {
    hide After, Step, GotOut, Flushed, Heard, TellsNext, Lists, Arrived, WireOf, ReadFrames, Pieces, Over;
    var start := Begin(frameSize, window);
    var net := After(start, ops);
    FrameSizeStays(frameSize, window, ops);
    AfterOneMore(start, ops, Write(k, body));
    WriteMoves(net, k, body);
    AllHeard(frameSize, window, ops, k);
    var taken := After(start, ops + [Write(k, body)]);
    AfterOpening(start, ops + [Write(k, body)], k, taken, index);
    if taken.peers[k].pending.Some? {
      OpeningFrees(taken, k, body, index);
    } else {
      OpeningLeaves(taken, k, taken, index);
    }
    var after := After(start, ops + [Write(k, body)] + Opening(taken, k, index));
    OutStill(net.peers[k], taken.peers[k], after.peers[k], body);
    HeardMore(frameSize, window, ops + [Write(k, body)] + Opening(taken, k, index), net, k, body);
  }

  /** Whichever of the two steps let the piece out. */
  lemma OutStill(p: Peer, taken: Peer, after: Peer, body: Body)
    requires Holds(body) && taken.id == p.id
    requires if taken.pending.Some? then taken.talk == p.talk && GotOut(taken, after, body)
      else GotOut(p, taken, body) && after.talk == taken.talk && after.id == taken.id && after.pending.None?
    ensures GotOut(p, after, body)
  {
    hide Holds, Content;
  }

  lemma WriteMoves(net: Net, k: nat, body: Body)
    requires Sane(net) && Writable(net, k) && net.frameSize > 0 && Fills(body, net.frameSize)
    ensures var r := Step(net, Write(k, body));
      && k < |net.peers| == |r.peers| && r.open && r.frameSize == net.frameSize && r.sent == net.sent
      && net.frames <= r.frames && r.peers[k].id == net.peers[k].id
      && (if r.peers[k].pending.Some? then r.peers[k].pending == Some(body) && r.peers[k].talk == net.peers[k].talk
          else Holds(body) && GotOut(net.peers[k], r.peers[k], body) && |r.frames| > |net.frames|)
  {
    hide WireOf, AllSound, ReadFrames, Pieces, Over, Content, Left, Ends, Step, Fitting, Holds;
    FillsHolds(body, net.frameSize);
    FramedOrWaits(net, Write(k, body), k, body);
  }

  /** A writer that waits for nothing was told the lengths of all pieces of its stream. */
  lemma AllHeard(frameSize: nat, window: int, ops: seq<Op>, k: nat)
    requires frameSize < 0x100_0000 && Writable(After(Begin(frameSize, window), ops), k)
    ensures var net := After(Begin(frameSize, window), ops);
      Heard(net, k) == Lengths(BodyOf(net.peers[k].talk))
  {
    hide After, Arrived, WireOf, ReadFrames, Pieces, Over;
    StreamReads(frameSize, window, ops, k);
  }
}
