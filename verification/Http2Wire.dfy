/** Whole connections on the wire: frames of many streams one behind the other, and who reads what of them. */
module Http2Wire {
  import opened Bytes
  import opened Parts
  import opened DataFrames

  const HEADERS: nat := 1
  const END_HEADERS: nat := 4

  predicate Sound(f: Frame)
  {
    f.kind < 0x100 && f.flags < 0x100 && f.id < 0x8000_0000 && |f.payload| < 0x100_0000
  }

  predicate AllSound(fs: seq<Frame>)
  {
    forall i :: 0 <= i < |fs| ==> Sound(fs[i])
  }

  function FrameOctets(f: Frame): (r: seq<byte>)
    requires Sound(f)
    ensures |r| == 9 + |f.payload|
  {
    FrameHeader(|f.payload|, f.kind, f.flags, f.id) + f.payload
  }

  function WireOf(fs: seq<Frame>): seq<byte>
    requires AllSound(fs)
  {
    if fs == [] then [] else WireOf(fs[..|fs| - 1]) + FrameOctets(fs[|fs| - 1])
  }

  lemma WireMore(fs: seq<Frame>, f: Frame)
    requires AllSound(fs) && Sound(f)
    ensures AllSound(fs + [f]) && WireOf(fs + [f]) == WireOf(fs) + FrameOctets(f)
  {
    hide FrameOctets, Sound;
    assert (fs + [f])[..|fs|] == fs;
  }

  lemma FirstReads(f: Frame, rest: seq<byte>)
    requires Sound(f)
    ensures ReadFrame(FrameOctets(f) + rest) == Parsed(f, 9 + |f.payload|)
    ensures ReadFrames(FrameOctets(f) + rest) == [f] + ReadFrames(rest)
  {
    hide ReadFrame, FrameHeader;
    HeaderReads(|f.payload|, f.kind, f.flags, f.id, f.payload, rest);
    assert (FrameOctets(f) + rest)[9 + |f.payload|..] == rest;
  }

  /** Frames are read one by one, whatever follows them. */
  lemma {:induction false} ReadsOn(fs: seq<Frame>, rest: seq<byte>)
    requires AllSound(fs)
    ensures ReadFrames(WireOf(fs) + rest) == fs + ReadFrames(rest)
    decreases |fs|
  {
    hide ReadFrame, ReadFrames, FrameOctets, Sound;
    if fs == [] {
      assert [] + rest == rest;
    } else {
      var n := |fs| - 1;
      ReadsOn(fs[..n], FrameOctets(fs[n]) + rest);
      FirstReads(fs[n], rest);
      assert WireOf(fs) + rest == WireOf(fs[..n]) + (FrameOctets(fs[n]) + rest);
      assert fs[..n] + ([fs[n]] + ReadFrames(rest)) == fs + ReadFrames(rest);
    }
  }

  /** Less than a frame is no frame. */
  lemma PartReads(f: Frame, n: nat)
    requires Sound(f) && n < 9 + |f.payload|
    ensures ReadFrames(FrameOctets(f)[..n]) == []
  {
    FirstReads(f, []);
    assert FrameOctets(f) + [] == FrameOctets(f);
    hide FrameOctets;
  }

  /** How many frames are whole within the first `n` octets. */
  function WholeFrames(fs: seq<Frame>, n: nat): (k: nat)
    requires AllSound(fs)
    ensures k <= |fs|
  {
    if fs == [] then 0 else if |WireOf(fs)| <= n then |fs| else WholeFrames(fs[..|fs| - 1], n)
  }

  /** A reader of the first octets of a connection has read just the frames that are whole by then. */
  lemma {:induction false} PrefixReads(fs: seq<Frame>, n: nat)
    requires AllSound(fs) && n <= |WireOf(fs)|
    ensures ReadFrames(WireOf(fs)[..n]) == fs[..WholeFrames(fs, n)]
    decreases |fs|
  {
    hide ReadFrame, ReadFrames, FrameOctets, Sound;
    var wire := WireOf(fs);
    NothingReads();
    if n == |wire| {
      ReadsOn(fs, []);
      assert wire[..n] == wire && wire + [] == wire && fs + [] == fs;
    } else {
      var m := |fs| - 1;
      var init, last := fs[..m], fs[m];
      var before := |WireOf(init)|;
      if n <= before {
        PrefixReads(init, n);
        assert wire[..n] == WireOf(init)[..n];
        assert init[..WholeFrames(init, n)] == fs[..WholeFrames(init, n)];
      } else {
        ReadsOn(init, FrameOctets(last)[..n - before]);
        PartReads(last, n - before);
        assert wire[..n] == WireOf(init) + FrameOctets(last)[..n - before];
        AllWhole(init, n);
      }
    }
  }

  lemma NothingReads()
    ensures ReadFrames([]) == []
  {
  }

  lemma AllWhole(fs: seq<Frame>, n: nat)
    requires AllSound(fs) && n >= |WireOf(fs)|
    ensures WholeFrames(fs, n) == |fs|
  {
  }

  /** One frame more is whole when its last octet is there. */
  lemma WholeMore(fs: seq<Frame>, f: Frame, n: nat)
    requires AllSound(fs) && Sound(f)
    ensures AllSound(fs + [f])
    ensures WholeFrames(fs + [f], n) == if |WireOf(fs + [f])| <= n then |fs| + 1 else WholeFrames(fs, n)
  {
    hide Sound;
    assert (fs + [f])[..|fs|] == fs;
  }

  /** The frames that make up what is said on a stream. */
  function OfStream(fs: seq<Frame>, id: nat): seq<Frame>
  {
    if fs == [] then []
    else
      var f := fs[|fs| - 1];
      OfStream(fs[..|fs| - 1], id) + if f.id == id && (f.kind == DATA || f.kind == HEADERS) then [f] else []
  }

  lemma OfStreamMore(fs: seq<Frame>, f: Frame, id: nat)
    ensures OfStream(fs + [f], id)
      == OfStream(fs, id) + if f.id == id && (f.kind == DATA || f.kind == HEADERS) then [f] else []
  {
    assert (fs + [f])[..|fs|] == fs;
  }

  /** Lengths of the pieces of a stream's body. */
  function Pieces(fs: seq<Frame>, id: nat): seq<int>
  {
    if fs == [] then []
    else
      var f := fs[|fs| - 1];
      Pieces(fs[..|fs| - 1], id) + if f.id == id && f.kind == DATA && f.payload != [] then [|f.payload|] else []
  }

  lemma PiecesMore(fs: seq<Frame>, f: Frame, id: nat)
    ensures Pieces(fs + [f], id)
      == Pieces(fs, id) + if f.id == id && f.kind == DATA && f.payload != [] then [|f.payload|] else []
  {
    assert (fs + [f])[..|fs|] == fs;
  }

  lemma {:induction false} FewerPieces(fs: seq<Frame>, j: nat, id: nat)
    requires j <= |fs|
    ensures Pieces(fs[..j], id) <= Pieces(fs, id)
    decreases |fs|
  {
    if j < |fs| {
      FewerPieces(fs[..|fs| - 1], j, id);
      assert fs[..|fs| - 1][..j] == fs[..j];
    } else {
      assert fs[..j] == fs;
    }
  }

  /** What a server says on a stream: nothing, or a head, a body of declared length, and perhaps an end. */
  datatype Talk = Silent | Talking(block: seq<byte>, declared: int, payloads: seq<seq<byte>>, ended: bool)

  predicate AllShort(payloads: seq<seq<byte>>)
  {
    forall p :: p in payloads ==> 0 < |p| < 0x100_0000
  }

  /** No piece behind the one that reaches the declared length, and an end of its own only without one. */
  ghost predicate Proper(t: Talk)
  {
    t.Talking? ==>
      && |t.block| < 0x100_0000 && AllShort(t.payloads) && t.declared >= -1
      && (t.ended ==> t.declared < 0) && (t.declared == 0 ==> t.payloads == [])
      && (t.declared > 0 ==> forall k :: 0 <= k < |t.payloads| ==> |Flat(t.payloads[..k])| < t.declared)
  }

  predicate Over(t: Talk)
  {
    t.Talking? && (t.declared == 0 || t.ended || 0 < t.declared <= |Flat(t.payloads)|)
  }

  function HeadFrame(id: nat, block: seq<byte>, declared: int): Frame
  {
    Frame(HEADERS, END_HEADERS + if declared == 0 then END_STREAM else 0, id, block)
  }

  function EndFrame(id: nat): Frame
  {
    Frame(DATA, END_STREAM, id, [])
  }

  /** The frames of it. */
  function Said(t: Talk, id: nat): seq<Frame>
    requires id < 0x8000_0000 && (t.Talking? ==> AllShort(t.payloads))
  {
    match t
    case Silent => []
    case Talking(block, declared, payloads, ended) =>
      [HeadFrame(id, block, declared)] + ReadFrames(Wire(declared, id, payloads)) + if ended then [EndFrame(id)] else []
  }

  function Left(t: Talk): int
  {
    if t.Silent? then 0 else LeftAfterAll(t.declared, t.payloads)
  }

  /** A run of frames is read as its payloads, the last one completing a declared length when it does. */
  lemma BodyReads(declared: int, id: nat, payloads: seq<seq<byte>>)
    requires id < 0x8000_0000 && AllShort(payloads)
    ensures var fs := ReadFrames(Wire(declared, id, payloads));
      && |fs| == |payloads|
      && forall k :: 0 <= k < |fs| ==>
        fs[k] == Frame(DATA, if Completes(declared, payloads, k) then END_STREAM else 0, id, payloads[k])
  {
    hide Wire, ReadFrames, Completes;
    RunReads(declared, id, payloads);
  }

  /** What is left of a declared length that is not reached, or of none. */
  lemma {:induction false} LeftIs(declared: int, payloads: seq<seq<byte>>)
    requires declared < 0 || |Flat(payloads)| < declared
    ensures LeftAfterAll(declared, payloads) == if declared < 0 then declared else declared - |Flat(payloads)|
  {
    if declared < 0 {
      LeftStays(declared, payloads);
    } else {
      LengthIsConserved(declared, payloads);
    }
  }

  lemma {:induction false} LeftStays(declared: int, payloads: seq<seq<byte>>)
    requires declared < 0
    ensures LeftAfterAll(declared, payloads) == declared
  {
    if payloads != [] {
      LeftStays(declared, payloads[1..]);
    }
  }

  lemma RunStep(declared: int, id: nat, payloads: seq<seq<byte>>)
    requires id < 0x8000_0000 && AllShort(payloads) && payloads != []
    ensures AllShort(payloads[1..])
    ensures ReadFrames(Wire(declared, id, payloads))
      == [Frame(DATA, if Ends(declared, |payloads[0]|) then END_STREAM else 0, id, payloads[0])]
        + ReadFrames(Wire(LeftAfter(declared, |payloads[0]|), id, payloads[1..]))
  {
    hide ReadFrames, FrameHeader, LeftAfter;
    var f := Frame(DATA, if Ends(declared, |payloads[0]|) then END_STREAM else 0, id, payloads[0]);
    FirstReads(f, Wire(LeftAfter(declared, |payloads[0]|), id, payloads[1..]));
  }

  /** Another piece is read as another frame. */
  lemma {:induction false} RunMore(declared: int, id: nat, payloads: seq<seq<byte>>, p: seq<byte>)
    requires id < 0x8000_0000 && AllShort(payloads) && 0 < |p| < 0x100_0000
    ensures AllShort(payloads + [p])
    ensures ReadFrames(Wire(declared, id, payloads + [p])) == ReadFrames(Wire(declared, id, payloads))
      + [Frame(DATA, if Ends(LeftAfterAll(declared, payloads), |p|) then END_STREAM else 0, id, p)]
    decreases |payloads|
  {
    hide Wire, ReadFrames, LeftAfter, Ends;
    var all := payloads + [p];
    RunStep(declared, id, all);
    if payloads == [] {
      assert all[1..] == [];
      NothingRuns(LeftAfter(declared, |p|), id);
      NothingRuns(declared, id);
    } else {
      assert all[1..] == payloads[1..] + [p];
      RunStep(declared, id, payloads);
      RunMore(LeftAfter(declared, |payloads[0]|), id, payloads[1..], p);
    }
  }

  lemma NothingRuns(declared: int, id: nat)
    requires id < 0x8000_0000
    ensures ReadFrames(Wire(declared, id, [])) == []
  {
  }

  lemma ProperMore(t: Talk, p: seq<byte>)
    requires Proper(t) && t.Talking? && !Over(t) && 0 < |p| < 0x100_0000
    ensures var t' := t.(payloads := t.payloads + [p]);
      Proper(t') && Left(t') == LeftAfter(Left(t), |p|) && (Over(t') <==> Ends(Left(t), |p|))
  {
    WireExtends(t.declared, 0, t.payloads, p);
    LeftIs(t.declared, t.payloads);
    FlatAppend(t.payloads, p);
    hide Wire, Flat, LeftAfterAll;
    var n := |t.payloads|;
    assert t.payloads[..n] == t.payloads;
    forall k | 0 <= k <= n
      ensures (t.payloads + [p])[..k] == t.payloads[..k]
    {
    }
  }

  /** A piece more, while it is not over. */
  lemma SaidMore(t: Talk, id: nat, p: seq<byte>)
    requires id < 0x8000_0000 && Proper(t) && t.Talking? && !Over(t) && 0 < |p| < 0x100_0000
    ensures var t' := t.(payloads := t.payloads + [p]);
      && Proper(t') && Left(t') == LeftAfter(Left(t), |p|) && (Over(t') <==> Ends(Left(t), |p|))
      && Said(t', id) == Said(t, id) + [Frame(DATA, if Ends(Left(t), |p|) then END_STREAM else 0, id, p)]
  {
    hide Wire, ReadFrames, Flat, LeftAfterAll, LeftAfter, Ends;
    ProperMore(t, p);
    RunMore(t.declared, id, t.payloads, p);
    var f := Frame(DATA, if Ends(Left(t), |p|) then END_STREAM else 0, id, p);
    var head, run := HeadFrame(id, t.block, t.declared), ReadFrames(Wire(t.declared, id, t.payloads));
    assert [head] + (run + [f]) + [] == [head] + run + [] + [f];
  }

  /** The end of a body without a declared length. */
  lemma SaidEnd(t: Talk, id: nat)
    requires id < 0x8000_0000 && Proper(t) && t.Talking? && !Over(t) && t.declared < 0
    ensures var t' := t.(ended := true);
      Proper(t') && Over(t') && Left(t') == Left(t) && Said(t', id) == Said(t, id) + [EndFrame(id)]
  {
    hide Wire, ReadFrames, Flat, LeftAfterAll;
    var head, run := HeadFrame(id, t.block, t.declared), ReadFrames(Wire(t.declared, id, t.payloads));
    assert [head] + run + [EndFrame(id)] == [head] + run + [] + [EndFrame(id)];
  }

  lemma SaidStart(block: seq<byte>, declared: int, id: nat)
    requires id < 0x8000_0000 && |block| < 0x100_0000 && declared >= -1
    ensures var t := Talking(block, declared, [], false);
      && Proper(t) && (Over(t) <==> declared == 0) && Left(t) == declared
      && Said(t, id) == Said(Silent, id) + [HeadFrame(id, block, declared)]
  {
    NothingRuns(declared, id);
    FlatNone();
  }

  lemma LastCompletes(declared: int, payloads: seq<seq<byte>>, k: nat)
    requires k < |payloads| && (declared > 0 ==> forall i :: 0 <= i < |payloads| ==> |Flat(payloads[..i])| < declared)
    ensures Completes(declared, payloads, k) <==> k == |payloads| - 1 && 0 < declared <= |Flat(payloads)|
  {
    hide Flat;
    assert payloads[..|payloads|] == payloads;
    if k < |payloads| - 1 {
      assert declared > 0 ==> |Flat(payloads[..k + 1])| < declared;
    }
  }

  lemma RunEnds(declared: int, id: nat, payloads: seq<seq<byte>>)
    requires id < 0x8000_0000 && AllShort(payloads)
    requires declared > 0 ==> forall i :: 0 <= i < |payloads| ==> |Flat(payloads[..i])| < declared
    ensures var fs := ReadFrames(Wire(declared, id, payloads));
      && |fs| == |payloads|
      && forall k :: 0 <= k < |fs| ==>
        (fs[k].flags % 2 == 1 <==> k == |payloads| - 1 && 0 < declared <= |Flat(payloads)|)
  {
    hide Wire, ReadFrames, Flat, Completes;
    BodyReads(declared, id, payloads);
    var fs := ReadFrames(Wire(declared, id, payloads));
    forall k | 0 <= k < |fs|
      ensures fs[k].flags % 2 == 1 <==> k == |payloads| - 1 && 0 < declared <= |Flat(payloads)|
    {
      LastCompletes(declared, payloads, k);
    }
  }

  /** END_STREAM stands on the last frame of what is said, and only when it is over. */
  lemma EndsOnce(t: Talk, id: nat)
    requires id < 0x8000_0000 && Proper(t)
    ensures var fs := Said(t, id);
      forall k :: 0 <= k < |fs| ==> (fs[k].flags % 2 == 1 <==> Over(t) && k == |fs| - 1)
  {
    hide Wire, ReadFrames, Flat;
    if t.Talking? {
      RunEnds(t.declared, id, t.payloads);
      var run := ReadFrames(Wire(t.declared, id, t.payloads));
      var fs := Said(t, id);
      forall k | 0 <= k < |fs|
        ensures fs[k].flags % 2 == 1 <==> Over(t) && k == |fs| - 1
      {
        if 0 < k <= |run| {
          assert fs[k] == run[k - 1];
        }
        if t.payloads == [] {
          FlatNone();
        }
      }
    }
  }
}
