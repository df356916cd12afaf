/** Request bodies on a kept connection: what is read, what is drained, and where the next request starts. */
module Pipeline {
  import opened Bytes
  import opened Numbers

  /** Octets that reads of up to `size` octets get before one fails, if the peer sends that many. */
  function Supply(grants: seq<nat>, size: nat): nat
  {
    if grants == [] || grants[0] == 0 then 0 else Min(grants[0], size) + Supply(grants[1..], size)
  }

  lemma {:induction false} SupplyOfMany(grants: seq<nat>, size: nat)
    requires size > 0 && forall g :: g in grants ==> g > 0
    ensures Supply(grants, size) >= |grants|
  {
    if grants != [] {
      assert grants[0] in grants;
      assert forall g :: g in grants[1..] ==> g in grants;
      SupplyOfMany(grants[1..], size);
    }
  }

  /** What one read takes: of what is buffered, or when that is nothing of what the peer sends. */
  predicate Takes(len: nat, buffered: nat, sent: nat, grants: seq<nat>, got: int, sent': nat, grants': seq<nat>)
  {
    if buffered > 0 then got == Min(len, buffered) && sent' == sent && grants' == grants
    else if grants == [] then got == -1 && sent' == sent && grants' == grants
    else got == Min(Min(len, grants[0]), sent) && sent' == sent - got && grants' == grants[1..]
  }

  lemma TakesBuffered(len: nat, buffered: nat, sent: nat, grants: seq<nat>)
    requires buffered > 0
    ensures Takes(len, buffered, sent, grants, Min(len, buffered), sent, grants)
  {
  }

  /** `left` octets are among those buffered, or those not buffered get here by reads of up to 4096 octets. */
  predicate Reaches(left: int, buffered: nat, sent: nat, grants: seq<nat>)
  {
    left - buffered <= Min(sent, Supply(grants, 4096))
  }

  /** One read of a drain: it fails only where the rest cannot all get here, and changes nothing about that. */
  lemma Drained(left: nat, buffered: nat, sent: nat, grants: seq<nat>, got: int, sent': nat, grants': seq<nat>)
    requires left > 0 && Takes(Min(4096, left), buffered, sent, grants, got, sent', grants')
    ensures got <= 0 ==> !Reaches(left, buffered, sent, grants)
    ensures got > 0 ==> (Reaches(left, buffered, sent, grants)
      <==> Reaches(left - got, if buffered > 0 then buffered - got else 0, sent', grants'))
  {
  }

  lemma NothingLeft(buffered: nat, sent: nat, grants: seq<nat>)
    ensures Reaches(0, buffered, sent, grants)
  {
  }

  /** What is left of the grants after some reads, at most `n` of them. */
  ghost predicate Spent(before: seq<nat>, after: seq<nat>, n: int)
  {
    |after| <= |before| <= |after| + n && after == before[|before| - |after|..]
  }

  lemma SpentTwice(a: seq<nat>, b: seq<nat>, c: seq<nat>, m: int, n: int)
    requires Spent(a, b, m) && Spent(b, c, n)
    ensures Spent(a, c, m + n)
  {
  }

  lemma SpentByRead(len: nat, buffered: nat, sent: nat, grants: seq<nat>, got: int, sent': nat, grants': seq<nat>)
    requires Takes(len, buffered, sent, grants, got, sent', grants')
    ensures Spent(grants, grants', if got > 0 then got else 1)
    ensures Spent(grants, grants', 1)
  {
  }

  lemma NothingSpent(grants: seq<nat>)
    ensures Spent(grants, grants, 0)
  {
  }

  lemma SpentFrom(a: seq<nat>, b: seq<nat>, n: int)
    requires Spent(a, b, n) && forall g :: g in a ==> g > 0
    ensures |b| >= |a| - n && forall g :: g in b ==> g > 0
  {
    forall g | g in b
      ensures g in a
    {
      var k :| 0 <= k < |b| && b[k] == g;
      assert a[|a| - |b| + k] == g;
    }
  }

  /** What the peer sends, and how much of it each read gets to see; an exhausted list is a failed connection. */
  class Network {
    var incoming: seq<byte>
    var grants: seq<nat>

    constructor (incoming: seq<byte>, grants: seq<nat>)
      ensures this.incoming == incoming && this.grants == grants
    {
      this.incoming, this.grants := incoming, grants;
    }

    /** A read of at least an octet would get some. */
    predicate Arriving()
      reads this
    {
      incoming != [] && grants != [] && grants[0] > 0
    }

    /** Reads some octets, at most `len`; nothing or an error leaves everything as it was. */
    method Read(dst: array<byte>, at: nat, len: nat) returns (got: int)
      requires at + len <= dst.Length
      modifies this, dst
      ensures got <= len && got <= |old(incoming)|
      ensures dst[..at] == old(dst[..at]) && (got <= 0 ==> dst[..] == old(dst[..]))
      ensures incoming == if got > 0 then old(incoming)[got..] else old(incoming)
      ensures got > 0 ==> dst[at..at + got] == old(incoming)[..got] && dst[at + got..] == old(dst[at + got..])
      ensures Takes(len, 0, |old(incoming)|, old(grants), got, |incoming|, grants)
      ensures len > 0 ==> (got > 0 <==> old(Arriving()))
    {
      if grants == [] {
        return -1;
      }
      got := Min(Min(len, grants[0]), |incoming|);
      grants := grants[1..];
      ghost var was := dst[..];
      MemCopy(dst, at, incoming[..got]);
      assert got == 0 ==> dst[..] == was;
      incoming := incoming[got..];
    }
  }

  class Sink {
    const cn: Network
    // what was read from the connection, up to `used`; `hot` is where the parser is
    var buf: array<byte>
    var used: nat
    var hot: nat
    // octets of the body still to be read, or -1 if that is not known
    var leftRead: int
    var haveExpect: bool
    var upgrade: bool
    var close: bool
    var keepConnection: bool
    var asked: nat

    ghost predicate Valid()
      reads this
    {
      hot <= used <= buf.Length && buf.Length > 0 && leftRead >= -1
    }

    /** Everything from the parser's place on: first the buffer, then what the peer still sends. */
    ghost function Stream(): seq<byte>
      requires Valid()
      reads this, buf, cn
    {
      buf[hot..used] + cn.incoming
    }

    constructor (cn: Network, size: nat)
      requires size > 0
      ensures this.cn == cn && Valid() && fresh(buf) && buf.Length == size && Stream() == cn.incoming && leftRead == 0
      ensures !haveExpect && !upgrade && !close && keepConnection
    {
      this.cn := cn;
      buf := new byte[size];
      used, hot, leftRead, asked := 0, 0, 0, 0;
      haveExpect, upgrade, close, keepConnection := false, false, false, true;
    }

    /** Room behind the buffered octets; a full buffer is first moved to one twice as large. */
    method GetReadBuffer() returns (size: nat)
      requires Valid()
      modifies this`buf
      ensures Valid() && size == buf.Length - used && size > 0
      ensures buf == old(buf) || (fresh(buf) && buf.Length == 2 * old(buf.Length))
      ensures buf[..used] == old(buf[..used]) && Stream() == old(Stream())
    {
      size := buf.Length - used;
      if size > 0 {
        return;
      }
      var nb := new byte[buf.Length * 2];
      MemCopy(nb, 0, buf[..used]);
      assert nb[..used] == buf[..used];
      assert nb[hot..used] == nb[..used][hot..] == buf[..used][hot..] == buf[hot..used];
      buf := nb;
      size := buf.Length - used;
    }

    /** One round of the request loop: reads more behind what is buffered. */
    method ReadMore() returns (ok: bool)
      requires Valid()
      modifies this`buf, this`used, buf, cn
      ensures Valid() && Stream() == old(Stream()) && (ok ==> used > old(used)) && ok == old(cn.Arriving())
      ensures buf == old(buf) || fresh(buf)
    {
      var size := GetReadBuffer();
      ghost var before := buf[..];
      var got := cn.Read(buf, used, size);
      Behind(before, buf[..], hot, used, if got > 0 then got else 0, old(cn.incoming));
      if got <= 0 {
        return false;
      }
      used := used + got;
      return true;
    }

    /** Takes octets of the body from the buffer, or when that is empty from the connection. */
    method InternalRead(dst: array<byte>, len: nat) returns (got: int)
      requires Valid() && dst != buf && len <= dst.Length
      modifies this`hot, cn, dst
      ensures Valid() && got <= len && got <= |old(Stream())|
      ensures Stream() == if got > 0 then old(Stream())[got..] else old(Stream())
      ensures got > 0 ==> dst[..got] == old(Stream())[..got]
      ensures hot == old(hot) + if old(hot) < used then got else 0
      ensures Takes(len, used - old(hot), |old(cn.incoming)|, old(cn.grants), got, |cn.incoming|, cn.grants)
      ensures len > 0 ==> (got > 0 <==> old(hot) < used || old(cn.Arriving()))
    {
      hide Takes, Network.Arriving;
      var bufferLeft := used - hot;
      if bufferLeft > 0 {
        TakesBuffered(len, bufferLeft, |cn.incoming|, cn.grants);
        var n := Min(len, bufferLeft);
        MemCopy(dst, 0, buf[hot..hot + n]);
        assert dst[..n] == buf[hot..hot + n];
        hot := hot + n;
        return n;
      }
      got := cn.Read(dst, 0, len);
    }

    /** A read by whoever handles the request: never past the end of a body of known length. */
    method Read(dst: array<byte>, len0: nat) returns (got: int)
      requires Valid() && dst != buf && len0 <= dst.Length && (upgrade ==> leftRead <= 0)
      modifies this`hot, this`leftRead, this`haveExpect, this`asked, cn, dst
      ensures Valid() && got <= len0 && got <= |old(Stream())| && !haveExpect
      ensures Stream() == if got > 0 then old(Stream())[got..] else old(Stream())
      ensures got > 0 ==> dst[..got] == old(Stream())[..got]
      ensures old(leftRead) >= 0 ==> leftRead == old(leftRead) - if got > 0 && old(leftRead) > 0 then got else 0
      ensures old(leftRead) >= 0 && !upgrade ==> got <= old(leftRead)
      ensures old(leftRead) == -1 ==> leftRead == if got == 0 && !upgrade then 0 else -1
      ensures asked == old(asked) + if old(haveExpect) then 1 else 0
      ensures len0 > 0 && (old(leftRead) != 0 || upgrade) ==> (got > 0 <==> old(hot) < used || old(cn.Arriving()))
      ensures Spent(old(cn.grants), cn.grants, 1)
    {
      hide Spent, Takes, Network.Arriving;
      ghost var grants := cn.grants;
      if haveExpect {
        haveExpect := false;
        asked := asked + 1;
      }
      assert Stream() == old(Stream());
      var len := len0;
      if leftRead >= 0 && !upgrade {
        len := Min(len, leftRead);
      }
      got := InternalRead(dst, len);
      SpentByRead(len, used - old(hot), |old(cn.incoming)|, grants, got, |cn.incoming|, cn.grants);
      ghost var rest := Stream();
      if got == 0 && leftRead == -1 && !upgrade {
        leftRead := 0;
        assert Stream() == rest;
        return;
      }
      if got > 0 {
        if leftRead > 0 {
          leftRead := leftRead - got;
        }
      }
      assert Stream() == rest;
    }

    /** All that is left of the body gets here. */
    predicate Covered()
      requires Valid()
      reads this, cn
    {
      Reaches(leftRead, used - hot, |cn.incoming|, cn.grants)
    }

    /** One round of the drain. */
    method DrainSome(drain: array<byte>) returns (len: int)
      requires Valid() && leftRead > 0 && drain != buf && drain.Length == 4096
      modifies this`hot, this`leftRead, cn, drain
      ensures Valid() && len <= old(leftRead)
      ensures len <= 0 ==> !old(Covered()) && leftRead == old(leftRead) && Stream() == old(Stream())
      ensures len > 0 ==>
        && leftRead == old(leftRead) - len && len <= |old(Stream())| && Stream() == old(Stream())[len..]
        && (Covered() <==> old(Covered())) && Spent(old(cn.grants), cn.grants, len)
    {
      hide Spent, Reaches, Takes;
      ghost var want := Min(4096, leftRead);
      len := InternalRead(drain, Min(4096, leftRead));
      Drained(leftRead, used - old(hot), |old(cn.incoming)|, old(cn.grants), len, |cn.incoming|, cn.grants);
      if len > 0 {
        SpentByRead(want, used - old(hot), |old(cn.incoming)|, old(cn.grants), len, |cn.incoming|, cn.grants);
        leftRead := leftRead - len;
      }
    }

    /** Drains what is left of a body: succeeds exactly when all of it gets here before a read fails. */
    method SkipPost() returns (ok: bool)
      requires Valid() && leftRead > 0
      modifies this`hot, this`leftRead, cn
      ensures Valid() && 0 <= leftRead <= old(leftRead) && (ok <==> leftRead == 0)
      ensures old(leftRead) - leftRead <= |old(Stream())| && Stream() == old(Stream())[old(leftRead) - leftRead..]
      ensures ok <==> old(Covered())
      ensures ok ==> Spent(old(cn.grants), cn.grants, old(leftRead))
    {
      hide Spent, Reaches, Stream;
      NothingSpent(cn.grants);
      var drain := new byte[4096];
      ghost var all, left := Stream(), leftRead;
      assert all[0..] == all;
      while leftRead > 0
        invariant Valid() && 0 <= leftRead <= left && buf == old(buf) && drain != buf && drain.Length == 4096
        invariant left - leftRead <= |all| && Stream() == all[left - leftRead..]
        invariant Covered() <==> old(Covered())
        invariant Spent(old(cn.grants), cn.grants, left - leftRead)
        decreases leftRead
      {
        ghost var before, gone := cn.grants, left - leftRead;
        var len := DrainSome(drain);
        if len <= 0 {
          return false;
        }
        SpentTwice(old(cn.grants), before, cn.grants, gone, len);
        Taken(all, gone, len);
      }
      NothingLeft(used - hot, |cn.incoming|, cn.grants);
      return true;
    }

    /** Whether the connection goes on to another request; if so the body of this one is drained. */
    method StartPipeLine() returns (ok: bool)
      requires Valid() && leftRead >= 0
      modifies this`hot, this`leftRead, cn
      ensures Valid() && 0 <= leftRead <= old(leftRead)
      ensures ok ==> !close && !upgrade && keepConnection && (leftRead == 0 || haveExpect)
      ensures haveExpect ==> leftRead == old(leftRead)
      ensures old(leftRead) - leftRead <= |old(Stream())| && Stream() == old(Stream())[old(leftRead) - leftRead..]
      ensures (close || upgrade || !keepConnection) ==> !ok && leftRead == old(leftRead)
      ensures ok <==> !close && !upgrade && keepConnection && (old(leftRead) == 0 || haveExpect || old(Covered()))
      ensures ok ==> Spent(old(cn.grants), cn.grants, old(leftRead))
    {
      assert Stream()[0..] == Stream();
      if close || upgrade || !keepConnection {
        return false;
      }
      if leftRead != 0 && !haveExpect {
        ok := SkipPost();
        if !ok {
          return false;
        }
      }
      return true;
    }

    /** Moves what is buffered behind the parser's place to the front. */
    method SavePoint()
      requires Valid()
      modifies this`hot, this`used, buf
      ensures Valid() && hot == 0 && used == old(used) - old(hot) && Stream() == old(Stream())
    {
      ghost var tail := buf[hot..used];
      var n := used - hot;
      MemCopy(buf, 0, buf[hot..used]);
      used := n;
      hot := 0;
      assert buf[hot..used] == tail;
    }

    /** Puts the start of the next request at the front of a buffer: what is there, or a first read. */
    method NextRequest() returns (ok: bool)
      requires Valid()
      modifies this`buf, this`hot, this`used, buf, cn
      ensures Valid() && Stream() == old(Stream()) && (ok ==> hot == 0 && used > 0)
      ensures ok <==> old(hot < used) || old(cn.Arriving())
    {
      if hot < used {
        SavePoint();
        return true;
      }
      var newBuf := new byte[buf.Length];
      var got := cn.Read(newBuf, 0, buf.Length);
      if got <= 0 {
        return false;
      }
      buf := newBuf;
      used := got;
      hot := 0;
      assert buf[hot..used] == old(cn.incoming)[..got];
      return true;
    }
  }

  lemma Behind(b0: seq<byte>, b1: seq<byte>, hot: nat, used: nat, got: nat, incoming: seq<byte>)
    requires hot <= used <= used + got <= |b0| == |b1| && got <= |incoming|
    requires b1[..used] == b0[..used] && b1[used..used + got] == incoming[..got]
    ensures b1[hot..used + got] + incoming[got..] == b0[hot..used] + incoming
  {
    assert b1[hot..used] == b1[..used][hot..] == b0[..used][hot..] == b0[hot..used];
    assert b1[hot..used + got] == b1[hot..used] + b1[used..used + got];
    assert incoming == incoming[..got] + incoming[got..];
  }

  /**
   A request with a body of known length, read in whatever pieces its handler likes, and then the
   rest of it drained: the next request starts right behind the body, and what the handler got is
   the front of it. That succeeds on every kept connection on which more than the body arrives, given
   positive grants for the handler's reads, for each octet of the body and for one octet more.
   */
  method Serve(sink: Sink, length: nat, lens: seq<nat>) returns (ok: bool, delivered: seq<byte>)
    requires sink.Valid() && sink.leftRead == length && !sink.haveExpect && !sink.upgrade
    modifies sink, sink.buf, sink.cn
    ensures sink.Valid()
    ensures delivered <= old(sink.Stream()) && |delivered| <= length
    ensures ok ==> length <= |old(sink.Stream())| && sink.Stream() == old(sink.Stream())[length..]
    ensures ok ==> sink.hot == 0 && sink.used > 0
    ensures ok ==> !sink.close && sink.keepConnection
    ensures
      (&& !old(sink.close) && old(sink.keepConnection) && length < |old(sink.Stream())|
       && |old(sink.cn.grants)| > |lens| + length && (forall g :: g in old(sink.cn.grants) ==> g > 0))
      ==> ok
  {
    hide Sink.Stream, Network.Arriving, Sink.Covered, Spent;
    ghost var all, grants := sink.Stream(), sink.cn.grants;
    NothingSpent(grants);
    delivered := [];
    assert all[0..] == all;
    for i := 0 to |lens|
      invariant sink.Valid() && sink.buf == old(sink.buf) && !sink.haveExpect && !sink.upgrade
      invariant sink.leftRead == length - |delivered| >= 0 && |delivered| <= |all| && delivered == all[..|delivered|]
      invariant sink.Stream() == all[|delivered|..] && sink.close == old(sink.close)
      invariant sink.keepConnection == old(sink.keepConnection) && Spent(grants, sink.cn.grants, i)
    {
      ghost var before := sink.cn.grants;
      var dst := new byte[lens[i]];
      var got := sink.Read(dst, lens[i]);
      SpentTwice(grants, before, sink.cn.grants, i, 1);
      if got > 0 {
        Taken(all, |delivered|, got);
        delivered := delivered + dst[..got];
      }
    }
    ghost var rest, left := sink.cn.grants, sink.leftRead;
    Enough(sink, grants, |lens|);
    ok := sink.StartPipeLine();
    if ok {
      SpentTwice(grants, rest, sink.cn.grants, |lens|, left);
      Enough(sink, grants, |lens| + left);
      assert all[|delivered|..][length - |delivered|..] == all[length..];
      ok := sink.NextRequest();
    }
  }

  /** Of enough positive grants some are left: for what is left of the body, and for an octet more. */
  lemma Enough(sink: Sink, grants: seq<nat>, n: nat)
    requires sink.Valid() && Spent(grants, sink.cn.grants, n) && sink.leftRead >= 0
    ensures |grants| >= n + sink.leftRead && (forall g :: g in grants ==> g > 0) && sink.leftRead <= |sink.Stream()| ==>
      sink.Covered()
    ensures |grants| > n && (forall g :: g in grants ==> g > 0) && sink.Stream() != [] ==>
      sink.hot < sink.used || sink.cn.Arriving()
  {
    hide Supply;
    if forall g :: g in grants ==> g > 0 {
      SpentFrom(grants, sink.cn.grants, n);
      SupplyOfMany(sink.cn.grants, 4096);
      if sink.cn.grants != [] {
        assert sink.cn.grants[0] in sink.cn.grants;
      }
    }
  }

  lemma Taken(all: seq<byte>, at: nat, got: nat)
    requires at + got <= |all|
    ensures all[at..][got..] == all[at + got..] && all[..at] + all[at..][..got] == all[..at + got]
  {
  }
}
