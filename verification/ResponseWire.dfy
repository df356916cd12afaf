/** The HTTP/1.1 response side: the deferred head, gathered writes in batches, and chunked bodies. */
module ResponseWire {
  import opened Bytes
  import opened Numbers
  import opened Parts
  import opened ChunkedReading

  /** One segment of a list of octets to be written. */
  class Kbuf {
    const data: seq<byte>
    var next: Kbuf?

    constructor (data: seq<byte>)
      ensures this.data == data && next == null
    {
      this.data := data;
      next := null;
    }
  }

  function Datas(chain: seq<Kbuf>): (r: seq<seq<byte>>)
    ensures |r| == |chain|
  {
    seq(|chain|, i requires 0 <= i < |chain| => chain[i].data)
  }

  /** What a list of segments holds. */
  function TextOf(chain: seq<Kbuf>): seq<byte>
  {
    Flat(Datas(chain))
  }

  /** `head` leads along `chain` and then to `end`. */
  ghost predicate Leads(head: Kbuf?, chain: seq<Kbuf>, end: Kbuf?)
    reads chain`next
  {
    && head == (if chain == [] then end else chain[0])
    && forall i {:trigger chain[i].next} :: 0 <= i < |chain| ==>
      chain[i].next == if i + 1 < |chain| then chain[i + 1] else end
  }

  /** The peer's end of a connection: it takes `room` more octets before the connection fails. */
  class Connection {
    var wire: seq<byte>
    var room: nat

    constructor (room: nat)
      ensures wire == [] && this.room == room
    {
      wire, this.room := [], room;
    }

    /** Sends a prefix: all of it, or as much as the connection still takes. */
    method WritevFull(iov: seq<seq<byte>>) returns (got: nat, full: bool)
      modifies this
      ensures got == Min(old(room), |Flat(iov)|) && full == (|Flat(iov)| <= old(room))
      ensures wire == old(wire) + Flat(iov)[..got] && room == old(room) - got
    {
      var all := Flat(iov);
      got := Min(room, |all|);
      full := |all| <= room;
      wire, room := wire + all[..got], room - got;
    }

    /** Sends some of it: at least an octet while the connection still takes any. */
    method Write(data: seq<byte>) returns (got: nat)
      requires data != []
      modifies this
      ensures got <= |data| && (got > 0 <==> old(room) > 0)
      ensures wire == old(wire) + data[..got] && room == old(room) - got
    {
      got := Min(room, |data|);
      wire, room := wire + data[..got], room - got;
    }
  }

  /** What a connection with so much room makes of some octets: it takes all of them, or a prefix that fills it. */
  predicate Took(was: seq<byte>, room: nat, all: seq<byte>, now: seq<byte>, room': nat)
  {
    now == was + all[..Min(room, |all|)] && room' == room - Min(room, |all|)
  }

  /** Octets after octets that were all taken. */
  lemma TookMore(was: seq<byte>, room: nat, a: seq<byte>, mid: seq<byte>, left: nat, b: seq<byte>, now: seq<byte>,
      rest: nat)
    requires Took(was, room, a, mid, left) && |a| <= room && Took(mid, left, b, now, rest)
    ensures Took(was, room, a + b, now, rest)
  {
  }

  /** What comes after a connection is full is lost. */
  lemma TookNoMore(was: seq<byte>, room: nat, a: seq<byte>, all: seq<byte>, now: seq<byte>, rest: nat)
    requires Took(was, room, a, now, rest) && room <= |a| && a <= all
    ensures Took(was, room, all, now, rest)
  {
    assert a[..room] == all[..room];
  }

  lemma TookWhole(was: seq<byte>, room: nat, all: seq<byte>, now: seq<byte>, rest: nat)
    requires Took(was, room, all, now, rest) && |all| <= room
    ensures was <= now == was + all && now[|was|..] == all && rest == room - |all|
  {
    assert all[..|all|] == all;
  }

  lemma TookLess(was: seq<byte>, room: nat, all: seq<byte>, now: seq<byte>, rest: nat)
    requires Took(was, room, all, now, rest) && room < |all|
    ensures now != was + all
  {
    assert |now| < |was + all|;
  }

  const BATCH: nat := 63

  function At(chain: seq<Kbuf>, k: nat): Kbuf?
  {
    if k < |chain| then chain[k] else null
  }

  lemma LeadsAt(head: Kbuf?, chain: seq<Kbuf>)
    requires Leads(head, chain, null)
    ensures head == At(chain, 0)
  {
  }

  function Upto(chain: seq<Kbuf>, k: nat): nat
    requires k <= |chain|
  {
    |TextOf(chain[..k])|
  }

  lemma PieceAt(chain: seq<Kbuf>, k: nat)
    requires k < |chain|
    ensures Upto(chain, k + 1) == Upto(chain, k) + |chain[k].data| <= |TextOf(chain)|
    ensures TextOf(chain)[Upto(chain, k)..Upto(chain, k + 1)] == chain[k].data
  {
    hide Flat;
    var all := Datas(chain);
    assert Datas(chain[..k]) == all[..k] && Datas(chain[..k + 1]) == all[..k + 1];
    OneMore(all, k + 1);
    FlatCut(all, k + 1);
  }

  lemma AllPieces(chain: seq<Kbuf>)
    ensures Upto(chain, 0) == 0 && Upto(chain, |chain|) == |TextOf(chain)|
  {
    assert chain[..|chain|] == chain;
    assert Datas(chain[..0]) == [];
  }

  lemma Piece(text: seq<byte>, from: nat, at: nat, data: seq<byte>, len: nat)
    requires from <= at && at + |data| <= |text| && len <= |data| && text[at..at + |data|] == data
    ensures text[from..at] + data[..len] == text[from..at + len]
  {
    assert data[..len] == text[at..at + len];
  }

  /** Fills a batch with up to 63 segments, from the `k0`-th on, as far as `length` octets go. */
  method Gather(buf: Kbuf?, length: nat, ghost chain: seq<Kbuf>, ghost k0: nat)
    returns (iov: seq<seq<byte>>, next: Kbuf?, left: nat, ghost k: nat)
    requires Leads(At(chain, 0), chain, null) && k0 <= |chain| && buf == At(chain, k0)
    requires 0 < length && Upto(chain, k0) + length <= |TextOf(chain)|
    ensures k0 < k <= |chain| && next == At(chain, k) && |iov| == k - k0 <= BATCH
    ensures left <= length && Flat(iov) == TextOf(chain)[Upto(chain, k0)..Upto(chain, k0) + length - left]
    ensures left > 0 ==> Upto(chain, k) == Upto(chain, k0) + length - left
  {
    hide Flat, Upto, TextOf;
    FlatNone();
    AllPieces(chain);
    iov, next, left, k := [], buf, length, k0;
    ghost var text, from := TextOf(chain), Upto(chain, k0);
    while |iov| < BATCH && left > 0
      invariant k0 <= k <= |chain| && next == At(chain, k) && |iov| == k - k0 <= BATCH && (k == k0 ==> left == length)
      invariant left <= length && Flat(iov) == text[from..from + length - left]
      invariant left > 0 ==> Upto(chain, k) == from + length - left
      decreases |chain| - k
    {
      PieceAt(chain, k);
      var len := Min(left, |next.data|);
      FlatAppend(iov, next.data[..len]);
      Piece(text, from, from + length - left, next.data, len);
      iov := iov + [next.data[..len]];
      left := left - len;
      next := next.next;
      k := k + 1;
    }
  }

  /** What is put on the wire: without any text there is no suffix either. */
  function WithSuffix(text: seq<byte>, suffix: seq<byte>): seq<byte>
  {
    if text == [] then [] else text + suffix
  }

  /** Writes `length` octets of a list of segments and then the suffix, a batch at a time; returns what is left. */
  method WriteBuf(cn: Connection, buf: Kbuf?, length: nat, suffix: seq<byte>, ghost chain: seq<Kbuf>)
    returns (left: nat)
    requires Leads(buf, chain, null) && length <= |TextOf(chain)|
    modifies cn
    ensures var all := WithSuffix(TextOf(chain)[..length], suffix);
      && cn.wire == old(cn.wire) + all[..Min(old(cn.room), |all|)]
      && cn.room == old(cn.room) - Min(old(cn.room), |all|)
      && left == length + |suffix| - Min(old(cn.room), |all|)
  {
    hide Flat, Upto, TextOf, WithSuffix, Leads;
    AllPieces(chain);
    LeadsAt(buf, chain);
    ghost var text, sent, k := TextOf(chain), 0, 0;
    ghost var all := WithSuffix(text[..length], suffix);
    SuffixIs(text, length, suffix);
    var bufLength, next := length, buf;
    left := length + |suffix|;
    assert all[..0] == [];
    while bufLength > 0
      invariant k <= |chain| && next == At(chain, k) && 0 <= bufLength <= length
      invariant bufLength > 0 ==> Upto(chain, k) == length - bufLength
      invariant sent == if bufLength == 0 then |all| else length - bufLength
      invariant sent <= |all| && cn.wire == old(cn.wire) + all[..sent]
      invariant cn.room == old(cn.room) - sent && left == length + |suffix| - sent
      decreases |chain| - k
    {
      var iov, after, rest, k' := Gather(next, bufLength, chain, k);
      BatchIs(text, length, suffix, sent, length - rest);
      next, bufLength, k := after, rest, k';
      if bufLength == 0 && |suffix| > 0 {
        FlatAppend(iov, suffix);
        iov := iov + [suffix];
      }
      var got, full := cn.WritevFull(iov);
      Extended(old(cn.wire), all, sent, |Flat(iov)|, got);
      left := left - got;
      sent := sent + got;
      if !full {
        break;
      }
    }
  }

  lemma SuffixIs(text: seq<byte>, length: nat, suffix: seq<byte>)
    requires length <= |text|
    ensures |WithSuffix(text[..length], suffix)| == if length == 0 then 0 else length + |suffix|
  {
  }

  /** The next batch, and with the suffix the last one, are slices of everything to be sent. */
  lemma BatchIs(text: seq<byte>, length: nat, suffix: seq<byte>, from: nat, to: nat)
    requires from <= to <= length <= |text| && length > 0
    ensures var all := WithSuffix(text[..length], suffix);
      |all| == length + |suffix| && text[from..to] == all[from..to] && text[from..length] + suffix == all[from..]
  {
  }

  lemma Extended(was: seq<byte>, all: seq<byte>, sent: nat, n: nat, got: nat)
    requires sent + n <= |all| && got <= n
    ensures was + all[..sent] + all[sent..sent + n][..got] == was + all[..sent + got]
  {
    assert all[..sent] + all[sent..sent + n][..got] == all[..sent + got];
  }

  /** The segments of a response's head, until they are sent with its body. */
  class ResponseContext {
    var head: Kbuf?
    var last: Kbuf?
    var totalLen: nat
    ghost var chain: seq<Kbuf>

    ghost predicate Valid()
      reads this, chain`next
    {
      && Leads(head, chain, null) && Distinct(chain)
      && last == (if chain == [] then null else chain[|chain| - 1])
      && totalLen == |Text()|
    }

    ghost function Text(): seq<byte>
      reads this`chain
    {
      TextOf(chain)
    }

    constructor ()
      ensures Valid() && Text() == [] && chain == []
    {
      head, last, totalLen, chain := null, null, 0, [];
    }

    method Clean()
      modifies this
      ensures Valid() && Text() == [] && chain == []
    {
      head, last, totalLen, chain := null, null, 0, [];
    }

    /** Puts a segment in front. */
    method Insert(buf: Kbuf)
      requires Valid() && buf !in chain
      modifies this, buf`next
      ensures Valid() && Text() == buf.data + old(Text()) && chain == [buf] + old(chain)
    {
      hide Flat;
      FlatHead(buf.data, Datas(chain));
      assert Datas([buf] + chain) == [buf.data] + Datas(chain);
      buf.next := head;
      if last == null {
        last := buf;
      }
      head := buf;
      totalLen := totalLen + |buf.data|;
      chain := [buf] + chain;
    }

    method Append(buf: Kbuf)
      requires Valid() && buf !in chain
      modifies this, buf`next, (if last == null then {} else {last})`next
      ensures Valid() && Text() == old(Text()) + buf.data && chain == old(chain) + [buf]
    {
      hide Flat;
      FlatAppend(Datas(chain), buf.data);
      assert Datas(chain + [buf]) == Datas(chain) + [buf.data];
      if last == null {
        head := buf;
      } else {
        last.next := buf;
      }
      buf.next := null;
      last := buf;
      totalLen := totalLen + |buf.data|;
      chain := chain + [buf];
    }

    /** Puts a string in front, its length passed in 16 bits. */
    method HeadInsertConst(str: seq<byte>)
      requires Valid()
      modifies this
      ensures Valid() && Text() == Cut(str) + old(Text()) && chain != []
      ensures forall b :: b in chain ==> b in old(chain) || fresh(b)
    {
      hide Flat;
      var t := new Kbuf(Cut(str));
      Insert(t);
    }

    /** Puts a string behind, its length passed in 16 bits. */
    method HeadAppend(str: seq<byte>)
      requires Valid()
      modifies this, (if last == null then {} else {last})`next
      ensures Valid() && Text() == old(Text()) + Cut(str) && chain != []
      ensures forall b :: b in chain ==> b in old(chain) || fresh(b)
      ensures last != null && fresh(last)
    {
      hide Flat;
      var t := new Kbuf(Cut(str));
      Append(t);
    }

    /** Leads on to the segments of a body, `len` octets of which are to be sent. */
    method Attach(buf: Kbuf?, len: nat, ghost body: seq<Kbuf>)
      requires Valid() && chain != [] && Leads(buf, body, null) && forall b :: b in body ==> b !in chain
      modifies this`totalLen, last`next
      ensures Leads(head, chain + body, null) && totalLen == |Text()| + len
      ensures TextOf(chain + body) == Text() + TextOf(body)
    {
      hide Flat;
      FlatSplit(Datas(chain), Datas(body));
      assert last in chain;
      assert forall j :: 0 <= j < |body| ==> body[j] in body && body[j] != last;
      assert Datas(chain + body) == Datas(chain) + Datas(body);
      last.next := buf;
      totalLen := totalLen + len;
      ghost var all := chain + body;
      forall i | 0 <= i < |all|
        ensures all[i].next == if i + 1 < |all| then all[i + 1] else null
      {
        assert i < |chain| ==> all[i] == chain[i];
        assert i >= |chain| ==> all[i] == body[i - |chain|];
      }
    }
  }
}
