/** The HTTP/2 connection's queue of outgoing buffers, sent in order and in part. */
module WriteQueue {
  import opened Bytes
  import opened Parts

  /** The length to be counted down; a negative one means that the body ends when its writer says so. */
  function Declared(length: int): int
  {
    if length >= 0 then length else -1
  }

  /** Segments of a body to be written, possibly empty ones among them. */
  datatype Segments = Empty | Segment(data: seq<byte>, next: Segments)

  /** What one write offers: the first octets of some segments, or a stretch of a file. */
  datatype Body = Memory(segments: Segments, length: nat) | File(content: seq<byte>, offset: nat, length: nat)

  /** A stream, and what its writer waits with: a body for the window, or the length it is to be told. */
  class Stream {
    const id: nat
    var sendWindow: int
    // whether its head is out
    var started: bool
    var contentLeft: int
    var outClosed: bool
    var waiting: bool
    var body: Body
    var len: int
    // what its writers were told, in order
    var notices: seq<int>

    constructor (id: nat, sendWindow: int)
      ensures this.id == id && this.sendWindow == sendWindow && contentLeft == 0 && !outClosed && !started
      ensures !waiting && notices == []
    {
      this.id, this.sendWindow := id, sendWindow;
      started := false;
      contentLeft, outClosed, waiting, body, len, notices := 0, false, false, Memory(Empty, 0), 0, [];
    }

    method SetContentLength(length: int)
      modifies this`contentLeft
      ensures contentLeft == Declared(length)
    {
      contentLeft := if length >= 0 then length else -1;
    }
  }

  /** A buffer. With `sendfile` it stands for `used` octets of a file, from `offset` on. */
  class Buffer {
    var content: seq<byte>
    var used: nat
    var sendfile: bool
    var offset: nat
    var nodelay: bool
    var ctx: Stream?
    var next: Buffer?

    constructor (content: seq<byte>, used: nat, sendfile: bool, offset: nat)
      ensures this.content == content && this.used == used && this.sendfile == sendfile && this.offset == offset
      ensures !nodelay && ctx == null && next == null
    {
      this.content, this.used, this.sendfile, this.offset := content, used, sendfile, offset;
      nodelay, ctx, next := false, null, null;
    }

    /** The octets still to be sent when `hot` octets of a memory buffer are gone. */
    ghost predicate Owes(hot: nat, bytes: seq<byte>)
      reads this`content, this`used, this`sendfile, this`offset
    {
      if sendfile then offset + used <= |content| && bytes == content[offset..offset + used]
      else hot <= used <= |content| && bytes == content[hot..used]
    }

    /** Tells the waiting writer that its frame is gone, or with `fin` that it never will be. */
    method Clean(fin: bool)
      requires ctx != null ==> ctx.waiting
      modifies this`ctx, (if ctx == null then {} else {ctx})`waiting, (if ctx == null then {} else {ctx})`notices
      ensures ctx == null
      ensures old(ctx) != null ==>
        !old(ctx).waiting && old(ctx).notices == old(ctx.notices) + [if fin then -1 else old(ctx.len)]
    {
      if ctx != null {
        if ctx.waiting {
          ctx.waiting := false;
          ctx.notices := ctx.notices + [if fin then -1 else ctx.len];
        }
        ctx := null;
      }
    }
  }

  /** Each of these buffers is followed by the next one. */
  ghost predicate Spine(nodes: seq<Buffer>)
    reads nodes`next
  {
    forall i {:trigger nodes[i].next} :: 0 <= i < |nodes| - 1 ==> nodes[i].next == nodes[i + 1]
  }

  /** `head` starts the linked list of exactly these buffers. */
  ghost predicate IsList(head: Buffer?, nodes: seq<Buffer>)
    reads nodes`next
  {
    && head == (if nodes == [] then null else nodes[0])
    && Spine(nodes)
    && (nodes != [] ==> nodes[|nodes| - 1].next == null)
  }

  /**
   The books of a queue: the buffers queued and what each still owes, every buffer ever queued
   and handed back, and every octet ever accepted and sent.
   */
  datatype Ledger = Ledger(
    chain: seq<Buffer>,
    todo: seq<seq<byte>>,
    pushed: seq<Buffer>,
    returned: seq<Buffer>,
    accepted: seq<byte>,
    sent: seq<byte>)

  const EMPTY: Ledger := Ledger([], [], [], [], [], [])

  /** No octet is lost or repeated, and no buffer is handed back twice or early. */
  ghost predicate Balanced(b: Ledger)
  {
    && |b.todo| == |b.chain|
    && b.accepted == b.sent + Flat(b.todo)
    && b.pushed == b.returned + b.chain
    && Distinct(b.pushed)
  }

  function Enter(b: Ledger, buf: Buffer, bytes: seq<byte>): Ledger
  {
    b.(chain := b.chain + [buf], todo := b.todo + [bytes], pushed := b.pushed + [buf], accepted := b.accepted + bytes)
  }

  lemma EnterBalances(b: Ledger, buf: Buffer, bytes: seq<byte>)
    requires Balanced(b) && buf !in b.pushed
    ensures Balanced(Enter(b, buf, bytes))
    ensures |Flat(Enter(b, buf, bytes).todo)| == |Flat(b.todo)| + |bytes|
  {
    FlatAppend(b.todo, bytes);
    hide Flat;
    var b' := Enter(b, buf, bytes);
    assert b'.pushed == b'.returned + b'.chain;
  }

  function EnterAll(b: Ledger, nodes: seq<Buffer>, parts: seq<seq<byte>>): Ledger
  {
    b.(chain := b.chain + nodes, todo := b.todo + parts, pushed := b.pushed + nodes,
      accepted := b.accepted + Flat(parts))
  }

  lemma EnterOneMore(b: Ledger, nodes: seq<Buffer>, parts: seq<seq<byte>>, k: nat)
    requires |nodes| == |parts| && k < |nodes|
    ensures EnterAll(b, nodes[..k + 1], parts[..k + 1])
            == Enter(EnterAll(b, nodes[..k], parts[..k]), nodes[k], parts[k])
  {
    assert nodes[..k + 1] == nodes[..k] + [nodes[k]] && parts[..k + 1] == parts[..k] + [parts[k]];
    FlatAppend(parts[..k], parts[k]);
    hide Flat;
  }

  /** In a balanced chain every buffer but the last differs from the last, and but the first from the first. */
  lemma ChainDistinct(b: Ledger)
    requires Balanced(b)
    ensures |b.todo| == |b.chain| && Distinct(b.chain)
    ensures forall i :: 0 <= i < |b.chain| - 1 ==> b.chain[i] != b.chain[|b.chain| - 1]
    ensures b.chain != [] ==> forall i :: 0 < i < |b.chain| ==> b.chain[i] != b.chain[0]
  {
    hide Flat;
    forall i, j | 0 <= i < j < |b.chain|
      ensures b.chain[i] != b.chain[j]
    {
      assert b.pushed[|b.returned| + i] == b.chain[i] && b.pushed[|b.returned| + j] == b.chain[j];
    }
  }

  /** Buffer by buffer, what the chain owes; `hot` octets of the first one are gone. */
  ghost predicate AllOwe(chain: seq<Buffer>, todo: seq<seq<byte>>, hot: nat)
    requires |todo| == |chain|
    reads chain`content, chain`used, chain`sendfile, chain`offset
  {
    forall i :: 0 <= i < |chain| ==> chain[i].Owes(if i == 0 then hot else 0, todo[i])
  }

  /** The same buffers, latest first. */
  function Reversed(nodes: seq<Buffer>): seq<Buffer>
  {
    seq(|nodes|, i requires 0 <= i < |nodes| => nodes[|nodes| - 1 - i])
  }

  /** Every buffer that completes a frame has a waiting writer of its own. */
  ghost predicate Armed(nodes: seq<Buffer>, streams: set<Stream>)
    reads nodes`ctx, streams`waiting
  {
    && (forall i :: 0 <= i < |nodes| && nodes[i].ctx != null ==> nodes[i].ctx in streams && nodes[i].ctx.waiting)
    && (forall i, j :: 0 <= i < j < |nodes| && nodes[i].ctx != null ==> nodes[i].ctx != nodes[j].ctx)
  }

  /** Lets go of a list of buffers: each frame they complete is reported once, to its own writer. */
  method RemoveBuff(list: Buffer?, fin: bool, ghost nodes: seq<Buffer>, ghost streams: set<Stream>)
    requires IsList(list, nodes) && Distinct(nodes) && Armed(nodes, streams)
    modifies nodes`ctx, streams`waiting, streams`notices
    ensures forall i :: 0 <= i < |nodes| ==> nodes[i].ctx == null
    ensures forall i :: 0 <= i < |nodes| && old(nodes[i].ctx) != null ==> var s := old(nodes[i].ctx);
      !s.waiting && s.notices == old(s.notices) + [if fin then -1 else old(s.len)]
    ensures forall s :: s in streams && (forall i :: 0 <= i < |nodes| ==> old(nodes[i].ctx) != s) ==>
      s.notices == old(s.notices) && s.waiting == old(s.waiting)
  {
    var rest := list;
    ghost var k := 0;
    while rest != null
      invariant k <= |nodes| && rest == (if k < |nodes| then nodes[k] else null)
      invariant forall i :: 0 <= i < k ==> nodes[i].ctx == null
      invariant forall i :: k <= i < |nodes| ==> nodes[i].ctx == old(nodes[i].ctx)
      invariant forall i :: 0 <= i < k && old(nodes[i].ctx) != null ==> var s := old(nodes[i].ctx);
        !s.waiting && s.notices == old(s.notices) + [if fin then -1 else old(s.len)]
      invariant forall s :: s in streams && (forall i :: 0 <= i < k ==> old(nodes[i].ctx) != s) ==>
        s.notices == old(s.notices) && s.waiting == old(s.waiting)
      decreases |nodes| - k
    {
      var next := rest.next;
      rest.Clean(fin);
      rest := next;
      k := k + 1;
    }
  }

  /** A place in the books: `k` whole parts and `x` octets of the next one, but never all of it unless it is empty. */
  ghost predicate Within(b: Ledger, k: nat, x: nat)
    ensures Within(b, k, x) ==> |b.todo| == |b.chain| && k <= |b.todo|
  {
    && |b.todo| == |b.chain| && k <= |b.todo|
    && (if k < |b.todo| then x <= |b.todo[k]| && (x == |b.todo[k]| ==> x == 0) else x == 0)
  }

  /** The books after the first `k` buffers and `x` octets of the next one are gone. */
  ghost function Part(b: Ledger, k: nat, x: nat): Ledger
    requires Within(b, k, x)
  {
    Ledger(
      b.chain[k..],
      if k < |b.todo| then [b.todo[k][x..]] + b.todo[k + 1..] else [],
      b.pushed,
      b.returned + b.chain[..k],
      b.accepted,
      b.sent + Flat(b.todo[..k]) + if k < |b.todo| then b.todo[k][..x] else [])
  }

  /** Number of octets gone by then. */
  function Gone(b: Ledger, k: nat, x: nat): nat
    requires k <= |b.todo|
  {
    |Flat(b.todo[..k])| + x
  }

  lemma PartBalances(b: Ledger, k: nat, x: nat)
    requires Balanced(b) && Within(b, k, x)
    ensures Balanced(Part(b, k, x))
    ensures |Flat(Part(b, k, x).todo)| == |Flat(b.todo)| - Gone(b, k, x)
    ensures Part(b, k, x).sent == b.sent + Flat(b.todo)[..Gone(b, k, x)]
    ensures Flat(Part(b, k, x).todo) == Flat(b.todo)[Gone(b, k, x)..]
  {
    FlatNone();
    hide Flat, Distinct;
    var p := Part(b, k, x);
    assert b.pushed == p.returned + p.chain;
    if k < |b.todo| {
      FlatAround(b.todo, k);
      FlatHead(b.todo[k][x..], b.todo[k + 1..]);
      var before, part, after := Flat(b.todo[..k]), b.todo[k], Flat(b.todo[k + 1..]);
      assert Flat(b.todo) == (before + part[..x]) + (part[x..] + after);
      assert b.sent + (before + part[..x]) == p.sent;
      assert b.accepted == p.sent + (part[x..] + after);
    } else {
      assert b.todo[..k] == b.todo;
      assert p.sent == b.sent + Flat(b.todo);
    }
  }

  lemma StartsWithin(b: Ledger)
    requires Balanced(b)
    ensures Within(b, 0, 0) && Gone(b, 0, 0) == 0 && (b.chain == [] ==> Flat(b.todo) == []) && Distinct(b.chain)
  {
    ChainDistinct(b);
    assert b.todo[..0] == [];
  }

  lemma Listed(chain: seq<Buffer>, k: nat, removed: Buffer?)
    requires k <= |chain| && Unlinked(chain, k, removed)
    ensures IsList(removed, Reversed(chain[..k]))
  {
    var nodes := Reversed(chain[..k]);
    assert forall i :: 0 <= i < k ==> nodes[i] == chain[k - 1 - i];
  }

  /** What is still queued at a place: the tail of one part, then the parts after it. */
  lemma Remaining(b: Ledger, k: nat, x: nat)
    requires Within(b, k, x) && k < |b.todo|
    ensures var p := Part(b, k, x);
      && |p.todo| == |p.chain| == |b.todo| - k
      && p.todo[0] == b.todo[k][x..]
      && (forall i :: 0 <= i < |p.chain| ==> p.chain[i] == b.chain[k + i])
      && (forall i :: 0 < i < |p.todo| ==> p.todo[i] == b.todo[k + i])
  {
    hide Flat;
  }

  lemma NothingLeft(b: Ledger, k: nat, x: nat)
    requires Within(b, k, x) && k == |b.todo|
    ensures Part(b, k, x).chain == [] && Part(b, k, x).todo == [] && Flat(Part(b, k, x).todo) == []
  {
  }

  lemma NoneWants(chain: seq<Buffer>)
    ensures !WantsUncork(chain[..0])
  {
  }

  lemma OneMoreWants(chain: seq<Buffer>, k: nat)
    requires k < |chain|
    ensures WantsUncork(chain[..k + 1]) <==> WantsUncork(chain[..k]) || chain[k].nodelay
  {
    assert forall i :: 0 <= i < k ==> chain[..k][i] == chain[..k + 1][i];
    assert chain[..k + 1][k] == chain[k];
  }

  lemma GoneAll(b: Ledger, k: nat, x: nat)
    requires Within(b, k, x) && k == |b.todo|
    ensures Gone(b, k, x) == |Flat(b.todo)|
  {
    hide Flat;
    assert b.todo[..k] == b.todo;
  }

  lemma Others(chain: seq<Buffer>, k: nat)
    requires Distinct(chain) && k < |chain|
    ensures forall i :: 0 <= i < |chain| && i != k ==> chain[i] != chain[k]
  {
  }

  lemma WithinPart(b: Ledger, k: nat, x: nat)
    requires Within(b, k, x) && k < |b.todo|
    ensures x < |b.todo[k]| || x == |b.todo[k]| == 0
  {
  }

  lemma EndOwes(b: Ledger, k: nat, x: nat)
    requires Within(b, k, x) && k < |b.todo| && b.todo[|b.todo| - 1] != []
    ensures var todo := Part(b, k, x).todo; todo != [] && todo[|todo| - 1] != [] && Flat(todo) != []
  {
    var todo := Part(b, k, x).todo;
    var last := |todo| - 1;
    assert todo[..last] + [todo[last]] == todo;
    FlatAppend(todo[..last], todo[last]);
    hide Flat;
  }

  /** When the rest of the current part is gone, the next part is next. */
  lemma GoneNext(b: Ledger, k: nat, x: nat)
    requires Within(b, k, x) && k < |b.todo|
    ensures Within(b, k + 1, 0) && Gone(b, k + 1, 0) == Gone(b, k, x) + |b.todo[k]| - x
    ensures k + 1 == |b.todo| ==> Gone(b, k + 1, 0) == |Flat(b.todo)|
  {
    hide Flat;
    OneMore(b.todo, k + 1);
    assert b.todo[..|b.todo|] == b.todo;
  }

  lemma GoneWithin(b: Ledger, k: nat, x: nat, more: nat)
    requires Within(b, k, x) && k < |b.todo| && x + more < |b.todo[k]|
    ensures Within(b, k, x + more) && Gone(b, k, x + more) == Gone(b, k, x) + more
    ensures b.todo[k][x..][more..] == b.todo[k][x + more..]
  {
    hide Flat;
  }

  lemma AllOweAppend(chain: seq<Buffer>, todo: seq<seq<byte>>, hot: nat, buf: Buffer, bytes: seq<byte>)
    requires |todo| == |chain| && (chain == [] ==> hot == 0)
    requires (chain != [] ==> AllOwe(chain, todo, hot)) && buf.Owes(0, bytes)
    ensures AllOwe(chain + [buf], todo + [bytes], hot)
    ensures buf.used == |bytes|
  {
  }

  lemma SpineAppend(chain: seq<Buffer>, buf: Buffer)
    requires forall i {:trigger chain[i].next} :: 0 <= i < |chain| - 1 ==> chain[i].next == chain[i + 1]
    requires chain != [] ==> chain[|chain| - 1].next == buf
    ensures Spine(chain + [buf])
  {
    var nodes := chain + [buf];
    forall i | 0 <= i < |nodes| - 1
      ensures nodes[i].next == nodes[i + 1]
    {
      assert nodes[i] == chain[i];
    }
  }

  class Queue {
    var header: Buffer?
    var last: Buffer?
    // octets of a memory buffer at the head that are already sent
    var hot: nat
    var left: int
    var cork: bool
    var uncorkWhenEmpty: bool
    ghost var book: Ledger

    /** Everything but the closing of the list, which is missing while a list is being pushed. */
    ghost predicate Open()
      reads this`header, this`last, this`hot, this`left, this`book
      reads book.chain`content, book.chain`used, book.chain`sendfile, book.chain`offset, book.chain`next
    {
      && Balanced(book) && Spine(book.chain) && AllOwe(book.chain, book.todo, hot)
      && left == |Flat(book.todo)|
      && header == (if book.chain == [] then null else book.chain[0])
      && last == (if book.chain == [] then null else book.chain[|book.chain| - 1])
    }

    /** The list ends at `end`, and with a buffer that owes something. */
    ghost predicate Closed(end: Buffer?)
      reads this`book, (if end == null then {} else {end})`next
    {
      end != null ==> end.next == null && book.todo != [] && book.todo[|book.todo| - 1] != []
    }

    ghost predicate Valid()
      reads this`header, this`last, this`hot, this`left, this`book
      reads book.chain`content, book.chain`used, book.chain`sendfile, book.chain`offset, book.chain`next
      reads (if last == null then {} else {last})`next
    {
      Open() && Closed(last)
    }

    /** The octets accepted and not yet sent. */
    ghost function Pending(): seq<byte>
      reads this`book
    {
      Flat(book.todo)
    }

    constructor ()
      ensures Valid() && book == EMPTY
    {
      header, last, hot, left, cork, uncorkWhenEmpty := null, null, 0, 0, false, false;
      book := EMPTY;
    }

    /** Appends one buffer, which may already be followed by others to come. */
    method Add(buf: Buffer, ghost bytes: seq<byte>)
      requires Open() && buf !in book.pushed && buf.Owes(0, bytes)
      modifies this`left, this`header, this`last, this`hot, this`book, (if last == null then {} else {last})`next
      ensures Open() && last == buf && book == Enter(old(book), buf, bytes)
      ensures old(last) != null ==> old(last) != buf && old(last).next == buf
    {
      hide Flat, Balanced, Distinct, AllOwe;
      EnterBalances(book, buf, bytes);
      ChainDistinct(book);
      LastIsPushed(book);
      ghost var chain := book.chain;
      left := left + buf.used;
      if last == null {
        header := buf;
        last := buf;
        hot := 0;
      } else {
        last.next := buf;
        last := buf;
      }
      AllOweAppend(chain, book.todo, hot, buf, bytes);
      SpineAppend(chain, buf);
      hide Spine;
      book := Enter(book, buf, bytes);
    }

    lemma LastKnown()
      requires Open()
      ensures |book.todo| == |book.chain| && (last != null ==> last in book.pushed)
    {
      hide Flat, Distinct, AllOwe, Spine;
      LastIsPushed(book);
    }

    /** Appends a list of buffers, the last of which owes something. */
    method Push(list: Buffer?, ghost nodes: seq<Buffer>, ghost parts: seq<seq<byte>>)
      requires Valid()
      requires IsList(list, nodes) && Distinct(nodes) && forall b :: b in nodes ==> b !in book.pushed
      requires |parts| == |nodes| && AllOwe(nodes, parts, 0) && (nodes != [] ==> parts[|parts| - 1] != [])
      modifies this`left, this`header, this`last, this`hot, this`book
      modifies nodes`next, (if last == null then {} else {last})`next
      ensures Valid() && book == EnterAll(old(book), nodes, parts)
    {
      hide Open, Flat, Enter, EnterAll, Distinct, AllOwe;
      NothingEntered(book, nodes, parts);
      LastKnown();
      var buf := list;
      ghost var k := 0;
      while buf != null
        invariant k <= |nodes| && buf == (if k < |nodes| then nodes[k] else null)
        invariant Open() && book == EnterAll(old(book), nodes[..k], parts[..k])
        invariant last == (if k > 0 then nodes[k - 1] else old(last))
        invariant forall i {:trigger nodes[i].next} :: 0 <= i < |nodes| ==> nodes[i].next == old(nodes[i].next)
        invariant k == 0 ==> Closed(last)
        decreases |nodes| - k
      {
        EnterOneMore(old(book), nodes, parts, k);
        NotEntered(old(book), nodes, parts, k);
        OwesAt(nodes, parts, k);
        Add(buf, parts[k]);
        k := k + 1;
        buf := buf.next;
      }
      assert nodes[..k] == nodes && parts[..k] == parts;
      LastEntered(old(book), nodes, parts);
    }

    lemma HeadKnown()
      requires Valid() && header != null
      ensures |book.todo| == |book.chain| > 0 && header == book.chain[0] && header.Owes(hot, book.todo[0])
    {
      hide Flat, Distinct, Spine, Closed;
    }

    /**
     The pieces offered to the socket: one piece of a file when a file is at the head, or else
     memory buffers up to the next file, at most `limit` of them.
     */
    method GetReadBuffer(limit: nat) returns (iov: seq<seq<byte>>, file: bool)
      requires Valid() && header != null && limit > 0
      modifies this`cork
      ensures Valid() && book == old(book) && file == header.sendfile
      ensures 0 < |iov| <= |book.todo| && iov == book.todo[..|iov|] && |iov| <= limit
      ensures Flat(iov) <= Pending() && cork
      ensures forall i :: 0 < i < |iov| ==> !book.chain[i].sendfile
      ensures file ==> |iov| == 1
      ensures !file && |iov| < limit && |iov| < |book.chain| ==> book.chain[|iov|].sendfile || Flat(iov) == Pending()
    {
      hide Flat, Valid;
      HeadKnown();
      if !cork {
        cork := true;
      }
      if header.sendfile {
        iov := [header.content[header.offset..header.offset + header.used]];
      } else {
        iov := Gather(limit);
      }
      Exposed(book.todo, |iov|);
      file := header.sendfile;
    }

    method Gather(limit: nat) returns (iov: seq<seq<byte>>)
      requires Valid() && header != null && limit > 0 && !header.sendfile && |book.todo| == |book.chain|
      ensures 0 < |iov| <= |book.todo| && iov == book.todo[..|iov|] && |iov| <= limit
      ensures forall i :: 0 < i < |iov| ==> !book.chain[i].sendfile
      ensures |iov| < limit && |iov| < |book.chain| ==> book.chain[|iov|].sendfile || |Flat(iov)| == |Flat(book.todo)|
    {
      hide Flat, Distinct, Balanced;
      var got := left;
      var tmp := header;
      var hotLeft := if header.used - hot < got then header.used - hot else got;
      Exposed(book.todo, 1);
      iov := [header.content[hot..hot + hotLeft]];
      got := got - hotLeft;
      var i := 1;
      while i < limit
        invariant 0 < i == |iov| <= |book.todo| && i <= limit && iov == book.todo[..i]
        invariant tmp == book.chain[i - 1]
        invariant got == |Flat(book.todo)| - |Flat(iov)|
        invariant forall k :: 0 < k < i ==> !book.chain[k].sendfile
      {
        Exposed(book.todo, i);
        if i < |book.chain| {
          assert book.chain[i - 1].next == book.chain[i];
        }
        tmp := tmp.next;
        if tmp == null || got <= 0 || tmp.sendfile {
          break;
        }
        Exposed(book.todo, i + 1);
        var len := if got < tmp.used then got else tmp.used;
        iov := iov + [tmp.content[..len]];
        got := got - len;
        i := i + 1;
      }
    }

    /** Takes up to `got` octets off the buffer at the head. */
    method Consume(got: nat, ghost bytes: seq<byte>) returns (rest: nat, empty: bool)
      requires header != null && header.Owes(hot, bytes)
      modifies this`hot, header`used, header`offset
      ensures empty <==> got >= |bytes|
      ensures rest == if empty then got - |bytes| else 0
      ensures !empty ==> header.Owes(hot, bytes[got..])
    {
      if header.sendfile {
        header.offset := header.offset + got;
        var thisLen := if got < header.used then got else header.used;
        header.used := header.used - thisLen;
        rest := got - thisLen;
        empty := header.used == 0;
      } else {
        var hotLeft := header.used - hot;
        var thisLen := if got < hotLeft then got else hotLeft;
        hot := hot + thisLen;
        rest := got - thisLen;
        empty := header.used == hot;
      }
    }

    /** `k` buffers of what was owed in `b` are gone and listed, and `x` octets of the next one, at the head. */
    ghost predicate Progress(b: Ledger, k: nat, x: nat, removed: Buffer?)
      requires Within(b, k, x)
      reads this`header, this`last, this`hot
      reads b.chain`content, b.chain`used, b.chain`sendfile, b.chain`offset, b.chain`next
      ensures Progress(b, k, x, removed) ==>
        Unlinked(b.chain, k, removed) && header == (if k < |b.chain| then b.chain[k] else null)
    {
      && Unlinked(b.chain, k, removed)
      && last == (if b.chain == [] then null else b.chain[|b.chain| - 1])
      && header == (if k < |b.chain| then b.chain[k] else null)
      && (k < |b.chain| ==> header.Owes(hot, b.todo[k][x..]))
      && (forall i :: k < i < |b.chain| ==> b.chain[i].Owes(0, b.todo[i]))
      && (forall i {:trigger b.chain[i].next} :: k <= i < |b.chain| - 1 ==> b.chain[i].next == b.chain[i + 1])
      && (last != null && k < |b.chain| ==> last.next == null)
    }

    lemma SettledLinks(b: Ledger, k: nat, x: nat, removed: Buffer?)
      requires Within(b, k, x) && k < |b.todo| && Progress(b, k, x, removed) && book == Part(b, k, x)
      ensures |book.chain| > 0 && Spine(book.chain) && header == book.chain[0] && last == book.chain[|book.chain| - 1]
      ensures last.next == null
    {
      hide Flat, Unlinked;
    }

    lemma SettledOwe(b: Ledger, k: nat, x: nat, removed: Buffer?)
      requires Within(b, k, x) && k < |b.todo| && Progress(b, k, x, removed) && book == Part(b, k, x)
      ensures |book.chain| == |book.todo| && AllOwe(book.chain, book.todo, hot)
    {
      Remaining(b, k, x);
      hide Flat, Unlinked, Part;
    }

    /** Where the loop may stop: with everything gone, or in a list that still owes something. */
    lemma Settles(b: Ledger, k: nat, x: nat, removed: Buffer?)
      requires Balanced(b) && Within(b, k, x) && Progress(b, k, x, removed)
      requires book == Part(b, k, x) && left == |Flat(b.todo)| - Gone(b, k, x)
      requires b.todo != [] ==> b.todo[|b.todo| - 1] != []
      ensures k < |b.todo| ==> Valid() && left > 0
      ensures k == |b.todo| ==> left == 0 && header == null && book.chain == []
      ensures Balanced(book) && |Flat(book.todo)| == left
    {
      hide Part, Flat, Balanced, Gone, Within, Progress, AllOwe, Spine;
      PartBalances(b, k, x);
      if k < |b.todo| {
        EndOwes(b, k, x);
        SettledLinks(b, k, x, removed);
        SettledOwe(b, k, x, removed);
      } else {
        NothingLeft(b, k, x);
      }
    }

    /** Moves the drained head over to the list of removed buffers. */
    method Unlink(removed: Buffer?, ghost b: Ledger, ghost k: nat) returns (first: Buffer)
      requires k < |b.chain| && header == b.chain[k] && Unlinked(b.chain, k, removed) && Distinct(b.chain)
      modifies this`header, header`next
      ensures first == b.chain[k] && Unlinked(b.chain, k + 1, first)
      ensures header == old(header.next)
      ensures forall i {:trigger b.chain[i].next} :: k < i < |b.chain| ==> b.chain[i].next == old(b.chain[i].next)
    {
      var next := header.next;
      header.next := removed;
      first := header;
      header := next;
    }

    /** Takes up to `rest` octets off the head, and moves the head over when that drains it. */
    method Round(rest: nat, removed: Buffer?, ghost b: Ledger, ghost k: nat, ghost x: nat)
      returns (more: nat, first: Buffer?, ghost k': nat, ghost x': nat)
      requires Within(b, k, x) && k < |b.chain| && header == b.chain[k] && Progress(b, k, x, removed)
      requires Distinct(b.chain) && rest > 0
      modifies this`header, this`hot, this`uncorkWhenEmpty, header`used, header`offset, header`next
      ensures Within(b, k', x') && Progress(b, k', x', first) && Gone(b, k', x') + more == Gone(b, k, x) + rest
      ensures k' == k + 1 || (k' == k && more == 0)
      ensures header == null <==> k' == |b.chain|
      ensures uncorkWhenEmpty == (old(uncorkWhenEmpty) || (k' > k && b.chain[k].nodelay))
    {
      hide Flat, Part, Gone, Distinct, Within, Unlinked, Buffer.Owes;
      Others(b.chain, k);
      WithinPart(b, k, x);
      ghost var bytes := b.todo[k][x..];
      var empty: bool;
      more, empty := Consume(rest, bytes);
      if empty {
        if header.nodelay {
          uncorkWhenEmpty := true;
        }
        first := Unlink(removed, b, k);
        if header != null {
          hot := 0;
        }
        GoneNext(b, k, x);
        assert k + 1 < |b.todo| ==> b.todo[k + 1][0..] == b.todo[k + 1];
        k', x' := k + 1, 0;
      } else {
        GoneWithin(b, k, x, rest);
        first, k', x' := removed, k, x + rest;
      }
    }

    /** Resets the queue and uncorks the connection when nothing is left. */
    method Finish(ghost b: Ledger, ghost k: nat, ghost x: nat, ghost removed: Buffer?)
      requires Balanced(b) && Within(b, k, x) && Progress(b, k, x, removed)
      requires left == |Flat(b.todo)| - Gone(b, k, x)
      requires b.todo != [] ==> b.todo[|b.todo| - 1] != []
      modifies this`last, this`hot, this`book, this`cork, this`uncorkWhenEmpty
      ensures Valid() && book == Part(b, k, x) && IsList(removed, Reversed(b.chain[..k]))
      ensures Gone(b, k, x) <= |Flat(b.todo)| && Pending() == Flat(b.todo)[Gone(b, k, x)..]
      ensures book.sent == b.sent + Flat(b.todo)[..Gone(b, k, x)]
      ensures if left == 0 then !uncorkWhenEmpty && cork == (old(cork) && !old(uncorkWhenEmpty))
        else uncorkWhenEmpty == old(uncorkWhenEmpty) && cork == old(cork)
    {
      hide Flat, Balanced, Part, Gone, Progress, Within;
      book := Part(b, k, x);
      Settles(b, k, x, removed);
      PartBalances(b, k, x);
      Listed(b.chain, k, removed);
      if left == 0 {
        last, hot := null, 0;
        CheckCork();
      }
    }

    /** `got` octets were sent: hands back the buffers this drained, latest first. */
    method ReadSuccess(got: nat) returns (removed: Buffer?, ghost k: nat, ghost x: nat)
      requires Valid() && got <= left
      modifies this, book.chain`used, book.chain`offset, book.chain`next
      ensures Valid()
      ensures Within(old(book), k, x) && Gone(old(book), k, x) == got
      ensures book == Part(old(book), k, x)
      ensures IsList(removed, Reversed(old(book).chain[..k]))
      ensures Pending() == old(Pending())[got..] && book.sent == old(book).sent + old(Pending())[..got]
      ensures var uncork := old(uncorkWhenEmpty) || WantsUncork(old(book).chain[..k]);
        if left == 0 then !uncorkWhenEmpty && cork == (old(cork) && !uncork)
        else uncorkWhenEmpty == uncork && cork == old(cork)
    {
      hide Valid, Open, Closed, Flat, Balanced, Part, Gone, Progress, Within, WantsUncork, Unlinked, Distinct;
      hide Reversed;
      ghost var b := book;
      NoneWants(b.chain);
      EndKnown();
      StartsWithin(b);
      Begins();
      removed, k, x := null, 0, 0;
      var rest: nat := got;
      left := left - got;
      while rest > 0
        invariant Within(b, k, x) && Gone(b, k, x) + rest == got
        invariant Progress(b, k, x, removed) && book == b && left == |Flat(b.todo)| - got
        invariant forall i :: 0 <= i < |b.chain| ==> b.chain[i].nodelay == old(b.chain[i].nodelay)
        invariant rest > 0 ==> k < |b.chain|
        invariant cork == old(cork) && uncorkWhenEmpty == (old(uncorkWhenEmpty) || WantsUncork(b.chain[..k]))
        decreases |b.chain| - k, rest
      {
        ghost var k0 := k;
        rest, removed, k, x := Round(rest, removed, b, k, x);
        OneMoreWants(b.chain, k0);
        if header == null {
          GoneAll(b, k, x);
          Finish(b, k, x, removed);
          return;
        }
      }
      Finish(b, k, x, removed);
    }

    lemma EndKnown()
      requires Valid()
      ensures Balanced(book) && left == |Flat(book.todo)| && (book.todo == [] <==> book.chain == [])
      ensures book.todo != [] ==> book.todo[|book.todo| - 1] != []
    {
      hide Flat, Distinct;
    }

    lemma Begins()
      requires Valid()
      ensures Within(book, 0, 0) && Progress(book, 0, 0, null)
    {
      StartsWithin(book);
      hide Flat, Balanced, Part, Gone, Distinct;
    }

    /** Gives up the queue: everything not yet handed back, in order. */
    method Clean() returns (list: Buffer?)
      requires Valid()
      modifies this`left, this`header, this`last, this`hot, this`book
      ensures Valid() && book == EMPTY && left == 0 && header == null && IsList(list, old(book).chain)
    {
      hide Flat;
      FlatNone();
      list := header;
      left := 0;
      header := null;
      last, hot := null, 0;
      book := EMPTY;
    }

    method CheckCork()
      modifies this`uncorkWhenEmpty, this`cork
      ensures !uncorkWhenEmpty && cork == (old(cork) && !old(uncorkWhenEmpty))
    {
      if uncorkWhenEmpty {
        uncorkWhenEmpty := false;
        if !cork {
          return;
        }
        cork := false;
      }
    }
  }

  ghost predicate Unlinked(chain: seq<Buffer>, k: nat, removed: Buffer?)
    requires k <= |chain|
    reads chain`next
  {
    && removed == (if k == 0 then null else chain[k - 1])
    && forall i {:trigger chain[i].next} :: 0 <= i < k ==> chain[i].next == if i == 0 then null else chain[i - 1]
  }

  ghost predicate WantsUncork(nodes: seq<Buffer>)
    reads nodes`nodelay
  {
    exists i :: 0 <= i < |nodes| && nodes[i].nodelay
  }

  lemma NothingEntered(b: Ledger, nodes: seq<Buffer>, parts: seq<seq<byte>>)
    requires |nodes| == |parts|
    ensures EnterAll(b, nodes[..0], parts[..0]) == b
  {
    assert b.accepted + Flat(parts[..0]) == b.accepted;
  }

  lemma OwesAt(nodes: seq<Buffer>, parts: seq<seq<byte>>, k: nat)
    requires |nodes| == |parts| && AllOwe(nodes, parts, 0) && k < |nodes|
    ensures nodes[k].Owes(0, parts[k])
  {
  }

  lemma LastEntered(b: Ledger, nodes: seq<Buffer>, parts: seq<seq<byte>>)
    requires |nodes| == |parts|
    ensures var b' := EnterAll(b, nodes, parts); parts != [] ==>
      b'.todo != [] && b'.todo[|b'.todo| - 1] == parts[|parts| - 1]
  {
    hide Flat;
  }

  lemma LastIsPushed(b: Ledger)
    requires Balanced(b)
    ensures b.chain != [] ==> b.chain[|b.chain| - 1] in b.pushed
  {
    if b.chain != [] {
      assert b.pushed[|b.pushed| - 1] == b.chain[|b.chain| - 1];
    }
  }

  lemma NotEntered(b: Ledger, nodes: seq<Buffer>, parts: seq<seq<byte>>, k: nat)
    requires Distinct(nodes) && |nodes| == |parts| && k < |nodes| && nodes[k] !in b.pushed
    ensures nodes[k] !in EnterAll(b, nodes[..k], parts[..k]).pushed
  {
    hide Flat;
  }
}
