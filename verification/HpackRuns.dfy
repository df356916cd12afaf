/** Whole runs of the dynamic table, and when they are the runs RFC 7541 prescribes. */
module HpackRuns {
  import opened Bytes
  import opened HpackFifo
  import opened HpackStatic
  import HpackTable

  /** What a header block asks of the table. */
  datatype Op =
    | Add(h: Header)
    | SetSize(size: nat)
    | Fetch(index: nat, nameOnly: bool)

  datatype Reply = Reply(ok: bool, field: Header)

  /** `ready` is false until the first insertion sets the table up. */
  datatype Decoder = Decoder(ready: bool, table: Fifo, field: Header)

  const NO_FIELD: Header := Header([], [])

  /** The server's table before any use. */
  const UNUSED: Decoder := Decoder(false, Fifo([], 0), NO_FIELD)

  /** The table of RFC 7541 at the start of a connection. */
  const STANDARD: Decoder := Decoder(true, Fifo([], TABLE_LIMIT), NO_FIELD)

  function Step(d: Decoder, op: Op): Decoder
  {
    match op
    case Add(h) => Decoder(true, Insert(if d.ready then d.table else Fifo([], TABLE_LIMIT), h), d.field)
    case SetSize(n) => if n > TABLE_LIMIT then d else d.(table := Resize(d.table, n))
    case Fetch(i, nameOnly) => d.(field := Fetched(d.field, Lookup(d.table, i), i, nameOnly))
  }

  function Answer(d: Decoder, op: Op): Reply
  {
    var ok := match op
      case Add(_) => true
      case SetSize(n) => n <= TABLE_LIMIT
      case Fetch(i, _) => Lookup(d.table, i).Some?;
    Reply(ok, Step(d, op).field)
  }

  function After(d: Decoder, ops: seq<Op>): Decoder
    decreases ops
  {
    if ops == [] then d else After(Step(d, ops[0]), ops[1..])
  }

  function Answers(d: Decoder, ops: seq<Op>): seq<Reply>
    decreases ops
  {
    if ops == [] then [] else [Answer(d, ops[0])] + Answers(Step(d, ops[0]), ops[1..])
  }

  lemma {:induction false} RunsSplit(d: Decoder, a: seq<Op>, b: seq<Op>)
    ensures After(d, a + b) == After(After(d, a), b)
    ensures Answers(d, a + b) == Answers(d, a) + Answers(After(d, a), b)
    decreases a
  {
    if a == [] {
      assert a + b == b;
    } else {
      RunsSplit(Step(d, a[0]), a[1..], b);
      assert (a + b)[0] == a[0] && (a + b)[1..] == a[1..] + b;
    }
  }

  /** Any run through the real table gives the replies of the plain queue. */
  method Run(ops: seq<Op>) returns (replies: seq<Reply>)
    ensures replies == Answers(UNUSED, ops)
  {
    hide HpackTable.Table.ValidWith, Evict, Newest, StaticHeader;
    var table := new HpackTable.Table();
    var field := NO_FIELD;
    replies := [];
    for k := 0 to |ops|
      invariant table.Valid() && fresh(table.Repr)
      invariant Decoder(table.Ready(), table.Fifo(), field) == After(UNUSED, ops[..k])
      invariant replies == Answers(UNUSED, ops[..k])
    {
      ghost var d := After(UNUSED, ops[..k]);
      var ok := true;
      match ops[k] {
        case Add(h) => ok := table.AddHeader(h);
        case SetSize(n) => ok := table.TableSize(n);
        case Fetch(i, nameOnly) => ok, field := table.GetIndexedHeader(i, nameOnly, field);
      }
      replies := replies + [Reply(ok, field)];
      OneStep(d, ops[k]);
      RunsSplit(UNUSED, ops[..k], [ops[k]]);
      assert ops[..k + 1] == ops[..k] + [ops[k]];
    }
    assert ops[..|ops|] == ops;
  }

  lemma OneStep(d: Decoder, op: Op)
    ensures After(d, [op]) == Step(d, op) && Answers(d, [op]) == [Answer(d, op)]
  {
    assert [op][1..] == [];
  }

  /**
   What a lookup answers on any run: a static index the whole of its pair, whatever was decoded before and
   whether or not only its name was asked for; a dynamic one its entry, or its name alone, the value staying
   as it was; and an index beyond the table nothing.
   */
  lemma FetchAnswers(ops: seq<Op>, index: nat, nameOnly: bool)
    ensures var d := After(UNUSED, ops);
      var found := Lookup(d.table, index);
      var replies := Answers(UNUSED, ops + [Fetch(index, nameOnly)]);
      && |replies| == |ops| + 1
      && var reply := replies[|ops|];
        && (reply.ok <==> found.Some?)
        && (1 <= index <= STATIC_ENTRIES ==> reply == Reply(true, StaticHeader(index - 1)))
        && (reply.ok && !nameOnly ==> Some(reply.field) == found)
        && (reply.ok && nameOnly && index > STATIC_ENTRIES ==> reply.field == Header(found.value.name, d.field.value))
        && (!reply.ok ==> reply.field == d.field)
  {
    hide StaticHeader;
    AnswersLength(UNUSED, ops);
    RunsSplit(UNUSED, ops, [Fetch(index, nameOnly)]);
    OneStep(After(UNUSED, ops), Fetch(index, nameOnly));
  }

  lemma {:induction false} AnswersLength(d: Decoder, ops: seq<Op>)
    ensures |Answers(d, ops)| == |ops|
    decreases ops
  {
    if ops != [] {
      AnswersLength(Step(d, ops[0]), ops[1..]);
    }
  }

  /** A stretch of a run without insertions. */
  ghost predicate NoAdd(ops: seq<Op>) { forall op :: op in ops ==> !op.Add? }

  /** The capacity in force after size updates, `capacity` being the one before them. */
  function Announced(ops: seq<Op>, capacity: nat): nat
  {
    if ops == [] then capacity
    else Announced(ops[1..], if ops[0].SetSize? && ops[0].size <= TABLE_LIMIT then ops[0].size else capacity)
  }

  /** Until the first insertion nothing but the capacity changes, and it shows in no reply. */
  lemma {:induction false} BeforeUse(a: Decoder, b: Decoder, ops: seq<Op>)
    requires a.table.queue == b.table.queue == [] && a.field == b.field
    requires NoAdd(ops)
    ensures Answers(a, ops) == Answers(b, ops)
    ensures After(a, ops) == Decoder(a.ready, Fifo([], Announced(ops, a.table.capacity)), After(b, ops).field)
    decreases ops
  {
    hide StaticHeader;
    if ops != [] {
      BeforeUse(Step(a, ops[0]), Step(b, ops[0]), ops[1..]);
    }
  }

  /** The first insertion forgets the announced capacity: it always starts from 4096. */
  lemma AtFirstAdd(before: seq<Op>, h: Header)
    requires NoAdd(before)
    ensures var ops := before + [Add(h)];
            && After(UNUSED, ops) == Decoder(true, Insert(Fifo([], TABLE_LIMIT), h), After(STANDARD, before).field)
            && After(STANDARD, ops)
               == Decoder(true, Insert(Fifo([], Announced(before, TABLE_LIMIT)), h), After(STANDARD, before).field)
            && Answers(UNUSED, ops) == Answers(STANDARD, ops)
  {
    hide Insert, Lookup, Announced;
    BeforeUse(UNUSED, STANDARD, before);
    BeforeUse(STANDARD, UNUSED, before);
    RunsSplit(UNUSED, before, [Add(h)]);
    RunsSplit(STANDARD, before, [Add(h)]);
    OneStep(After(UNUSED, before), Add(h));
    OneStep(After(STANDARD, before), Add(h));
    hide After, Answers;
  }

  /**
   The server's table is the one RFC 7541 prescribes, at the first insertion and ever after,
   exactly when the size updates before that insertion leave the capacity at 4096.
   */
  lemma StandardExactlyWhen(before: seq<Op>, h: Header, rest: seq<Op>)
    requires NoAdd(before)
    ensures (forall k :: 0 <= k <= |rest| ==>
               After(UNUSED, before + [Add(h)] + rest[..k]).table
               == After(STANDARD, before + [Add(h)] + rest[..k]).table)
            <==> Announced(before, TABLE_LIMIT) == TABLE_LIMIT
  {
    hide After, Announced, Evict;
    AtFirstAdd(before, h);
    var ops := before + [Add(h)];
    forall k | 0 <= k <= |rest|
      ensures After(UNUSED, ops + rest[..k]) == After(After(UNUSED, ops), rest[..k])
      ensures After(STANDARD, ops + rest[..k]) == After(After(STANDARD, ops), rest[..k])
    {
      RunsSplit(UNUSED, ops, rest[..k]);
      RunsSplit(STANDARD, ops, rest[..k]);
    }
    if Announced(before, TABLE_LIMIT) != TABLE_LIMIT {
      assert ops + rest[..0] == ops;
      assert After(UNUSED, ops + rest[..0]).table.capacity != After(STANDARD, ops + rest[..0]).table.capacity;
    }
  }

  /** Under that condition every reply of the run is the prescribed one; without insertions it always is. */
  lemma StandardReplies(before: seq<Op>, h: Header, rest: seq<Op>)
    requires NoAdd(before)
    ensures Answers(UNUSED, before) == Answers(STANDARD, before)
    ensures Announced(before, TABLE_LIMIT) == TABLE_LIMIT ==>
      Answers(UNUSED, before + [Add(h)] + rest) == Answers(STANDARD, before + [Add(h)] + rest)
  {
    hide After, Announced, Evict, Answers;
    BeforeUse(UNUSED, STANDARD, before);
    AtFirstAdd(before, h);
    RunsSplit(UNUSED, before + [Add(h)], rest);
    RunsSplit(STANDARD, before + [Add(h)], rest);
  }

  lemma {:induction false} AnnouncedBound(ops: seq<Op>, capacity: nat)
    requires capacity <= TABLE_LIMIT
    ensures Announced(ops, capacity) <= TABLE_LIMIT
  {
    if ops != [] {
      AnnouncedBound(ops[1..], if ops[0].SetSize? && ops[0].size <= TABLE_LIMIT then ops[0].size else capacity);
    }
  }

  function AfterAdd(before: seq<Op>, h: Header, rest: seq<Op>): seq<Op>
  {
    before + [Add(h)] + rest
  }

  /** A forgotten size update always shows: an entry that only the full capacity holds, and a reference to it. */
  lemma ForgottenShows(before: seq<Op>) returns (h: Header)
    requires NoAdd(before) && Announced(before, TABLE_LIMIT) != TABLE_LIMIT
    ensures var ops := AfterAdd(before, h, [Fetch(62, false)]); Answers(UNUSED, ops) != Answers(STANDARD, ops)
  {
    hide StaticHeader, After, Answers, Announced;
    h := Header([], seq(4064, i => 0));
    AnnouncedBound(before, TABLE_LIMIT);
    AtFirstAdd(before, h);
    var ops, last := before + [Add(h)], Fetch(62, false);
    RunsSplit(UNUSED, ops, [last]);
    RunsSplit(STANDARD, ops, [last]);
    OneStep(After(UNUSED, ops), last);
    OneStep(After(STANDARD, ops), last);
    var n := |Answers(UNUSED, ops)|;
    assert Answers(UNUSED, ops + [last])[n].ok && !Answers(STANDARD, ops + [last])[n].ok;
  }

  /**
   Seen from outside: whatever is inserted and whatever follows, all replies are the prescribed
   ones, exactly when the size updates before the first insertion leave the capacity at 4096.
   */
  lemma RepliesStandardExactlyWhen(before: seq<Op>)
    requires NoAdd(before)
    ensures (forall h, rest ::
        Answers(UNUSED, AfterAdd(before, h, rest)) == Answers(STANDARD, AfterAdd(before, h, rest)))
            <==> Announced(before, TABLE_LIMIT) == TABLE_LIMIT
  {
    hide Answers, Announced;
    if Announced(before, TABLE_LIMIT) == TABLE_LIMIT {
      forall h, rest
        ensures Answers(UNUSED, AfterAdd(before, h, rest)) == Answers(STANDARD, AfterAdd(before, h, rest))
      {
        StandardReplies(before, h, rest);
      }
    } else {
      var h := ForgottenShows(before);
      assert !(Answers(UNUSED, AfterAdd(before, h, [Fetch(62, false)]))
               == Answers(STANDARD, AfterAdd(before, h, [Fetch(62, false)])));
    }
  }

  /** On every run the entries fit the capacity, and the capacity is at most 4096. */
  lemma {:induction false} AlwaysFits(d: Decoder, ops: seq<Op>)
    requires Fits(d.table) && d.table.capacity <= TABLE_LIMIT
    ensures Fits(After(d, ops).table) && After(d, ops).table.capacity <= TABLE_LIMIT
    decreases ops
  {
    hide Fits, Lookup;
    if ops != [] {
      match ops[0] {
        case Add(h) => InsertFits(if d.ready then d.table else Fifo([], TABLE_LIMIT), h);
        case SetSize(n) => ResizeFits(d.table, n);
        case Fetch(_, _) =>
      }
      AlwaysFits(Step(d, ops[0]), ops[1..]);
    }
  }

  /** The newest headers of a queue. */
  ghost predicate IsNewest(a: seq<Header>, b: seq<Header>)
  {
    |a| <= |b| && a == b[|b| - |a|..]
  }

  /** Of a queue and the newest part of it, with less room, eviction leaves a queue and the newest part of it. */
  lemma NewestEvicts(a: seq<Header>, b: seq<Header>, x: nat, y: nat)
    requires IsNewest(a, b) && x <= y
    ensures IsNewest(Evict(a, x), Evict(b, y))
  {
    EvictIsShortestRun(a, x);
    EvictIsShortestRun(b, y);
    hide Evict, TotalCost;
    var kept, other := Evict(a, x), Evict(b, y);
    var j := |b| - |kept|;
    assert kept == b[j..];
    assert other == b[|b| - |other|..];
    assert |kept| <= |other|;
    assert other[|other| - |kept|..] == b[j..];
  }

  /** The prescribed table is the newest part of the server's, and never has more room. */
  ghost predicate Behind(standard: Decoder, server: Decoder)
  {
    && standard.ready && standard.table.capacity <= TABLE_LIMIT
    && if server.ready then
      IsNewest(standard.table.queue, server.table.queue) && standard.table.capacity <= server.table.capacity
    else standard.table.queue == server.table.queue == []
  }

  lemma InsertBehind(standard: Fifo, server: Fifo, h: Header)
    requires IsNewest(standard.queue, server.queue) && standard.capacity <= server.capacity
    ensures IsNewest(Insert(standard, h).queue, Insert(server, h).queue)
  {
    hide Evict;
    if Cost(h) <= standard.capacity {
      NewestEvicts(standard.queue, server.queue, standard.capacity - Cost(h), server.capacity - Cost(h));
      var a, b := Evict(standard.queue, standard.capacity - Cost(h)), Evict(server.queue, server.capacity - Cost(h));
      assert (b + [h])[|b| - |a|..] == b[|b| - |a|..] + [h];
    }
  }

  lemma StepBehind(standard: Decoder, server: Decoder, op: Op)
    requires Behind(standard, server)
    ensures Behind(Step(standard, op), Step(server, op))
  {
    hide Evict, Lookup, Insert, IsNewest;
    match op
    case Add(h) =>
      InsertKeepsCapacity(standard.table, h);
      var used := if server.ready then server.table else Fifo([], TABLE_LIMIT);
      InsertKeepsCapacity(used, h);
      NothingNewest();
      InsertBehind(standard.table, used, h);
    case SetSize(n) =>
      if server.ready {
        NewestEvicts(standard.table.queue, server.table.queue, n, n);
      } else {
        NothingEvicted(n);
      }
    case Fetch(_, _) =>
  }

  lemma InsertKeepsCapacity(t: Fifo, h: Header)
    ensures Insert(t, h).capacity == t.capacity
  {
    hide Evict;
  }

  lemma NothingNewest()
    ensures IsNewest([], [])
  {
  }

  lemma NothingEvicted(n: nat)
    ensures Evict([], n) == []
  {
  }

  /** Whatever index the prescribed table knows, the server knows too, as the same header. */
  lemma BehindKnows(standard: Decoder, server: Decoder, i: nat)
    requires Behind(standard, server) && Lookup(standard.table, i).Some?
    ensures Lookup(server.table, i) == Lookup(standard.table, i)
  {
    hide StaticHeader;
  }

  lemma {:induction false} AlwaysBehind(ops: seq<Op>)
    ensures Behind(After(STANDARD, ops), After(UNUSED, ops))
    decreases |ops|
  {
    hide Behind, Step;
    if ops == [] {
      BehindAtFirst();
    } else {
      var n := |ops| - 1;
      AlwaysBehind(ops[..n]);
      assert ops == ops[..n] + [ops[n]];
      RunsSplit(STANDARD, ops[..n], [ops[n]]);
      RunsSplit(UNUSED, ops[..n], [ops[n]]);
      OneStep(After(STANDARD, ops[..n]), ops[n]);
      OneStep(After(UNUSED, ops[..n]), ops[n]);
      StepBehind(After(STANDARD, ops[..n]), After(UNUSED, ops[..n]), ops[n]);
    }
  }

  lemma BehindAtFirst()
    ensures Behind(STANDARD, UNUSED)
  {
  }

  /** On every run, an index that is good by the standard means the same header to the server. */
  lemma StandardLookupsAgree(ops: seq<Op>, i: nat)
    requires Lookup(After(STANDARD, ops).table, i).Some?
    ensures Lookup(After(UNUSED, ops).table, i) == Lookup(After(STANDARD, ops).table, i)
  {
    hide After, Behind, Lookup;
    AlwaysBehind(ops);
    BehindKnows(After(STANDARD, ops), After(UNUSED, ops), i);
  }

  /** A run all of whose lookups are good by the standard. */
  ghost predicate Conforms(d: Decoder, ops: seq<Op>)
    decreases ops
  {
    ops == [] || ((ops[0].Fetch? ==> Answer(d, ops[0]).ok) && Conforms(Step(d, ops[0]), ops[1..]))
  }

  lemma {:induction false} BehindAgrees(standard: Decoder, server: Decoder, ops: seq<Op>)
    requires Behind(standard, server) && standard.field == server.field && Conforms(standard, ops)
    ensures Answers(server, ops) == Answers(standard, ops)
    decreases ops
  {
    hide Behind, Lookup, Insert, Resize;
    if ops != [] {
      if ops[0].Fetch? {
        BehindKnows(standard, server, ops[0].index);
      }
      StepBehind(standard, server, ops[0]);
      BehindAgrees(Step(standard, ops[0]), Step(server, ops[0]), ops[1..]);
    }
  }

  /** So to a peer that refers only to what the standard lets it, the forgotten update does not show at all. */
  lemma ConformingPeerSeesNoDifference(ops: seq<Op>)
    requires Conforms(STANDARD, ops)
    ensures Answers(UNUSED, ops) == Answers(STANDARD, ops)
  {
    BehindAtFirst();
    BehindAgrees(STANDARD, UNUSED, ops);
  }

  lemma ThreeSteps(d: Decoder, a: Op, b: Op, c: Op)
    ensures Answers(d, [a, b, c]) == [Answer(d, a), Answer(Step(d, a), b), Answer(Step(Step(d, a), b), c)]
  {
    hide Step, Answer;
    assert [a, b, c] == [a, b] + [c] && [a, b] == [a] + [b];
    RunsSplit(d, [a, b], [c]);
    RunsSplit(d, [a], [b]);
    OneStep(d, a);
    OneStep(Step(d, a), b);
    OneStep(Step(Step(d, a), b), c);
  }

  /** A run on which they differ: the peer forbids any entry, then inserts one and refers to it. */
  lemma ForgottenUpdate(h: Header)
    requires Cost(h) <= TABLE_LIMIT
    ensures var ops := [SetSize(0), Add(h), Fetch(62, false)];
            && Answers(UNUSED, ops) == [Reply(true, NO_FIELD), Reply(true, NO_FIELD), Reply(true, h)]
            && Answers(STANDARD, ops) == [Reply(true, NO_FIELD), Reply(true, NO_FIELD), Reply(false, NO_FIELD)]
  {
    hide StaticHeader;
    ThreeSteps(UNUSED, SetSize(0), Add(h), Fetch(62, false));
    ThreeSteps(STANDARD, SetSize(0), Add(h), Fetch(62, false));
  }

  /**
   A name taken by index keeps its octets when the insertion that uses it evicts the entry it
   came from: the entry inserted is the pair asked for, as long as it fits at all.
   */
  lemma NameOutlivesItsEntry(d: Decoder, index: nat, value: seq<byte>)
    requires Lookup(d.table, index).Some?
    requires d.ready && Cost(Header(Lookup(d.table, index).value.name, value)) <= d.table.capacity
    ensures var h := Header(Step(d, Fetch(index, true)).field.name, value);
            && h.name == Lookup(d.table, index).value.name
            && Answers(d, [Fetch(index, true), Add(h), Fetch(62, false)])
               == [Reply(true, Step(d, Fetch(index, true)).field), Reply(true, Step(d, Fetch(index, true)).field),
                   Reply(true, h)]
  {
    hide StaticHeader, Evict;
    ThreeSteps(d, Fetch(index, true), Add(Header(Step(d, Fetch(index, true)).field.name, value)), Fetch(62, false));
  }
}
