/**
 The dynamic table of RFC 7541 as a plain queue: sections 2.3.2, 2.3.3 and 4.1 to 4.4.
 The queue is kept oldest first, so index 62 + i names `queue[|queue| - 1 - i]`.
 */
module HpackFifo {
  import opened Bytes

  const TABLE_LIMIT: nat := 4096
  const ENTRY_OVERHEAD: nat := 32
  const STATIC_ENTRIES: nat := 61

  datatype Header = Header(name: seq<byte>, value: seq<byte>)

  /** Number of octets a header occupies in storage. */
  function Octets(h: Header): nat { |h.name| + |h.value| }

  /** Section 4.1: the size of an entry. */
  function Cost(h: Header): nat { ENTRY_OVERHEAD + Octets(h) }

  function TotalCost(hs: seq<Header>): nat
  {
    if hs == [] then 0 else Cost(hs[0]) + TotalCost(hs[1..])
  }

  function Span(hs: seq<Header>): nat
  {
    if hs == [] then 0 else Octets(hs[0]) + Span(hs[1..])
  }

  datatype Fifo = Fifo(queue: seq<Header>, capacity: nat)

  /** Sections 4.3 and 4.4: drop from the old end until what is left fits. */
  function Evict(hs: seq<Header>, limit: nat): seq<Header>
  {
    if TotalCost(hs) <= limit then hs else Evict(hs[1..], limit)
  }

  /** Section 4.4: an entry larger than the whole table empties it. */
  function Insert(t: Fifo, h: Header): Fifo
  {
    if Cost(h) > t.capacity then t.(queue := [])
    else t.(queue := Evict(t.queue, t.capacity - Cost(h)) + [h])
  }

  /** Section 4.3. */
  function Resize(t: Fifo, capacity: nat): Fifo
  {
    Fifo(Evict(t.queue, capacity), capacity)
  }

  /** Section 2.3.3: the dynamic part of the index space. */
  function Newest(t: Fifo, i: nat): Option<Header>
  {
    if i < |t.queue| then Some(t.queue[|t.queue| - 1 - i]) else None
  }

  lemma {:induction false} TotalCostIsSpanPlusOverhead(hs: seq<Header>)
    ensures TotalCost(hs) == 32 * |hs| + Span(hs)
  {
    if hs != [] {
      TotalCostIsSpanPlusOverhead(hs[1..]);
    }
  }

  lemma {:induction false} TotalCostAppend(hs: seq<Header>, h: Header)
    ensures TotalCost(hs + [h]) == TotalCost(hs) + Cost(h)
  {
    if hs == [] {
      assert hs + [h] == [h];
      assert [h][1..] == [];
    } else {
      TotalCostAppend(hs[1..], h);
      assert (hs + [h])[1..] == hs[1..] + [h];
    }
  }

  lemma {:induction false} SpanAppend(hs: seq<Header>, h: Header)
    ensures Span(hs + [h]) == Span(hs) + Octets(h)
  {
    if hs == [] {
      assert hs + [h] == [h];
      assert [h][1..] == [];
    } else {
      SpanAppend(hs[1..], h);
      assert (hs + [h])[1..] == hs[1..] + [h];
    }
  }

  /** Eviction removes exactly the shortest run of oldest entries that makes the rest fit. */
  lemma {:induction false} EvictIsShortestRun(hs: seq<Header>, limit: nat)
    ensures var kept := Evict(hs, limit);
            var k := |hs| - |kept|;
            0 <= k && kept == hs[k..] && TotalCost(kept) <= limit
            && forall j :: 0 <= j < k ==> limit < TotalCost(hs[j..])
  {
    assert hs[0..] == hs;
    if limit < TotalCost(hs) {
      EvictIsShortestRun(hs[1..], limit);
      var kept := Evict(hs, limit);
      var k := |hs| - |kept|;
      assert kept == hs[1..][k - 1..] == hs[k..];
      forall j | 0 <= j < k
        ensures limit < TotalCost(hs[j..])
      {
        if j > 0 {
          assert hs[1..][j - 1..] == hs[j..];
        }
      }
    }
  }

  /** The queue never costs more than its capacity, whatever is done to it. */
  ghost predicate Fits(t: Fifo) { TotalCost(t.queue) <= t.capacity }

  lemma ResizeFits(t: Fifo, capacity: nat)
    ensures Fits(Resize(t, capacity))
  {
    EvictIsShortestRun(t.queue, capacity);
  }

  lemma InsertFits(t: Fifo, h: Header)
    ensures Fits(Insert(t, h))
  {
    if Cost(h) <= t.capacity {
      EvictIsShortestRun(t.queue, t.capacity - Cost(h));
      var kept := Evict(t.queue, t.capacity - Cost(h));
      TotalCostAppend(kept, h);
      hide Evict, TotalCost;
    }
  }

  lemma {:induction false} ShorterCosts(hs: seq<Header>, j: nat, k: nat)
    requires j <= k <= |hs|
    ensures TotalCost(hs[k..]) <= TotalCost(hs[j..])
    decreases k - j
  {
    if j < k {
      assert hs[j..][1..] == hs[j + 1..];
      ShorterCosts(hs, j + 1, k);
    }
  }

  /** Eviction keeps an entry exactly when it and all newer ones fit. */
  lemma EvictKeeps(hs: seq<Header>, limit: nat, i: nat)
    requires i < |hs|
    ensures |Evict(hs, limit)| <= |hs|
    ensures i < |Evict(hs, limit)| <==> TotalCost(hs[|hs| - 1 - i..]) <= limit
    ensures i < |Evict(hs, limit)| ==> Evict(hs, limit)[|Evict(hs, limit)| - 1 - i] == hs[|hs| - 1 - i]
  {
    EvictIsShortestRun(hs, limit);
    hide Evict, TotalCost;
    var kept := Evict(hs, limit);
    if i < |kept| {
      ShorterCosts(hs, |hs| - |kept|, |hs| - 1 - i);
    }
  }

  /** After a resize an entry is there exactly when it and all newer ones fit. */
  lemma ResizeKeeps(t: Fifo, capacity: nat, i: nat)
    ensures Resize(t, capacity).capacity == capacity
    ensures Newest(Resize(t, capacity), i) ==
      if i < |t.queue| && TotalCost(t.queue[|t.queue| - 1 - i..]) <= capacity then Newest(t, i) else None
  {
    hide Evict, TotalCost;
    EvictIsShortestRun(t.queue, capacity);
    if i < |t.queue| {
      EvictKeeps(t.queue, capacity, i);
    }
  }

  /**
   After an insertion the new entry is the newest if it fits at all, and each old one is a place further on,
   exactly when it, all newer ones and the new one fit together.
   */
  lemma InsertKeeps(t: Fifo, h: Header, i: nat)
    ensures Insert(t, h).capacity == t.capacity
    ensures Newest(Insert(t, h), 0) == if Cost(h) <= t.capacity then Some(h) else None
    ensures Newest(Insert(t, h), i + 1) ==
      if i < |t.queue| && TotalCost(t.queue[|t.queue| - 1 - i..]) + Cost(h) <= t.capacity then Newest(t, i) else None
  {
    hide Evict, TotalCost;
    if Cost(h) <= t.capacity {
      EvictIsShortestRun(t.queue, t.capacity - Cost(h));
      if i < |t.queue| {
        EvictKeeps(t.queue, t.capacity - Cost(h), i);
      }
    }
  }
}
