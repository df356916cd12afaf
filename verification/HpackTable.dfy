/**
 The HPACK dynamic table as the server keeps it: a ring of entry records indexed by
 ever-growing counters, over a ring of octets that holds all names and values.
 */
module HpackTable {
  import opened Bytes
  import opened HpackFifo
  import opened HpackStatic
  import opened ByteRing

  /** Where a name and a value sit in the octet ring. */
  datatype Extent = Extent(nameAt: nat, nameLen: nat, valueAt: nat, valueLen: nat)

  /** An entry record. */
  class Entry {
    var nameAt: nat
    var nameLen: nat
    var valueAt: nat
    var valueLen: nat

    constructor ()
    {
      nameAt, nameLen, valueAt, valueLen := 0, 0, 0, 0;
    }

    ghost predicate Is(x: Extent)
      reads this
    {
      x == Extent(nameAt, nameLen, valueAt, valueLen)
    }
  }

  /** The slot of counter `k` in a ring of `n` slots; the ring has 64 slots, or 128 once grown. */
  function Slot(k: nat, n: nat): (r: nat)
    requires n == 64 || n == 128
    ensures r < n
  {
    if n == 64 then k % 64 else k % 128
  }

  /** In a full ring of 64, the slots of consecutive counters go round once. */
  lemma SlotTurns(k: nat, i: nat)
    requires i < 64
    ensures Slot(i, 128) == i
    ensures Slot(k + i, 64) == if Slot(k, 64) + i < 64 then Slot(k, 64) + i else Slot(k, 64) + i - 64
  {
  }

  lemma FirstSlots()
    ensures forall i :: 0 <= i < 128 ==> Slot(i, 128) == i
  {
  }

  /** Counters less than a ring's length apart use different slots. */
  lemma SlotsDiffer(a: nat, b: nat, n: nat)
    requires n == 64 || n == 128
    requires a < b < a + n
    ensures Slot(a, n) != Slot(b, n)
  {
  }

  /** Extent `x` describes header `h`, whose octets start at position `k` of the log. */
  ghost predicate Describes(x: Extent, h: Header, k: nat, log: seq<byte>)
  {
    && x.nameLen == |h.name| && x.valueLen == |h.value|
    && Addresses(x.nameAt, k) && Addresses(x.valueAt, k + |h.name|)
    && k + Octets(h) <= |log|
    && log[k..k + |h.name|] == h.name
    && log[k + |h.name|..k + Octets(h)] == h.value
  }

  /** The octets of `hs` follow one another in the log, up to its end. */
  ghost predicate Contiguous(hs: seq<Header>, start: seq<nat>, end: nat)
  {
    && |start| == |hs|
    && forall i :: 0 <= i < |hs| ==> start[i] + Span(hs[i..]) == end
  }

  ghost predicate AllDescribed(xs: seq<Extent>, hs: seq<Header>, start: seq<nat>, log: seq<byte>)
  {
    && |xs| == |hs| == |start|
    && forall i :: 0 <= i < |hs| ==> Describes(xs[i], hs[i], start[i], log)
  }

  /** Everything in a table of at most 4096 lies within the newest 4096 octets of the log. */
  lemma Recent(hs: seq<Header>, start: seq<nat>, end: nat, i: nat)
    requires Contiguous(hs, start, end) && TotalCost(hs) <= CAPACITY && i < |hs|
    ensures end - CAPACITY <= start[i]
  {
    SuffixCost(hs, i);
    TotalCostIsSpanPlusOverhead(hs[i..]);
    hide TotalCost, Span;
  }

  lemma ContiguousTail(hs: seq<Header>, start: seq<nat>, end: nat)
    requires Contiguous(hs, start, end) && hs != []
    ensures Contiguous(hs[1..], start[1..], end)
  {
    forall i | 0 <= i < |hs[1..]|
      ensures start[1..][i] + Span(hs[1..][i..]) == end
    {
      assert hs[1..][i..] == hs[i + 1..] && start[1..][i] == start[i + 1];
    }
  }

  lemma ContiguousAppend(hs: seq<Header>, start: seq<nat>, end: nat, h: Header)
    requires Contiguous(hs, start, end)
    ensures Contiguous(hs + [h], start + [end], end + Octets(h))
  {
    var hs', start' := hs + [h], start + [end];
    forall i | 0 <= i < |hs'|
      ensures start'[i] + Span(hs'[i..]) == end + Octets(h)
    {
      if i < |hs| {
        assert hs'[i..] == hs[i..] + [h];
        SpanAppend(hs[i..], h);
      } else {
        assert hs'[i..] == [h];
        assert Span([h]) == Octets(h) by {
          assert [h][1..] == [];
        }
      }
    }
  }

  /** What dropping the oldest live header leaves. */
  lemma OldestFacts(hs: seq<Header>, xs: seq<Extent>, start: seq<nat>, log: seq<byte>)
    requires Contiguous(hs, start, |log|) && AllDescribed(xs, hs, start, log) && hs != []
    ensures |xs| == |start| == |hs|
    ensures Contiguous(hs[1..], start[1..], |log|) && AllDescribed(xs[1..], hs[1..], start[1..], log)
    ensures xs[0].nameLen == |hs[0].name| && xs[0].valueLen == |hs[0].value|
    ensures TotalCost(hs) == Cost(hs[0]) + TotalCost(hs[1..])
  {
    ContiguousTail(hs, start, |log|);
    hide Contiguous;
    assert Describes(xs[0], hs[0], start[0], log);
  }

  /** What appending a newly stored header adds: nothing described before is disturbed. */
  lemma NewestFacts(hs: seq<Header>, xs: seq<Extent>, start: seq<nat>, log: seq<byte>, x: Extent, h: Header)
    requires Contiguous(hs, start, |log|) && AllDescribed(xs, hs, start, log)
    requires x.nameLen == |h.name| && x.valueLen == |h.value|
    requires Addresses(x.nameAt, |log|) && Addresses(x.valueAt, |log + h.name|)
    ensures var log' := log + h.name + h.value;
            Contiguous(hs + [h], start + [|log|], |log'|) && AllDescribed(xs + [x], hs + [h], start + [|log|], log')
  {
    ContiguousAppend(hs, start, |log|, h);
    hide Contiguous, Addresses, Span;
    var log' := log + h.name + h.value;
    forall i | 0 <= i < |hs|
      ensures Describes(xs[i], hs[i], start[i], log')
    {
      StillDescribed(xs[i], hs[i], start[i], log, h.name + h.value);
      assert log' == log + (h.name + h.value);
    }
    assert Describes(x, h, |log|, log');
  }

  lemma StillDescribed(x: Extent, h: Header, k: nat, log: seq<byte>, more: seq<byte>)
    requires Describes(x, h, k, log)
    ensures Describes(x, h, k, log + more)
  {
    hide Addresses;
    assert (log + more)[k..k + |h.name|] == log[k..k + |h.name|];
    assert (log + more)[k + |h.name|..k + Octets(h)] == log[k + |h.name|..k + Octets(h)];
  }

  /** Reading the extent `x` of the storage yields header `h`. */
  ghost predicate Holds(x: Extent, h: Header, store: seq<byte>)
    requires |store| == CAPACITY
  {
    && x.nameAt <= CAPACITY && x.nameLen <= CAPACITY && x.valueAt <= CAPACITY && x.valueLen <= CAPACITY
    && ReadRing(store, x.nameAt, x.nameLen) == h.name
    && ReadRing(store, x.valueAt, x.valueLen) == h.value
  }

  lemma ExtentReads(store: seq<byte>, pos: nat, log: seq<byte>, x: Extent, h: Header, k: nat)
    requires Shows(store, pos, log) && Describes(x, h, k, log) && |log| - CAPACITY <= k
    ensures |store| == CAPACITY && Holds(x, h, store)
  {
    hide ReadRing, Addresses, Shows;
    RingSize(store, pos, log);
    AddressBound(x.nameAt, k);
    AddressBound(x.valueAt, k + |h.name|);
    ReadBack(store, pos, log, x.nameAt, k, |h.name|);
    ReadBack(store, pos, log, x.valueAt, k + |h.name|, |h.value|);
  }

  class Table {
    // null until the first insertion
    var entries: array?<Entry?>
    var storage: array?<byte>
    // next insertion, oldest live entry and oldest reusable record, as counters
    var added: nat
    var deleted: nat
    var reused: nat
    // length of the record ring
    var slots: nat
    var size: nat
    var free: nat
    var pos: nat

    // the live headers, oldest first, with the extent and the log position of each
    ghost var live: seq<Header>
    ghost var extents: seq<Extent>
    ghost var start: seq<nat>
    // what storage held at first, then every octet written to it
    ghost var log: seq<byte>
    // the records of counters reused, reused + 1, ..., added - 1
    ghost var window: seq<Entry>
    // how many entry records were ever allocated
    ghost var records: nat
    ghost var Repr: set<object>

    /** The plain queue this table stands for. */
    ghost function Fifo(): Fifo
      reads this
    {
      HpackFifo.Fifo(live, size)
    }

    ghost predicate Ready()
      reads this
    {
      entries != null
    }

    /** Every record ever made is in the window or in `out`, and the window fits the ring. */
    ghost predicate CountersOk(out: Entry?)
      reads this`slots, this`added, this`deleted, this`reused, this`window, this`records
    {
      && (slots == 64 || slots == 128)
      && reused <= deleted <= added <= reused + slots
      && |window| == added - reused
      && records == |window| + (if out == null then 0 else 1)
    }

    /** The window of records is laid out on the ring, and its records are distinct. */
    ghost predicate RingOk()
      reads this`entries, this`slots, this`added, this`reused, this`window, entries
      requires entries != null
    {
      && (slots == 64 || slots == 128)
      && entries.Length == slots
      && |window| == added - reused
      && (forall i :: 0 <= i < |window| ==> entries[Slot(reused + i, slots)] == window[i])
      && (forall i, j :: 0 <= i < j < |window| ==> window[i] != window[j])
    }

    /** Live headers: contiguous in the log up to its end, and described by their records. */
    ghost predicate LiveOk()
      reads this`live, this`start, this`log, this`extents
    {
      Contiguous(live, start, |log|) && AllDescribed(extents, live, start, log)
    }

    ghost predicate StorageOk()
      reads this`storage, this`pos, this`log, storage
      requires storage != null
    {
      && storage.Length == CAPACITY && pos <= CAPACITY && Addresses(pos, |log|)
      && Shows(storage[..], pos, log)
    }

    /** The newest records of the window, and `out` once it holds a header, hold the live extents. */
    ghost predicate Linked(out: Entry?, stored: bool)
      reads this`extents, this`window, this`added, this`deleted, this`reused, window, out
    {
      && reused <= deleted <= added && |window| == added - reused
      && |extents| == added - deleted + (if stored then 1 else 0)
      && (forall j :: deleted - reused <= j < |window| ==> window[j].Is(extents[j - (deleted - reused)]))
      && (stored ==> out != null && out.Is(extents[added - deleted]))
    }

    ghost predicate Owned(out: Entry?)
      reads this`Repr, this`entries, this`storage, this`window
    {
      && this in Repr
      && (entries == null <==> storage == null)
      && (entries != null ==> entries in Repr && storage in Repr && (entries as object) != storage)
      && (forall e :: e in window ==> e in Repr)
      && (out != null ==> out in Repr && out !in window)
    }

    /**
     The invariant while an entry is being added: `reserved` octets of capacity are set aside
     for it, its record is `out` of the ring, and `stored` says that it holds the new header.
     */
    ghost predicate ValidWith(reserved: nat, out: Entry?, stored: bool)
      reads this, Repr, window, out
    {
      && Owned(out)
      && size <= TABLE_LIMIT
      && TotalCost(live) + free + reserved == size
      && LiveOk() && Linked(out, stored)
      && (entries == null ==>
            added == slots == records == 0 && reserved == 0 && out == null && !stored)
      && (entries != null ==> CountersOk(out) && RingOk() && StorageOk())
    }

    ghost predicate Valid()
      reads this, Repr, window
    {
      ValidWith(0, null, false)
    }

    constructor ()
      ensures Valid() && fresh(Repr)
      ensures !Ready() && Fifo() == HpackFifo.Fifo([], 0) && records == 0
    {
      entries, storage := null, null;
      added, deleted, reused, slots := 0, 0, 0, 0;
      size, free, pos := 0, 0, 0;
      live, extents, start, log, window, records := [], [], [], [], [], 0;
      Repr := {this};
      new;
      hide Slot;
    }

    /** On every reachable table: at most 128 records ever made, at most one growth of the ring. */
    lemma Bounded()
      requires Valid()
      ensures records <= 128 && (slots == 0 || slots == 64 || slots == 128) && |live| <= 128
      ensures reused <= deleted <= added <= reused + slots && records == added - reused
    {
      hide Slot, RingOk, StorageOk, Span, TotalCost, Contiguous, Describes, Owned;
      TotalCostIsSpanPlusOverhead(live);
    }

    /** Each live header is in storage, byte for byte, where its extent says. */
    lemma LiveReads(i: nat)
      requires Valid() && i < |live|
      ensures i < |extents| && storage != null && storage.Length == CAPACITY
      ensures Holds(extents[i], live[i], storage[..])
    {
      hide Slot, RingOk, CountersOk, Linked, Owned, TotalCost, Contiguous, Describes, Addresses, Shows, Holds;
      LiveCount();
      Recent(live, start, |log|, i);
      ExtentReads(storage[..], pos, log, extents[i], live[i], start[i]);
    }

    lemma LiveCount()
      requires Valid()
      ensures reused <= deleted <= added && |live| == added - deleted && |window| == added - reused
      ensures |extents| == |live| && (live != [] ==> Ready() && storage != null)
    {
      hide Slot, RingOk, StorageOk, TotalCost, Span, Describes;
    }

    /** The record of counter `k` is in the slot of `k`. */
    lemma RecordAt(reserved: nat, k: nat)
      requires ValidWith(reserved, null, false) && Ready() && reused <= k < added
      ensures (slots == 64 || slots == 128) && entries.Length == slots
      ensures |window| == added - reused && entries[Slot(k, slots)] == window[k - reused]
      ensures deleted <= k ==> k - deleted < |extents| && window[k - reused].Is(extents[k - deleted])
    {
      hide Slot, StorageOk, LiveOk, TotalCost, Span;
      assert reused + (k - reused) == k;
    }

    /** The live headers, reached the way a dynamic index is resolved: newest first. */
    lemma NewestReads(i: nat)
      requires Valid() && i < |live|
      ensures Ready() && storage != null && storage.Length == CAPACITY && i < added - deleted
      ensures (slots == 64 || slots == 128) && entries.Length == slots
      ensures var e := entries[Slot(added - i - 1, slots)];
              && e != null
              && Holds(Extent(e.nameAt, e.nameLen, e.valueAt, e.valueLen), live[|live| - 1 - i], storage[..])
    {
      hide Slot, ValidWith, Holds;
      LiveCount();
      LiveReads(|live| - 1 - i);
      RecordAt(0, added - i - 1);
    }

    /**
     Fetches a header field by index into the field being decoded, which held `was`; only its
     name when `nameOnly`.
     */
    method GetIndexedHeader(index: nat, nameOnly: bool, was: Header) returns (ok: bool, header: Header)
      requires Valid()
      ensures var found := Lookup(Fifo(), index);
              && ok == found.Some? && header == Fetched(was, found, index, nameOnly)
              && (ok && !nameOnly ==> Some(header) == found)
              && (ok && nameOnly && index > STATIC_ENTRIES ==> header == Header(found.value.name, was.value))
      ensures 1 <= index <= STATIC_ENTRIES ==> ok && header == StaticHeader(index - 1)
      ensures !ok ==> header == was
    {
      hide Slot, ValidWith, StaticHeader, ReadRing;
      header := was;
      LiveCount();
      if index == 0 {
        return false, header;
      }
      var i := index - 1;
      if i < STATIC_ENTRIES {
        header := StaticHeader(i);
        return true, header;
      }
      i := i - STATIC_ENTRIES;
      if i < added - deleted {
        NewestReads(i);
        var entry := entries[Slot(added - i - 1, slots)];
        var name := CopyOut(entry.nameAt, entry.nameLen);
        header := header.(name := name);
        if nameOnly {
          return true, header;
        }
        var value := CopyOut(entry.valueAt, entry.valueLen);
        header := header.(value := value);
        return true, header;
      }
      return false, header;
    }

    /** A pool copy of a string in storage. */
    method CopyOut(at: nat, len: nat) returns (s: seq<byte>)
      requires storage != null && storage.Length == CAPACITY
      requires at <= CAPACITY && len <= CAPACITY
      ensures s == ReadRing(storage[..], at, len)
    {
      var rest := CAPACITY - at;
      if len > rest {
        s := storage[at..at + rest] + storage[..len - rest];
      } else {
        s := storage[at..at + len];
      }
    }

    /** One round of an eviction loop: the oldest live entry goes, its cost is free again. */
    method EvictOldest()
      requires Valid() && Ready() && live != []
      modifies this`deleted, this`free, this`live, this`extents, this`start
      ensures Valid()
      ensures live == old(live)[1..]
      ensures free == old(free) + Cost(old(live)[0])
    {
      hide Slot, StorageOk, RingOk, Contiguous, AllDescribed, Owned, TotalCost;
      LiveCount();
      RecordAt(0, deleted);
      OldestFacts(live, extents, start, log);
      var entry := entries[Slot(deleted, slots)];
      deleted := deleted + 1;
      free := free + 32 + entry.nameLen + entry.valueLen;
      live, extents, start := live[1..], extents[1..], start[1..];
    }

    /** Evicts everything. */
    method Clear()
      requires Valid() && Ready()
      modifies this`deleted, this`free, this`live, this`extents, this`start
      ensures Valid() && live == []
    {
      hide Slot, RingOk, StorageOk;
      deleted := added;
      free := size;
      live, extents, start := [], [], [];
    }

    /** A dynamic table size update. */
    method TableSize(newSize: nat) returns (ok: bool)
      requires Valid()
      modifies this`deleted, this`free, this`live, this`extents, this`start, this`size
      ensures Valid()
      ensures ok <==> newSize <= TABLE_LIMIT
      ensures Fifo() == if ok then Resize(old(Fifo()), newSize) else old(Fifo())
    {
      hide Slot, RingOk, LiveOk, StorageOk, Owned, Linked;
      if newSize > TABLE_LIMIT {
        return false;
      }
      LiveCount();
      var needed := size - newSize;
      while needed > free
        invariant live != [] ==> Ready()
        invariant Valid()
        invariant size == old(size)
        invariant Evict(live, newSize) == Evict(old(live), newSize)
        decreases |live|
      {
        EvictOldest();
      }
      size := newSize;
      free := free - needed;
      return true;
    }

    /** Makes room for an entry of `octets` octets of name and value, or empties the table. */
    method TableAccount(octets: nat) returns (ok: bool)
      requires Valid() && Ready()
      modifies this`deleted, this`free, this`live, this`extents, this`start
      ensures ok <==> 32 + octets <= size
      ensures ValidWith(if ok then 32 + octets else 0, null, false)
      ensures live == if ok then Evict(old(live), size - 32 - octets) else []
    {
      hide Slot, RingOk, LiveOk, StorageOk, Owned, Linked;
      var need := octets + 32;
      if need <= free {
        free := free - need;
        return true;
      }
      if need > size {
        Clear();
        return false;
      }
      assert live != [];
      EvictOldest();
      while need > free
        invariant Valid()
        invariant Evict(live, size - need) == Evict(old(live), size - need)
        decreases |live|
      {
        EvictOldest();
      }
      free := free - need;
      return true;
    }

    /** First use: the ring of records and the storage are set up, and the size is set to 4096. */
    method SetUp()
      requires Valid() && !Ready()
      modifies this
      ensures Valid() && Ready() && fresh(Repr - old(Repr))
      ensures Fifo() == HpackFifo.Fifo([], TABLE_LIMIT)
    {
      hide Slot, ValidWith;
      Bare();
      Owns(0, null, false);
      var ring := new Entry?[64];
      var octets := new byte[TABLE_LIMIT];
      slots, size, free, pos := 64, TABLE_LIMIT, TABLE_LIMIT, 0;
      entries, storage := ring, octets;
      log := octets[..];
      Repr := {this, ring, octets};
      EmptyTable();
    }

    lemma Bare()
      requires Valid() && !Ready()
      ensures added == deleted == reused == records == 0
      ensures window == [] && live == [] && extents == [] && start == []
    {
      LiveCount();
      hide Slot, RingOk, StorageOk, TotalCost, Span, Describes;
    }

    lemma EmptyTable()
      requires entries != null && entries.Length == slots == 64
      requires storage != null && storage.Length == CAPACITY && pos == 0 && log == storage[..]
      requires added == deleted == reused == records == 0
      requires window == [] && live == [] && extents == [] && start == []
      requires size == free == TABLE_LIMIT && Repr == {this, entries, storage} && (entries as object) != storage
      ensures Valid()
    {
      hide Slot;
    }

    /** A record for a new entry: the oldest evicted one, or a new one when none is left. */
    method TakeRecord(ghost reserved: nat) returns (entry: Entry)
      requires ValidWith(reserved, null, false) && Ready()
      modifies this`reused, this`window, this`records, this`Repr
      ensures ValidWith(reserved, entry, false) && fresh(Repr - old(Repr))
      ensures |window| < slots || (|window| == slots == added - deleted)
    {
      hide Slot, StorageOk, LiveOk, TotalCost;
      if reused == deleted {
        entry := new Entry();
        records := records + 1;
        Repr := Repr + {entry};
      } else {
        RecordAt(reserved, reused);
        entry := entries[Slot(reused, slots)];
        ghost var was := window;
        reused, window := reused + 1, window[1..];
        assert forall i :: 0 <= i < |window| ==> window[i] == was[i + 1];
        forall i | 0 <= i < |window|
          ensures entries[Slot(reused + i, slots)] == window[i]
        {
          assert reused + i == old(reused) + (i + 1);
        }
      }
    }

    /** Copies a string to the write pointer, which has `avail` octets of storage left before it wraps. */
    method PutString(s: seq<byte>, avail: nat)
      requires storage != null && StorageOk() && |s| <= CAPACITY
      requires avail == CAPACITY - pos || |s| <= avail <= CAPACITY - pos
      modifies storage, this`pos, this`log
      ensures storage.Length == CAPACITY && StorageOk() && log == old(log) + s
      ensures pos == Advance(old(pos), |s|)
    {
      PutAppends(storage[..], pos, log, s);
      hide Shows;
      ghost var store, at := storage[..], pos;
      if avail >= |s| {
        MemCopy(storage, pos, s);
        pos := pos + |s|;
        assert storage[..] == PutRing(store, at, s);
      } else {
        MemCopy(storage, pos, s[..avail]);
        ghost var half := storage[..];
        MemCopy(storage, 0, s[avail..]);
        pos := |s| - avail;
        WrapsAround(store, half, storage[..], at, s, avail);
      }
      log := log + s;
    }

    /** Copies a name and a value into storage, one behind the other, and notes where they are. */
    method CopyIn(entry: Entry, h: Header)
      requires storage != null && StorageOk() && Octets(h) <= CAPACITY
      modifies entry, storage, this`pos, this`log
      ensures StorageOk() && log == old(log) + h.name + h.value
      ensures entry.nameLen == |h.name| && entry.valueLen == |h.value|
      ensures Addresses(entry.nameAt, |old(log)|) && Addresses(entry.valueAt, |old(log) + h.name|)
    {
      hide Shows;
      var avail := TABLE_LIMIT - pos;
      entry.nameLen := |h.name|;
      entry.nameAt := pos;
      PutString(h.name, avail);
      if avail < |h.name| {
        avail := TABLE_LIMIT;
      }
      avail := avail - |h.name|;
      entry.valueLen := |h.value|;
      entry.valueAt := pos;
      PutString(h.value, avail);
    }

    /** Copies a header into storage and describes it in `entry`. */
    method Store(entry: Entry, h: Header)
      requires ValidWith(Cost(h), entry, false) && Ready()
      modifies entry, storage, this`pos, this`log, this`live, this`extents, this`start
      ensures ValidWith(0, entry, true)
      ensures live == old(live) + [h]
    {
      hide Slot, RingOk, CountersOk, StorageOk, Contiguous, AllDescribed, TotalCost, Addresses;
      CopyIn(entry, h);
      ghost var x := Extent(entry.nameAt, entry.nameLen, entry.valueAt, entry.valueLen);
      NewestFacts(live, extents, start, old(log), x, h);
      TotalCostAppend(live, h);
      live, extents, start := live + [h], extents + [x], start + [|old(log)|];
    }

    /** A ring of 128 slots with the records of a full ring of 64 in front, oldest first. */
    method Widen() returns (wider: array<Entry?>)
      requires entries != null && RingOk() && slots == 64 == |window|
      ensures fresh(wider) && wider.Length == 128 && forall i :: 0 <= i < 64 ==> wider[i] == window[i]
    {
      hide Slot;
      wider := new Entry?[slots + 64];
      var index := Slot(reused, slots);
      MemCopy(wider, 0, entries[index..]);
      MemCopy(wider, slots - index, entries[..index]);
      forall i | 0 <= i < 64
        ensures wider[i] == window[i]
      {
        SlotTurns(reused, i);
        assert entries[Slot(reused + i, slots)] == window[i];
      }
    }

    /** Gives the ring 64 more slots and renumbers the counters from its oldest entry. */
    method Grow(ghost out: Entry)
      requires ValidWith(0, out, true) && Ready() && slots == added - deleted
      modifies this`entries, this`slots, this`added, this`deleted, this`reused, this`Repr
      ensures ValidWith(0, out, true) && Ready() && fresh(Repr - old(Repr))
      ensures old(slots) == 64 && slots == 128 && |window| < slots
    {
      hide Slot, LiveOk, StorageOk, TotalCost;
      GrowsOnce(out);
      var wider := Widen();
      FirstSlots();
      entries := wider;
      added, deleted, reused := slots, 0, 0;
      slots := slots + 64;
      Repr := Repr + {wider};
    }

    /** The ring is full only when it has its first 64 slots, and then no record is reusable. */
    lemma GrowsOnce(out: Entry)
      requires ValidWith(0, out, true) && Ready() && slots == added - deleted
      ensures slots == 64 && reused == deleted && |window| == 64
      ensures |live| == 65
    {
      hide Slot, RingOk, StorageOk, TotalCost, Span, Contiguous, Describes;
      TotalCostIsSpanPlusOverhead(live);
    }

    /** Links a filled record in as the newest entry. */
    method Link(entry: Entry)
      requires ValidWith(0, entry, true) && Ready() && |window| < slots
      modifies entries, this`added, this`window
      ensures Valid() && Ready()
    {
      hide Slot, LiveOk, StorageOk, TotalCost;
      entries[Slot(added, slots)] := entry;
      forall i | 0 <= i < |window|
        ensures entries[Slot(reused + i, slots)] == window[i]
      {
        SlotsDiffer(reused + i, added, slots);
      }
      assert reused + |window| == added;
      added, window := added + 1, window + [entry];
    }

    lemma Owns(reserved: nat, out: Entry?, stored: bool)
      requires ValidWith(reserved, out, stored)
      ensures this in Repr && (Ready() ==> entries in Repr && storage != null && storage in Repr)
      ensures out != null ==> out in Repr
    {
      hide RingOk, CountersOk, Linked, LiveOk, StorageOk, TotalCost;
    }

    /** Enters a header for which room is made. */
    method Enter(h: Header)
      requires ValidWith(Cost(h), null, false) && Ready()
      modifies Repr
      ensures Valid() && Ready() && fresh(Repr - old(Repr))
      ensures live == old(live) + [h] && size == old(size)
    {
      hide Slot, ValidWith, TotalCost, RingOk, LiveOk, StorageOk, Linked, Owned;
      Owns(Cost(h), null, false);
      var entry := TakeRecord(Cost(h));
      Owns(Cost(h), entry, false);
      Store(entry, h);
      if slots == added - deleted {
        Grow(entry);
      }
      Owns(0, entry, true);
      Link(entry);
    }

    /** Inserts a header as the newest entry, evicting from the old end first. */
    method AddHeader(h: Header) returns (ok: bool)
      requires Valid()
      modifies Repr
      ensures Valid() && Ready() && fresh(Repr - old(Repr))
      ensures ok
      ensures Fifo() == Insert(if old(Ready()) then old(Fifo()) else HpackFifo.Fifo([], TABLE_LIMIT), h)
    {
      hide Slot, ValidWith, TotalCost, Evict, RingOk, LiveOk, StorageOk, Linked, Owned;
      Owns(0, null, false);
      if entries == null {
        SetUp();
        Owns(0, null, false);
      }
      var room := TableAccount(|h.name| + |h.value|);
      if !room {
        return true;
      }
      Enter(h);
      return true;
    }
  }

  /** The two copies of a string that goes past the end of storage. */
  lemma WrapsAround(store: seq<byte>, half: seq<byte>, done: seq<byte>, at: nat, s: seq<byte>, avail: nat)
    requires |store| == CAPACITY && at <= CAPACITY && |s| <= CAPACITY && avail == CAPACITY - at < |s|
    requires half == store[..at] + s[..avail] + store[CAPACITY..]
    requires done == half[..0] + s[avail..] + half[|s| - avail..]
    ensures done == PutRing(store, at, s)
  {
    assert half[|s| - avail..] == store[|s| - avail..at] + s[..avail];
  }

  lemma {:induction false} SuffixCost(hs: seq<Header>, i: nat)
    requires i <= |hs|
    ensures TotalCost(hs[i..]) <= TotalCost(hs)
  {
    if i == 0 {
      assert hs[0..] == hs;
    } else {
      SuffixCost(hs[1..], i - 1);
      assert hs[1..][i - 1..] == hs[i..];
    }
  }
}
