/**
 The 4096-octet storage ring as a window on a log: the log is what the storage held at first
 followed by every octet written since, and the ring always shows the newest 4096 octets of
 it. A string that crosses the end of the storage continues at its start.
 */
module ByteRing {
  import opened Bytes

  const CAPACITY: nat := 4096

  /** The pointer `at` (possibly one past the end of the storage) stands for log position `k`. */
  ghost predicate Addresses(at: nat, k: nat)
  {
    at <= CAPACITY && (k - at) % 4096 == 0
  }

  /** Read cyclically from the write pointer, `store` is the newest 4096 octets of `log`. */
  ghost predicate Shows(store: seq<byte>, pos: nat, log: seq<byte>)
  {
    && |store| == CAPACITY && pos <= CAPACITY && CAPACITY <= |log|
    && Addresses(pos, |log|)
    && store[pos..] + store[..pos] == log[|log| - CAPACITY..]
  }

  lemma RingSize(store: seq<byte>, pos: nat, log: seq<byte>)
    requires Shows(store, pos, log)
    ensures |store| == CAPACITY && pos <= CAPACITY <= |log| && Addresses(pos, |log|)
  {
  }

  lemma AddressBound(at: nat, k: nat)
    requires Addresses(at, k)
    ensures at <= CAPACITY
  {
  }

  /** Copying a possibly wrapped string out of the ring. */
  function ReadRing(store: seq<byte>, at: nat, len: nat): (r: seq<byte>)
    requires |store| == CAPACITY && at <= CAPACITY && len <= CAPACITY
  {
    var rest := CAPACITY - at;
    if len > rest then store[at..] + store[..len - rest] else store[at..at + len]
  }

  /** Copying a string into the ring, wrapping when it does not fit before the end. */
  function PutRing(store: seq<byte>, at: nat, s: seq<byte>): (r: seq<byte>)
    requires |store| == CAPACITY && at <= CAPACITY && |s| <= CAPACITY
    ensures |r| == CAPACITY
  {
    var avail := CAPACITY - at;
    if avail >= |s| then store[..at] + s + store[at + |s|..]
    else s[avail..] + store[|s| - avail..at] + s[..avail]
  }

  /** Where the write pointer stands after `PutRing`. */
  function Advance(at: nat, len: nat): (r: nat)
    requires at <= CAPACITY && len <= CAPACITY
    ensures r <= CAPACITY
  {
    if CAPACITY - at >= len then at + len else len - (CAPACITY - at)
  }

  function Wrap(x: nat): (r: nat)
    requires x < 12288
    ensures r < CAPACITY
  {
    if x < CAPACITY then x else if x < 8192 then x - CAPACITY else x - 8192
  }

  /** Two ways to reach the slot of log position `k + i`: from its own pointer or from the write pointer. */
  lemma SameSlot(pos: nat, end: nat, at: nat, k: nat, i: nat)
    requires Addresses(pos, end) && Addresses(at, k)
    requires end - CAPACITY <= k && k + i < end
    ensures at + i < 8192 && pos + (k + i - (end - CAPACITY)) < 8192
    ensures Wrap(at + i) == Wrap(pos + (k + i - (end - CAPACITY)))
  {
    var q, r := (k - at) / 4096, (end - pos) / 4096;
    assert k - at == 4096 * q && end - pos == 4096 * r;
    hide Addresses;
    assert pos + (k + i - (end - CAPACITY)) == at + i + 4096 * (q - r + 1);
  }

  lemma ShownAt(store: seq<byte>, pos: nat, log: seq<byte>, i: nat)
    requires Shows(store, pos, log) && i < CAPACITY
    ensures log[|log| - CAPACITY + i] == store[Wrap(pos + i)]
  {
    assert log[|log| - CAPACITY..][i] == (store[pos..] + store[..pos])[i];
  }

  lemma ReadRingAt(store: seq<byte>, at: nat, len: nat, i: nat)
    requires |store| == CAPACITY && at <= CAPACITY && i < len <= CAPACITY
    ensures ReadRing(store, at, len)[i] == store[Wrap(at + i)]
  {
  }

  lemma ReadAt(store: seq<byte>, pos: nat, log: seq<byte>, at: nat, k: nat, len: nat, i: nat)
    requires Shows(store, pos, log) && Addresses(at, k)
    requires |log| - CAPACITY <= k && k + len <= |log| && i < len
    ensures len <= CAPACITY && ReadRing(store, at, len)[i] == log[k + i]
  {
    hide ReadRing, Wrap, Shows, Addresses;
    RingSize(store, pos, log);
    AddressBound(at, k);
    SameSlot(pos, |log|, at, k, i);
    ShownAt(store, pos, log, k + i - (|log| - CAPACITY));
    ReadRingAt(store, at, len, i);
  }

  /** What was logged within the last 4096 octets is read back unchanged, wrapped or not. */
  lemma ReadBack(store: seq<byte>, pos: nat, log: seq<byte>, at: nat, k: nat, len: nat)
    requires Shows(store, pos, log) && Addresses(at, k)
    requires |log| - CAPACITY <= k && k + len <= |log|
    ensures len <= CAPACITY && ReadRing(store, at, len) == log[k..k + len]
  {
    forall i | 0 <= i < len
      ensures ReadRing(store, at, len)[i] == log[k + i]
    {
      ReadAt(store, pos, log, at, k, len, i);
    }
  }

  /** Writing turns the cyclic reading of the ring by the length of what is written. */
  lemma PutTurns(store: seq<byte>, pos: nat, s: seq<byte>)
    requires |store| == CAPACITY && pos <= CAPACITY && |s| <= CAPACITY
    ensures var store', pos' := PutRing(store, pos, s), Advance(pos, |s|);
            store'[pos'..] + store'[..pos'] == (store[pos..] + store[..pos])[|s|..] + s
  {
    var store', pos' := PutRing(store, pos, s), Advance(pos, |s|);
    var avail := CAPACITY - pos;
    if avail >= |s| {
      assert store'[pos'..] == store[pos + |s|..];
      assert store'[..pos'] == store[..pos] + s;
    } else {
      assert s == s[..avail] + s[avail..];
      assert store'[pos'..] == store[|s| - avail..pos] + s[..avail];
      assert store'[..pos'] == s[avail..];
    }
  }

  /** Writing a string appends it to the log: no other octet of the last 4096 is disturbed. */
  lemma PutAppends(store: seq<byte>, pos: nat, log: seq<byte>, s: seq<byte>)
    requires Shows(store, pos, log) && |s| <= CAPACITY
    ensures Shows(PutRing(store, pos, s), Advance(pos, |s|), log + s)
  {
    PutTurns(store, pos, s);
    assert Addresses(Advance(pos, |s|), |log + s|);
    assert (log + s)[|log + s| - CAPACITY..] == log[|log| - CAPACITY..][|s|..] + s;
    hide Addresses, PutRing, Advance;
  }
}
