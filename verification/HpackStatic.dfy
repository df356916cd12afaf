/** The static table of RFC 7541, Appendix A, and the index space of section 2.3.3. */
module HpackStatic {
  import opened Bytes
  import opened HpackFifo

  /** Entry `i + 1` of the table. */
  function StaticEntry(i: nat): (string, string)
    requires i < STATIC_ENTRIES
  {
    match i
    case 0 => (":authority", "")
    case 1 => (":method", "GET")
    case 2 => (":method", "POST")
    case 3 => (":path", "/")
    case 4 => (":path", "/index.html")
    case 5 => (":scheme", "http")
    case 6 => (":scheme", "https")
    case 7 => (":status", "200")
    case 8 => (":status", "204")
    case 9 => (":status", "206")
    case 10 => (":status", "304")
    case 11 => (":status", "400")
    case 12 => (":status", "404")
    case 13 => (":status", "500")
    case 14 => ("accept-charset", "")
    case 15 => ("accept-encoding", "gzip, deflate")
    case 16 => ("accept-language", "")
    case 17 => ("accept-ranges", "")
    case 18 => ("accept", "")
    case 19 => ("access-control-allow-origin", "")
    case 20 => ("age", "")
    case 21 => ("allow", "")
    case 22 => ("authorization", "")
    case 23 => ("cache-control", "")
    case 24 => ("content-disposition", "")
    case 25 => ("content-encoding", "")
    case 26 => ("content-language", "")
    case 27 => ("content-length", "")
    case 28 => ("content-location", "")
    case 29 => ("content-range", "")
    case 30 => ("content-type", "")
    case 31 => ("cookie", "")
    case 32 => ("date", "")
    case 33 => ("etag", "")
    case 34 => ("expect", "")
    case 35 => ("expires", "")
    case 36 => ("from", "")
    case 37 => ("host", "")
    case 38 => ("if-match", "")
    case 39 => ("if-modified-since", "")
    case 40 => ("if-none-match", "")
    case 41 => ("if-range", "")
    case 42 => ("if-unmodified-since", "")
    case 43 => ("last-modified", "")
    case 44 => ("link", "")
    case 45 => ("location", "")
    case 46 => ("max-forwards", "")
    case 47 => ("proxy-authenticate", "")
    case 48 => ("proxy-authorization", "")
    case 49 => ("range", "")
    case 50 => ("referer", "")
    case 51 => ("refresh", "")
    case 52 => ("retry-after", "")
    case 53 => ("server", "")
    case 54 => ("set-cookie", "")
    case 55 => ("strict-transport-security", "")
    case 56 => ("transfer-encoding", "")
    case 57 => ("user-agent", "")
    case 58 => ("vary", "")
    case 59 => ("via", "")
    case _ => ("www-authenticate", "")
  }

  function StaticHeader(i: nat): Header
    requires i < STATIC_ENTRIES
  {
    var e := StaticEntry(i);
    Header(Ascii(e.0), Ascii(e.1))
  }

  /** `a` comes before `b` in a dictionary: `p` characters are the same, and the next one decides. */
  predicate Before(a: string, b: string, p: nat)
  {
    p <= |a| && p < |b| && a[..p] == b[..p] && (p == |a| || a[p] < b[p])
  }

  /** Entries with the name of the next one. */
  predicate SharesName(i: nat)
  {
    i == 1 || i == 3 || i == 5 || 7 <= i < 13
  }

  /** How many characters an entry shares with the next one, in its name or else in its value. */
  function Shared(i: nat): nat
  {
    match i
    case 0 | 2 | 3 | 4 | 19 | 20 | 21 | 23 | 33 | 43 | 44 | 49 | 54 | 58 => 1
    case 6 | 7 | 8 | 11 | 30 | 51 | 53 => 2
    case 34 | 39 | 40 | 41 | 50 => 3
    case 5 | 18 | 38 => 4
    case 17 => 6
    case 14 | 15 | 16 => 7
    case 24 | 25 | 28 | 29 => 8
    case 26 | 27 => 9
    case 47 => 10
    case _ => 0
  }

  predicate InOrder(i: nat)
    requires i + 1 < STATIC_ENTRIES
  {
    var a, b := StaticEntry(i), StaticEntry(i + 1);
    if SharesName(i) then a.0 == b.0 && Before(a.1, b.1, Shared(i)) else Before(a.0, b.0, Shared(i))
  }

  lemma InOrder0(i: nat)
    requires 0 <= i < 12
    ensures InOrder(i)
  {
  }

  lemma InOrder12(i: nat)
    requires 12 <= i < 22 && i != 17
    ensures InOrder(i)
  {
  }

  lemma InOrder22(i: nat)
    requires 22 <= i < 30
    ensures InOrder(i)
  {
  }

  lemma InOrder30(i: nat)
    requires 30 <= i < 40
    ensures InOrder(i)
  {
  }

  lemma InOrder40(i: nat)
    requires 40 <= i < 50
    ensures InOrder(i)
  {
  }

  lemma InOrder50(i: nat)
    requires 50 <= i < 60
    ensures InOrder(i)
  {
  }

  /** The appendix lists names in order and values under each; only "accept" stands behind "accept-ranges". */
  lemma TableInOrder(i: nat)
    requires i + 1 < STATIC_ENTRIES
    ensures i != 17 ==> InOrder(i)
    ensures i == 17 ==> StaticEntry(17).0 == "accept-ranges" && StaticEntry(18).0 == "accept"
  {
    if i != 17 {
      hide InOrder;
      if i < 12 {
        InOrder0(i);
      } else if i < 22 {
        InOrder12(i);
      } else if i < 30 {
        InOrder22(i);
      } else if i < 40 {
        InOrder30(i);
      } else if i < 50 {
        InOrder40(i);
      } else {
        InOrder50(i);
      }
    }
  }

  /** Section 2.3.3: 1 to 61 is the static table, then the dynamic one, newest first. */
  function Lookup(t: Fifo, index: nat): Option<Header>
  {
    if index == 0 then None
    else if index <= STATIC_ENTRIES then Some(StaticHeader(index - 1))
    else Newest(t, index - STATIC_ENTRIES - 1)
  }

  /** What the field being decoded becomes: asked for a name only, a dynamic entry leaves the old value. */
  function Fetched(was: Header, found: Option<Header>, index: nat, nameOnly: bool): Header
  {
    if found.None? then was
    else if nameOnly && index > STATIC_ENTRIES then was.(name := found.value.name)
    else found.value
  }

  /**
   Section 2.3.3: an inserted entry has index 62 if it fits at all, and the old ones move up by one, each
   exactly as long as it, all newer ones and the new one fit together.
   */
  lemma IndexesMoveUp(t: Fifo, h: Header, index: nat)
    requires index >= 62
    ensures Lookup(Insert(t, h), 62) == if Cost(h) <= t.capacity then Some(h) else None
    ensures var i := index - 62;
      Lookup(Insert(t, h), index + 1) ==
        if i < |t.queue| && TotalCost(t.queue[|t.queue| - 1 - i..]) + Cost(h) <= t.capacity then
          Some(t.queue[|t.queue| - 1 - i])
        else None
  {
    hide Insert, TotalCost, StaticHeader;
    InsertKeeps(t, h, index - 62);
  }
}
