/** The writer of header blocks: octets gathered in a list of 4096-octet chunks. */
module HpackWriter {
  import opened Bytes
  import opened Parts
  import opened HpackFifo
  import opened HpackStatic
  import opened HpackIntegers
  import opened HpackBlock
  import opened Words

  class Chunk {
    const data: array<byte>
    var used: nat
    var next: Chunk?

    constructor (size: nat)
      ensures fresh(data) && data.Length == size && used == 0 && next == null
    {
      data := new byte[size];
      used, next := 0, null;
    }

    /** The octets in use. */
    ghost predicate Holds(part: seq<byte>)
      reads this`used, data
    {
      used == |part| <= data.Length && data[..used] == part
    }
  }

  /** The chunks that are linked in front of `last`. */
  ghost predicate Linked(head: Chunk?, full: seq<Chunk>, last: Chunk?)
    reads full`next
  {
    && head == (if full == [] then last else full[0])
    && (last == null ==> full == [])
    && (forall i {:trigger full[i].next} :: 0 <= i < |full| ==>
      full[i].next == if i + 1 < |full| then full[i + 1] else last)
    && (forall i :: 0 <= i < |full| && last != null ==> full[i] != last && full[i].data != last.data)
  }

  ghost predicate Filled(full: seq<Chunk>, parts: seq<seq<byte>>)
    reads full`used, set i | 0 <= i < |full| :: full[i].data
  {
    |parts| == |full| && forall i :: 0 <= i < |full| ==> full[i].Holds(parts[i])
  }

  class HeaderFrame {
    var head: Chunk?
    var last: Chunk?
    // where the last chunk goes on
    var hot: nat
    // the chunks before the last one, and what they hold
    ghost var full: seq<Chunk>
    ghost var parts: seq<seq<byte>>

    ghost predicate Valid()
      reads this, full, last, set i | 0 <= i < |full| :: full[i].data
    {
      && Linked(head, full, last) && Filled(full, parts)
      && (last != null ==> last.next == null && last.data.Length == 4096 && hot == last.used <= 4096)
    }

    /** Everything written, chunk after chunk. */
    ghost function Contents(): seq<byte>
      requires Valid()
      reads this, full, last, (if last == null then {} else {last.data}), set i | 0 <= i < |full| :: full[i].data
    {
      if last == null then [] else Flat(parts) + last.data[..last.used]
    }

    constructor ()
      ensures Valid() && Contents() == [] && last == null
    {
      head, last, hot, full, parts := null, null, 0, [], [];
    }

    /** Appends a fresh, empty chunk. */
    method NewChunk()
      requires Valid()
      modifies this, (if last == null then {} else {last})`next
      ensures Valid() && last != null && fresh(last) && fresh(last.data) && last.used == 0
      ensures Contents() == old(Contents())
    {
      hide Flat, Filled;
      var buf := new Chunk(4096);
      if last != null {
        ChunkFilled(full, parts, last, last.data[..last.used]);
        FlatAppend(parts, last.data[..last.used]);
        full, parts := full + [last], parts + [last.data[..last.used]];
      } else {
        FlatNone();
        NoneFilled();
        parts := [];
      }
      hot := 0;
      if head == null {
        head := buf;
      }
      if last != null {
        last.next := buf;
      }
      last := buf;
    }

    /** Claims up to `len` octets of the last chunk, or of a new one when that is full. */
    method AllocBuffer(len: nat) returns (at: nat, got: nat)
      requires Valid() && len > 0
      modifies this, (if last == null then {} else {last})
      ensures Valid() && 0 < got <= len && last != null && at + got == hot
      ensures Flat(parts) + last.data[..at] == old(Contents())
      ensures last == old(last) || (fresh(last) && fresh(last.data))
    {
      hide Flat, Filled;
      if last == null || last.used == 4096 {
        NewChunk();
      }
      var left := 4096 - last.used;
      got := if len < left then len else left;
      last.used := last.used + got;
      at := hot;
      hot := hot + got;
    }

    /** Fills claimed octets at the end with `src`. */
    method Put(at: nat, src: seq<byte>)
      requires Valid() && last != null && at + |src| == hot
      modifies last.data
      ensures Valid() && Contents() == Flat(parts) + old(last.data[..at]) + src
    {
      hide Flat, Filled;
      MemCopy(last.data, at, src);
      assert last.data[..hot] == old(last.data[..at]) + src;
    }

    /** Fills claimed octets at the end with `src` in lower case. */
    method PutLower(at: nat, src: seq<byte>)
      requires Valid() && last != null && at + |src| == hot
      modifies last.data
      ensures Valid() && Contents() == Flat(parts) + old(last.data[..at]) + LowerAll(src)
    {
      hide Flat, Filled;
      for i := 0 to |src|
        invariant Valid()
        invariant last.data[..at + i] == old(last.data[..at]) + LowerAll(src)[..i]
      {
        last.data[at + i] := Lower(src[i] as nat) as byte;
      }
    }

    /** Appends octets, over as many chunks as it takes. */
    method Write(str: seq<byte>)
      requires Valid()
      modifies this, (if last == null then {} else {last, last.data})
      ensures Valid() && Contents() == old(Contents()) + str
      ensures last == old(last) || (fresh(last) && fresh(last.data))
    {
      hide Flat, Valid, Contents;
      var done := 0;
      assert str[..0] == [];
      while done < |str|
        invariant done <= |str| && Valid() && Contents() == old(Contents()) + str[..done]
        invariant last == old(last) || (fresh(last) && fresh(last.data))
      {
        var at, got := AllocBuffer(|str| - done);
        Put(at, str[done..done + got]);
        assert str[..done] + str[done..done + got] == str[..done + got];
        done := done + got;
      }
    }

    /** Appends octets in lower case. */
    method WriteLowerString(str: seq<byte>)
      requires Valid()
      modifies this, (if last == null then {} else {last, last.data})
      ensures Valid() && Contents() == old(Contents()) + LowerAll(str)
      ensures last == old(last) || (fresh(last) && fresh(last.data))
    {
      hide Flat, Valid, Contents;
      var done := 0;
      assert LowerAll(str)[..0] == [];
      while done < |str|
        invariant done <= |str| && Valid() && Contents() == old(Contents()) + LowerAll(str)[..done]
        invariant last == old(last) || (fresh(last) && fresh(last.data))
      {
        var at, got := AllocBuffer(|str| - done);
        PutLower(at, str[done..done + got]);
        assert LowerAll(str)[..done] + LowerAll(str[done..done + got]) == LowerAll(str)[..done + got];
        done := done + got;
      }
      assert LowerAll(str)[..done] == LowerAll(str);
    }

    /** Appends an integer under an `n`-bit prefix. */
    method WriteInt(kind: byte, n: nat, value: nat)
      requires 1 <= n <= 8 && And(kind as nat, Mask(n)) == 0
      requires kind as nat + Mask(n) < 256 && value < 0x1_0000_0000_0000_0000
      requires Valid()
      modifies this, (if last == null then {} else {last, last.data})
      ensures Valid() && Contents() == old(Contents()) + Encoded(kind, n, value)
      ensures last == old(last) || (fresh(last) && fresh(last.data))
    {
      hide Flat, Valid, Contents, Encoded;
      var buf, size := Digits(kind, n, value);
      Write(buf[..size]);
    }

    /** Puts a response's status in front. */
    method AddStatus(code: nat)
      requires Valid()
      modifies this, (if last == null then {} else {last, last.data})
      ensures Valid() && Contents() == Written(StatusField(code)) + old(Contents())
      ensures last == old(last) || (fresh(last) && fresh(last.data))
    {
      hide Flat, Valid, Contents, ThreeDigits, Encoded, And, Pow2;
      var buf: seq<byte>;
      match code {
        case 200 => buf := [128 + 8];
        case 204 => buf := [128 + 9];
        case 206 => buf := [128 + 10];
        case 304 => buf := [128 + 11];
        case 400 => buf := [128 + 12];
        case 404 => buf := [128 + 13];
        case 500 => buf := [128 + 14];
        case _ =>
          ThreeFits();
          buf := [64 + 8, 3] + ThreeDigits(code);
          assert buf == [64 + 8] + Raw(ThreeDigits(code));
      }
      Insert(buf);
    }

    /** Appends a header, its name in lower case; an upgrade to HTTP/2 is left out. */
    method AddHeader(name: seq<byte>, value: seq<byte>)
      requires Valid() && |name| < 0x1_0000 && |value| < 0x1_0000
      modifies this, (if last == null then {} else {last, last.data})
      ensures Valid() && Contents() == old(Contents()) + AllWritten(HeaderFields([Header(name, value)]))
      ensures last == old(last) || (fresh(last) && fresh(last.data))
    {
      hide Flat, Valid, Contents, Written, And, Pow2, AllWritten, HeaderFields, Upgrades;
      OneHeader(Header(name, value));
      var low := LowerAll(name);
      if |name| == 6 && low == Ascii("cookie") {
        AddNamed(32, value);
        return;
      }
      if |name| == 7 && low == Ascii("upgrade") && Upgrades(value) {
        return;
      }
      AddSpelled(name, value);
    }

    method AddSpelled(name: seq<byte>, value: seq<byte>)
      requires Valid() && |name| < 0x1_0000 && |value| < 0x1_0000
      modifies this, (if last == null then {} else {last, last.data})
      ensures Valid() && Contents() == old(Contents()) + Written(Spelled(LowerAll(name), value))
      ensures last == old(last) || (fresh(last) && fresh(last.data))
    {
      hide Flat, Valid, Contents, Encoded, And, Pow2, LowerAll, Raw;
      RawFits();
      ghost var before := Contents();
      Write([0]);
      WriteInt(0, 7, |name|);
      WriteLowerString(name);
      WriteInt(0, 7, |value|);
      Write(value);
      SpelledIs(before, LowerAll(name), value);
    }

    method AddNamed(index: nat, value: seq<byte>)
      requires Valid() && 0 < index <= STATIC_ENTRIES && |value| < 0x1_0000
      modifies this, (if last == null then {} else {last, last.data})
      ensures Valid() && Contents() == old(Contents()) + Written(Named(index, value))
      ensures last == old(last) || (fresh(last) && fresh(last.data))
    {
      hide Flat, Valid, Contents, Encoded, And, Pow2;
      RawFits();
      Write([(64 + index) as byte]);
      WriteInt(0, 7, |value|);
      Write(value);
      assert Contents() == old(Contents()) + ([(64 + index) as byte] + (Encoded(0, 7, |value|) + value));
    }

    lemma HeadKnown()
      requires Valid()
      ensures head == null <==> last == null
    {
      hide Flat, Filled;
    }

    /** Puts octets in front of everything written. */
    method Insert(str: seq<byte>)
      requires Valid()
      modifies this, (if last == null then {} else {last, last.data})
      ensures Valid() && Contents() == str + old(Contents())
      ensures last == old(last) || (fresh(last) && fresh(last.data))
    {
      hide Flat, Filled, Linked;
      HeadKnown();
      if head == null {
        Write(str);
        return;
      }
      var buf := new Chunk(|str|);
      MemCopy(buf.data, 0, str);
      buf.used := |str|;
      FilledAfter(buf, str, full, parts);
      FlatHead(str, parts);
      buf.next := head;
      LinkedAfter(buf, head, full, last);
      head := buf;
      full, parts := [buf] + full, [str] + parts;
    }
  }

  /** The octets of an integer, in a buffer with room for 32. */
  method Digits(kind: byte, n: nat, value: nat) returns (buf: array<byte>, size: nat)
    requires 1 <= n <= 8 && And(kind as nat, Mask(n)) == 0
    requires kind as nat + Mask(n) < 256 && value < 0x1_0000_0000_0000_0000
    ensures fresh(buf) && size <= 11 <= buf.Length && buf[..size] == Encoded(kind, n, value)
  {
    hide And, Or, Pow2, Tail;
    SplitBits(kind as nat, if value < Mask(n) then value else Mask(n), n);
    EncodedLength(kind, n, value);
    buf := new byte[32];
    buf[0] := kind;
    if value < Mask(n) {
      buf[0] := Or(buf[0] as nat, value) as byte;
      size := 1;
      assert buf[..size] == Encoded(kind, n, value);
      return;
    }
    buf[0] := Or(buf[0] as nat, Mask(n)) as byte;
    size := 1;
    var rest := value - Mask(n);
    ghost var all := Encoded(kind, n, value);
    while rest >= 128
      invariant 1 <= size < |all| <= 11 && rest >= 0 && Tail(rest) == all[size..]
      invariant buf[..size] == all[..size]
    {
      NextDigit(all, size, rest);
      buf[size] := (rest % 128 + 128) as byte;
      size := size + 1;
      rest := rest / 128;
    }
    NextDigit(all, size, rest);
    buf[size] := rest as byte;
    size := size + 1;
  }

  lemma NextDigit(all: seq<byte>, size: nat, rest: nat)
    requires size < |all| && Tail(rest) == all[size..]
    ensures if rest < 128 then |all| == size + 1 && all[size] == rest as byte
      else size + 1 < |all| && all[size] == (rest % 128 + 128) as byte && Tail(rest / 128) == all[size + 1..]
  {
    assert all[size..][0] == all[size];
    assert all[size..][1..] == all[size + 1..];
  }

  lemma ThreeFits()
    ensures And(0, Mask(7)) == 0 && Mask(7) == 127 && Encoded(0, 7, 3) == [3]
  {
  }

  lemma SpelledIs(before: seq<byte>, name: seq<byte>, value: seq<byte>)
    ensures And(0, Mask(7)) == 0 && Mask(7) == 127
    ensures before + [0] + Encoded(0, 7, |name|) + name + Encoded(0, 7, |value|) + value
            == before + Written(Spelled(name, value))
  {
    RawFits();
    hide Encoded, And, Pow2;
    var a, b := Encoded(0, 7, |name|) + name, Encoded(0, 7, |value|) + value;
    assert before + [0] + Encoded(0, 7, |name|) + name == before + ([0] + a);
  }

  lemma OneHeader(h: Header)
    ensures AllWritten(HeaderFields([h])) == if Skipped(h) then [] else Written(HeaderField(h))
  {
    hide Written, Skipped, HeaderField;
    var rest: seq<Header> := [h][1..];
    assert rest == [];
    var es := HeaderFields([h]);
    if !Skipped(h) {
      assert es == [HeaderField(h)] + HeaderFields(rest);
      assert es == [HeaderField(h)];
      assert es[1..] == [];
    }
  }

  lemma LinkedAfter(chunk: Chunk, head: Chunk?, full: seq<Chunk>, last: Chunk?)
    requires Linked(head, full, last) && chunk.next == head && last != null && chunk != last && chunk.data != last.data
    ensures Linked(chunk, [chunk] + full, last)
  {
  }

  lemma FilledAfter(chunk: Chunk, part: seq<byte>, full: seq<Chunk>, parts: seq<seq<byte>>)
    requires Filled(full, parts) && chunk.Holds(part)
    ensures Filled([chunk] + full, [part] + parts)
  {
  }

  lemma ChunkFilled(full: seq<Chunk>, parts: seq<seq<byte>>, chunk: Chunk, part: seq<byte>)
    requires Filled(full, parts) && chunk.Holds(part)
    ensures Filled(full + [chunk], parts + [part])
  {
  }

  lemma NoneFilled()
    ensures Filled([], [])
  {
  }

  lemma {:induction false} OneMoreField(hs: seq<Header>, h: Header)
    ensures AllWritten(HeaderFields(hs + [h])) == AllWritten(HeaderFields(hs)) + AllWritten(HeaderFields([h]))
  {
    hide Written, Skipped, HeaderField, HeaderFields, AllWritten;
    if hs == [] {
      NoFields();
      assert hs + [h] == [h];
    } else {
      OneMoreField(hs[1..], h);
      assert (hs + [h])[1..] == hs[1..] + [h];
      FirstField(hs);
      FirstField(hs + [h]);
    }
  }

  lemma FirstField(hs: seq<Header>)
    requires hs != []
    ensures AllWritten(HeaderFields(hs))
            == (if Skipped(hs[0]) then [] else Written(HeaderField(hs[0]))) + AllWritten(HeaderFields(hs[1..]))
  {
    hide Written, Skipped, HeaderField;
    var rest := HeaderFields(hs[1..]);
    if Skipped(hs[0]) {
      assert [] + rest == rest;
    } else {
      assert ([HeaderField(hs[0])] + rest)[1..] == rest;
    }
  }

  /**
   A response's header block, with the status given after the headers or before them: any receiver
   reads the status first, and then the headers with names in lower case, in order.
   */
  method WriteHead(code: nat, headers: seq<Header>, statusFirst: bool, ghost t: Fifo) returns (frame: HeaderFrame)
    requires code < 1000
    requires forall i :: 0 <= i < |headers| ==> |headers[i].name| < 0x1_0000 && |headers[i].value| < 0x1_0000
    ensures fresh(frame) && frame.Valid()
    ensures ReadBlock(t, frame.Contents())
            == Some(Block([Header(Ascii(":status"), ThreeDigits(code))] + Passed(headers),
                          AllEffects(Effect(t, StatusField(code)), HeaderFields(headers))))
  {
    hide Flat, HeaderFrame.Valid, HeaderFrame.Contents, AllWritten, HeaderFields;
    hide ReadBlock, Written, ThreeDigits, Passed, Effect, AllEffects;
    frame := new HeaderFrame();
    ghost var status := Written(StatusField(code));
    if statusFirst {
      frame.AddStatus(code);
    }
    ghost var front := if statusFirst then status else [];
    assert status + [] == status;
    assert headers[..0] == [];
    NoFields();
    for i := 0 to |headers|
      invariant frame.Valid() && (frame.last == null || (fresh(frame.last) && fresh(frame.last.data)))
      invariant frame.Contents() == front + AllWritten(HeaderFields(headers[..i]))
    {
      OneMoreField(headers[..i], headers[i]);
      assert headers[..i] + [headers[i]] == headers[..i + 1];
      frame.AddHeader(headers[i].name, headers[i].value);
    }
    assert headers[..|headers|] == headers;
    ghost var fields := AllWritten(HeaderFields(headers));
    assert [] + fields == fields;
    if !statusFirst {
      frame.AddStatus(code);
    }
    ResponseReads(t, code, headers);
  }

  lemma NoFields()
    ensures AllWritten(HeaderFields([])) == []
  {
  }
}
