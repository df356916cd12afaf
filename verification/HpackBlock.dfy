/** Header blocks: how RFC 7541 reads them (section 6), and the fields that the server's writer puts in them. */
module HpackBlock {
  import opened Bytes
  import opened Numbers
  import opened HpackFifo
  import opened HpackStatic
  import opened HpackIntegers
  import opened Words

  datatype Text = Text(octets: seq<byte>, size: nat)

  /** Section 5.2: a string literal. Those with the Huffman bit are outside this reader. */
  function ReadString(s: seq<byte>): (r: Option<Text>)
    ensures r.Some? ==> 0 < r.value.size <= |s|
  {
    if s == [] || s[0] >= 128 then None
    else
      match ReadInt(7, s)
      case None => None
      case Some(len) =>
        if |s| < len.size + len.value then None
        else Some(Text(s[len.size..len.size + len.value], len.size + len.value))
  }

  /** A field of a block: perhaps a header, the table after it, and its size. */
  datatype Field = Field(header: Option<Header>, table: Fifo, size: nat)

  /** Section 6.2: a literal whose name is an entry's, or is spelled out where the index is zero. */
  function ReadLiteral(t: Fifo, index: Read, s: seq<byte>, indexing: bool): (r: Option<Field>)
    requires 0 < index.size <= |s|
    ensures r.Some? ==> 0 < r.value.size <= |s|
  {
    var name :=
      if index.value == 0 then ReadString(s[index.size..])
      else match Lookup(t, index.value)
        case None => None
        case Some(h) => Some(Text(h.name, 0));
    if name.None? then None
    else
      var at := index.size + name.value.size;
      var value := ReadString(s[at..]);
      if value.None? then None
      else
        var h := Header(name.value.octets, value.value.octets);
        Some(Field(Some(h), if indexing then Insert(t, h) else t, at + value.value.size))
  }

  /** Section 6: one field. */
  function ReadField(t: Fifo, s: seq<byte>): (r: Option<Field>)
    ensures r.Some? ==> 0 < r.value.size <= |s|
  {
    if s == [] then None
    else if s[0] >= 128 then
      match ReadInt(7, s)
      case None => None
      case Some(i) =>
        var h := Lookup(t, i.value);
        if h.None? then None else Some(Field(h, t, i.size))
    else if s[0] >= 64 then
      match ReadInt(6, s)
      case None => None
      case Some(i) => ReadLiteral(t, i, s, true)
    else if s[0] >= 32 then
      match ReadInt(5, s)
      case None => None
      case Some(i) => Some(Field(None, Resize(t, i.value), i.size))
    else
      match ReadInt(4, s)
      case None => None
      case Some(i) => ReadLiteral(t, i, s, false)
  }

  datatype Block = Block(headers: seq<Header>, table: Fifo)

  /** A whole block, by a receiver whose table is `t`. */
  function ReadBlock(t: Fifo, s: seq<byte>): Option<Block>
    decreases |s|
  {
    if s == [] then Some(Block([], t))
    else
      var f := ReadField(t, s);
      if f.None? then None
      else
        var rest := ReadBlock(f.value.table, s[f.value.size..]);
        if rest.None? then None
        else
          var mine := if f.value.header.Some? then [f.value.header.value] else [];
          Some(rest.value.(headers := mine + rest.value.headers))
  }

  /** A string literal as the writer puts it, never Huffman-coded. */
  function Raw(s: seq<byte>): seq<byte>
  {
    RawFits();
    Encoded(0, 7, |s|) + s
  }

  lemma RawFits()
    ensures And(0, Mask(7)) == 0 && Mask(7) == 127
  {
  }

  /** What the writer emits: an entry's index, or a literal under an entry's name or its own. */
  datatype Emitted =
    | Indexed(index: nat)
    | Named(index: nat, value: seq<byte>)
    | Spelled(name: seq<byte>, value: seq<byte>)

  predicate Emittable(e: Emitted)
  {
    match e
    case Indexed(index) => 0 < index <= STATIC_ENTRIES
    case Named(index, _) => 0 < index <= STATIC_ENTRIES
    case Spelled(_, _) => true
  }

  function Written(e: Emitted): seq<byte>
    requires Emittable(e)
  {
    match e
    case Indexed(index) => [(128 + index) as byte]
    case Named(index, value) => [(64 + index) as byte] + Raw(value)
    case Spelled(name, value) => [0] + Raw(name) + Raw(value)
  }

  /** The header a receiver gets for it. */
  function Meaning(e: Emitted): Header
    requires Emittable(e)
  {
    match e
    case Indexed(index) => StaticHeader(index - 1)
    case Named(index, value) => Header(StaticHeader(index - 1).name, value)
    case Spelled(name, value) => Header(name, value)
  }

  function Effect(t: Fifo, e: Emitted): Fifo
    requires Emittable(e)
  {
    if e.Named? then Insert(t, Meaning(e)) else t
  }

  lemma RawReads(s: seq<byte>, rest: seq<byte>)
    ensures ReadString(Raw(s) + rest) == Some(Text(s, |Raw(s)|))
  {
    hide And, ReadInt, Encoded, Tail;
    RawFits();
    var e := Encoded(0, 7, |s|);
    var all := Raw(s) + rest;
    assert all == e + (s + rest);
    EncodedReads(0, 7, |s|, s + rest);
    LeadIsSmall(|s|);
    assert all[0] == e[0];
    assert all[|e|..|e| + |s|] == s;
  }

  lemma LeadIsSmall(v: nat)
    ensures And(0, Mask(7)) == 0 && Mask(7) == 127 && Encoded(0, 7, v)[0] < 128
  {
  }

  /** An index that fits its prefix, below the pattern of its kind of field. */
  lemma ShortReads(kind: byte, n: nat, v: nat, s: seq<byte>)
    requires (kind == 128 && n == 7) || (kind == 64 && n == 6) || (kind == 0 && n == 4)
    requires v < 15 || (n > 4 && v < 63)
    requires s != [] && s[0] as nat == kind as nat + v
    ensures ReadInt(n, s) == Some(Read(v, 1))
  {
    Patterns();
    EncodedReads(kind, n, v, s[1..]);
    hide And, Pow2, ReadInt;
    assert Encoded(kind, n, v) + s[1..] == s;
  }

  lemma Patterns()
    ensures Mask(7) == 127 && Mask(6) == 63 && Mask(4) == 15
    ensures And(128, 127) == 0 && And(64, 63) == 0 && And(0, 15) == 0
  {
    assert And(1, 0) == 0;
    assert And(8, 7) == 0;
  }

  lemma IndexedReads(t: Fifo, index: nat, rest: seq<byte>)
    requires 0 < index <= STATIC_ENTRIES
    ensures ReadField(t, Written(Indexed(index)) + rest) == Some(Field(Some(StaticHeader(index - 1)), t, 1))
  {
    hide ReadInt, StaticHeader, ReadLiteral, Resize, Newest;
    ShortReads(128, 7, index, Written(Indexed(index)) + rest);
  }

  lemma NamedReads(t: Fifo, index: nat, value: seq<byte>, rest: seq<byte>)
    requires 0 < index <= STATIC_ENTRIES
    ensures var h := Header(StaticHeader(index - 1).name, value);
      ReadField(t, Written(Named(index, value)) + rest) == Some(Field(Some(h), Insert(t, h), 1 + |Raw(value)|))
  {
    hide ReadInt, ReadString, Raw, StaticHeader, Insert, Resize, Newest;
    var s := Written(Named(index, value)) + rest;
    ShortReads(64, 6, index, s);
    RawReads(value, rest);
    assert s[1..] == Raw(value) + rest;
  }

  lemma SpelledReads(t: Fifo, name: seq<byte>, value: seq<byte>, rest: seq<byte>)
    ensures ReadField(t, Written(Spelled(name, value)) + rest)
            == Some(Field(Some(Header(name, value)), t, 1 + |Raw(name)| + |Raw(value)|))
  {
    hide ReadInt, ReadString, Raw, StaticHeader, Insert, Resize, Lookup;
    var s := Written(Spelled(name, value)) + rest;
    ShortReads(0, 4, 0, s);
    RawReads(name, Raw(value) + rest);
    RawReads(value, rest);
    assert s[1..] == Raw(name) + (Raw(value) + rest);
    assert s[1 + |Raw(name)|..] == Raw(value) + rest;
  }

  /** Every field the writer emits is read as what it means, whatever follows. */
  lemma FieldReads(t: Fifo, e: Emitted, rest: seq<byte>)
    requires Emittable(e)
    ensures ReadField(t, Written(e) + rest) == Some(Field(Some(Meaning(e)), Effect(t, e), |Written(e)|))
  {
    hide ReadField, Raw, StaticHeader, Insert;
    match e
    case Indexed(index) => IndexedReads(t, index, rest);
    case Named(index, value) => NamedReads(t, index, value, rest);
    case Spelled(name, value) => SpelledReads(t, name, value, rest);
  }

  function AllWritten(es: seq<Emitted>): seq<byte>
    requires forall e :: e in es ==> Emittable(e)
  {
    if es == [] then [] else Written(es[0]) + AllWritten(es[1..])
  }

  function Meanings(es: seq<Emitted>): seq<Header>
    requires forall e :: e in es ==> Emittable(e)
  {
    seq(|es|, i requires 0 <= i < |es| => Meaning(es[i]))
  }

  function AllEffects(t: Fifo, es: seq<Emitted>): Fifo
    requires forall e :: e in es ==> Emittable(e)
    decreases |es|
  {
    if es == [] then t else AllEffects(Effect(t, es[0]), es[1..])
  }

  /** A receiver of a whole block gets the writer's fields, all of them and in order. */
  lemma {:induction false} BlockReads(t: Fifo, es: seq<Emitted>)
    requires forall e :: e in es ==> Emittable(e)
    ensures ReadBlock(t, AllWritten(es)) == Some(Block(Meanings(es), AllEffects(t, es)))
    decreases |es|
  {
    hide ReadField, Written, Meaning, Effect;
    if es != [] {
      var rest := AllWritten(es[1..]);
      FieldReads(t, es[0], rest);
      BlockReads(Effect(t, es[0]), es[1..]);
      var s := AllWritten(es);
      assert s[|Written(es[0])|..] == rest;
      assert Meanings(es) == [Meaning(es[0])] + Meanings(es[1..]);
    }
  }

  /** The first three decimal digits, with zeros in front when there are fewer. */
  function ThreeDigits(code: nat): (r: seq<byte>)
    ensures |r| == 3
  {
    if code < 1000 then [Digit(code / 100), Digit(code / 10 % 10), Digit(code % 10)] else ThreeDigits(code / 10)
  }

  /** The number that three digits spell. */
  function Spelling(s: seq<byte>): int
    requires |s| == 3
  {
    100 * (s[0] as int - 48) + 10 * (s[1] as int - 48) + s[2] as int - 48
  }

  /** The field for a status code: an entry of the static table has it, or only its name. */
  function StatusField(code: nat): (e: Emitted)
    ensures Emittable(e)
  {
    if code == 200 then Indexed(8)
    else if code == 204 then Indexed(9)
    else if code == 206 then Indexed(10)
    else if code == 304 then Indexed(11)
    else if code == 400 then Indexed(12)
    else if code == 404 then Indexed(13)
    else if code == 500 then Indexed(14)
    else Named(8, ThreeDigits(code))
  }

  /** Every status is sent as `:status` with its digits; they spell it exactly when it is below 1000. */
  lemma StatusMeans(code: nat)
    ensures Meaning(StatusField(code)) == Header(Ascii(":status"), ThreeDigits(code))
    ensures Spelling(ThreeDigits(code)) == code <==> code < 1000
  {
    hide StaticEntry, Spelling;
    DigitsSpell(code);
    StaticStatus();
    StatusText();
  }

  lemma StatusText()
    ensures Ascii("200") == ThreeDigits(200) && Ascii("204") == ThreeDigits(204) && Ascii("206") == ThreeDigits(206)
    ensures Ascii("304") == ThreeDigits(304) && Ascii("400") == ThreeDigits(400) && Ascii("404") == ThreeDigits(404)
    ensures Ascii("500") == ThreeDigits(500)
  {
    assert Ascii("200") == [50, 48, 48] && Ascii("204") == [50, 48, 52] && Ascii("206") == [50, 48, 54];
    assert Ascii("304") == [51, 48, 52] && Ascii("400") == [52, 48, 48];
    assert Ascii("404") == [52, 48, 52] && Ascii("500") == [53, 48, 48];
  }

  lemma StaticStatus()
    ensures StaticEntry(7) == (":status", "200") && StaticEntry(8) == (":status", "204")
    ensures StaticEntry(9) == (":status", "206") && StaticEntry(10) == (":status", "304")
    ensures StaticEntry(11) == (":status", "400") && StaticEntry(12) == (":status", "404")
    ensures StaticEntry(13) == (":status", "500") && StaticEntry(31).0 == "cookie"
  {
  }

  lemma {:induction false} DigitsSpell(code: nat)
    ensures 0 <= Spelling(ThreeDigits(code)) < 1000 && (Spelling(ThreeDigits(code)) == code <==> code < 1000)
  {
    if code < 1000 {
      assert code == 100 * (code / 100) + 10 * (code / 10 % 10) + code % 10;
    } else {
      DigitsSpell(code / 10);
    }
  }

  predicate Upgrades(value: seq<byte>)
  {
    LowerAll(value) == Ascii("h2") || LowerAll(value) == Ascii("h2c")
  }

  /** A connection upgrade to HTTP/2 itself is not passed on. */
  predicate Skipped(h: Header)
  {
    LowerAll(h.name) == Ascii("upgrade") && Upgrades(h.value)
  }

  function HeaderField(h: Header): (e: Emitted)
    ensures Emittable(e)
  {
    if LowerAll(h.name) == Ascii("cookie") then Named(32, h.value) else Spelled(LowerAll(h.name), h.value)
  }

  function HeaderFields(hs: seq<Header>): (es: seq<Emitted>)
    ensures forall e :: e in es ==> Emittable(e)
  {
    if hs == [] then [] else (if Skipped(hs[0]) then [] else [HeaderField(hs[0])]) + HeaderFields(hs[1..])
  }

  /** What a receiver is meant to see of some headers. */
  function Passed(hs: seq<Header>): seq<Header>
  {
    if hs == [] then []
    else (if Skipped(hs[0]) then [] else [Header(LowerAll(hs[0].name), hs[0].value)]) + Passed(hs[1..])
  }

  lemma {:induction false} HeadersMean(hs: seq<Header>)
    ensures Meanings(HeaderFields(hs)) == Passed(hs)
  {
    if hs != [] {
      StaticStatus();
      hide StaticEntry, Skipped;
      HeadersMean(hs[1..]);
      var rest := HeaderFields(hs[1..]);
      assert Meanings([HeaderField(hs[0])] + rest) == [Meaning(HeaderField(hs[0]))] + Meanings(rest);
      assert Meanings([] + rest) == Meanings(rest);
    }
  }

  /** A response's header block gives a receiver its status first and then its headers, in order. */
  lemma ResponseReads(t: Fifo, code: nat, hs: seq<Header>)
    requires code < 1000
    ensures ReadBlock(t, Written(StatusField(code)) + AllWritten(HeaderFields(hs)))
            == Some(Block([Header(Ascii(":status"), ThreeDigits(code))] + Passed(hs),
                          AllEffects(Effect(t, StatusField(code)), HeaderFields(hs))))
    ensures Spelling(ThreeDigits(code)) == code
  {
    hide ReadBlock, Written, Meaning, StatusField, ThreeDigits, Effect;
    var es := [StatusField(code)] + HeaderFields(hs);
    StatusMeans(code);
    HeadersMean(hs);
    BlockReads(t, es);
    assert es[1..] == HeaderFields(hs);
    assert Meanings(es) == [Meaning(es[0])] + Meanings(es[1..]);
  }
}
