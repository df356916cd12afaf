/** The base64 codec: the encoding of section 4 of RFC 4648, and a decoder that drops trailing zero octets. */
module Base64 {
  import opened Bytes

  const PAD: byte := 61

  /** The alphabet, table 1 of RFC 4648. */
  function Letter(n: nat): byte
    requires n < 64
  {
    if n < 26 then (65 + n) as byte
    else if n < 52 then (71 + n) as byte
    else if n < 62 then (n - 4) as byte
    else if n == 62 then 43
    else 47
  }

  function Alphabet(): (r: seq<byte>)
    ensures |r| == 64
  {
    seq(64, i requires 0 <= i < 64 => Letter(i))
  }

  /** Section 4: 24 bits of three octets as four letters; zeros stand for octets that are missing. */
  function Group(a: byte, b: byte, c: byte): (r: seq<byte>)
    ensures |r| == 4
  {
    var n := a as nat * 0x1_0000 + b as nat * 0x100 + c as nat;
    [Letter(n / 0x4_0000), Letter(n / 0x1000 % 0x40), Letter(n / 0x40 % 0x40), Letter(n % 0x40)]
  }

  function Encoded(s: seq<byte>): seq<byte>
  {
    if s == [] then []
    else if |s| == 1 then Group(s[0], 0, 0)[..2] + [PAD, PAD]
    else if |s| == 2 then Group(s[0], s[1], 0)[..3] + [PAD]
    else Group(s[0], s[1], s[2]) + Encoded(s[3..])
  }

  lemma GroupBits(a: byte, b: byte, c: byte)
    ensures Group(a, b, c) == [
      Letter(a as nat / 4), Letter(a as nat % 4 * 16 + b as nat / 16),
      Letter(b as nat % 16 * 4 + c as nat / 64), Letter(c as nat % 64)]
  {
    var x, y, z := a as nat, b as nat, c as nat;
    FourSextets(x / 4, x % 4 * 16 + y / 16, y % 16 * 4 + z / 64, z % 64);
    Regrouped(x, y, z);
  }

  lemma Regrouped(x: nat, y: nat, z: nat)
    ensures x * 0x1_0000 + y * 0x100 + z
      == x / 4 * 0x4_0000 + (x % 4 * 16 + y / 16) * 0x1000 + (y % 16 * 4 + z / 64) * 0x40 + z % 64
  {
  }

  lemma FourSextets(p: nat, q: nat, r: nat, t: nat)
    requires q < 64 && r < 64 && t < 64
    ensures var n := p * 0x4_0000 + q * 0x1000 + r * 0x40 + t;
      n / 0x4_0000 == p && n / 0x1000 % 0x40 == q && n / 0x40 % 0x40 == r && n % 0x40 == t
  {
    var n := p * 0x4_0000 + q * 0x1000 + r * 0x40 + t;
    assert n / 0x40 == p * 0x1000 + q * 0x40 + r;
    assert n / 0x1000 == p * 0x40 + q;
  }

  /** Three octets at a time. */
  method Encode(s: seq<byte>) returns (out: seq<byte>)
    ensures out == Encoded(s)
  {
    hide Group, Letter;
    out := [];
    var i := 0;
    assert s[0..] == s;
    while i < |s|
      invariant 0 <= i && out + Encoded(if i <= |s| then s[i..] else []) == Encoded(s)
    {
      var a := s[i];
      var b := if i + 1 < |s| then s[i + 1] else 0;
      var c := if i + 2 < |s| then s[i + 2] else 0;
      GroupBits(a, b, c);
      var quad := [Letter(a as nat / 4), Letter(a as nat % 4 * 16 + b as nat / 16)];
      if i + 1 >= |s| {
        quad := quad + [PAD];
      } else {
        quad := quad + [Letter(b as nat % 16 * 4 + c as nat / 64)];
      }
      if i + 2 >= |s| {
        quad := quad + [PAD];
      } else {
        quad := quad + [Letter(c as nat % 64)];
      }
      FirstGroup(s[i..], quad, a, b, c);
      out := out + quad;
      i := i + 3;
      assert i <= |s| ==> s[i - 3..][3..] == s[i..];
    }
  }

  lemma FirstGroup(s: seq<byte>, quad: seq<byte>, a: byte, b: byte, c: byte)
    requires s != [] && a == s[0] && (|s| > 1 ==> b == s[1]) && (|s| > 2 ==> c == s[2])
    requires (|s| <= 1 ==> b == 0) && (|s| <= 2 ==> c == 0)
    requires quad == Group(a, b, c)[..2] + (if |s| > 1 then [Group(a, b, c)[2]] else [PAD])
      + (if |s| > 2 then [Group(a, b, c)[3]] else [PAD])
    ensures Encoded(s) == quad + Encoded(if |s| >= 3 then s[3..] else [])
  {
    hide Group;
    assert Group(a, b, c) == Group(a, b, c)[..2] + [Group(a, b, c)[2]] + [Group(a, b, c)[3]];
    assert Group(a, b, c)[..3] == Group(a, b, c)[..2] + [Group(a, b, c)[2]];
    assert [PAD] + [PAD] == [PAD, PAD];
  }

  /** The first place of an octet in a string, or the length: four steps a round. */
  method StrChr(s: seq<byte>, ch: byte) returns (n: nat)
    ensures n <= |s| && ch !in s[..n] && (n < |s| ==> s[n] == ch)
  {
    n := 0;
    while true
      invariant n <= |s| && ch !in s[..n]
      decreases |s| - n
    {
      if n == |s| || s[n] == ch {
        break;
      }
      n := n + 1;
      if n == |s| || s[n] == ch {
        break;
      }
      n := n + 1;
      if n == |s| || s[n] == ch {
        break;
      }
      n := n + 1;
      if n == |s| || s[n] == ch {
        break;
      }
      n := n + 1;
    }
  }

  /** The value of a letter, padding as zero, 64 for anything else. */
  function Value(c: byte): nat
  {
    if 65 <= c <= 90 then c as nat - 65
    else if 97 <= c <= 122 then c as nat - 71
    else if 48 <= c <= 57 then c as nat + 4
    else if c == 43 then 62
    else if c == 47 then 63
    else if c == PAD then 0
    else 64
  }

  lemma LetterValue(n: nat)
    requires n < 64
    ensures Value(Letter(n)) == n && Letter(n) != PAD
  {
  }

  lemma PlaceIsValue(c: byte, n: nat)
    requires n <= 64 && c != PAD && c !in Alphabet()[..n] && (n < 64 ==> Alphabet()[n] == c)
    ensures n == Value(c)
  {
    assert Value(c) < 64 ==> Alphabet()[Value(c)] == c;
    assert n == 64 ==> Alphabet()[..n] == Alphabet();
  }

  /** The value of the letter at a place; nothing is there past the end. */
  function ValueAt(s: seq<byte>, j: nat): nat
  {
    if j < |s| then Value(s[j]) else 0
  }

  predicate IsPad(s: seq<byte>, j: nat)
  {
    j < |s| && s[j] == PAD
  }

  /** Some letter of the first four is outside the alphabet. */
  predicate BadGroup(s: seq<byte>)
  {
    ValueAt(s, 0) > 63 || ValueAt(s, 1) > 63 || ValueAt(s, 2) > 63 || ValueAt(s, 3) > 63
  }

  /** The three octets of four letters, before any of them is left out. */
  function Three(s: seq<byte>): (r: seq<byte>)
    requires !BadGroup(s)
    ensures |r| == 3
  {
    [(ValueAt(s, 0) * 4 + ValueAt(s, 1) / 16) as byte,
     (ValueAt(s, 1) % 16 * 16 + ValueAt(s, 2) / 4) as byte,
     (ValueAt(s, 2) % 4 * 64 + ValueAt(s, 3)) as byte]
  }

  /** What is decoded, before trailing zeros are dropped: padding ends it, but only in two places. */
  function Decoded(s: seq<byte>): Option<seq<byte>>
    decreases |s|
  {
    if s == [] then Some([])
    else if BadGroup(s) then None
    else if IsPad(s, 1) then Some(Three(s)[..1])
    else if IsPad(s, 2) then Some(Three(s)[..2])
    else
      var rest := Decoded(if |s| > 4 then s[4..] else []);
      if rest.None? then None else Some(Three(s) + rest.value)
  }

  /** Without the zero octets at the end. */
  function Trimmed(s: seq<byte>): seq<byte>
  {
    if s == [] || s[|s| - 1] != 0 then s else Trimmed(s[..|s| - 1])
  }

  /** One letter; `a` gets its value. */
  method Sextet(s: seq<byte>, at: nat) returns (a: nat)
    ensures a == ValueAt(s, at)
  {
    if at < |s| && s[at] != PAD {
      a := StrChr(Alphabet(), s[at]);
      PlaceIsValue(s[at], a);
    } else {
      a := 0;
    }
  }

  /** What one group contributes, and whether its padding ends the text. */
  function Kept(s: seq<byte>): (r: seq<byte>)
    requires !BadGroup(s)
    ensures |r| <= 3
  {
    if IsPad(s, 1) then Three(s)[..1] else if IsPad(s, 2) then Three(s)[..2] else Three(s)
  }

  /** An octet of the text, or the terminator behind it. */
  function Peek(s: seq<byte>, j: nat): byte
    requires j <= |s|
  {
    if j < |s| then s[j] else 0
  }

  /**
   The decoder looks at the second and third octet of each group it gets to, unless the group is
   refused: a single letter must not be left for a last group that it gets to.
   */
  predicate Readable(s: seq<byte>)
    decreases |s|
  {
    s == [] || BadGroup(s) || (|s| >= 2 && (IsPad(s, 1) || IsPad(s, 2) || |s| <= 4 || Readable(s[4..])))
  }

  lemma ReadableStep(s: seq<byte>)
    requires Readable(s) && s != [] && !BadGroup(s)
    ensures |s| >= 2 && (!IsPad(s, 1) && !IsPad(s, 2) && |s| > 4 ==> Readable(s[4..]))
  {
  }

  /** Lengths other than one more than a multiple of four are always fine. */
  lemma {:induction false} ReadableLength(s: seq<byte>)
    requires |s| % 4 != 1
    ensures Readable(s)
    decreases |s|
  {
    hide BadGroup;
    if |s| > 4 {
      ReadableLength(s[4..]);
    }
  }

  /** Writes the octets of one group. */
  method PutGroup(out: array<byte>, n0: nat, a: seq<nat>, s: seq<byte>) returns (n: nat, ended: bool)
    requires !BadGroup(s)
    requires a == [ValueAt(s, 0), ValueAt(s, 1), ValueAt(s, 2), ValueAt(s, 3)] && n0 + 3 <= out.Length
    requires |s| >= 2
    modifies out
    ensures n == n0 + |Kept(s)| <= out.Length && (ended <==> IsPad(s, 1) || IsPad(s, 2))
    ensures out[..n] == old(out[..n0]) + Kept(s)
  {
    hide ValueAt;
    n := n0;
    out[n] := (a[0] * 4 + a[1] / 16) as byte;
    n := n + 1;
    if Peek(s, 1) == PAD {
      return n, true;
    }
    out[n] := (a[1] % 16 * 16 + a[2] / 4) as byte;
    n := n + 1;
    if Peek(s, 2) == PAD {
      return n, true;
    }
    out[n] := (a[2] % 4 * 64 + a[3]) as byte;
    n := n + 1;
    return n, false;
  }

  /** Four letters at a time; an octet past the end of the text is its terminator. */
  method Decode(s: seq<byte>) returns (r: Option<seq<byte>>)
    requires Readable(s)
    ensures r == match Decoded(s) case None => None case Some(t) => Some(Trimmed(t))
  {
    hide Decoded, Trimmed, ValueAt, Kept, IsPad, BadGroup, Readable;
    var out := new byte[2 * |s| + 2];
    var n, i, ended := 0, 0, false;
    ghost var whole := Decoded(s);
    assert s[0..] == s && out[..0] == [];
    NothingBefore(whole);
    NoneDecoded();
    while i < |s| && !ended
      invariant 0 <= i < |s| + 4 && 0 <= n && 4 * n <= 3 * i && 2 * |s| + 2 == out.Length && n <= out.Length
      invariant !ended && i < |s| ==> Readable(s[i..])
      invariant whole == Joined(out[..n], if ended then Some([]) else Decoded(if i <= |s| then s[i..] else []))
      decreases |s| + 4 - i
    {
      ghost var rest, before := s[i..], out[..n];
      DecodedStep(rest);
      var a := Quad(s, i);
      if a == [] {
        return None;
      }
      ReadableStep(rest);
      n, ended := PutGroup(out, n, a, s[i..]);
      JoinedTwice(before, Kept(rest), if ended then Some([]) else Decoded(if |rest| > 4 then rest[4..] else []));
      assert |rest| > 4 ==> rest[4..] == s[i + 4..];
      assert i + 4 == |s| ==> s[i + 4..] == [];
      i := i + 4;
    }
    assert i == |s| ==> s[i..] == [];
    NothingAfter(out[..n]);
    while n > 0 && out[n - 1] == 0
      invariant 0 <= n <= out.Length && whole.Some? && Trimmed(out[..n]) == Trimmed(whole.value)
    {
      TrimStep(out[..n]);
      assert out[..n][..n - 1] == out[..n - 1];
      n := n - 1;
    }
    TrimStep(out[..n]);
    r := Some(out[..n]);
  }

  lemma NothingAfter(done: seq<byte>)
    ensures Joined(done, Some([])) == Some(done)
  {
    assert done + [] == done;
  }

  /** The values of four letters, or nothing when one of them is outside the alphabet. */
  method Quad(s: seq<byte>, i: nat) returns (a: seq<nat>)
    requires i < |s|
    ensures var rest := s[i..];
      if BadGroup(rest) then a == []
      else a == [ValueAt(rest, 0), ValueAt(rest, 1), ValueAt(rest, 2), ValueAt(rest, 3)]
  {
    hide ValueAt;
    a := [];
    var j := 0;
    while j < 4
      invariant 0 <= j <= 4 && |a| == j && forall k :: 0 <= k < j ==> a[k] == ValueAt(s[i..], k) <= 63
    {
      var v := Sextet(s, i + j);
      SameValue(s, i, j);
      if v > 63 {
        return [];
      }
      a := a + [v];
      j := j + 1;
    }
  }

  lemma NothingBefore(rest: Option<seq<byte>>)
    ensures Joined([], rest) == rest
  {
    assert rest.Some? ==> [] + rest.value == rest.value;
  }

  lemma JoinedTwice(a: seq<byte>, b: seq<byte>, rest: Option<seq<byte>>)
    ensures Joined(a, Joined(b, rest)) == Joined(a + b, rest)
  {
    assert rest.Some? ==> a + (b + rest.value) == a + b + rest.value;
  }

  lemma TrimStep(s: seq<byte>)
    ensures s == [] || s[|s| - 1] != 0 ==> Trimmed(s) == s
    ensures s != [] && s[|s| - 1] == 0 ==> Trimmed(s) == Trimmed(s[..|s| - 1])
  {
  }

  function Joined(done: seq<byte>, rest: Option<seq<byte>>): Option<seq<byte>>
  {
    if rest.None? then None else Some(done + rest.value)
  }

  lemma NoneDecoded()
    ensures Decoded([]) == Some([])
  {
  }

  lemma SameValue(s: seq<byte>, i: nat, j: nat)
    requires i <= |s|
    ensures ValueAt(s[i..], j) == ValueAt(s, i + j)
  {
  }

  lemma DecodedStep(s: seq<byte>)
    requires s != []
    ensures if BadGroup(s) then Decoded(s) == None
      else Decoded(s) == Joined(Kept(s),
        if IsPad(s, 1) || IsPad(s, 2) then Some([]) else Decoded(if |s| > 4 then s[4..] else []))
  {
    hide Three, ValueAt;
    if !BadGroup(s) {
      NothingAfter(Kept(s));
    }
  }

  /** The letters of a group, read back. */
  lemma GroupReads(a: byte, b: byte, c: byte, rest: seq<byte>)
    ensures var s := Group(a, b, c) + rest;
      && !BadGroup(s)
      && Three(s) == [a, b, c] && !IsPad(s, 1) && !IsPad(s, 2)
  {
    GroupBits(a, b, c);
    var x, y, z := a as nat, b as nat, c as nat;
    LetterValue(x / 4);
    LetterValue(x % 4 * 16 + y / 16);
    LetterValue(y % 16 * 4 + z / 64);
    LetterValue(z % 64);
    hide Group, Letter, Value;
    Shifted(x % 4, y / 16, 16);
    Shifted(y % 16, z / 64, 4);
  }

  lemma Shifted(high: nat, low: nat, unit: nat)
    requires low < unit && (unit == 16 || unit == 4)
    ensures (high * unit + low) / unit == high && (high * unit + low) % unit == low
  {
  }

  /** What is left of the last group decodes to its octets, and a zero octet where one letter is padding. */
  lemma LastReads(s: seq<byte>)
    requires 1 <= |s| <= 2
    ensures Decoded(Encoded(s)) == Some(s + [0])
  {
    hide Group, Encoded, Decoded, Value, Trimmed, Three;
    var a, b := s[0], if |s| == 2 then s[1] else 0;
    var e, g := Encoded(s), Group(a, b, 0);
    GroupReads(a, b, 0, []);
    ZeroLetters(a, b);
    PadIsZero();
    LastLetters(s, a, b);
    assert g + [] == g;
    SameThree(e, g);
    DecodedStep(e);
    NoneDecoded();
    NothingAfter(Kept(e));
    assert [a, b, 0][..2] == [a, b];
    assert s + [0] == if |s| == 2 then [a, b, 0] else [a, b];
  }

  lemma PadIsZero()
    ensures Value(PAD) == 0
  {
  }

  lemma LastLetters(s: seq<byte>, a: byte, b: byte)
    requires 1 <= |s| <= 2 && a == s[0] && b == (if |s| == 2 then s[1] else 0)
    ensures var e, g := Encoded(s), Group(a, b, 0);
      && |e| == 4 && e[0] == g[0] && e[1] == g[1] && e[3] == PAD
      && e[2] == (if |s| == 2 then g[2] else PAD) && (|s| == 2 ==> g[2] != PAD) && g[1] != PAD
  {
    NoPads(a, b, 0);
    hide Group;
  }

  lemma NoPads(a: byte, b: byte, c: byte)
    ensures PAD !in Group(a, b, c)
  {
  }

  lemma SameThree(e: seq<byte>, g: seq<byte>)
    requires ValueAt(e, 0) == ValueAt(g, 0) < 64 && ValueAt(e, 1) == ValueAt(g, 1) < 64
    requires ValueAt(e, 2) == ValueAt(g, 2) < 64 && ValueAt(e, 3) == ValueAt(g, 3) < 64
    ensures Three(e) == Three(g)
  {
  }

  lemma ZeroLetters(a: byte, b: byte)
    ensures Value(Group(a, b, 0)[3]) == 0 && (b == 0 ==> Value(Group(a, b, 0)[2]) == 0)
  {
    GroupBits(a, b, 0);
  }

  lemma GroupStep(a: byte, b: byte, c: byte, rest: seq<byte>)
    ensures Decoded(Group(a, b, c) + rest) == Joined([a, b, c], Decoded(rest))
  {
    hide Group, Value, Three, Decoded, ValueAt;
    GroupReads(a, b, c, rest);
    DecodedStep(Group(a, b, c) + rest);
    assert (Group(a, b, c) + rest)[4..] == rest;
  }

  lemma EncodedStep(s: seq<byte>)
    requires |s| >= 3
    ensures Encoded(s) == Group(s[0], s[1], s[2]) + Encoded(s[3..])
  {
    hide Group;
  }

  lemma {:induction false} EncodedLength(s: seq<byte>)
    ensures |Encoded(s)| == (|s| + 2) / 3 * 4
    decreases |s|
  {
    hide Group;
    if |s| >= 3 {
      EncodedLength(s[3..]);
    }
  }

  function ZeroTail(n: nat): seq<byte>
  {
    if n % 3 == 0 then [] else [0]
  }

  /** The octet decoded in front of the padding is there, and is zero. */
  lemma {:induction false} EncodedDecodes(s: seq<byte>)
    ensures Decoded(Encoded(s)) == Some(s + ZeroTail(|s|))
    decreases |s|
  {
    hide Group, Value, Three, Decoded, ValueAt, Encoded;
    if |s| >= 3 {
      EncodedStep(s);
      GroupStep(s[0], s[1], s[2], Encoded(s[3..]));
      EncodedDecodes(s[3..]);
      assert [s[0], s[1], s[2]] + (s[3..] + ZeroTail(|s|)) == s + ZeroTail(|s|);
    } else if s != [] {
      LastReads(s);
    } else {
      NoneDecoded();
      EncodedLength(s);
      assert Encoded(s) == [] && s + ZeroTail(|s|) == [];
    }
  }

  lemma {:induction false} TrimmedIsPrefix(s: seq<byte>)
    ensures Trimmed(s) <= s && (forall i :: |Trimmed(s)| <= i < |s| ==> s[i] == 0)
    ensures Trimmed(s) == s <==> s == [] || s[|s| - 1] != 0
  {
    if s != [] && s[|s| - 1] == 0 {
      TrimmedIsPrefix(s[..|s| - 1]);
    }
  }

  /** Of octets in memory, so many, or those before the terminator. */
  method EncodeMemory(memory: seq<byte>, len: nat) returns (out: seq<byte>)
    requires len <= |memory| && (len == 0 ==> 0 in memory)
    ensures out == Encoded(memory[..Extent(memory, len)])
  {
    var n := len;
    if n == 0 {
      n := StrLen(memory);
    }
    out := Encode(memory[..n]);
  }

  method DecodeMemory(memory: seq<byte>, len: nat) returns (r: Option<seq<byte>>)
    requires len <= |memory| && (len == 0 ==> 0 in memory) && Readable(memory[..Extent(memory, len)])
    ensures r == match Decoded(memory[..Extent(memory, len)]) case None => None case Some(t) => Some(Trimmed(t))
  {
    var n := len;
    if n == 0 {
      n := StrLen(memory);
    }
    r := Decode(memory[..n]);
  }

  /** Encoding and decoding gives the text without trailing zeros: the text itself exactly if it has none. */
  method RoundTrip(s: seq<byte>) returns (r: Option<seq<byte>>)
    ensures r == Some(Trimmed(s))
    ensures r == Some(s) <==> s == [] || s[|s| - 1] != 0
  {
    hide Encoded, Decoded;
    var e := Encode(s);
    EncodedDecodes(s);
    EncodedLength(s);
    ReadableLength(e);
    r := Decode(e);
    TrimmedIsPrefix(s);
    assert (s + [0])[..|s|] == s;
    assert s + [] == s;
  }

  /** The alphabet of section 4 of RFC 4648: capital letters, small letters, digits, plus and slash. */
  lemma AlphabetIs(i: nat)
    ensures i < 26 ==> Alphabet()[i] as nat == 'A' as nat + i && Alphabet()[26 + i] as nat == 'a' as nat + i
    ensures i < 10 ==> Alphabet()[52 + i] as nat == '0' as nat + i
    ensures Alphabet()[62] as char == '+' && Alphabet()[63] as char == '/' && PAD as char == '='
  {
  }

  /** A letter of the alphabet has its place in it as its value. */
  lemma InAlphabet(c: byte)
    ensures Value(c) > 63 <==> c !in Alphabet() && c != PAD
    ensures c in Alphabet() ==> Alphabet()[Value(c)] == c
  {
    if Value(c) <= 63 && c != PAD {
      assert Alphabet()[Value(c)] == c;
    }
    if c in Alphabet() {
      var n :| 0 <= n < 64 && Alphabet()[n] == c;
      LetterValue(n);
    }
  }

  /** No padding ends the text before its `g`-th group of four. */
  ghost predicate Reached(s: seq<byte>, g: nat)
  {
    forall h :: 0 <= h < g ==> !IsPad(s, 4 * h + 1) && !IsPad(s, 4 * h + 2)
  }

  ghost predicate BadAt(s: seq<byte>, k: nat)
  {
    k < |s| && s[k] !in Alphabet() && s[k] != PAD && Reached(s, k / 4)
  }

  /** A text is refused exactly for a letter outside the alphabet in a group that is reached. */
  lemma {:induction false} RefusedExactlyWhen(s: seq<byte>)
    ensures Decoded(s) == None <==> exists k: nat :: BadAt(s, k)
    decreases |s|
  {
    if s != [] {
      forall k | 0 <= k < |s|
        ensures Value(s[k]) > 63 <==> s[k] !in Alphabet() && s[k] != PAD
      {
        InAlphabet(s[k]);
      }
      hide Value, Three;
      var rest := if |s| > 4 then s[4..] else [];
      if BadGroup(s) {
        BadFirst(s);
      } else if IsPad(s, 1) || IsPad(s, 2) {
        forall k: nat
          ensures !BadAt(s, k)
        {
          NotBad(s, k);
        }
      } else {
        RefusedExactlyWhen(rest);
        if exists k: nat :: BadAt(rest, k) {
          var k: nat :| BadAt(rest, k);
          BadLater(s, rest, k);
          assert BadAt(s, k + 4);
        }
        if exists k: nat :: BadAt(s, k) {
          var k: nat :| BadAt(s, k);
          NotBad(s, k);
          BadLater(s, rest, k - 4);
          assert BadAt(rest, k - 4);
        }
      }
    }
  }

  lemma BadFirst(s: seq<byte>)
    requires BadGroup(s) && forall k :: 0 <= k < |s| ==> (Value(s[k]) > 63 <==> s[k] !in Alphabet() && s[k] != PAD)
    ensures exists k: nat :: BadAt(s, k)
  {
    if ValueAt(s, 0) > 63 {
      assert BadAt(s, 0);
    } else if ValueAt(s, 1) > 63 {
      assert BadAt(s, 1);
    } else if ValueAt(s, 2) > 63 {
      assert BadAt(s, 2);
    } else {
      assert BadAt(s, 3);
    }
  }

  lemma NotBad(s: seq<byte>, k: nat)
    requires !BadGroup(s) && forall k :: 0 <= k < |s| ==> (Value(s[k]) > 63 <==> s[k] !in Alphabet() && s[k] != PAD)
    ensures BadAt(s, k) ==> k >= 4 && !IsPad(s, 1) && !IsPad(s, 2)
  {
    hide Value;
    if BadAt(s, k) {
      assert k < 4 ==> ValueAt(s, k) > 63;
      assert k >= 4 ==> !IsPad(s, 4 * 0 + 1) && !IsPad(s, 4 * 0 + 2);
    }
  }

  lemma BadLater(s: seq<byte>, rest: seq<byte>, k: nat)
    requires rest == (if |s| > 4 then s[4..] else []) && !IsPad(s, 1) && !IsPad(s, 2)
    ensures BadAt(s, k + 4) <==> BadAt(rest, k)
  {
    var g := k / 4;
    assert (k + 4) / 4 == g + 1;
    if k < |rest| {
      assert rest[k] == s[k + 4];
      if Reached(rest, g) {
        forall h | 0 <= h < g + 1
          ensures !IsPad(s, 4 * h + 1) && !IsPad(s, 4 * h + 2)
        {
          if h > 0 {
            assert !IsPad(rest, 4 * (h - 1) + 1) && !IsPad(rest, 4 * (h - 1) + 2);
          }
        }
      }
      if Reached(s, g + 1) {
        forall h | 0 <= h < g
          ensures !IsPad(rest, 4 * h + 1) && !IsPad(rest, 4 * h + 2)
        {
          assert !IsPad(s, 4 * (h + 1) + 1) && !IsPad(s, 4 * (h + 1) + 2);
        }
      }
    }
  }
}
