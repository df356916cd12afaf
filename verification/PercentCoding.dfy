/** Percent-encoding of URL octets, and the decoder that works in place. */
module PercentCoding {
  import opened Bytes
  import opened Numbers

  const PERCENT: byte := 37
  const PLUS: byte := 43
  const SPACE: byte := 32

  /** Octets that stand for themselves: letters, digits and `/`, `-`, `.`, `_`. */
  predicate IsPlain(c: byte)
  {
    || 48 <= c <= 57 || 65 <= c <= 90 || 97 <= c <= 122
    || c == 47 || c == 45 || c == 46 || c == 95
  }

  function Escape(c: byte): (r: seq<byte>)
    ensures 1 <= |r| <= 3
  {
    if IsPlain(c) then [c] else [PERCENT, HexDigit(c as nat / 16, true), HexDigit(c as nat % 16, true)]
  }

  function Encoded(s: seq<byte>): seq<byte>
  {
    if s == [] then [] else Escape(s[0]) + Encoded(s[1..])
  }

  /** Two hexadecimal digits. */
  function Octet(high: byte, low: byte): byte
    requires IsHex(high) && IsHex(low)
  {
    (16 * HexValue(high) + HexValue(low)) as byte
  }

  predicate Escaped(s: seq<byte>)
  {
    |s| >= 3 && s[0] == PERCENT && IsHex(s[1]) && IsHex(s[2])
  }

  function Decoded(s: seq<byte>, space2plus: bool): (r: seq<byte>)
    ensures |r| <= |s|
  {
    if s == [] then []
    else if space2plus && s[0] == PLUS then [SPACE] + Decoded(s[1..], space2plus)
    else if Escaped(s) then [Octet(s[1], s[2])] + Decoded(s[3..], space2plus)
    else [s[0]] + Decoded(s[1..], space2plus)
  }

  /** Whether decoding meets an escape, or a plus that means a space. */
  function AnyEscape(s: seq<byte>, space2plus: bool): bool
  {
    if s == [] then false
    else if space2plus && s[0] == PLUS then AnyEscape(s[1..], space2plus)
    else if Escaped(s) then true
    else AnyEscape(s[1..], space2plus)
  }

  /** Writes one octet, escaped where the C code's comparisons say so. */
  method PutEscape(start: array<byte>, to: nat, c: byte) returns (end: nat)
    requires to + 3 <= start.Length
    modifies start
    ensures end == to + |Escape(c)| && start[..end] == old(start[..to]) + Escape(c)
  {
    if c == 47 {
      start[to] := c;
      end := to + 1;
    } else if (c < 48 && c != 45 && c != 46) || (c < 65 && c > 57)
        || (c > 90 && c < 97 && c != 95) || c > 122 || c == 92 {
      start[to] := PERCENT;
      start[to + 1] := HexDigit(c as nat / 16, true);
      start[to + 2] := HexDigit(c as nat % 16, true);
      end := to + 3;
    } else {
      start[to] := c;
      end := to + 1;
    }
  }

  lemma EncodedStep(s: seq<byte>, i: nat, done: seq<byte>)
    requires i < |s|
    ensures done + Encoded(s[i..]) == done + Escape(s[i]) + Encoded(s[i + 1..])
  {
    assert s[i..][1..] == s[i + 1..];
    hide Escape;
  }

  /** Encodes into a buffer of three octets for each and a terminator. */
  method UrlEncode(s: seq<byte>) returns (start: array<byte>, newLength: nat)
    ensures fresh(start) && newLength == |Encoded(s)| <= 3 * |s| && newLength < start.Length
    ensures start[..newLength] == Encoded(s) && start[newLength] == 0
  {
    hide Encoded, Escape;
    if s == [] {
      NothingEncoded(s);
      start := new byte[1];
      start[0] := 0;
      return start, 0;
    }
    start := new byte[3 * |s| + 1];
    var from, to := 0, 0;
    assert s[0..] == s && start[..0] == [];
    NothingEncoded(s);
    while from < |s|
      invariant from <= |s| && 0 <= to <= 3 * from && start.Length == 3 * |s| + 1
      invariant start[..to] + Encoded(s[from..]) == Encoded(s)
    {
      EncodedStep(s, from, start[..to]);
      to := PutEscape(start, to, s[from]);
      from := from + 1;
    }
    start[to] := 0;
    newLength := to;
  }

  lemma NothingEncoded(s: seq<byte>)
    ensures Encoded(s[|s|..]) == [] && [] + Encoded(s) == Encoded(s)
    ensures forall done: seq<byte> :: done + Encoded(s[|s|..]) == done
  {
    assert s[|s|..] == [];
    forall done: seq<byte>
      ensures done + Encoded(s[|s|..]) == done
    {
      assert done + [] == done;
    }
  }

  /** The C code's conversion of two digits. */
  function Htoi(high: byte, low: byte): int
  {
    var h, l := Lower(high as nat), Lower(low as nat);
    (if 48 <= h <= 57 then h - 48 else h - 97 + 10) * 16
    + if 48 <= l <= 57 then l - 48 else l - 97 + 10
  }

  lemma HtoiIsOctet(high: byte, low: byte)
    requires IsHex(high) && IsHex(low)
    ensures Htoi(high, low) == Octet(high, low) as int
  {
  }

  /** How far one step reads, and what it writes. */
  function Step(s: seq<byte>, space2plus: bool): (r: (nat, byte))
    requires s != []
    ensures 1 <= r.0 <= |s|
  {
    if space2plus && s[0] == PLUS then (1, SPACE)
    else if Escaped(s) then (3, Octet(s[1], s[2]))
    else (1, s[0])
  }

  lemma DecodedStep(all: seq<byte>, data: nat, space2plus: bool, done: seq<byte>)
    requires data < |all|
    ensures var rest := all[data..];
      var (n, c) := Step(rest, space2plus);
      && done + Decoded(rest, space2plus) == done + [c] + Decoded(all[data + n..], space2plus)
      && (AnyEscape(rest, space2plus) <==> n == 3 || AnyEscape(all[data + n..], space2plus))
  {
    var rest := all[data..];
    assert rest[1..] == all[data + 1..];
    assert |rest| >= 3 ==> rest[3..] == all[data + 3..];
    hide Octet;
  }

  lemma NothingDecoded(all: seq<byte>, space2plus: bool, done: seq<byte>)
    ensures done + Decoded(all[|all|..], space2plus) == done && !AnyEscape(all[|all|..], space2plus)
    ensures [] + Decoded(all, space2plus) == Decoded(all, space2plus)
  {
    assert all[|all|..] == [];
    assert done + [] == done;
  }

  /** One step in place: reads up to three octets at `data` and writes one at `dest`. */
  method DecodeOne(str: array<byte>, dest: nat, data: nat, len0: nat, space2plus: bool, ghost rest: seq<byte>)
    returns (size: nat)
    requires dest <= data < len0 <= str.Length && str[data..len0] == rest
    modifies str
    ensures size == Step(rest, space2plus).0
    ensures str[..dest + 1] == old(str[..dest]) + [Step(rest, space2plus).1]
    ensures str[data + size..] == old(str[data + size..])
  {
    assert rest[0] == str[data];
    assert |rest| >= 3 ==> rest[1] == str[data + 1] && rest[2] == str[data + 2];
    var len := len0 - data - 1;
    size := 1;
    if space2plus && str[data] == PLUS {
      str[dest] := SPACE;
    } else if str[data] == PERCENT && len >= 2 && IsHex(str[data + 1]) && IsHex(str[data + 2]) {
      HtoiIsOctet(str[data + 1], str[data + 2]);
      str[dest] := Htoi(str[data + 1], str[data + 2]) as byte;
      size := 3;
    } else {
      str[dest] := str[data];
    }
  }

  /** Decodes so many octets, or those before the terminator. */
  method UrlDecode(str: array<byte>, len: nat, space2plus: bool) returns (n: nat)
    requires len <= str.Length && (len == 0 ==> 0 in str[..])
    modifies str
    ensures var text := old(str[..Extent(str[..], len)]);
      && n == |Decoded(text, space2plus)| <= |text| && str[..n] == Decoded(text, space2plus)
      && (AnyEscape(text, space2plus) ==> n < |text| && str[n] == 0)
      && str[|text|..] == old(str[|text|..])
  {
    var count := len;
    if count == 0 {
      count := StrLen(str[..]);
    }
    n := DecodeInPlace(str, count, space2plus);
  }

  /** Decodes the first `len0` octets in place: writing never overtakes reading. */
  method DecodeInPlace(str: array<byte>, len0: nat, space2plus: bool) returns (n: nat)
    requires len0 <= str.Length
    modifies str
    ensures n == |Decoded(old(str[..len0]), space2plus)| <= len0
    ensures str[..n] == Decoded(old(str[..len0]), space2plus)
    ensures AnyEscape(old(str[..len0]), space2plus) ==> n < len0 && str[n] == 0
    ensures str[len0..] == old(str[len0..])
  {
    hide Decoded, AnyEscape, Step;
    ghost var all, after := str[..len0], str[len0..];
    var dest, data := 0, 0;
    var memAvailable := false;
    assert all[0..] == all && str[..0] == [] && str[0..len0] == all;
    NothingDecoded(all, space2plus, []);
    while data < len0
      invariant dest <= data <= len0 && str[data..len0] == all[data..] && str[len0..] == after
      invariant str[..dest] + Decoded(all[data..], space2plus) == Decoded(all, space2plus)
      invariant AnyEscape(all, space2plus) == (memAvailable || AnyEscape(all[data..], space2plus))
      invariant memAvailable ==> dest < data
    {
      DecodedStep(all, data, space2plus, str[..dest]);
      ghost var before := str[..];
      assert before[data..len0] == str[data..len0] && before[len0..] == str[len0..];
      var size := DecodeOne(str, dest, data, len0, space2plus, all[data..]);
      Unread(str[..], before, all, data, size, len0);
      if size == 3 {
        memAvailable := true;
      }
      data := data + size;
      dest := dest + 1;
    }
    NothingDecoded(all, space2plus, str[..dest]);
    if memAvailable {
      str[dest] := 0;
    }
    n := dest;
  }

  lemma Unread(now: seq<byte>, was: seq<byte>, all: seq<byte>, data: nat, size: nat, len: nat)
    requires |now| == |was| && data + size <= len == |all| <= |was|
    requires now[data + size..] == was[data + size..] && was[data..len] == all[data..]
    ensures now[data + size..len] == all[data + size..] && now[len..] == was[len..]
  {
    assert now[data + size..len] == now[data + size..][..len - data - size];
    assert was[data + size..len] == was[data..len][size..];
    assert now[len..] == now[data + size..][len - data - size..];
  }

  lemma EscapeDecodes(c: byte, rest: seq<byte>, space2plus: bool)
    ensures Decoded(Escape(c) + rest, space2plus) == [c] + Decoded(rest, space2plus)
  {
    var s := Escape(c) + rest;
    if IsPlain(c) {
      assert s[1..] == rest;
    } else {
      var n := c as nat;
      assert s[0] == PERCENT && s[1] == HexDigit(n / 16, true) && s[2] == HexDigit(n % 16, true) && s[3..] == rest;
      assert Octet(s[1], s[2]) == c;
    }
  }

  /** Decoding an encoded text gives the text, whether a plus means a space or not. */
  lemma {:induction false} EncodedDecodes(s: seq<byte>, space2plus: bool)
    ensures Decoded(Encoded(s), space2plus) == s && |Encoded(s)| <= 3 * |s|
  {
    hide Decoded, Escape;
    if s == [] {
      NothingDecoded([], space2plus, []);
    } else {
      EscapeDecodes(s[0], Encoded(s[1..]), space2plus);
      EncodedDecodes(s[1..], space2plus);
    }
  }

  /** An encoded text has only plain octets and percent signs: no plus that could turn into a space. */
  lemma {:induction false} EncodedIsPlain(s: seq<byte>)
    ensures forall i :: 0 <= i < |Encoded(s)| ==> IsPlain(Encoded(s)[i]) || Encoded(s)[i] == PERCENT
  {
    if s != [] {
      EncodedIsPlain(s[1..]);
    }
  }

  /** Encodes a text and decodes it where it stands. */
  method RoundTrip(s: seq<byte>, space2plus: bool) returns (text: array<byte>, n: nat)
    ensures fresh(text) && n <= text.Length && text[..n] == s
  {
    hide Encoded, Decoded, AnyEscape;
    var length;
    text, length := UrlEncode(s);
    EncodedDecodes(s, space2plus);
    EncodedLength(s);
    EmptyText(text[..]);
    n := UrlDecode(text, length, space2plus);
  }

  lemma {:induction false} EncodedLength(s: seq<byte>)
    ensures |Encoded(s)| >= |s|
  {
    if s != [] {
      EncodedLength(s[1..]);
    }
  }

  lemma EmptyText(memory: seq<byte>)
    ensures memory != [] && memory[0] == 0 ==> Extent(memory, 0) == 0
  {
  }

  /** Letters, digits and four marks are plain. */
  lemma PlainIs(c: byte)
    ensures var d := c as char;
      IsPlain(c) <==> 'A' <= d <= 'Z' || 'a' <= d <= 'z' || '0' <= d <= '9' || d in {'/', '-', '.', '_'}
  {
  }

  /** A text is decoded to a shorter one exactly when it has an escape, and then a terminator is put behind it. */
  lemma {:induction false} ShorterExactlyWhenEscaped(s: seq<byte>, space2plus: bool)
    ensures AnyEscape(s, space2plus) <==> |Decoded(s, space2plus)| < |s|
    decreases |s|
  {
    hide Octet, Escaped;
    if s != [] {
      EscapedIsLong(s);
      if !(space2plus && s[0] == PLUS) && Escaped(s) {
      } else {
        ShorterExactlyWhenEscaped(s[1..], space2plus);
      }
    }
  }

  lemma EscapedIsLong(s: seq<byte>)
    ensures Escaped(s) ==> |s| >= 3
  {
  }

  /** Text without escapes, and without a plus that means a space, is left as it is: bad escapes too. */
  lemma {:induction false} NothingToDecode(s: seq<byte>, space2plus: bool)
    requires forall i :: 0 <= i < |s| ==> !Escaped(s[i..]) && !(space2plus && s[i] == PLUS)
    ensures Decoded(s, space2plus) == s
    decreases |s|
  {
    hide Octet, Escaped;
    if s != [] {
      assert s[0..] == s;
      forall i | 0 <= i < |s[1..]|
        ensures !Escaped(s[1..][i..]) && !(space2plus && s[1..][i] == PLUS)
      {
        assert s[1..][i..] == s[i + 1..];
      }
      NothingToDecode(s[1..], space2plus);
    }
  }

  /** The same text with spaces for pluses. */
  function Spaced(s: seq<byte>): (r: seq<byte>)
    ensures |r| == |s|
  {
    seq(|s|, i requires 0 <= i < |s| => if s[i] == PLUS then SPACE else s[i])
  }

  /** A plus means a space just where it stands itself; one that an escape stands for stays. */
  lemma {:induction false} PlusIsSpace(s: seq<byte>)
    ensures Decoded(s, true) == Decoded(Spaced(s), false)
    decreases |s|
  {
    if s != [] {
      assert Spaced(s)[1..] == Spaced(s[1..]);
      if Escaped(s) {
        assert Spaced(s)[3..] == Spaced(s[3..]);
        PlusIsSpace(s[3..]);
      } else {
        PlusIsSpace(s[1..]);
      }
    }
  }
}
