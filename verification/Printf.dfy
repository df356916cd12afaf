/** The server's own printf, for the conversions `%s` and `%d`, into a buffer that may be too short. */
module Printf {
  import opened Bytes
  import opened Numbers

  datatype Arg = Text(s: seq<byte>) | Number(n: int)

  const PERCENT: byte := 37
  const ZERO: byte := 48

  function Decimal(n: nat): (r: seq<byte>)
    ensures r != []
  {
    if n < 10 then [(48 + n) as byte] else Decimal(n / 10) + [(48 + n % 10) as byte]
  }

  function Fill(c: byte, n: int): (r: seq<byte>)
    ensures |r| == if n > 0 then n else 0
  {
    seq(if n > 0 then n else 0, i => c)
  }

  /** A number without its sign. */
  function Padded(n: nat, zero: byte, width: nat): seq<byte>
  {
    Fill(zero, width - |Decimal(n)|) + Decimal(n)
  }

  /** A conversion: padding, width, its letter, and what follows it. */
  datatype Directive = Directive(zero: byte, width: nat, letter: byte, rest: seq<byte>) | Incomplete

  function AfterDigits(s: seq<byte>, zero: byte, width: nat): (d: Directive)
    ensures d.Directive? ==> |d.rest| < |s|
  {
    if s == [] then Incomplete
    else if IsDigit(s[0]) then AfterDigits(s[1..], zero, width * 10 + (s[0] as nat - 48))
    else Directive(zero, width, s[0], s[1..])
  }

  /** Read after the percent sign. */
  function Conversion(s: seq<byte>): (d: Directive)
    ensures d.Directive? ==> |d.rest| < |s|
  {
    AfterDigits(s, if s != [] && s[0] == ZERO then ZERO else 32, 0)
  }

  function Converted(d: Directive, arg: Arg): seq<byte>
    requires d.Directive?
  {
    match arg
    case Text(s) => s
    case Number(n) => if n < 0 then [45] + Padded(-n, d.zero, d.width) else Padded(n, d.zero, d.width)
  }

  /** The arguments are there, of the right kinds, and nothing but `%s` and `%d` is asked for. */
  predicate Supported(fmt: seq<byte>, args: seq<Arg>)
    decreases |fmt|
  {
    if fmt == [] then true
    else if fmt[0] != PERCENT then Supported(fmt[1..], args)
    else
      var d := Conversion(fmt[1..]);
      && d.Directive? && args != []
      && (if d.letter == 's' as byte then args[0].Text?
          else d.letter == 'd' as byte && args[0].Number? && -0x8000_0000 <= args[0].n < 0x8000_0000)
      && Supported(d.rest, args[1..])
  }

  /** The whole text. */
  function Rendered(fmt: seq<byte>, args: seq<Arg>): seq<byte>
    requires Supported(fmt, args)
    decreases |fmt|
  {
    if fmt == [] then []
    else if fmt[0] != PERCENT then [fmt[0]] + Rendered(fmt[1..], args)
    else
      var d := Conversion(fmt[1..]);
      Converted(d, args[0]) + Rendered(d.rest, args[1..])
  }

  function Ten(k: nat): nat { if k == 0 then 1 else 10 * Ten(k - 1) }

  lemma {:induction false} DecimalLength(n: nat, k: nat)
    requires 0 < k && n < Ten(k)
    ensures |Decimal(n)| <= k
  {
    if n >= 10 && k > 1 {
      DecimalLength(n / 10, k - 1);
    }
  }

  lemma TwentyDigits()
    ensures Ten(20) == 100_000_000_000_000_000_000
  {
    assert Ten(10) == 10_000_000_000;
  }

  lemma DecimalStep(n: nat)
    ensures Decimal(n) == (if n < 10 then [] else Decimal(n / 10)) + [(48 + n % 10) as byte]
  {
  }

  /** A buffer's octets with some of them, from `at` on, replaced. */
  ghost function Patched(was: seq<byte>, at: nat, part: seq<byte>): (r: seq<byte>)
    requires at + |part| <= |was|
    ensures |r| == |was|
  {
    was[..at] + part + was[at + |part|..]
  }

  lemma Grown(was: seq<byte>, at: nat, a: seq<byte>, b: seq<byte>)
    requires at + |a| + |b| <= |was|
    ensures Patched(Patched(was, at, a), at + |a|, b) == Patched(was, at, a + b)
  {
  }

  lemma NothingPatched(was: seq<byte>, at: nat)
    requires at <= |was|
    ensures Patched(was, at, []) == was
  {
  }

  lemma NextDigit(digits: seq<byte>, k: nat, n: nat)
    requires n != 0 && k <= |digits| && digits[..k] == Decimal(n)
    ensures k > 0 && digits[k - 1] == (48 + n % 10) as byte
    ensures digits[..k - 1] == if n / 10 == 0 then [] else Decimal(n / 10)
  {
    DecimalStep(n);
    hide Decimal;
    assert digits[k - 1] == digits[..k][k - 1] && digits[..k - 1] == digits[..k][..k - 1];
  }

  /** The digits of a number, from the last one on, at the end of a buffer of their own. */
  method Digits(ui64: nat) returns (temp: array<byte>, p: nat)
    requires ui64 < 0x1_0000_0000_0000_0000
    ensures fresh(temp) && p <= 20 < temp.Length && temp[p..20] == Decimal(ui64)
  {
    hide Decimal;
    temp := new byte[21];
    TwentyDigits();
    DecimalLength(ui64, 20);
    DecimalStep(ui64);
    p := 19;
    var n := ui64;
    temp[p] := (n % 10 + 48) as byte;
    n := n / 10;
    ghost var digits := Decimal(ui64);
    while n != 0
      invariant 0 <= p < 20 && 20 - p <= |digits| <= 20 && temp[p..20] == digits[|digits| - (20 - p)..]
      invariant digits[..|digits| - (20 - p)] == if n == 0 then [] else Decimal(n)
    {
      NextDigit(digits, |digits| - (20 - p), n);
      p := p - 1;
      temp[p] := (n % 10 + 48) as byte;
      n := n / 10;
    }
  }

  method Put(buf: array<byte>, at: nat, c: byte) returns (end: nat)
    requires at < buf.Length
    modifies buf
    ensures end == at + 1 && buf[..] == Patched(old(buf[..]), at, [c])
  {
    buf[at] := c;
    end := at + 1;
  }

  method Pad(buf: array<byte>, at: nat, last: nat, len0: nat, zero: byte, width: nat) returns (end: nat)
    requires at <= last <= buf.Length
    modifies buf
    ensures end == at + Min(last - at, Max(width - len0, 0))
    ensures buf[..] == Patched(old(buf[..]), at, Fill(zero, end - at))
  {
    hide Patched;
    end := at;
    var len := len0;
    NothingPatched(buf[..], at);
    while len < width && end < last
      invariant at <= end <= last && len == len0 + (end - at) && end - at <= Max(width - len0, 0)
      invariant buf[..] == Patched(old(buf[..]), at, Fill(zero, end - at))
    {
      Grown(old(buf[..]), at, Fill(zero, end - at), [zero]);
      end := Put(buf, end, zero);
      assert Fill(zero, end - at) == Fill(zero, end - 1 - at) + [zero];
      len := len + 1;
    }
  }

  /** Writes a number, padded, as much of it as fits before `last`. */
  method SprintfNum(buf: array<byte>, at: nat, last: nat, ui64: nat, zero: byte, width: nat) returns (end: nat)
    requires at <= last <= buf.Length && ui64 < 0x1_0000_0000_0000_0000
    modifies buf
    ensures var text := Padded(ui64, zero, width);
      && end == at + Min(last - at, |text|)
      && buf[..] == Patched(old(buf[..]), at, text[..end - at])
  {
    hide Decimal, Patched;
    ghost var digits := Decimal(ui64);
    var temp, p := Digits(ui64);
    var start := Pad(buf, at, last, 20 - p, zero, width);
    var len := 20 - p;
    if start + len > last {
      len := last - start;
    }
    assert temp[p..p + len] == digits[..len];
    Grown(old(buf[..]), at, Fill(zero, start - at), digits[..len]);
    Clipped(zero, width, digits, start - at, len, last - at);
    end := Copy(buf, start, temp[p..p + len]);
  }

  method Copy(buf: array<byte>, at: nat, src: seq<byte>) returns (end: nat)
    requires at + |src| <= buf.Length
    modifies buf
    ensures end == at + |src| && buf[..] == Patched(old(buf[..]), at, src)
  {
    MemCopy(buf, at, src);
    end := at + |src|;
  }

  lemma Clipped(zero: byte, width: nat, digits: seq<byte>, pad: nat, len: nat, room: nat)
    requires pad <= Max(width - |digits|, 0) && pad <= room
    requires pad == Max(width - |digits|, 0) || pad == room
    requires len == if pad + |digits| > room then room - pad else |digits|
    ensures var text := Fill(zero, width - |digits|) + digits;
      pad + len == Min(room, |text|) && Fill(zero, pad) + digits[..len] == text[..pad + len]
  {
  }

  /** Copies a string, as much of it as fits before `last`. */
  method SprintfStr(buf: array<byte>, at: nat, last: nat, src: seq<byte>) returns (end: nat)
    requires at <= last <= buf.Length
    modifies buf
    ensures end == at + Min(last - at, |src|)
    ensures buf[..] == Patched(old(buf[..]), at, src[..end - at])
  {
    hide Patched;
    end := at;
    NothingPatched(buf[..], at);
    while end - at < |src| && end < last
      invariant at <= end <= last && end - at <= |src|
      invariant buf[..] == Patched(old(buf[..]), at, src[..end - at])
    {
      Grown(old(buf[..]), at, src[..end - at], [src[end - at]]);
      end := Put(buf, end, src[end - at]);
      assert src[..end - at] == src[..end - 1 - at] + [src[end - 1 - at]];
    }
  }

  /** Writes one converted argument. */
  method Convert(buf: array<byte>, at: nat, last: nat, d: Directive, arg: Arg) returns (end: nat)
    requires at < last <= buf.Length && d.Directive?
    requires arg.Number? ==> -0x8000_0000 <= arg.n < 0x8000_0000
    modifies buf
    ensures end == at + Min(last - at, |Converted(d, arg)|)
    ensures buf[..] == Patched(old(buf[..]), at, Converted(d, arg)[..end - at])
  {
    hide Padded, Patched;
    match arg
    case Text(s) =>
      end := SprintfStr(buf, at, last, s);
    case Number(n) =>
      if n < 0 {
        ghost var text := Padded(-n, d.zero, d.width);
        end := Put(buf, at, 45);
        end := SprintfNum(buf, end, last, -n, d.zero, d.width);
        Grown(old(buf[..]), at, [45], text[..end - at - 1]);
        assert ([45] + text)[..end - at] == [45] + text[..end - at - 1];
      } else {
        end := SprintfNum(buf, at, last, n, d.zero, d.width);
      }
  }

  /** Scans a conversion after its percent sign: zero padding, width, letter. */
  method Scan(fmt: seq<byte>) returns (d: Directive)
    requires Conversion(fmt).Directive?
    ensures d == Conversion(fmt)
  {
    var zero: byte := if fmt != [] && fmt[0] == ZERO then ZERO else 32;
    var width: nat, p: nat := 0, 0;
    assert fmt[0..] == fmt;
    while IsDigit(fmt[p])
      invariant p < |fmt| && AfterDigits(fmt[p..], zero, width) == Conversion(fmt)
      decreases |fmt| - p
    {
      assert fmt[p..][1..] == fmt[p + 1..];
      width := width * 10 + (fmt[p] as nat - 48);
      p := p + 1;
    }
    assert fmt[p..][1..] == fmt[p + 1..];
    d := Directive(zero, width, fmt[p], fmt[p + 1..]);
  }

  /** Prints as much as fits before `last`: a prefix of the whole text, and nothing after it is touched. */
  method Vslprintf(buf: array<byte>, start: nat, last: nat, format: seq<byte>, arguments: seq<Arg>) returns (end: nat)
    requires start <= last <= buf.Length && Supported(format, arguments)
    modifies buf
    ensures var text := Rendered(format, arguments);
      && end == start + Min(last - start, |text|)
      && buf[..] == Patched(old(buf[..]), start, text[..end - start])
  {
    hide Conversion, Converted, Supported, Rendered, Patched;
    var fmt, args := format, arguments;
    end := start;
    ghost var was, text := buf[..], Rendered(format, arguments);
    NothingPatched(was, start);
    assert text[..0] == [] && text[0..] == text;
    while fmt != [] && end < last
      invariant start <= end <= last && end - start <= |text| && Supported(fmt, args)
      invariant buf[..] == Patched(was, start, text[..end - start])
      invariant end < last ==> text[end - start..] == Rendered(fmt, args)
      decreases |fmt|
    {
      ghost var here := end;
      ghost var piece;
      FirstStep(fmt, args);
      if fmt[0] == PERCENT {
        var d := Scan(fmt[1..]);
        piece := Converted(d, args[0]);
        end := Convert(buf, end, last, d, args[0]);
        fmt, args := d.rest, args[1..];
      } else {
        piece := [fmt[0]];
        end := Put(buf, end, fmt[0]);
        fmt := fmt[1..];
        assert piece[..1] == piece;
      }
      NextPiece(text, here - start, piece, Rendered(fmt, args), end - here);
      Grown(was, start, text[..here - start], piece[..end - here]);
    }
    if fmt == [] {
      LastStep(args);
    }
  }

  lemma FirstStep(fmt: seq<byte>, args: seq<Arg>)
    requires fmt != [] && Supported(fmt, args)
    ensures if fmt[0] != PERCENT then
        Supported(fmt[1..], args) && Rendered(fmt, args) == [fmt[0]] + Rendered(fmt[1..], args)
      else
        var d := Conversion(fmt[1..]);
        && d.Directive? && args != [] && Supported(d.rest, args[1..])
        && (args[0].Number? ==> -0x8000_0000 <= args[0].n < 0x8000_0000)
        && Rendered(fmt, args) == Converted(d, args[0]) + Rendered(d.rest, args[1..])
  {
    hide Conversion, Converted;
  }

  lemma LastStep(args: seq<Arg>)
    requires Supported([], args)
    ensures Rendered([], args) == []
  {
  }

  lemma NextPiece(text: seq<byte>, at: nat, piece: seq<byte>, rest: seq<byte>, n: nat)
    requires at <= |text| && text[at..] == piece + rest && n <= |piece|
    ensures at + n <= |text| && text[..at] + piece[..n] == text[..at + n]
    ensures n == |piece| ==> text[at + n..] == rest
  {
    assert text == text[..at] + (piece + rest);
  }

  /** The number that decimal digits stand for. */
  function ReadDigits(s: seq<byte>): int
  {
    if s == [] then 0 else 10 * ReadDigits(s[..|s| - 1]) + (s[|s| - 1] as int - 48)
  }

  /** The digits of a number stand for it, without a zero in front. */
  lemma {:induction false} DecimalReads(n: nat)
    ensures ReadDigits(Decimal(n)) == n && (n > 0 ==> Decimal(n)[0] != ZERO)
    ensures forall i :: 0 <= i < |Decimal(n)| ==> IsDigit(Decimal(n)[i])
  {
    if n >= 10 {
      DecimalReads(n / 10);
      assert Decimal(n)[..|Decimal(n)| - 1] == Decimal(n / 10);
    } else {
      assert Decimal(n)[..0] == [];
    }
  }

  /** A number is filled up on the left to its width, and a minus sign stands in front of the filling. */
  lemma NumberText(d: Directive, n: int)
    requires d.Directive?
    ensures var t := Converted(d, Number(n));
      if n < 0 then t == [45] + Converted(d, Number(-n))
      else
        && |t| == Max(d.width, |Decimal(n)|) && t[|t| - |Decimal(n)|..] == Decimal(n)
        && forall i :: 0 <= i < |t| - |Decimal(n)| ==> t[i] == d.zero
  {
  }
}
