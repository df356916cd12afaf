/** The three date formats written out, what the parser makes of them, and the printer of the first one. */
module HttpDateFormats {
  import opened Bytes
  import opened Numbers
  import opened Calendar
  import opened HttpDate

  function Pad2(n: nat): (r: seq<byte>)
    requires n < 100
    ensures |r| == 2
  {
    [Digit(n / 10), Digit(n % 10)]
  }

  function Pad4(n: nat): (r: seq<byte>)
    requires n < 10000
    ensures |r| == 4
  {
    [Digit(n / 1000), Digit(n / 100 % 10), Digit(n / 10 % 10), Digit(n % 10)]
  }

  function MonthName(m: nat): (r: string)
    requires m < 12
    ensures |r| == 3
  {
    if m == 0 then "Jan" else if m == 1 then "Feb" else if m == 2 then "Mar" else if m == 3 then "Apr"
    else if m == 4 then "May" else if m == 5 then "Jun" else if m == 6 then "Jul" else if m == 7 then "Aug"
    else if m == 8 then "Sep" else if m == 9 then "Oct" else if m == 10 then "Nov" else "Dec"
  }

  function ClockText(d: Date): (r: seq<byte>)
    requires Valid(d)
    ensures |r| == 8
  {
    Pad2(d.hour) + [COLON] + Pad2(d.min) + [COLON] + Pad2(d.sec)
  }

  function Gmt(): (r: seq<byte>)
    ensures |r| == 4
  {
    [SP, 71, 77, 84]
  }

  predicate Printable(d: Date)
  {
    Valid(d) && d.year < 10000
  }

  lemma DaysFit(d: Date)
    requires Valid(d)
    ensures d.day < 100
  {
  }

  /** IMF-fixdate: `Sun, 06 Nov 1994 08:49:37 GMT`. */
  function Imf(name: seq<byte>, d: Date): seq<byte>
    requires Printable(d)
  {
    DaysFit(d);
    name + [COMMA, SP] + Pad2(d.day) + [SP] + Ascii(MonthName(d.month))
      + [SP] + Pad4(d.year) + [SP] + ClockText(d) + Gmt()
  }

  /** Obsolete: `Sunday, 06-Nov-94 08:49:37 GMT`. */
  function Rfc850(name: seq<byte>, d: Date): seq<byte>
    requires Printable(d)
  {
    DaysFit(d);
    name + [COMMA, SP] + Pad2(d.day) + [DASH] + Ascii(MonthName(d.month))
      + [DASH] + Pad2(d.year % 100) + [SP] + ClockText(d) + Gmt()
  }

  /** Obsolete: `Sun Nov  6 08:49:37 1994`. */
  function Asctime(name: seq<byte>, d: Date): seq<byte>
    requires Printable(d)
  {
    DaysFit(d);
    name + [SP] + Ascii(MonthName(d.month)) + [SP]
    + (if d.day < 10 then [SP, Digit(d.day)] else Pad2(d.day)) + [SP] + ClockText(d) + [SP] + Pad4(d.year)
  }

  predicate IsName(name: seq<byte>)
  {
    COMMA !in name && SP !in name
  }

  lemma {:induction false} NameEnds(name: seq<byte>, s: seq<byte>, p: nat)
    requires IsName(name) && p <= |name| < |s| && (s[|name|] == COMMA || s[|name|] == SP)
    requires forall i :: 0 <= i < |name| ==> s[i] == name[i]
    ensures NameEnd(s, p) == |name|
    decreases |name| - p
  {
    if p < |name| {
      assert name[p] in name;
      NameEnds(name, s, p + 1);
    }
  }

  /** `part` stands in `s` from `p` on. */
  predicate Stands(s: seq<byte>, p: nat, part: seq<byte>)
  {
    p + |part| <= |s| && s[p..p + |part|] == part
  }

  lemma StandsAfter(before: seq<byte>, part: seq<byte>, rest: seq<byte>)
    ensures Stands(before + part + rest, |before|, part)
  {
  }

  lemma StandsIn(s: seq<byte>, p: nat, whole: seq<byte>, k: nat, part: seq<byte>)
    requires Stands(s, p, whole) && Stands(whole, k, part)
    ensures Stands(s, p + k, part)
  {
    forall i | 0 <= i < |part|
      ensures s[p + k..p + k + |part|][i] == part[i]
    {
      assert s[p..p + |whole|][k + i] == whole[k + i];
      assert whole[k..k + |part|][i] == whole[k + i];
    }
  }

  /** What stands in a text still stands there when more is put behind it. */
  lemma StandsMore(s: seq<byte>, p: nat, part: seq<byte>, x: seq<byte>, y: seq<byte>)
    requires Stands(s, p, part)
    ensures Stands(s + x + y, p, part)
  {
  }

  lemma CharAt(s: seq<byte>, p: nat, part: seq<byte>, k: nat)
    requires Stands(s, p, part) && k < |part|
    ensures s[p + k] == part[k]
  {
    assert s[p..p + |part|][k] == s[p + k];
  }

  lemma TwoReads(s: seq<byte>, p: nat, n: nat)
    requires n < 100 && Stands(s, p, Pad2(n))
    ensures Two(s, p) == Some(n) && IsDigit(s[p])
  {
    CharAt(s, p, Pad2(n), 0);
    CharAt(s, p, Pad2(n), 1);
  }

  lemma FourReads(s: seq<byte>, p: nat, n: nat)
    requires n < 10000 && Stands(s, p, Pad4(n))
    ensures Four(s, p) == Some(n)
  {
    CharAt(s, p, Pad4(n), 0);
    CharAt(s, p, Pad4(n), 1);
    CharAt(s, p, Pad4(n), 2);
    CharAt(s, p, Pad4(n), 3);
    FourSum(n);
    hide Stands;
    FourOf(s, p, n / 1000, n / 100 % 10, n / 10 % 10, n % 10);
  }

  lemma FourSum(n: nat)
    requires n < 10000
    ensures n / 1000 < 10 && n == n / 1000 * 1000 + n / 100 % 10 * 100 + n / 10 % 10 * 10 + n % 10
  {
    Tenths(n, 10);
    Tenths(n, 100);
    var x, y := n / 10, n / 100;
    assert x == 10 * y + x % 10;
    assert y == 10 * (n / 1000) + y % 10;
  }

  lemma Tenths(n: nat, k: nat)
    requires k == 10 || k == 100
    ensures n / (10 * k) == n / k / 10
  {
  }

  lemma FourOf(s: seq<byte>, p: nat, a: nat, b: nat, c: nat, d: nat)
    requires p + 4 <= |s| && a < 10 && b < 10 && c < 10 && d < 10
    requires s[p] == Digit(a) && s[p + 1] == Digit(b) && s[p + 2] == Digit(c) && s[p + 3] == Digit(d)
    ensures Four(s, p) == Some(a * 1000 + b * 100 + c * 10 + d)
  {
  }

  lemma MonthReads(s: seq<byte>, p: nat, m: nat)
    requires m < 12 && Stands(s, p, Ascii(MonthName(m)))
    ensures MonthAt(s, p) == Some(m) && s[p] != SP
  {
    CharAt(s, p, Ascii(MonthName(m)), 0);
    CharAt(s, p, Ascii(MonthName(m)), 1);
    CharAt(s, p, Ascii(MonthName(m)), 2);
  }

  lemma ClockReads(s: seq<byte>, p: nat, d: Date)
    requires Valid(d) && p + 9 <= |s| && s[p] == SP && Stands(s, p + 1, ClockText(d))
    ensures ClockAt(s, p) == Some(Clock(d.hour, d.min, d.sec))
  {
    var h, m, c := Pad2(d.hour), Pad2(d.min), Pad2(d.sec);
    var text := ClockText(d);
    StandsAfter([], h, [COLON] + m + [COLON] + c);
    StandsAfter(h + [COLON], m, [COLON] + c);
    StandsAfter(h + [COLON] + m + [COLON], c, []);
    assert text == [] + h + ([COLON] + m + [COLON] + c)
      == h + [COLON] + m + ([COLON] + c) == h + [COLON] + m + [COLON] + c + [];
    StandsIn(s, p + 1, text, 0, h);
    StandsIn(s, p + 1, text, 3, m);
    StandsIn(s, p + 1, text, 6, c);
    TwoReads(s, p + 1, d.hour);
    TwoReads(s, p + 4, d.min);
    TwoReads(s, p + 7, d.sec);
    CharAt(s, p + 1, text, 2);
    CharAt(s, p + 1, text, 5);
  }

  /** Day, month, year and time, one after the other. */
  lemma FixedReads(s: seq<byte>, p: nat, d: Date)
    requires Printable(d) && d.day < 100 && p + 20 <= |s|
    requires Stands(s, p, Pad2(d.day)) && s[p + 2] == SP
    requires Stands(s, p + 3, Ascii(MonthName(d.month))) && s[p + 6] == SP
    requires Stands(s, p + 7, Pad4(d.year)) && s[p + 11] == SP && Stands(s, p + 12, ClockText(d))
    ensures FixedAt(s, p) == Some(d)
  {
    TwoReads(s, p, d.day);
    MonthReads(s, p + 3, d.month);
    FourReads(s, p + 7, d.year);
    ClockReads(s, p + 11, d);
  }

  lemma NameThenDate(name: seq<byte>, rest: seq<byte>)
    requires IsName(name) && |rest| >= 3 && rest[0] == COMMA && rest[1] == SP && rest[2] != SP
    ensures var s := name + rest;
      NameEnd(s, 0) == |name| && SkipSpaces(s, |name| + 1) == |name| + 2 && s[|name|] == COMMA
  {
    var s := name + rest;
    NameEnds(name, s, 0);
    assert s[|name| + 1] == SP && s[|name| + 2] != SP;
    assert SkipSpaces(s, |name| + 2) == |name| + 2;
  }

  /** Where the fields of a text with the day first are: `year` and the separators differ between formats. */
  lemma Layout(name: seq<byte>, day: seq<byte>, x: byte, mon: seq<byte>, year: seq<byte>, clock: seq<byte>,
      tail: seq<byte>)
    requires |day| == 2 && |mon| == 3 && |clock| == 8
    ensures var s := name + [COMMA, SP] + day + [x] + mon + [x] + year + [SP] + clock + tail;
      var p, q := |name| + 2, |name| + 9 + |year|;
      && |s| == q + 9 + |tail|
      && Stands(s, p, day) && s[p + 2] == x && Stands(s, p + 3, mon) && s[p + 6] == x
      && Stands(s, p + 7, year) && s[q] == SP && Stands(s, q + 1, clock)
      && s == name + ([COMMA, SP] + day + [x] + mon + [x] + year + [SP] + clock + tail)
  {
    hide Stands;
    var a := name + [COMMA, SP];
    var b := a + day + [x];
    var c := b + mon + [x];
    var e := c + year + [SP];
    StandsAfter(a, day, [x]);
    StandsMore(b, |a|, day, mon, [x]);
    StandsMore(c, |a|, day, year, [SP]);
    StandsMore(e, |a|, day, clock, tail);
    StandsAfter(b, mon, [x]);
    StandsMore(c, |b|, mon, year, [SP]);
    StandsMore(e, |b|, mon, clock, tail);
    StandsAfter(c, year, [SP]);
    StandsMore(e, |c|, year, clock, tail);
    StandsAfter(e, clock, tail);
    LayoutMarks(name, day, x, mon, year, clock, tail);
  }

  lemma LayoutMarks(name: seq<byte>, day: seq<byte>, x: byte, mon: seq<byte>, year: seq<byte>,
      clock: seq<byte>, tail: seq<byte>)
    requires |day| == 2 && |mon| == 3 && |clock| == 8
    ensures var s := name + [COMMA, SP] + day + [x] + mon + [x] + year + [SP] + clock + tail;
      && |s| == |name| + 18 + |year| + |tail|
      && s[|name| + 4] == x && s[|name| + 8] == x && s[|name| + 9 + |year|] == SP
      && s == name + ([COMMA, SP] + day + [x] + mon + [x] + year + [SP] + clock + tail)
  {
  }

  lemma ImfReads(name: seq<byte>, d: Date)
    requires IsName(name) && Printable(d)
    ensures Fields(Imf(name, d)) == Some(d)
  {
    hide Two, Four, MonthAt, ClockAt, NameEnd, SkipSpaces, FixedAt;
    hide Rfc850At, AsctimeAt, MonthName, ClockText, Pad2, Pad4, Stands, Ascii;
    DaysFit(d);
    var n, day, mon, year, clock := |name|, Pad2(d.day), Ascii(MonthName(d.month)), Pad4(d.year), ClockText(d);
    Layout(name, day, SP, mon, year, clock, Gmt());
    TwoReads(Imf(name, d), n + 2, d.day);
    FixedReads(Imf(name, d), n + 2, d);
    NameThenDate(name, [COMMA, SP] + day + [SP] + mon + [SP] + year + [SP] + clock + Gmt());
  }

  lemma DashedReads(s: seq<byte>, p: nat, d: Date)
    requires Printable(d) && d.day < 100 && p + 18 <= |s|
    requires Stands(s, p, Pad2(d.day)) && s[p + 2] == DASH
    requires Stands(s, p + 3, Ascii(MonthName(d.month))) && s[p + 6] == DASH
    requires Stands(s, p + 7, Pad2(d.year % 100)) && s[p + 9] == SP && Stands(s, p + 10, ClockText(d))
    ensures Rfc850At(s, p) == Some(d.(year := Windowed(d.year % 100)))
  {
    TwoReads(s, p, d.day);
    MonthReads(s, p + 3, d.month);
    TwoReads(s, p + 7, d.year % 100);
    ClockReads(s, p + 9, d);
  }

  /** Two digits of a year stand for 1970 to 2069, and are read back exactly for those. */
  lemma Rfc850Reads(name: seq<byte>, d: Date)
    requires IsName(name) && Printable(d)
    ensures Fields(Rfc850(name, d)) == Some(d.(year := Windowed(d.year % 100)))
    ensures Windowed(d.year % 100) == d.year <==> 1970 <= d.year < 2070
  {
    hide Two, Four, MonthAt, ClockAt, NameEnd, SkipSpaces, FixedAt;
    hide Rfc850At, AsctimeAt, MonthName, ClockText, Pad2, Pad4, Stands, Ascii;
    DaysFit(d);
    var n, day, mon, year, clock := |name|, Pad2(d.day), Ascii(MonthName(d.month)), Pad2(d.year % 100), ClockText(d);
    Layout(name, day, DASH, mon, year, clock, Gmt());
    TwoReads(Rfc850(name, d), n + 2, d.day);
    DashedReads(Rfc850(name, d), n + 2, d);
    NameThenDate(name, [COMMA, SP] + day + [DASH] + mon + [DASH] + year + [SP] + clock + Gmt());
  }

  lemma AsctimeLayout(name: seq<byte>, mon: seq<byte>, day: seq<byte>, clock: seq<byte>, year: seq<byte>)
    requires |mon| == 3 && |day| == 2 && |clock| == 8 && |year| == 4
    ensures var s := name + [SP] + mon + [SP] + day + [SP] + clock + [SP] + year;
      var p := |name| + 1;
      && |s| == p + 20
      && Stands(s, p, mon) && Stands(s, p + 4, day) && s[p + 6] == SP && Stands(s, p + 7, clock)
      && s[p + 15] == SP && Stands(s, p + 16, year)
  {
    hide Stands;
    var a := name + [SP];
    var b := a + mon + [SP];
    var c := b + day + [SP];
    var e := c + clock + [SP];
    StandsAfter(a, mon, [SP]);
    StandsMore(b, |a|, mon, day, [SP]);
    StandsMore(c, |a|, mon, clock, [SP]);
    StandsMore(e, |a|, mon, year, []);
    StandsAfter(b, day, [SP]);
    StandsMore(c, |b|, day, clock, [SP]);
    StandsMore(e, |b|, day, year, []);
    StandsAfter(c, clock, [SP]);
    StandsMore(e, |c|, clock, year, []);
    StandsAfter(e, year, []);
    assert e + year + [] == e + year;
    assert e[|name| + 7] == SP && e[|name| + 16] == SP;
  }

  lemma AsctimeNameEnds(name: seq<byte>, s: seq<byte>)
    requires IsName(name) && |name| + 2 < |s| && s[..|name|] == name && s[|name|] == SP && s[|name| + 1] != SP
    ensures NameEnd(s, 0) == |name| && SkipSpaces(s, |name| + 1) == |name| + 1
  {
    assert forall i :: 0 <= i < |name| ==> s[i] == s[..|name|][i];
    NameEnds(name, s, 0);
  }

  lemma LooseDayReads(s: seq<byte>, p: nat, day: nat)
    requires 0 < day < 100 && p + 3 <= |s| && s[p + 2] == SP
    requires Stands(s, p, if day < 10 then [SP, Digit(day)] else Pad2(day))
    ensures LooseDay(s, p) == Some(Number(day, p + 2))
  {
    CharAt(s, p, if day < 10 then [SP, Digit(day)] else Pad2(day), 0);
    CharAt(s, p, if day < 10 then [SP, Digit(day)] else Pad2(day), 1);
  }

  lemma AsctimeReads(name: seq<byte>, d: Date)
    requires IsName(name) && Printable(d)
    ensures Fields(Asctime(name, d)) == Some(d)
  {
    hide Two, Four, MonthAt, ClockAt, NameEnd, SkipSpaces, FixedAt;
    hide Rfc850At, LooseDay, MonthName, ClockText, Pad2, Pad4, Stands, Ascii;
    DaysFit(d);
    var s, p := Asctime(name, d), |name| + 1;
    var mon, day := Ascii(MonthName(d.month)), if d.day < 10 then [SP, Digit(d.day)] else Pad2(d.day);
    var clock, year := ClockText(d), Pad4(d.year);
    AsctimeLayout(name, mon, day, clock, year);
    MonthReads(s, p, d.month);
    LooseDayReads(s, p + 4, d.day);
    ClockReads(s, p + 6, d);
    FourReads(s, p + 16, d.year);
    AsctimePrefix(name, mon, day, clock, year);
    AsctimeNameEnds(name, s);
  }

  lemma AsctimePrefix(name: seq<byte>, mon: seq<byte>, day: seq<byte>, clock: seq<byte>, year: seq<byte>)
    ensures var s := name + [SP] + mon + [SP] + day + [SP] + clock + [SP] + year; s[..|name|] == name && s[|name|] == SP
  {
  }

  lemma TwoExactly(s: seq<byte>, p: nat, n: nat)
    requires p + 2 <= |s|
    ensures Two(s, p) == Some(n) <==> n < 100 && Stands(s, p, Pad2(n))
  {
    if Two(s, p) == Some(n) {
      assert s[p..p + 2] == Pad2(n);
    } else if n < 100 && Stands(s, p, Pad2(n)) {
      TwoReads(s, p, n);
    }
  }

  lemma FourExactly(s: seq<byte>, p: nat, n: nat)
    requires p + 4 <= |s|
    ensures Four(s, p) == Some(n) <==> n < 10000 && Stands(s, p, Pad4(n))
  {
    if Four(s, p) == Some(n) {
      FourDigits(s[p] as nat - 48, s[p + 1] as nat - 48, s[p + 2] as nat - 48, s[p + 3] as nat - 48);
      assert s[p..p + 4] == Pad4(n);
    } else if n < 10000 && Stands(s, p, Pad4(n)) {
      FourReads(s, p, n);
    }
  }

  lemma FourDigits(a: nat, b: nat, c: nat, d: nat)
    requires a < 10 && b < 10 && c < 10 && d < 10
    ensures var n := a * 1000 + b * 100 + c * 10 + d;
      n / 1000 == a && n / 100 % 10 == b && n / 10 % 10 == c && n % 10 == d
  {
    var n, x, y := a * 1000 + b * 100 + c * 10 + d, a * 100 + b * 10 + c, a * 10 + b;
    assert n == 10 * x + d && n == 100 * y + (10 * c + d) && n == 1000 * a + (100 * b + 10 * c + d);
    assert n / 10 == x && n / 100 == y && n / 1000 == a;
    assert x == 10 * y + c && y == 10 * a + b;
  }

  /** A time of day stands there, between a blank and whatever follows. */
  ghost predicate ClockStands(s: seq<byte>, p: nat, c: Clock)
  {
    && p + 9 <= |s| && c.hour < 100 && c.min < 100 && c.sec < 100
    && s[p] == SP && Stands(s, p + 1, Pad2(c.hour)) && s[p + 3] == COLON && Stands(s, p + 4, Pad2(c.min))
    && s[p + 6] == COLON && Stands(s, p + 7, Pad2(c.sec))
  }

  lemma ClockExactly(s: seq<byte>, p: nat, c: Clock)
    requires p + 9 <= |s|
    ensures ClockAt(s, p) == Some(c) <==> ClockStands(s, p, c)
  {
    hide Two, Stands, Pad2;
    TwoExactly(s, p + 1, c.hour);
    TwoExactly(s, p + 4, c.min);
    TwoExactly(s, p + 7, c.sec);
  }

  /** The first format is read, behind the name, exactly where each of its parts stands. */
  lemma FixedExactly(s: seq<byte>, p: nat, d: Date)
    requires p + 20 <= |s|
    ensures FixedAt(s, p) == Some(d) <==>
      && d.day < 100 && d.year < 10000 && Stands(s, p, Pad2(d.day)) && s[p + 2] == SP
      && MonthAt(s, p + 3) == Some(d.month) && s[p + 6] == SP && Stands(s, p + 7, Pad4(d.year))
      && ClockStands(s, p + 11, Clock(d.hour, d.min, d.sec))
  {
    hide Two, Four, Stands, Pad2, Pad4, ClockStands, ClockAt, MonthAt;
    TwoExactly(s, p, d.day);
    FourExactly(s, p + 7, d.year);
    ClockExactly(s, p + 11, Clock(d.hour, d.min, d.sec));
  }

  /** Likewise the second format, whose two digits of a year stand for 1970 to 2069. */
  lemma Rfc850Exactly(s: seq<byte>, p: nat, d: Date)
    requires p + 18 <= |s|
    ensures Rfc850At(s, p) == Some(d) <==>
      && d.day < 100 && 1970 <= d.year < 2070 && Stands(s, p, Pad2(d.day)) && s[p + 2] == DASH
      && MonthAt(s, p + 3) == Some(d.month) && s[p + 6] == DASH && Stands(s, p + 7, Pad2(d.year % 100))
      && ClockStands(s, p + 9, Clock(d.hour, d.min, d.sec))
  {
    hide Two, Stands, Pad2, ClockStands, ClockAt, MonthAt;
    TwoExactly(s, p, d.day);
    TwoExactly(s, p + 7, d.year % 100);
    ClockExactly(s, p + 9, Clock(d.hour, d.min, d.sec));
    if Two(s, p + 7).Some? {
      TwoExactly(s, p + 7, Two(s, p + 7).value);
      YearOfTwo(Two(s, p + 7).value, d.year);
    }
  }

  lemma YearOfTwo(two: nat, year: nat)
    requires two < 100
    ensures Windowed(two) == year <==> 1970 <= year < 2070 && two == year % 100
  {
  }

  /** Likewise the third format, where a day has one digit, with or without a blank, or two. */
  lemma AsctimeExactly(s: seq<byte>, p: nat, d: Date)
    requires p + 18 <= |s|
    ensures AsctimeAt(s, p) == Some(d) <==>
      && MonthAt(s, p) == Some(d.month) && LooseDay(s, p + 4).Some? && LooseDay(s, p + 4).value.value == d.day
      && var q := LooseDay(s, p + 4).value.next;
        && q + 14 <= |s| && ClockStands(s, q, Clock(d.hour, d.min, d.sec)) && s[q + 9] == SP
        && d.year < 10000 && Stands(s, q + 10, Pad4(d.year))
  {
    hide Four, Stands, Pad2, Pad4, ClockStands, ClockAt, MonthAt, LooseDay;
    var day := LooseDay(s, p + 4);
    if day.Some? && day.value.next + 14 <= |s| {
      FourExactly(s, day.value.next + 10, d.year);
      ClockExactly(s, day.value.next, Clock(d.hour, d.min, d.sec));
    }
  }

  /** A month is read from as many letters as tell it from the others. */
  lemma MonthLetters(s: seq<byte>, p: nat)
    requires p + 3 <= |s|
    ensures MonthAt(s, p).Some? ==> s[p] as char == MonthName(MonthAt(s, p).value)[0]
    ensures MonthAt(s, p) == None <==> s[p] as char !in {'J', 'F', 'M', 'A', 'S', 'O', 'N', 'D'}
  {
  }

  /** The names of the months, three letters each. */
  lemma MonthNames(m: nat)
    requires m < 12
    ensures m < 6 ==> MonthName(m) == "JanFebMarAprMayJun"[3 * m..3 * m + 3]
    ensures m >= 6 ==> MonthName(m) == "JulAugSepOctNovDec"[3 * m - 18..3 * m - 15]
  {
  }
}
