/** Printing a time as an HTTP date, and what the parser makes of what was printed. */
module HttpDateRoundTrip {
  import opened Bytes
  import opened Numbers
  import opened Calendar
  import opened CalendarTime
  import opened HttpDate
  import opened HttpDateFormats
  import P = Printf

  /** The parser's result is the count of seconds, except where the year before year 1 wraps around. */
  lemma TimeIsStamp(d: Date)
    requires InRange(d) && d.year < 10000
    ensures TimeOf(d) == Stamp(d) <==> d.year >= 1 || d.month >= 2
  {
    hide DayNumber, IsLeap, Gauss, U64, Signed;
    GaussCounts(d);
    SmallIsItself(d.year - 1);
    var sec := d.hour * 3600 + d.min * 60 + d.sec;
    assert sec < 86400;
    if d.year >= 1 || d.month >= 2 {
      var year := if d.month < 2 then d.year - 1 else d.year;
      var month := if d.month < 2 then d.month + 11 else d.month - 1;
      GaussIsSmall(year, month, d.day);
      SignedCount(Gauss(year, month, d.day), sec);
    } else {
      WrappedYear(d.month + 11, d.day, sec);
    }
  }

  /** Day 0 of a month is accepted, and counts as the day before the first. */
  lemma DayZero(d: Date)
    requires InRange(d) && d.day == 0 && d.year < 10000
    ensures TimeOf(d) == Stamp(d.(day := 1)) - 86400 <==> d.year >= 1 || d.month >= 2
  {
    hide TimeOf, DaysToYear, DaysToMonth;
    TimeIsStamp(d);
  }

  lemma SmallIsItself(x: int)
    ensures 0 <= x < 10000 ==> U64(x) == x
  {
  }

  lemma GaussIsSmall(year: int, month: int, day: nat)
    requires 0 <= year < 10000 && 0 <= month <= 12 && day <= 31
    ensures -1_000_000 < Gauss(year, month, day) < 5_000_000
  {
  }

  lemma SignedCount(days: int, sec: nat)
    requires -1_000_000 < days < 5_000_000 && sec < 86400
    ensures Signed(U64(U64(days) * 86400 + sec)) == days * 86400 + sec
  {
    if days < 0 {
      assert U64(days) == days + 0x1_0000_0000_0000_0000;
      WrapAround(days * 86400 + sec, 86400);
    } else {
      assert U64(days) == days;
    }
  }

  lemma WrapAround(x: int, k: nat)
    ensures U64(x + k * 0x1_0000_0000_0000_0000) == U64(x)
  {
  }

  /** What the wrapped year adds to the days: this much, and 365 times the modulus. */
  lemma CenturyWraps(month: int, day: int)
    ensures Gauss(U64(-1), month, day) == Gauss(-1, month, day) + 4473335437874566267 + 365 * 0x1_0000_0000_0000_0000
  {
    assert U64(-1) == 0xffff_ffff_ffff_ffff;
  }

  lemma BeforeYearOne(month: int, day: nat)
    requires 11 <= month <= 12 && day <= 31
    ensures -1_000_000 < Gauss(-1, month, day) < -700_000
  {
  }

  lemma WrappedYear(month: int, day: nat, sec: nat)
    requires 11 <= month <= 12 && day <= 31 && sec < 86400
    ensures Signed(U64(U64(Gauss(U64(-1), month, day)) * 86400 + sec)) == Gauss(-1, month, day) * 86400 + sec + 10368
  {
    hide Gauss;
    CenturyWraps(month, day);
    BeforeYearOne(month, day);
    var days := Gauss(-1, month, day);
    WrapAround(days + 4473335437874566267, 365);
    assert U64(days + 4473335437874566267) == days + 4473335437874566267;
    var x := days * 86400 + sec + 10368;
    WrapAround(x, 20952);
    assert U64(x) == x + 0x1_0000_0000_0000_0000;
  }

  /** The parser's result for a text, as its contract gives it. */
  function Result(s: seq<byte>): int
  {
    var d := Fields(s);
    if d.Some? && InRange(d.value) then TimeOf(d.value) else -1
  }

  /** -1 is the last second of 1969, so it is no other date's. */
  lemma OnlyOneIsMinusOne(d: Date)
    requires Valid(d) && Stamp(d) == -1
    ensures d == Date(1969, 11, 31, 23, 59, 59)
  {
    var last := Date(1969, 11, 31, 23, 59, 59);
    MonthsByTable(1969, 11);
    assert DaysToYear(1969) == -365;
    hide DaysToYear, DaysToMonth;
    OneDate(d, last);
  }

  /** A year taken for another one is another time. */
  lemma WrongYear(d: Date, year: nat)
    requires Valid(d) && year != d.year && 1970 <= year < 10000
    ensures var x := d.(year := year); Stamp(d) != if InRange(x) then TimeOf(x) else -1
  {
    hide Stamp, TimeOf;
    var x := d.(year := year);
    if InRange(x) {
      TimeIsStamp(x);
      if Stamp(d) == Stamp(x) {
        OneDate(d, x);
        assert false;
      }
    } else if Stamp(d) == -1 {
      OnlyOneIsMinusOne(d);
      assert false;
    }
  }

  /** When the result is the count of seconds: two digits of a year are not enough before 1970. */
  lemma FormatsGiveStamp(name: seq<byte>, d: Date)
    requires IsName(name) && Printable(d)
    ensures Result(Imf(name, d)) == Stamp(d) <==> d.year >= 1 || d.month >= 2
    ensures Result(Asctime(name, d)) == Stamp(d) <==> d.year >= 1 || d.month >= 2
    ensures Result(Rfc850(name, d)) == Stamp(d) <==> 1970 <= d.year < 2070
  {
    hide Fields, TimeOf, Stamp, Imf, Asctime, Rfc850, IsName;
    ImfReads(name, d);
    AsctimeReads(name, d);
    Rfc850Reads(name, d);
    TimeIsStamp(d);
    var year := Windowed(d.year % 100);
    assert 1970 <= year < 2070;
    if year != d.year {
      WrongYear(d, year);
    }
  }

  function Format(): seq<byte>
  {
    Ascii("%s, %02d %s %d %02d:%02d:%02d GMT")
  }

  function DayName(weekday: nat): (r: string)
    requires weekday < 7
    ensures |r| == 3
  {
    if weekday == 0 then "Sun" else if weekday == 1 then "Mon" else if weekday == 2 then "Tue"
    else if weekday == 3 then "Wed" else if weekday == 4 then "Thu" else if weekday == 5 then "Fri" else "Sat"
  }

  /** What is printed: the fields of the calendar for the time. */
  function Arguments(d: Date, weekday: nat): seq<P.Arg>
    requires d.month < 12 && weekday < 7
  {
    [P.Text(Ascii(DayName(weekday))), P.Number(d.day), P.Text(Ascii(MonthName(d.month))), P.Number(d.year),
     P.Number(d.hour), P.Number(d.min), P.Number(d.sec)]
  }

  lemma PlainStep(c: byte, fmt: seq<byte>, args: seq<P.Arg>)
    requires c != P.PERCENT && P.Supported(fmt, args)
    ensures P.Supported([c] + fmt, args) && P.Rendered([c] + fmt, args) == [c] + P.Rendered(fmt, args)
  {
    assert ([c] + fmt)[1..] == fmt;
  }

  lemma StringStep(s: seq<byte>, fmt: seq<byte>, args: seq<P.Arg>)
    requires P.Supported(fmt, args)
    ensures P.Supported(Ascii("%s") + fmt, [P.Text(s)] + args)
    ensures P.Rendered(Ascii("%s") + fmt, [P.Text(s)] + args) == s + P.Rendered(fmt, args)
  {
    var f := Ascii("%s") + fmt;
    assert f[0] == P.PERCENT && f[1] == 's' as byte && f[1..][1..] == fmt;
    assert P.Conversion(f[1..]) == P.Directive(32, 0, 's' as byte, fmt);
    assert ([P.Text(s)] + args)[1..] == args;
  }

  lemma NumberStep(n: nat, fmt: seq<byte>, args: seq<P.Arg>)
    requires P.Supported(fmt, args) && n < 0x8000_0000
    ensures P.Supported(Ascii("%d") + fmt, [P.Number(n)] + args)
    ensures P.Rendered(Ascii("%d") + fmt, [P.Number(n)] + args) == P.Padded(n, 32, 0) + P.Rendered(fmt, args)
  {
    hide P.Padded;
    var f := Ascii("%d") + fmt;
    assert f[0] == P.PERCENT && f[1] == 'd' as byte && f[1..][1..] == fmt;
    assert P.Conversion(f[1..]) == P.Directive(32, 0, 'd' as byte, fmt);
    assert ([P.Number(n)] + args)[1..] == args;
  }

  lemma TwoDigitStep(n: nat, fmt: seq<byte>, args: seq<P.Arg>)
    requires P.Supported(fmt, args) && n < 100
    ensures P.Supported(Ascii("%02d") + fmt, [P.Number(n)] + args)
    ensures P.Rendered(Ascii("%02d") + fmt, [P.Number(n)] + args) == Pad2(n) + P.Rendered(fmt, args)
  {
    var f := Ascii("%02d") + fmt;
    PaddedTwo(n);
    hide P.Padded, Pad2;
    assert f[0] == P.PERCENT && f[1] == 48 && f[2] == 50 && f[3] == 'd' as byte;
    TwoDigitDirective(f[1..], fmt);
    assert ([P.Number(n)] + args)[1..] == args;
  }

  lemma TwoDigitDirective(s: seq<byte>, fmt: seq<byte>)
    requires s == [48, 50, 'd' as byte] + fmt
    ensures P.Conversion(s) == P.Directive(48, 2, 'd' as byte, fmt)
  {
    assert s[1..][1..][1..] == fmt;
    assert P.AfterDigits(s[1..][1..], 48, 2) == P.Directive(48, 2, 'd' as byte, fmt);
    assert P.AfterDigits(s[1..], 48, 0) == P.AfterDigits(s[1..][1..], 48, 2);
  }

  lemma PaddedTwo(n: nat)
    requires n < 100
    ensures P.Padded(n, 48, 2) == Pad2(n)
  {
    assert n < 10 ==> P.Decimal(n) == [Digit(n)];
    assert n >= 10 ==> P.Decimal(n) == [Digit(n / 10)] + [Digit(n % 10)];
  }

  /** A number is printed in four digits exactly when it has as many. */
  lemma FourDigits(n: nat)
    ensures P.Padded(n, 32, 0) == P.Decimal(n)
    ensures 1000 <= n < 10000 ==> P.Decimal(n) == Pad4(n)
  {
    if 1000 <= n < 10000 {
      assert P.Decimal(n / 1000) == [Digit(n / 1000)];
      assert P.Decimal(n / 100) == [Digit(n / 1000), Digit(n / 100 % 10)];
      assert P.Decimal(n / 10) == [Digit(n / 1000), Digit(n / 100 % 10), Digit(n / 10 % 10)];
    }
  }

  lemma {:induction false} DecimalDigits(n: nat)
    ensures forall c :: c in P.Decimal(n) ==> IsDigit(c)
  {
    if n >= 10 {
      DecimalDigits(n / 10);
    }
  }

  lemma {:induction false} DecimalLonger(n: nat, k: nat)
    requires n >= P.Ten(k)
    ensures |P.Decimal(n)| > k
  {
    if k > 0 {
      assert P.Ten(k) == 10 * P.Ten(k - 1);
      DecimalLonger(n / 10, k - 1);
    }
  }

  /** A colon and two digits, then the rest. */
  lemma ColonStep(n: nat, fmt: seq<byte>, args: seq<P.Arg>)
    requires P.Supported(fmt, args) && n < 100
    ensures P.Supported([COLON] + (Ascii("%02d") + fmt), [P.Number(n)] + args)
    ensures P.Rendered([COLON] + (Ascii("%02d") + fmt), [P.Number(n)] + args)
      == [COLON] + (Pad2(n) + P.Rendered(fmt, args))
  {
    TwoDigitStep(n, fmt, args);
    PlainStep(COLON, Ascii("%02d") + fmt, [P.Number(n)] + args);
  }

  lemma GmtStep()
    ensures P.Supported(Gmt(), []) && P.Rendered(Gmt(), []) == Gmt()
  {
    var none: seq<P.Arg> := [];
    PlainStep(84, [], none);
    PlainStep(77, [84], none);
    PlainStep(71, [77, 84], none);
    PlainStep(SP, [71, 77, 84], none);
    assert [77] + [84] == [77, 84] && [71] + [77, 84] == [71, 77, 84] && [SP] + [71, 77, 84] == Gmt();
    assert [84] + [] == [84];
    hide P.Rendered;
  }

  function ClockFormat(): seq<byte>
  {
    Ascii("%02d") + ([COLON] + (Ascii("%02d") + ([COLON] + (Ascii("%02d") + Gmt()))))
  }

  lemma ClockStep(d: Date)
    requires Valid(d)
    ensures P.Supported(ClockFormat(), [P.Number(d.hour), P.Number(d.min), P.Number(d.sec)])
    ensures P.Rendered(ClockFormat(), [P.Number(d.hour), P.Number(d.min), P.Number(d.sec)]) == ClockText(d) + Gmt()
  {
    hide P.Supported, P.Rendered, Ascii, Pad2;
    GmtStep();
    var none: seq<P.Arg> := [];
    ColonStep(d.sec, Gmt(), none);
    assert [P.Number(d.sec)] + none == [P.Number(d.sec)];
    var f5 := [COLON] + (Ascii("%02d") + Gmt());
    ColonStep(d.min, f5, [P.Number(d.sec)]);
    assert [P.Number(d.min)] + [P.Number(d.sec)] == [P.Number(d.min), P.Number(d.sec)];
    var f4 := [COLON] + (Ascii("%02d") + f5);
    TwoDigitStep(d.hour, f4, [P.Number(d.min), P.Number(d.sec)]);
    assert [P.Number(d.hour)] + [P.Number(d.min), P.Number(d.sec)]
      == [P.Number(d.hour), P.Number(d.min), P.Number(d.sec)];
    assert Pad2(d.hour) + ([COLON] + (Pad2(d.min) + ([COLON] + (Pad2(d.sec) + Gmt())))) == ClockText(d) + Gmt();
  }

  /** The format, piece by piece. */
  function YearFormat(): seq<byte>
  {
    Ascii("%d") + ([SP] + ClockFormat())
  }

  function MonthFormat(): seq<byte>
  {
    Ascii("%s") + ([SP] + YearFormat())
  }

  function DayFormat(): seq<byte>
  {
    [COMMA] + ([SP] + (Ascii("%02d") + ([SP] + MonthFormat())))
  }

  lemma AsciiJoins(a: string, b: string)
    ensures Ascii(a + b) == Ascii(a) + Ascii(b)
  {
  }

  lemma ClockPieces()
    ensures ClockFormat() == Ascii("%02d:%02d:%02d GMT")
  {
    AsciiJoins("%02d:", "%02d:%02d GMT");
    AsciiJoins("%02d:", "%02d GMT");
    AsciiJoins("%02d", " GMT");
    AsciiJoins("%02d", ":");
    assert Ascii(":") == [COLON] && Ascii(" GMT") == Gmt();
    assert "%02d" + ":" == "%02d:";
    assert "%02d" + " GMT" == "%02d GMT";
    assert "%02d:" + "%02d GMT" == "%02d:%02d GMT";
    assert "%02d:" + "%02d:%02d GMT" == "%02d:%02d:%02d GMT";
    hide Ascii;
  }

  lemma MonthPieces()
    ensures MonthFormat() == Ascii("%s %d ") + ClockFormat()
  {
    hide ClockFormat;
    assert Ascii("%s %d ") == Ascii("%s") + [SP] + Ascii("%d") + [SP];
  }

  lemma DayPieces()
    ensures DayFormat() == Ascii(", %02d ") + MonthFormat()
  {
    hide MonthFormat;
    assert Ascii(", %02d ") == [COMMA] + [SP] + Ascii("%02d") + [SP];
  }

  lemma FormatPieces()
    ensures Format() == Ascii("%s") + DayFormat()
  {
    ClockPieces();
    MonthPieces();
    DayPieces();
    AsciiJoins("%s %d ", "%02d:%02d:%02d GMT");
    AsciiJoins(", %02d ", "%s %d " + "%02d:%02d:%02d GMT");
    AsciiJoins("%s", ", %02d " + ("%s %d " + "%02d:%02d:%02d GMT"));
    FormatText();
    hide Ascii, DayFormat, MonthFormat, ClockFormat;
  }

  lemma FormatText()
    ensures "%s" + (", %02d " + ("%s %d " + "%02d:%02d:%02d GMT")) == "%s, %02d %s %d %02d:%02d:%02d GMT"
  {
  }

  lemma YearStep(d: Date, args: seq<P.Arg>)
    requires Valid(d) && d.year < 0x8000_0000 && args == [P.Number(d.hour), P.Number(d.min), P.Number(d.sec)]
    ensures P.Supported(YearFormat(), [P.Number(d.year)] + args)
    ensures P.Rendered(YearFormat(), [P.Number(d.year)] + args) == P.Decimal(d.year) + ([SP] + (ClockText(d) + Gmt()))
  {
    hide P.Supported, P.Rendered, Ascii, Pad2, ClockText, ClockFormat;
    ClockStep(d);
    PlainStep(SP, ClockFormat(), args);
    NumberStep(d.year, [SP] + ClockFormat(), args);
    FourDigits(d.year);
  }

  lemma DayStep(d: Date, args: seq<P.Arg>)
    requires Valid(d) && d.day < 100 && P.Supported(YearFormat(), args)
    ensures var all := [P.Number(d.day)] + ([P.Text(Ascii(MonthName(d.month)))] + args);
      && P.Supported(DayFormat(), all)
      && P.Rendered(DayFormat(), all) ==
         [COMMA]
           + ([SP] + (Pad2(d.day) + ([SP] + (Ascii(MonthName(d.month)) + ([SP] + P.Rendered(YearFormat(), args))))))
  {
    hide P.Supported, P.Rendered, Ascii, Pad2, YearFormat, MonthName;
    var month := [P.Text(Ascii(MonthName(d.month)))] + args;
    PlainStep(SP, YearFormat(), args);
    StringStep(Ascii(MonthName(d.month)), [SP] + YearFormat(), args);
    PlainStep(SP, MonthFormat(), month);
    TwoDigitStep(d.day, [SP] + MonthFormat(), month);
    PlainStep(SP, Ascii("%02d") + ([SP] + MonthFormat()), [P.Number(d.day)] + month);
    PlainStep(COMMA, [SP] + (Ascii("%02d") + ([SP] + MonthFormat())), [P.Number(d.day)] + month);
  }

  lemma Regrouped(name: seq<byte>, day: seq<byte>, mon: seq<byte>, year: seq<byte>, clock: seq<byte>)
    ensures name + ([COMMA] + ([SP] + (day + ([SP] + (mon + ([SP] + (year + ([SP] + (clock + Gmt())))))))))
            == name + [COMMA, SP] + day + [SP] + mon + [SP] + year + [SP] + clock + Gmt()
  {
    var r := clock + Gmt();
    var a := name + [COMMA, SP] + day + [SP] + mon + [SP];
    assert a + year + [SP] + clock + Gmt() == a + (year + ([SP] + r));
    var s := year + ([SP] + r);
    var b := name + [COMMA, SP] + day;
    assert b + [SP] + mon + [SP] + s == b + ([SP] + (mon + ([SP] + s)));
    assert [COMMA, SP] == [COMMA] + [SP];
  }

  /** What is printed for a date: IMF-fixdate, except that the year takes as many digits as it has. */
  function Printed(name: seq<byte>, d: Date): seq<byte>
    requires Valid(d)
  {
    DaysFit(d);
    name + [COMMA, SP] + Pad2(d.day) + [SP] + Ascii(MonthName(d.month))
      + [SP] + P.Decimal(d.year) + [SP] + ClockText(d) + Gmt()
  }

  lemma PrintsImf(d: Date, weekday: nat)
    requires Valid(d) && d.year < 0x8000_0000 && weekday < 7
    ensures P.Supported(Format(), Arguments(d, weekday))
    ensures P.Rendered(Format(), Arguments(d, weekday)) == Printed(Ascii(DayName(weekday)), d)
    ensures 1000 <= d.year < 10000 ==> Printed(Ascii(DayName(weekday)), d) == Imf(Ascii(DayName(weekday)), d)
  {
    hide P.Supported, P.Rendered, Ascii, Pad2, Pad4, ClockText;
    hide ClockFormat, YearFormat, DayFormat, Format, MonthName, DayName;
    hide P.Decimal, P.Padded;
    DaysFit(d);
    FormatPieces();
    var clock := [P.Number(d.hour), P.Number(d.min), P.Number(d.sec)];
    YearStep(d, clock);
    var year := [P.Number(d.year)] + clock;
    DayStep(d, year);
    var day := [P.Number(d.day)] + ([P.Text(Ascii(MonthName(d.month)))] + year);
    StringStep(Ascii(DayName(weekday)), DayFormat(), day);
    assert Arguments(d, weekday) == [P.Text(Ascii(DayName(weekday)))] + day;
    Regrouped(Ascii(DayName(weekday)), Pad2(d.day), Ascii(MonthName(d.month)), P.Decimal(d.year), ClockText(d));
    FourDigits(d.year);
  }

  lemma NamesAreNames(weekday: nat)
    requires weekday < 7
    ensures IsName(Ascii(DayName(weekday)))
  {
    var r := Ascii(DayName(weekday));
    assert forall i :: 0 <= i < 3 ==> r[i] >= 65;
  }

  /** Times in years that the calendar's `int` holds, from year 0 on. */
  predicate Datable(time: int)
  {
    -62_167_219_200 <= time < 67_767_976_233_532_800
  }

  /** The text of a time. */
  function TimeText(time: int): seq<byte>
    requires Datable(time)
  {
    Printed(Ascii(DayName(WeekDay(time))), DateOf(time))
  }

  /** Prints a time into a buffer of some size. */
  method MakeHttpTime(time: int, buf: array<byte>, size: nat) returns (end: nat)
    requires Datable(time) && size <= buf.Length
    modifies buf
    ensures end == Min(size, |TimeText(time)|) && buf[..end] == TimeText(time)[..end] && buf[end..] == old(buf[end..])
  {
    hide P.Supported, P.Rendered, Printed, Arguments, Format, DateOf, YearStart;
    YearStarts();
    var tm, wday := DateOf(time), WeekDay(time);
    YearRange(tm, 0x8000_0000);
    PrintsImf(tm, wday);
    end := P.Vslprintf(buf, 0, size, Format(), Arguments(tm, wday));
  }

  /** The start of what is printed, octet by octet. */
  lemma PrintedStart(name: seq<byte>, d: Date)
    requires Valid(d) && |name| == 3
    ensures var s, year := Printed(name, d), P.Decimal(d.year);
      && |s| == 25 + |year| && s[..3] == name && s[3] == COMMA && s[4] == SP && IsDigit(s[5]) && s[7] == SP
      && s[12 + |year|] == SP
      && forall i :: 0 <= i < |year| ==> s[12 + i] == year[i]
  {
    hide P.Decimal, MonthName, ClockText, Ascii;
    DaysFit(d);
  }

  /** A year of fewer or more digits than four is not read, however much of the text there is. */
  lemma OtherYears(name: seq<byte>, d: Date, s: seq<byte>)
    requires Valid(d) && IsName(name) && |name| == 3 && (d.year < 1000 || d.year >= 10000)
    requires s <= Printed(name, d) && |s| >= 25
    ensures Fields(s) == None
  {
    hide P.Decimal, Printed, MonthAt, IsName;
    PrintedStart(name, d);
    DecimalDigits(d.year);
    var year := P.Decimal(d.year);
    if d.year < 1000 {
      P.DecimalLength(d.year, 3);
      assert s[12 + |year|] == SP;
      assert Four(s, 12).None?;
    } else {
      DecimalLonger(d.year, 4);
      assert s[16] == year[4] && year[4] in year;
      assert ClockAt(s, 16).None?;
    }
    assert FixedAt(s, 5).None?;
    assert s == name + s[3..];
    NameThenDate(name, s[3..]);
  }

  /** Without all of the time of day nothing is read. */
  lemma CutShort(name: seq<byte>, d: Date, s: seq<byte>)
    requires Valid(d) && IsName(name) && |name| == 3 && s <= Printed(name, d) && |s| < 25
    ensures Fields(s) == None
  {
    hide P.Decimal, Printed, MonthAt, IsName, Two, Four, ClockAt, LooseDay;
    if |s| > 18 {
      PrintedStart(name, d);
      assert s == name + s[3..];
      NameThenDate(name, s[3..]);
    }
  }

  /** With it, the zone may be cut. */
  lemma CutReads(name: seq<byte>, d: Date, s: seq<byte>)
    requires Printable(d) && IsName(name) && |name| == 3 && s <= Imf(name, d) && |s| >= 25
    ensures Fields(s) == Some(d)
  {
    hide Two, Four, MonthAt, ClockAt, NameEnd, SkipSpaces, FixedAt;
    hide Rfc850At, AsctimeAt, MonthName, ClockText, Pad2, Pad4, Ascii;
    DaysFit(d);
    var day, mon, year, clock := Pad2(d.day), Ascii(MonthName(d.month)), Pad4(d.year), ClockText(d);
    Layout(name, day, SP, mon, year, clock, Gmt());
    TwoReads(s, 5, d.day);
    FixedReads(s, 5, d);
    assert s == name + s[3..];
    NameThenDate(name, s[3..]);
  }

  /**
   Parsing what was printed, as much of it as was kept, gives back the time exactly when its year has
   four digits, 1000 to 9999, and the first 25 octets were kept; otherwise it is refused.
   */
  method PrintThenParse(time: int, size: nat) returns (parsed: int)
    requires Datable(time)
    ensures parsed == if size >= 25 && -30_610_224_000 <= time < 253_402_300_800 then time else -1
  {
    hide Imf, Fields, TimeOf, Stamp, Printed, DateOf, YearStart;
    YearStarts();
    ghost var d := DateOf(time);
    ghost var name := Ascii(DayName(WeekDay(time)));
    YearRange(d, 1000);
    YearRange(d, 10000);
    YearRange(d, 0x8000_0000);
    PrintsImf(d, WeekDay(time));
    PrintedLength(name, d);
    NamesAreNames(WeekDay(time));
    var buf := new byte[size];
    var end := MakeHttpTime(time, buf, size);
    parsed := ParseHttpTime(buf[..end]);
    if size < 25 {
      CutShort(name, d, buf[..end]);
    } else if 1000 <= d.year < 10000 {
      CutReads(name, d, buf[..end]);
      TimeIsStamp(d);
    } else {
      OtherYears(name, d, buf[..end]);
    }
  }

  lemma PrintedLength(name: seq<byte>, d: Date)
    requires Valid(d) && |name| == 3
    ensures |Printed(name, d)| >= 26
  {
    hide P.Decimal, MonthName, ClockText, Ascii, Pad2;
    DaysFit(d);
  }

  /** The names of the days of a week, three letters each. */
  lemma DayNames(weekday: nat)
    requires weekday < 7
    ensures DayName(weekday) == "SunMonTueWedThuFriSat"[3 * weekday..3 * weekday + 3]
  {
  }

  /** A day after the other the names come in this order, again and again. */
  lemma NextDay(time: int)
    ensures WeekDay(time + 86400) == if WeekDay(time) == 6 then 0 else WeekDay(time) + 1
    ensures WeekDay(time + 7 * 86400) == WeekDay(time)
  {
    assert (time + 86400) / 86400 == time / 86400 + 1;
    assert (time + 7 * 86400) / 86400 == time / 86400 + 7;
  }

  /** The example of section 5.6.7 of RFC 9110. */
  lemma ExampleDate()
    ensures TimeText(784_111_777) == Ascii("Sun, 06 Nov 1994 08:49:37 GMT")
  {
    hide Stamp, DateOf, Printed;
    var d := Date(1994, 10, 6, 8, 49, 37);
    ExampleStamp(d);
    EverySecondIsOneDate(784_111_777);
    assert DateOf(784_111_777) == d;
    ExampleText(d);
  }

  lemma ExampleText(d: Date)
    requires d == Date(1994, 10, 6, 8, 49, 37) && Valid(d)
    ensures Printed(Ascii("Sun"), d) == Ascii("Sun, 06 Nov 1994 08:49:37 GMT")
  {
    assert P.Decimal(1994) == [49, 57, 57, 52];
  }

  lemma ExampleStamp(d: Date)
    requires d == Date(1994, 10, 6, 8, 49, 37)
    ensures Valid(d) && Stamp(d) == 784_111_777
  {
    hide DayNumber;
    GaussCounts(d);
  }
}
