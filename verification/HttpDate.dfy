/** Dates of HTTP header fields: reading the three formats of section 5.6.7 of RFC 9110. */
module HttpDate {
  import opened Bytes
  import opened Numbers
  import opened Calendar

  const SP: byte := 32
  const COMMA: byte := 44
  const DASH: byte := 45
  const COLON: byte := 58

  function Two(s: seq<byte>, p: nat): Option<nat>
    requires p + 2 <= |s|
  {
    if IsDigit(s[p]) && IsDigit(s[p + 1]) then Some((s[p] as nat - 48) * 10 + (s[p + 1] as nat - 48)) else None
  }

  function Four(s: seq<byte>, p: nat): Option<nat>
    requires p + 4 <= |s|
  {
    if IsDigit(s[p]) && IsDigit(s[p + 1]) && IsDigit(s[p + 2]) && IsDigit(s[p + 3]) then
      Some((s[p] as nat - 48) * 1000 + (s[p + 1] as nat - 48) * 100
        + (s[p + 2] as nat - 48) * 10 + (s[p + 3] as nat - 48))
    else None
  }

  /** The month by its first letter, and by the second or third one where that is not enough. */
  function MonthAt(s: seq<byte>, p: nat): (m: Option<nat>)
    requires p + 3 <= |s|
    ensures m.Some? ==> m.value < 12
  {
    var c := s[p];
    if c == 'J' as byte then Some(if s[p + 1] == 'a' as byte then 0 else if s[p + 2] == 'n' as byte then 5 else 6)
    else if c == 'F' as byte then Some(1)
    else if c == 'M' as byte then Some(if s[p + 2] == 'r' as byte then 2 else 4)
    else if c == 'A' as byte then Some(if s[p + 1] == 'p' as byte then 3 else 7)
    else if c == 'S' as byte then Some(8)
    else if c == 'O' as byte then Some(9)
    else if c == 'N' as byte then Some(10)
    else if c == 'D' as byte then Some(11)
    else None
  }

  /** Where a day name ends: at the first comma or space. */
  function NameEnd(s: seq<byte>, p: nat): (q: nat)
    requires p <= |s|
    ensures p <= q <= |s|
    decreases |s| - p
  {
    if p == |s| || s[p] == COMMA || s[p] == SP then p else NameEnd(s, p + 1)
  }

  function SkipSpaces(s: seq<byte>, p: nat): (q: nat)
    ensures p <= q
    decreases if p < |s| then |s| - p else 0
  {
    if p < |s| && s[p] == SP then SkipSpaces(s, p + 1) else p
  }

  datatype Clock = Clock(hour: nat, min: nat, sec: nat)

  /** A space, and then `hh:mm:ss`. */
  function ClockAt(s: seq<byte>, p: nat): Option<Clock>
    requires p + 9 <= |s|
  {
    var h, m, c := Two(s, p + 1), Two(s, p + 4), Two(s, p + 7);
    if s[p] == SP && h.Some? && s[p + 3] == COLON && m.Some? && s[p + 6] == COLON && c.Some? then
      Some(Clock(h.value, m.value, c.value))
    else None
  }

  function Make(year: nat, month: nat, day: nat, clock: Option<Clock>): Option<Date>
  {
    if clock.None? then None
    else Some(Date(year, month, day, clock.value.hour, clock.value.min, clock.value.sec))
  }

  /** `10 Nov 2002 23:50:13` */
  function FixedAt(s: seq<byte>, p: nat): Option<Date>
    requires p + 20 <= |s|
  {
    var day, month, year := Two(s, p), MonthAt(s, p + 3), Four(s, p + 7);
    if day.Some? && s[p + 2] == SP && month.Some? && s[p + 6] == SP && year.Some? then
      Make(year.value, month.value, day.value, ClockAt(s, p + 11))
    else None
  }

  /** Two digits of a year. */
  function Windowed(year: nat): nat
  {
    if year < 70 then year + 2000 else year + 1900
  }

  /** `10-Dec-02 23:50:13` */
  function Rfc850At(s: seq<byte>, p: nat): Option<Date>
    requires p + 18 <= |s|
  {
    var day, month, year := Two(s, p), MonthAt(s, p + 3), Two(s, p + 7);
    if day.Some? && s[p + 2] == DASH && month.Some? && s[p + 6] == DASH && year.Some? then
      Make(Windowed(year.value), month.value, day.value, ClockAt(s, p + 9))
    else None
  }

  datatype Number = Number(value: nat, next: nat)

  /** A day of one or two digits, perhaps behind a space. */
  function LooseDay(s: seq<byte>, p: nat): (r: Option<Number>)
    requires p + 3 <= |s|
    ensures r.Some? ==> p < r.value.next <= p + 3
  {
    var q := if s[p] == SP then p + 1 else p;
    if !IsDigit(s[q]) then None
    else if s[q + 1] == SP then Some(Number(s[q] as nat - 48, q + 1))
    else if IsDigit(s[q + 1]) then Some(Number((s[q] as nat - 48) * 10 + (s[q + 1] as nat - 48), q + 2))
    else None
  }

  /** `Dec 10 23:50:13 2002` */
  function AsctimeAt(s: seq<byte>, p: nat): Option<Date>
    requires p + 18 <= |s|
  {
    var month, day := MonthAt(s, p), LooseDay(s, p + 4);
    if month.None? || day.None? || day.value.next + 14 > |s| then None
    else
      var q := day.value.next;
      var year := Four(s, q + 10);
      if s[q + 9] == SP && year.Some? then Make(year.value, month.value, day.value.value, ClockAt(s, q)) else None
  }

  /** The fields of a date, in whichever format it is. */
  function Fields(s: seq<byte>): Option<Date>
  {
    var q := NameEnd(s, 0);
    var p := SkipSpaces(s, q + 1);
    if p + 18 > |s| then None
    else if s[q] == SP then AsctimeAt(s, p)
    else if s[p + 2] == SP then (if p + 20 <= |s| then FixedAt(s, p) else None)
    else Rfc850At(s, p)
  }

  const MODULUS: int := 0x1_0000_0000_0000_0000

  /** 64-bit unsigned. */
  function U64(x: int): (r: nat)
    ensures r < MODULUS
  {
    x % 0x1_0000_0000_0000_0000
  }

  /** The same bits as a signed number. */
  function Signed(x: nat): int
  {
    if x < 0x8000_0000_0000_0000 then x else x - 0x1_0000_0000_0000_0000
  }

  /** The result for a date: the year before year 1 wraps around. */
  function TimeOf(d: Date): int
    requires d.month < 12
  {
    var month := if d.month < 2 then d.month + 11 else d.month - 1;
    var year := if d.month < 2 then U64(d.year - 1) else d.year;
    Signed(U64(U64(Gauss(year, month, d.day)) * 86400 + d.hour * 3600 + d.min * 60 + d.sec))
  }

  function DaysIn(month: nat): nat
    requires month < 12
  {
    if month == 1 then 28 else if month == 3 || month == 5 || month == 8 || month == 10 then 30 else 31
  }

  /** The first loops of the parser: to the end of the day name, and past the spaces after it. */
  method PassName(value: seq<byte>) returns (isoc: bool, p: nat)
    ensures p == SkipSpaces(value, NameEnd(value, 0) + 1)
    ensures isoc <==> NameEnd(value, 0) < |value| && value[NameEnd(value, 0)] == SP
    ensures NameEnd(value, 0) == |value| ==> p > |value|
  {
    var end := |value|;
    isoc, p := false, 0;
    while p < end
      invariant p <= end && NameEnd(value, 0) == NameEnd(value, p)
    {
      if value[p] == COMMA {
        break;
      }
      if value[p] == SP {
        isoc := true;
        break;
      }
      p := p + 1;
    }
    p := p + 1;
    ghost var start := p;
    while p < end
      invariant start <= p && SkipSpaces(value, start) == SkipSpaces(value, p)
    {
      if value[p] != SP {
        break;
      }
      p := p + 1;
    }
  }

  /** The day in front of the month, and which of two separators follows it. */
  method DayFirst(value: seq<byte>, p: nat) returns (day: Option<nat>, rfc850: bool)
    requires p + 18 <= |value|
    ensures day == if value[p + 2] == DASH || (value[p + 2] == SP && p + 20 <= |value|) then Two(value, p) else None
    ensures day.Some? ==> (rfc850 <==> value[p + 2] == DASH)
  {
    if !IsDigit(value[p]) || !IsDigit(value[p + 1]) {
      return None, false;
    }
    day, rfc850 := Some((value[p] as nat - 48) * 10 + (value[p + 1] as nat - 48)), false;
    if value[p + 2] == SP {
      if |value| - (p + 2) < 18 {
        return None, false;
      }
    } else if value[p + 2] == DASH {
      rfc850 := true;
    } else {
      return None, false;
    }
  }

  method DayAfter(value: seq<byte>, p0: nat) returns (day: Option<Number>)
    requires p0 + 14 <= |value|
    ensures day == (var d := LooseDay(value, p0); if d.Some? && d.value.next + 14 <= |value| then d else None)
  {
    var p := p0;
    if value[p] == SP {
      p := p + 1;
    }
    if !IsDigit(value[p]) {
      return None;
    }
    var n := value[p] as nat - 48;
    p := p + 1;
    if value[p] != SP {
      if !IsDigit(value[p]) {
        return None;
      }
      n := n * 10 + (value[p] as nat - 48);
      p := p + 1;
    }
    if |value| - p < 14 {
      return None;
    }
    return Some(Number(n, p));
  }

  method ParseClock(value: seq<byte>, p0: nat) returns (clock: Option<Clock>)
    requires p0 + 9 <= |value|
    ensures clock == ClockAt(value, p0)
  {
    var p := p0;
    if value[p] != SP {
      return None;
    }
    p := p + 1;
    var hour := Two(value, p);
    if hour.None? {
      return None;
    }
    p := p + 2;
    if value[p] != COLON {
      return None;
    }
    p := p + 1;
    var min := Two(value, p);
    if min.None? {
      return None;
    }
    p := p + 2;
    if value[p] != COLON {
      return None;
    }
    p := p + 1;
    var sec := Two(value, p);
    if sec.None? {
      return None;
    }
    return Some(Clock(hour.value, min.value, sec.value));
  }

  /** Any string at all; every octet is read inside it. */
  method ParseHttpTime(value: seq<byte>) returns (time: int)
    ensures var d := Fields(value);
      time == if d.Some? && InRange(d.value) then TimeOf(d.value) else -1
  {
    hide NameEnd, SkipSpaces, Two, Four, MonthAt, ClockAt, LooseDay, TimeOf, InRange;
    var isoc, p := PassName(value);
    if |value| - p < 18 {
      return -1;
    }
    var rfc850, day, year := false, 0, 0;
    if !isoc {
      var first, dashed := DayFirst(value, p);
      if first.None? {
        return -1;
      }
      day, rfc850 := first.value, dashed;
      p := p + 3;
    }
    var month := MonthAt(value, p);
    if month.None? {
      return -1;
    }
    p := p + 3;
    if (!isoc && !rfc850 && value[p] != SP) || (rfc850 && value[p] != DASH) {
      return -1;
    }
    p := p + 1;
    if !isoc && !rfc850 {
      var y := Four(value, p);
      if y.None? {
        return -1;
      }
      year := y.value;
      p := p + 4;
    } else if rfc850 {
      var y := Two(value, p);
      if y.None? {
        return -1;
      }
      year := y.value;
      year := year + if year < 70 then 2000 else 1900;
      p := p + 2;
    }
    if isoc {
      var after := DayAfter(value, p);
      if after.None? {
        return -1;
      }
      day, p := after.value.value, after.value.next;
    }
    var clock := ParseClock(value, p);
    if clock.None? {
      return -1;
    }
    p := p + 9;
    if isoc {
      if value[p] != SP {
        return -1;
      }
      p := p + 1;
      var y := Four(value, p);
      if y.None? {
        return -1;
      }
      year := y.value;
    }
    time := Timestamp(year, month.value, day, clock.value.hour, clock.value.min, clock.value.sec);
  }

  /** The end of the parser: checks the fields and counts. */
  method Timestamp(year0: nat, month0: nat, day: nat, hour: nat, min: nat, sec: nat) returns (time: int)
    requires month0 < 12
    ensures var d := Date(year0, month0, day, hour, min, sec);
      time == if InRange(d) then TimeOf(d) else -1
  {
    var year: int, month: int := year0, month0;
    if hour > 23 || min > 59 || sec > 59 {
      return -1;
    }
    if day == 29 && month == 1 {
      if year % 4 != 0 || (year % 100 == 0 && year % 400 != 0) {
        return -1;
      }
    } else if day > DaysIn(month) {
      return -1;
    }
    month := month - 1;
    if month <= 0 {
      month := month + 12;
      year := U64(year - 1);
    }
    time := Signed(U64(U64(Gauss(year, month, day)) * 86400 + hour * 3600 + min * 60 + sec));
  }
}
