/**
 Instants, aware datetimes, and the ISO text of an instant in UTC.
 An instant is a number of microseconds since 0001-01-01T00:00:00 in UTC.
 */
module Clock {
  import opened Wrappers
  import opened Text

  type Instant = int

  const MICROS_PER_SECOND := 1_000_000
  const MICROS_PER_DAY := 86_400 * MICROS_PER_SECOND

  /** How many days years 1 to 9999 have. */
  const DAYS_IN_CALENDAR := 3_652_059

  const CALENDAR_END := DAYS_IN_CALENDAR * MICROS_PER_DAY

  /** A wall-clock reading with its UTC offset; a naive datetime has no offset. */
  datatype DatetimeData = Datetime(wall: int, offset: Option<int>) {
    predicate Aware() {
      offset.Some?
    }

    /** What two aware datetimes are compared by, whatever zones they are written in. */
    function Instant(): Instant
      requires Aware()
    {
      wall - offset.value
    }
  }

  /** What a datetime can hold: wall clocks of years 1 to 9999, and offsets of less than a day either way. */
  type Datetime = d: DatetimeData |
    0 <= d.wall < CALENDAR_END && (d.offset.Some? ==> -MICROS_PER_DAY < d.offset.value < MICROS_PER_DAY)
    witness Datetime(0, None)

  // ---------------------------------------------------------------- the proleptic Gregorian calendar

  datatype Date = Date(year: nat, month: nat, day: nat) {
    ghost predicate InCalendar() {
      year >= 1 && 1 <= month <= 12 && 1 <= day <= 31
    }

    // Months and days have room to spare, so this orders dates as the calendar does.
    ghost function Rank(): nat {
      (year * 16 + month) * 32 + day
    }
  }

  predicate LeapYear(year: nat) {
    year % 4 == 0 && (year % 100 != 0 || year % 400 == 0)
  }

  function DaysIn(year: nat, month: nat): (n: nat)
    ensures 28 <= n <= 31
  {
    if month == 2 then (if LeapYear(year) then 29 else 28)
    else if month in {4, 6, 9, 11} then 30 else 31
  }

  function NextDay(d: Date): (e: Date)
    requires d.InCalendar()
    ensures e.InCalendar() && d.Rank() < e.Rank()
  {
    if d.day < DaysIn(d.year, d.month) then Date(d.year, d.month, d.day + 1)
    else if d.month < 12 then Date(d.year, d.month + 1, 1)
    else Date(d.year + 1, 1, 1)
  }

  /** The date `day` days after 1 January of year 1. */
  function DateOf(day: nat): (d: Date)
    ensures d.InCalendar()
  {
    if day == 0 then Date(1, 1, 1) else NextDay(DateOf(day - 1))
  }

  lemma {:induction false} LaterDaysRankHigher(i: nat, j: nat)
    requires i < j
    ensures DateOf(i).Rank() < DateOf(j).Rank()
    decreases j
  {
    if i < j - 1 {
      LaterDaysRankHigher(i, j - 1);
    }
  }

  lemma DateOfInjective(i: nat, j: nat)
    requires DateOf(i) == DateOf(j)
    ensures i == j
  {
  }

  // ---------------------------------------------------------------- ISO text

  /** The instants a UTC datetime can hold; `astimezone` overflows on the others. */
  predicate Representable(i: Instant) {
    i >= 0 && DateOf(DivMod(i, MICROS_PER_DAY).0).year <= 9999
  }

  function DaysBefore(year: nat): (n: int)
    requires year >= 1
  {
    365 * (year - 1) + (year - 1) / 4 - (year - 1) / 100 + (year - 1) / 400
  }

  /** The days of the months before `month`. */
  function DaysUpTo(year: nat, month: nat): nat {
    if month <= 1 then 0 else DaysUpTo(year, month - 1) + DaysIn(year, month - 1)
  }

  lemma {:induction false} LaterInMonth(start: nat, year: nat, month: nat, k: nat)
    requires DateOf(start) == Date(year, month, 1) && k < DaysIn(year, month)
    ensures DateOf(start + k) == Date(year, month, 1 + k)
  {
    if k > 0 {
      LaterInMonth(start, year, month, k - 1);
    }
  }

  lemma NextMonth(year: nat, month: nat)
    requires year >= 1 && 1 <= month < 12
    ensures NextDay(Date(year, month, DaysIn(year, month))) == Date(year, month + 1, 1)
  {
  }

  lemma {:induction false} MonthStart(start: nat, year: nat, month: nat)
    requires DateOf(start) == Date(year, 1, 1) && year >= 1 && 1 <= month <= 12
    ensures DateOf(start + DaysUpTo(year, month)) == Date(year, month, 1)
  {
    hide DateOf, LeapYear, DaysIn;
    if month > 1 {
      MonthStart(start, year, month - 1);
      var earlier := start + DaysUpTo(year, month - 1);
      LaterInMonth(earlier, year, month - 1, DaysIn(year, month - 1) - 1);
      Tomorrow(earlier + DaysIn(year, month - 1) - 1);
      NextMonth(year, month - 1);
    } else {
      assert DaysUpTo(year, month) == 0;
    }
  }

  lemma YearLength(year: nat)
    ensures DaysUpTo(year, 12) + 31 == if LeapYear(year) then 366 else 365
  {
    assert DaysUpTo(year, 2) == 31;
    assert DaysUpTo(year, 3) == 31 + DaysIn(year, 2);
    assert DaysUpTo(year, 5) == DaysUpTo(year, 3) + 61;
    assert DaysUpTo(year, 7) == DaysUpTo(year, 5) + 61;
    assert DaysUpTo(year, 9) == DaysUpTo(year, 7) + 62;
    assert DaysUpTo(year, 11) == DaysUpTo(year, 9) + 61;
    assert DaysUpTo(year, 12) == DaysUpTo(year, 11) + 30;
  }

  lemma LeapsUpTo(n: nat)
    ensures (n + 1) / 4 == n / 4 + if (n + 1) % 4 == 0 then 1 else 0
    ensures (n + 1) / 100 == n / 100 + if (n + 1) % 100 == 0 then 1 else 0
    ensures (n + 1) / 400 == n / 400 + if (n + 1) % 400 == 0 then 1 else 0
    ensures (n + 1) % 400 == 0 ==> (n + 1) % 100 == 0
    ensures (n + 1) % 100 == 0 ==> (n + 1) % 4 == 0
  {
  }

  lemma DaysBeforeNext(year: nat)
    requires year >= 1
    ensures DaysBefore(year + 1) == DaysBefore(year) + if LeapYear(year) then 366 else 365
  {
    LeapsUpTo(year - 1);
  }

  lemma Tomorrow(day: nat)
    ensures DateOf(day + 1) == NextDay(DateOf(day))
  {
  }

  /** From one New Year to the next. */
  lemma NextYear(start: nat, year: nat)
    requires DateOf(start) == Date(year, 1, 1) && year >= 1
    ensures DateOf(start + if LeapYear(year) then 366 else 365) == Date(year + 1, 1, 1)
  {
    hide DateOf, DaysUpTo, LeapYear;
    YearLength(year);
    MonthStart(start, year, 12);
    var december := start + DaysUpTo(year, 12);
    LaterInMonth(december, year, 12, 30);
    Tomorrow(december + 30);
    assert start + (if LeapYear(year) then 366 else 365) == december + 30 + 1;
  }

  lemma {:induction false} YearStart(year: nat)
    requires year >= 1
    ensures DaysBefore(year) >= 0 && DateOf(DaysBefore(year)) == Date(year, 1, 1)
  {
    hide DaysBefore, DateOf, LeapYear;
    if year == 1 {
      FirstYear();
    } else {
      YearStart(year - 1);
      DaysBeforeNext(year - 1);
      NextYear(DaysBefore(year - 1), year - 1);
    }
  }

  lemma FirstYear()
    ensures DaysBefore(1) == 0 && DateOf(0) == Date(1, 1, 1)
  {
  }

  /** The calendar ends exactly where year 9999 does. */
  lemma RepresentableExactly(i: Instant)
    ensures Representable(i) <==> 0 <= i < CALENDAR_END
  {
    hide DateOf, LeapYear;
    if i >= 0 {
      var day := DivMod(i, MICROS_PER_DAY).0;
      var end := 10_000;
      YearStart(end);
      assert i < CALENDAR_END <==> day < DaysBefore(end);
      DayInCalendar(day, end);
    }
  }

  /** A day lies before a year exactly when its date does. */
  lemma DayInCalendar(day: nat, end: nat)
    requires end >= 1 && DaysBefore(end) >= 0 && DateOf(DaysBefore(end)) == Date(end, 1, 1)
    ensures day < DaysBefore(end) <==> DateOf(day).year < end
  {
    hide DaysBefore, DateOf;
    if day < DaysBefore(end) {
      LaterDaysRankHigher(day, DaysBefore(end));
    } else if day > DaysBefore(end) {
      LaterDaysRankHigher(DaysBefore(end), day);
    }
  }

  datatype Fields = Fields(date: Date, hour: nat, minute: nat, second: nat, micro: nat) {
    ghost predicate InRange() {
      date.InCalendar() && date.year <= 9999 && hour < 24 && minute < 60 && second < 60
      && micro < MICROS_PER_SECOND
    }
  }

  function FieldsOf(i: Instant): (f: Fields)
    requires Representable(i)
    ensures f.InRange()
  {
    var (day, inDay) := DivMod(i, MICROS_PER_DAY);
    var (seconds, micro) := DivMod(inDay, MICROS_PER_SECOND);
    var (minutes, second) := DivMod(seconds, 60);
    var (hour, minute) := DivMod(minutes, 60);
    Fields(DateOf(day), hour, minute, second, micro)
  }

  /** Three zero-padded numbers with a separator between them, such as a date or a time of day. */
  function Triple(a: nat, width: nat, b: nat, c: nat, sep: char): (s: string)
    ensures |s| == width + 6
    ensures sep != ',' ==> Lacks(s, ',')
  {
    Padded(a, width, 10) + ([sep] + (Padded(b, 2, 10) + ([sep] + Padded(c, 2, 10))))
  }

  lemma TripleInjective(a: nat, width: nat, b: nat, c: nat, x: nat, y: nat, z: nat, sep: char)
    requires a < Power(10, width) && x < Power(10, width) && b < 100 && y < 100 && c < 100 && z < 100
    requires Triple(a, width, b, c, sep) == Triple(x, width, y, z, sep)
    ensures a == x && b == y && c == z
  {
    CutAt(Padded(a, width, 10), [sep] + (Padded(b, 2, 10) + ([sep] + Padded(c, 2, 10))),
          Padded(x, width, 10), [sep] + (Padded(y, 2, 10) + ([sep] + Padded(z, 2, 10))));
    CutAt([sep], Padded(b, 2, 10) + ([sep] + Padded(c, 2, 10)), [sep], Padded(y, 2, 10) + ([sep] + Padded(z, 2, 10)));
    CutAt(Padded(b, 2, 10), [sep] + Padded(c, 2, 10), Padded(y, 2, 10), [sep] + Padded(z, 2, 10));
    CutAt([sep], Padded(c, 2, 10), [sep], Padded(z, 2, 10));
    PowersOfTen();
    PaddedInjective(a, x, width, 10);
    PaddedInjective(b, y, 2, 10);
    PaddedInjective(c, z, 2, 10);
  }

  lemma PowersOfTen()
    ensures Power(10, 2) == 100 && Power(10, 4) == 10_000 && Power(10, 6) == 1_000_000
  {
    assert Power(10, 1) == 10;
    assert Power(10, 2) == 100;
    assert Power(10, 3) == 1_000;
    assert Power(10, 4) == 10_000;
    assert Power(10, 5) == 100_000;
  }

  /** `isoformat()` of a UTC datetime. */
  function IsoText(f: Fields): (s: string)
    ensures Lacks(s, ',')
  {
    Triple(f.date.year, 4, f.date.month, f.date.day, '-')
    + ("T" + (Triple(f.hour, 2, f.minute, f.second, ':') + IsoTail(f)))
  }

  function Fraction(n: nat, width: nat): (s: string)
    ensures |s| == width + 1 && Lacks(s, ',')
  {
    "." + Padded(n, width, 10)
  }

  /** The fraction appears only when it is not zero. */
  function IsoTail(f: Fields): (s: string)
    ensures Lacks(s, ',')
  {
    (if f.micro == 0 then "" else Fraction(f.micro, 6)) + "+00:00"
  }

  function IsoUtc(i: Instant): (s: string)
    requires Representable(i)
    ensures Lacks(s, ',')
  {
    IsoText(FieldsOf(i))
  }

  lemma IsoTailInjective(f: Fields, g: Fields)
    requires f.InRange() && g.InRange() && IsoTail(f) == IsoTail(g)
    ensures f.micro == g.micro
  {
    assert IsoTail(f)[0] == IsoTail(g)[0];
    if f.micro != 0 {
      assert Padded(f.micro, 6, 10) == IsoTail(f)[1..7];
      assert Padded(g.micro, 6, 10) == IsoTail(g)[1..7];
      PowersOfTen();
      PaddedInjective(f.micro, g.micro, 6, 10);
    }
  }

  lemma IsoTextInjective(f: Fields, g: Fields)
    requires f.InRange() && g.InRange() && IsoText(f) == IsoText(g)
    ensures f == g
  {
    var d, e := f.date, g.date;
    var timeF, timeG := Triple(f.hour, 2, f.minute, f.second, ':'), Triple(g.hour, 2, g.minute, g.second, ':');
    CutAt(Triple(d.year, 4, d.month, d.day, '-'), "T" + (timeF + IsoTail(f)),
          Triple(e.year, 4, e.month, e.day, '-'), "T" + (timeG + IsoTail(g)));
    CutAt("T", timeF + IsoTail(f), "T", timeG + IsoTail(g));
    CutAt(timeF, IsoTail(f), timeG, IsoTail(g));
    PowersOfTen();
    TripleInjective(d.year, 4, d.month, d.day, e.year, e.month, e.day, '-');
    TripleInjective(f.hour, 2, f.minute, f.second, g.hour, g.minute, g.second, ':');
    IsoTailInjective(f, g);
  }

  /** Distinct instants have distinct UTC texts, with and without a fraction of a second. */
  lemma IsoUtcInjective(i: Instant, j: Instant)
    requires Representable(i) && Representable(j) && IsoUtc(i) == IsoUtc(j)
    ensures i == j
  {
    IsoTextInjective(FieldsOf(i), FieldsOf(j));
    DateOfInjective(DivMod(i, MICROS_PER_DAY).0, DivMod(j, MICROS_PER_DAY).0);
  }
}
