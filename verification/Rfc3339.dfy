/**
  Timestamps as text.  The store keeps instants as UTC strings of RFC 3339, cut to the second, and
  compares them with SQLite's byte order; for the years 0000 to 9999 that is the order of time
  (section 5.1 of RFC 3339).  Seconds count from 0000-01-01T00:00:00Z in the Gregorian calendar.
  */
module Rfc3339 {
  import opened Tables
  import opened Ttl

  // ---- the calendar

  predicate Leap(year: nat) {
    year % 4 == 0 && (year % 100 != 0 || year % 400 == 0)
  }

  function YearDays(year: nat): nat {
    if Leap(year) then 366 else 365
  }

  function MonthDays(year: nat, month: nat): nat {
    if month == 2 then (if Leap(year) then 29 else 28)
    else if month == 4 || month == 6 || month == 9 || month == 11 then 30
    else 31
  }

  function DaysBeforeYear(year: nat): nat {
    if year == 0 then 0 else DaysBeforeYear(year - 1) + YearDays(year - 1)
  }

  function DaysBeforeMonth(year: nat, month: nat): nat {
    if month <= 1 then 0 else DaysBeforeMonth(year, month - 1) + MonthDays(year, month - 1)
  }

  datatype Civil = Civil(year: nat, month: nat, day: nat, hour: nat, minute: nat, second: nat)

  predicate IsCivil(c: Civil) {
    && 1 <= c.month <= 12 && 1 <= c.day <= MonthDays(c.year, c.month)
    && c.hour < 24 && c.minute < 60 && c.second < 60
  }

  const DAY: nat := 86_400

  function DayNumber(c: Civil): nat
    requires IsCivil(c)
  {
    DaysBeforeYear(c.year) + DaysBeforeMonth(c.year, c.month) + c.day - 1
  }

  /** The second a date and time stands for. */
  function FromCivil(c: Civil): nat
    requires IsCivil(c)
  {
    DayNumber(c) * DAY + c.hour * 3_600 + c.minute * 60 + c.second
  }

  /** The year d days after the start of a given one, and the day within it. */
  function YearFrom(year: nat, d: nat): (nat, nat)
    decreases d
  {
    if d < YearDays(year) then (year, d) else YearFrom(year + 1, d - YearDays(year))
  }

  function MonthFrom(year: nat, month: nat, d: nat): (nat, nat)
    requires 1 <= month <= 12
    decreases 12 - month
  {
    if month == 12 || d < MonthDays(year, month) then (month, d)
    else MonthFrom(year, month + 1, d - MonthDays(year, month))
  }

  function ToCivil(s: nat): Civil {
    var y := YearFrom(0, s / DAY);
    var m := MonthFrom(y.0, 1, y.1);
    var t := s % DAY;
    Civil(y.0, m.0, m.1 + 1, t / 3_600, t % 3_600 / 60, t % 60)
  }

  lemma {:induction false} YearFound(year: nat, d: nat)
    ensures
      var r := YearFrom(year, d);
      r.1 < YearDays(r.0) && DaysBeforeYear(r.0) + r.1 == DaysBeforeYear(year) + d
    decreases d
  {
    if d >= YearDays(year) { YearFound(year + 1, d - YearDays(year)); }
  }

  lemma TwelveMonths(year: nat)
    ensures DaysBeforeMonth(year, 12) + MonthDays(year, 12) == YearDays(year)
  {
    assert DaysBeforeMonth(year, 4) == MonthDays(year, 1) + MonthDays(year, 2) + MonthDays(year, 3) by {
      assert DaysBeforeMonth(year, 2) == MonthDays(year, 1);
    }
    assert DaysBeforeMonth(year, 6) == DaysBeforeMonth(year, 4) + 61;
    assert DaysBeforeMonth(year, 8) == DaysBeforeMonth(year, 6) + 61;
    assert DaysBeforeMonth(year, 10) == DaysBeforeMonth(year, 8) + 61;
    assert DaysBeforeMonth(year, 12) == DaysBeforeMonth(year, 10) + 61;
  }

  lemma {:induction false} MonthFound(year: nat, month: nat, d: nat)
    requires 1 <= month <= 12 && DaysBeforeMonth(year, month) + d < YearDays(year)
    ensures
      var r := MonthFrom(year, month, d);
      && 1 <= r.0 <= 12 && r.1 < MonthDays(year, r.0)
      && DaysBeforeMonth(year, r.0) + r.1 == DaysBeforeMonth(year, month) + d
    decreases 12 - month
  {
    if month == 12 {
      TwelveMonths(year);
    } else if d >= MonthDays(year, month) {
      MonthFound(year, month + 1, d - MonthDays(year, month));
    }
  }

  /** Every second has a date and time, and that is the second it stands for. */
  lemma CivilOfSecond(s: nat)
    ensures IsCivil(ToCivil(s)) && FromCivil(ToCivil(s)) == s
  {
    YearFound(0, s / DAY);
    var y := YearFrom(0, s / DAY);
    MonthFound(y.0, 1, y.1);
    hide YearFrom, MonthFrom, DaysBeforeYear, DaysBeforeMonth, MonthDays, YearDays;
    TimeOfDay(s % DAY);
  }

  lemma TimeOfDay(t: nat)
    requires t < DAY
    ensures t / 3_600 < 24 && t % 3_600 / 60 < 60
    ensures t / 3_600 * 3_600 + t % 3_600 / 60 * 60 + t % 60 == t
  {
  }

  // ---- the order of dates is the order of seconds

  predicate Before(c: Civil, d: Civil) {
    || c.year < d.year
    || (c.year == d.year &&
         (|| c.month < d.month
          || (c.month == d.month &&
               (|| c.day < d.day
                || (c.day == d.day &&
                     (|| c.hour < d.hour
                      || (c.hour == d.hour &&
                           (c.minute < d.minute || (c.minute == d.minute && c.second < d.second)))))))))
  }

  lemma {:induction false} YearsAdd(year: nat, later: nat)
    requires year < later
    ensures DaysBeforeYear(year) + YearDays(year) <= DaysBeforeYear(later)
    decreases later
  {
    if year + 1 < later { YearsAdd(year, later - 1); }
  }

  lemma {:induction false} MonthsAdd(year: nat, month: nat, later: nat)
    requires 1 <= month < later
    ensures DaysBeforeMonth(year, month) + MonthDays(year, month) <= DaysBeforeMonth(year, later)
    decreases later
  {
    if month + 1 < later { MonthsAdd(year, month, later - 1); }
  }

  lemma DayWithinYear(c: Civil)
    requires IsCivil(c)
    ensures DayNumber(c) < DaysBeforeYear(c.year) + YearDays(c.year)
  {
    TwelveMonths(c.year);
    if c.month < 12 { MonthsAdd(c.year, c.month, 12); }
  }

  lemma EarlierDay(c: Civil, d: Civil)
    requires IsCivil(c) && IsCivil(d)
    requires c.year < d.year || (c.year == d.year && (c.month < d.month || (c.month == d.month && c.day < d.day)))
    ensures DayNumber(c) < DayNumber(d)
  {
    if c.year < d.year {
      DayWithinYear(c);
      YearsAdd(c.year, d.year);
    } else if c.month < d.month {
      MonthsAdd(c.year, c.month, d.month);
    }
  }

  lemma EarlierSecond(c: Civil, d: Civil)
    requires IsCivil(c) && IsCivil(d) && Before(c, d)
    ensures FromCivil(c) < FromCivil(d)
  {
    if c.year == d.year && c.month == d.month && c.day == d.day {
      assert DayNumber(c) == DayNumber(d);
    } else {
      EarlierDay(c, d);
      hide DayNumber;
      assert (DayNumber(c) + 1) * DAY <= DayNumber(d) * DAY;
    }
  }

  lemma SecondsOrderDates(a: nat, b: nat)
    ensures a < b <==> Before(ToCivil(a), ToCivil(b))
  {
    CivilOfSecond(a);
    CivilOfSecond(b);
    hide ToCivil, FromCivil, IsCivil;
    var c, d := ToCivil(a), ToCivil(b);
    if Before(c, d) {
      EarlierSecond(c, d);
    } else if c != d {
      EarlierSecond(d, c);
    }
  }

  /** And every valid date and time is reached. */
  lemma SecondOfCivil(c: Civil)
    requires IsCivil(c)
    ensures ToCivil(FromCivil(c)) == c
  {
    var d := ToCivil(FromCivil(c));
    CivilOfSecond(FromCivil(c));
    if Before(c, d) { EarlierSecond(c, d); }
    if Before(d, c) { EarlierSecond(d, c); }
  }

  // ---- text

  function Digits(n: nat, width: nat): (text: string)
    ensures |text| == width
  {
    if width == 0 then "" else Digits(n / 10, width - 1) + ['0' + (n % 10) as char]
  }

  function Power(width: nat): nat {
    if width == 0 then 1 else 10 * Power(width - 1)
  }

  datatype Field = Field(value: nat, width: nat, stop: char)

  function Print(fields: seq<Field>): string {
    if fields == [] then "" else Digits(fields[0].value, fields[0].width) + [fields[0].stop] + Print(fields[1..])
  }

  /** A year prints in four digits, or in as many as it has. */
  function YearWidth(year: nat): nat {
    if year < 10_000 then 4 else 1 + YearWidth(year / 10)
  }

  function Fields(c: Civil): seq<Field> {
    [Field(c.year, YearWidth(c.year), '-'), Field(c.month, 2, '-'), Field(c.day, 2, 'T'),
     Field(c.hour, 2, ':'), Field(c.minute, 2, ':'), Field(c.second, 2, 'Z')]
  }

  /** The timestamp column's text for a stamp. */
  function Format(s: nat): string {
    Print(Fields(ToCivil(s)))
  }

  /** SQLite's order on text: byte by byte. */
  predicate TextLess(a: string, b: string) {
    b != [] && (a == [] || a[0] < b[0] || (a[0] == b[0] && TextLess(a[1..], b[1..])))
  }

  lemma {:induction false} NeverLessThanItself(a: string)
    ensures !TextLess(a, a)
  {
    if a != [] { NeverLessThanItself(a[1..]); }
  }

  lemma {:induction false} PrefixDecides(p: string, q: string, x: string, y: string)
    requires |p| == |q|
    ensures TextLess(p + x, q + y) <==> TextLess(p, q) || (p == q && TextLess(x, y))
  {
    if p == [] {
      assert p + x == x && q + y == y;
    } else {
      PrefixDecides(p[1..], q[1..], x, y);
      assert (p + x)[1..] == p[1..] + x && (q + y)[1..] == q[1..] + y;
      assert p == [p[0]] + p[1..] && q == [q[0]] + q[1..];
    }
  }

  lemma OneLetter(a: char, b: char)
    ensures TextLess([a], [b]) <==> a < b
  {
  }

  /** Numbers of one width stand in the order of their digits. */
  lemma {:induction false} DigitsOrder(a: nat, b: nat, width: nat)
    requires a < Power(width) && b < Power(width)
    ensures TextLess(Digits(a, width), Digits(b, width)) <==> a < b
    ensures Digits(a, width) == Digits(b, width) <==> a == b
    decreases width
  {
    if width > 0 {
      var p, q := Digits(a / 10, width - 1), Digits(b / 10, width - 1);
      DigitsOrder(a / 10, b / 10, width - 1);
      var x, y := '0' + (a % 10) as char, '0' + (b % 10) as char;
      PrefixDecides(p, q, [x], [y]);
      OneLetter(x, y);
      if Digits(a, width) == Digits(b, width) {
        assert Digits(a, width)[..width - 1] == p && Digits(b, width)[..width - 1] == q;
        assert Digits(a, width)[width - 1] == x && Digits(b, width)[width - 1] == y;
      }
    }
  }

  ghost predicate SameShape(fs: seq<Field>, gs: seq<Field>) {
    && |fs| == |gs|
    && (forall i :: 0 <= i < |fs| ==> fs[i].width == gs[i].width && fs[i].stop == gs[i].stop)
    && (forall i :: 0 <= i < |fs| ==> fs[i].value < Power(fs[i].width) && gs[i].value < Power(gs[i].width))
  }

  predicate FieldsLess(fs: seq<Field>, gs: seq<Field>)
    requires |fs| == |gs|
  {
    fs != [] && (fs[0].value < gs[0].value || (fs[0].value == gs[0].value && FieldsLess(fs[1..], gs[1..])))
  }

  /** Texts of one shape stand in the order of their fields. */
  lemma {:induction false} PrintOrder(fs: seq<Field>, gs: seq<Field>)
    requires SameShape(fs, gs)
    ensures TextLess(Print(fs), Print(gs)) <==> FieldsLess(fs, gs)
  {
    if fs != [] {
      var f, g := fs[0], gs[0];
      PrintOrder(fs[1..], gs[1..]);
      DigitsOrder(f.value, g.value, f.width);
      var p, q := Digits(f.value, f.width), Digits(g.value, g.width);
      hide Digits, TextLess;
      PrefixDecides(p + [f.stop], q + [g.stop], Print(fs[1..]), Print(gs[1..]));
      PrefixDecides(p, q, [f.stop], [g.stop]);
      NeverLessThanItself([f.stop]);
      assert p == (p + [f.stop])[..f.width] && q == (q + [g.stop])[..f.width];
    }
  }

  lemma FieldsOrderDates(c: Civil, d: Civil)
    ensures FieldsLess(Fields(c), Fields(d)) <==> Before(c, d)
  {
    var fs, gs := Fields(c), Fields(d);
    hide YearWidth;
    assert FieldsLess(fs[5..], gs[5..]) <==> c.second < d.second;
    assert fs[4..][1..] == fs[5..] && gs[4..][1..] == gs[5..];
    assert fs[3..][1..] == fs[4..] && gs[3..][1..] == gs[4..];
    assert fs[2..][1..] == fs[3..] && gs[2..][1..] == gs[3..];
    assert fs[1..][1..] == fs[2..] && gs[1..][1..] == gs[2..];
    assert FieldsLess(fs[3..], gs[3..]) <==>
      (c.hour < d.hour || (c.hour == d.hour && (c.minute < d.minute || (c.minute == d.minute && c.second < d.second))));
    assert FieldsLess(fs[2..], gs[2..]) <==> c.day < d.day || (c.day == d.day && FieldsLess(fs[3..], gs[3..]));
    assert FieldsLess(fs[1..], gs[1..]) <==> c.month < d.month || (c.month == d.month && FieldsLess(fs[2..], gs[2..]));
    assert FieldsLess(fs, gs) <==> c.year < d.year || (c.year == d.year && FieldsLess(fs[1..], gs[1..]));
  }

  lemma SmallFields(c: Civil)
    requires IsCivil(c) && c.year < 10_000
    ensures forall i :: 0 <= i < 6 ==> Fields(c)[i].value < Power(Fields(c)[i].width)
  {
    assert Power(2) == 100;
    assert Power(3) == 1_000 && Power(4) == 10_000;
  }

  /** The stamp falls in the years 0000 to 9999. */
  predicate FourDigitYear(s: Stamp) {
    s >= 0 && ToCivil(s).year < 10_000
  }

  /** In those years, comparing the texts compares the instants, cut to the second. */
  lemma TextOrder(a: Stamp, b: Stamp)
    requires FourDigitYear(a) && FourDigitYear(b)
    ensures TextLess(Format(a), Format(b)) <==> a < b
    ensures Format(a) == Format(b) <==> a == b
  {
    CivilOfSecond(a);
    CivilOfSecond(b);
    SecondsOrderDates(a, b);
    SecondsOrderDates(b, a);
    hide ToCivil, FromCivil, IsCivil, Print, Before, TextLess, Fields;
    DatesPrintInOrder(ToCivil(a), ToCivil(b));
    DatesPrintInOrder(ToCivil(b), ToCivil(a));
    NeverLessThanItself(Format(a));
  }

  lemma DatesPrintInOrder(c: Civil, d: Civil)
    requires IsCivil(c) && IsCivil(d) && c.year < 10_000 && d.year < 10_000
    ensures TextLess(Print(Fields(c)), Print(Fields(d))) <==> Before(c, d)
  {
    hide IsCivil, Print, Before, TextLess, FieldsLess;
    SmallFields(c);
    SmallFields(d);
    PrintOrder(Fields(c), Fields(d));
    FieldsOrderDates(c, d);
  }

  /** The next year is where it ends: the first second of 10000 sorts before the last of 9999. */
  lemma FifthDigit()
    ensures
      var last, next := Civil(9_999, 12, 31, 23, 59, 59), Civil(10_000, 1, 1, 0, 0, 0);
      && FromCivil(last) < FromCivil(next)
      && TextLess(Format(FromCivil(next)), Format(FromCivil(last)))
  {
    var last, next := Civil(9_999, 12, 31, 23, 59, 59), Civil(10_000, 1, 1, 0, 0, 0);
    SecondOfCivil(last);
    SecondOfCivil(next);
    EarlierSecond(last, next);
    hide ToCivil, FromCivil;
    LeadingDigit(last);
    LeadingDigit(next);
  }

  lemma LeadingDigit(c: Civil)
    requires c.year == 9_999 || c.year == 10_000
    ensures Print(Fields(c)) != [] && Print(Fields(c))[0] == if c.year == 9_999 then '9' else '1'
  {
    if c.year == 9_999 {
      assert Digits(9, 1) == ['9'];
      assert Digits(999, 3)[0] == Digits(99, 2)[0] == Digits(9, 1)[0];
    } else {
      assert YearWidth(10_000) == 5;
      assert Digits(1, 1) == ['1'];
      assert Digits(1_000, 4)[0] == Digits(100, 3)[0] == Digits(10, 2)[0] == Digits(1, 1)[0];
    }
  }

  // ---- what the store's comparisons mean

  function Column(t: Nanos): string
    requires Seconds(t) >= 0
  {
    Format(Seconds(t))
  }

  /** A stored message passes `expires > now` exactly while it is live: at every reading up to a
      second before sent + ttl, and at none from sent + ttl on; and the ttl is at most seven days. */
  lemma MessageLifetime(sent: Nanos, asked: int, reading: Nanos)
    requires IsInt64(asked)
    requires FourDigitYear(Seconds(sent + ClampMessageTtl(asked))) && FourDigitYear(Seconds(reading))
    ensures
      var end := sent + ClampMessageTtl(asked);
      && end <= sent + MAX_MESSAGE_TTL
      && (asked <= LAST_EXACT ==> sent < end)
      && (TextLess(Column(reading), Column(end)) <==> LiveAt(Seconds(end), reading))
      && (reading < end - SECOND ==> TextLess(Column(reading), Column(end)))
      && (reading >= end ==> !TextLess(Column(reading), Column(end)))
  {
    ClampBounds(asked);
    TextOrder(Seconds(reading), Seconds(sent + ClampMessageTtl(asked)));
    Lifetime(sent, ClampMessageTtl(asked), reading);
  }

  /** Every comparison the store's queries make on a timestamp column is the one made on stamps:
      `expires > now` and `expires <= now` are complements in both. */
  lemma PurgeComplementsLive(expires: Stamp, reading: Nanos)
    requires FourDigitYear(expires) && FourDigitYear(Seconds(reading))
    ensures (TextLess(Format(expires), Column(reading)) || Format(expires) == Column(reading)) <==>
      !LiveAt(expires, reading)
  {
    TextOrder(expires, Seconds(reading));
  }
}
