/** `new Date(ms).toISOString()` and back (server/src/common/helpers/utils.ts), and
    why comparing such texts compares times: section 5.1 of RFC 3339. */
module Timestamps {
  import opened Decimal
  import opened Text

  const DAY: nat := 86_400_000
  const EPOCH_YEAR: nat := 1970

  predicate IsLeap(year: nat) { year % 4 == 0 && (year % 100 != 0 || year % 400 == 0) }

  function MonthLength(year: nat, month: nat): (n: nat)
    ensures 28 <= n <= 31
  {
    if month == 2 then (if IsLeap(year) then 29 else 28)
    else if month == 4 || month == 6 || month == 9 || month == 11 then 30
    else 31
  }

  /** Days from the first of a month to the end of its year. */
  function DaysFrom(year: nat, month: nat): nat
    requires 1 <= month <= 13
    decreases 13 - month
  {
    if month == 13 then 0 else MonthLength(year, month) + DaysFrom(year, month + 1)
  }

  function YearLength(year: nat): nat { if IsLeap(year) then 366 else 365 }

  lemma YearIsItsMonths(year: nat)
    ensures DaysFrom(year, 1) == YearLength(year)
  {
    assert DaysFrom(year, 9) == 122;
    assert DaysFrom(year, 5) == 245;
  }

  function DaysBefore(year: nat): nat
    requires year >= EPOCH_YEAR
  {
    if year == EPOCH_YEAR then 0 else DaysBefore(year - 1) + YearLength(year - 1)
  }

  datatype Civil = Civil(year: nat, month: nat, day: nat, hour: nat, minute: nat, second: nat, milli: nat)

  /** The year that is `days` after the start of `year`, and the day in it. */
  function YearOf(year: nat, days: nat): (r: (nat, nat))
    requires year >= EPOCH_YEAR
    ensures r.0 >= year && r.1 < YearLength(r.0)
    decreases days
  {
    if days < YearLength(year) then (year, days) else YearOf(year + 1, days - YearLength(year))
  }

  lemma {:induction false} YearOfAddsUp(year: nat, days: nat)
    requires year >= EPOCH_YEAR
    ensures DaysBefore(year) + days == DaysBefore(YearOf(year, days).0) + YearOf(year, days).1
    decreases days
  {
    if days >= YearLength(year) { YearOfAddsUp(year + 1, days - YearLength(year)); }
  }

  /** The month that is `days` after the start of `month`, and the day in it from 1. */
  function MonthOf(year: nat, month: nat, days: nat): (r: (nat, nat))
    requires 1 <= month <= 12 && days < DaysFrom(year, month)
    ensures month <= r.0 <= 12 && 1 <= r.1 <= MonthLength(year, r.0)
    ensures days + DaysFrom(year, r.0) == DaysFrom(year, month) + r.1 - 1
    decreases 12 - month
  {
    if days < MonthLength(year, month) then (month, days + 1)
    else MonthOf(year, month + 1, days - MonthLength(year, month))
  }

  function CivilOf(ms: nat): (c: Civil)
    ensures 1 <= c.month <= 12 && 1 <= c.day <= 31
    ensures c.hour < 24 && c.minute < 60 && c.second < 60 && c.milli < 1000
  {
    var (year, dayOfYear) := YearOf(EPOCH_YEAR, ms / DAY);
    YearIsItsMonths(year);
    var (month, day) := MonthOf(year, 1, dayOfYear);
    var t := ms % DAY;
    Civil(year, month, day, t / 3_600_000, t / 60_000 % 60, t / 1000 % 60, t % 1000)
  }

  function Millis(c: Civil): int
    requires c.year >= EPOCH_YEAR && 1 <= c.month <= 12
  {
    (DaysBefore(c.year) + YearLength(c.year) - DaysFrom(c.year, c.month) + c.day - 1) * DAY
    + c.hour * 3_600_000 + c.minute * 60_000 + c.second * 1000 + c.milli
  }

  lemma ClockSplits(t: nat)
    requires t < DAY
    ensures t / 3_600_000 * 3_600_000 + t / 60_000 % 60 * 60_000 + t / 1000 % 60 * 1000 + t % 1000 == t
  {
    var s := t / 1000;
    var m := t / 60_000;
    assert s / 60 == m && m / 60 == t / 3_600_000;
  }

  lemma MillisOfCivil(ms: nat)
    ensures Millis(CivilOf(ms)) == ms
  {
    ClockSplits(ms % DAY);
    var (year, dayOfYear) := YearOf(EPOCH_YEAR, ms / DAY);
    YearIsItsMonths(year);
    YearOfAddsUp(EPOCH_YEAR, ms / DAY);
    var (month, day) := MonthOf(year, 1, dayOfYear);
    assert ms == ms / DAY * DAY + ms % DAY;
  }

  // ---- the order of civil times ----

  predicate CivilLess(a: Civil, b: Civil) {
    if a.year != b.year then a.year < b.year
    else if a.month != b.month then a.month < b.month
    else if a.day != b.day then a.day < b.day
    else if a.hour != b.hour then a.hour < b.hour
    else if a.minute != b.minute then a.minute < b.minute
    else if a.second != b.second then a.second < b.second
    else a.milli < b.milli
  }

  lemma {:induction false} YearOfIsMonotone(year: nat, d1: nat, d2: nat)
    requires year >= EPOCH_YEAR && d1 < d2
    ensures var (y1, r1) := YearOf(year, d1); var (y2, r2) := YearOf(year, d2);
      y1 < y2 || (y1 == y2 && r1 < r2)
    decreases d1
  {
    if d1 >= YearLength(year) {
      YearOfIsMonotone(year + 1, d1 - YearLength(year), d2 - YearLength(year));
    }
  }

  lemma {:induction false} MonthOfIsMonotone(year: nat, month: nat, d1: nat, d2: nat)
    requires 1 <= month <= 12 && d1 < d2 < DaysFrom(year, month)
    ensures var (m1, r1) := MonthOf(year, month, d1); var (m2, r2) := MonthOf(year, month, d2);
      m1 < m2 || (m1 == m2 && r1 < r2)
    decreases 12 - month
  {
    if d1 >= MonthLength(year, month) {
      MonthOfIsMonotone(year, month + 1, d1 - MonthLength(year, month), d2 - MonthLength(year, month));
    }
  }

  lemma ClockIsMonotone(t1: nat, t2: nat)
    requires t1 < t2 < DAY
    ensures var (h1, h2) := (t1 / 3_600_000, t2 / 3_600_000);
      var (m1, m2) := (t1 / 60_000 % 60, t2 / 60_000 % 60);
      var (s1, s2) := (t1 / 1000 % 60, t2 / 1000 % 60);
      h1 < h2 || (h1 == h2 && (m1 < m2 || (m1 == m2 && (s1 < s2 || (s1 == s2 && t1 % 1000 < t2 % 1000)))))
  {
    ClockSplits(t1);
    ClockSplits(t2);
  }

  lemma CivilIsMonotone(a: nat, b: nat)
    requires a < b
    ensures CivilLess(CivilOf(a), CivilOf(b))
  {
    assert a / DAY <= b / DAY;
    if a / DAY < b / DAY {
      YearOfIsMonotone(EPOCH_YEAR, a / DAY, b / DAY);
      var (y1, r1) := YearOf(EPOCH_YEAR, a / DAY);
      var (y2, r2) := YearOf(EPOCH_YEAR, b / DAY);
      YearIsItsMonths(y1);
      if y1 == y2 { MonthOfIsMonotone(y1, 1, r1, r2); }
    } else {
      ClockIsMonotone(a % DAY, b % DAY);
    }
  }

  // ---- texts ----

  function ClockText(c: Civil): string {
    Fixed(c.hour, 2) + (":" + (Fixed(c.minute, 2) + (":" + (Fixed(c.second, 2) + ("." + (Fixed(c.milli, 3) + "Z"))))))
  }

  /** Everything after the year. */
  function IsoTail(c: Civil): string {
    "-" + (Fixed(c.month, 2) + ("-" + (Fixed(c.day, 2) + ("T" + ClockText(c)))))
  }

  /** `new Date(ms).toISOString()`: years after 9999 take six digits and a sign. */
  function Iso(ms: nat): string {
    var c := CivilOf(ms);
    (if c.year <= 9999 then Fixed(c.year, 4) else "+" + Fixed(c.year, 6)) + IsoTail(c)
  }

  predicate FourDigitYear(ms: nat) { CivilOf(ms).year <= 9999 }

  lemma FieldOrder(m: nat, n: nat, w: nat, x: string, y: string)
    requires m < Pow10(w) && n < Pow10(w)
    ensures Less(Fixed(m, w) + x, Fixed(n, w) + y) <==> m < n || (m == n && Less(x, y))
  {
    LessAppend(Fixed(m, w), x, Fixed(n, w), y);
    FixedOrder(m, n, w);
    ValueOfFixed(m, w);
    ValueOfFixed(n, w);
  }

  lemma SeparatorOrder(c: char, x: string, y: string)
    ensures Less([c] + x, [c] + y) <==> Less(x, y)
  {
    assert ([c] + x)[1..] == x && ([c] + y)[1..] == y;
  }

  lemma Widths()
    ensures Pow10(2) == 100 && Pow10(3) == 1000 && Pow10(4) == 10000
  {
    assert Pow10(0) == 1 && Pow10(1) == 10;
  }

  lemma ClockOrder(a: Civil, b: Civil)
    requires a.hour < 24 && a.minute < 60 && a.second < 60 && a.milli < 1000
    requires b.hour < 24 && b.minute < 60 && b.second < 60 && b.milli < 1000
    ensures Less(ClockText(a), ClockText(b))
      <==> CivilLess(a.(year := 0, month := 0, day := 0), b.(year := 0, month := 0, day := 0))
  {
    Widths();
    FieldOrder(a.milli, b.milli, 3, "Z", "Z");
    var s1, s2 := Fixed(a.milli, 3) + "Z", Fixed(b.milli, 3) + "Z";
    SeparatorOrder('.', s1, s2);
    FieldOrder(a.second, b.second, 2, "." + s1, "." + s2);
    var t1, t2 := Fixed(a.second, 2) + ("." + s1), Fixed(b.second, 2) + ("." + s2);
    SeparatorOrder(':', t1, t2);
    FieldOrder(a.minute, b.minute, 2, ":" + t1, ":" + t2);
    var u1, u2 := Fixed(a.minute, 2) + (":" + t1), Fixed(b.minute, 2) + (":" + t2);
    SeparatorOrder(':', u1, u2);
    FieldOrder(a.hour, b.hour, 2, ":" + u1, ":" + u2);
    assert Less("Z", "Z") <==> false;
  }

  lemma TailOrder(c: Civil, d: Civil)
    requires c.month < 100 && c.day < 100 && c.hour < 24 && c.minute < 60 && c.second < 60 && c.milli < 1000
    requires d.month < 100 && d.day < 100 && d.hour < 24 && d.minute < 60 && d.second < 60 && d.milli < 1000
    ensures Less(IsoTail(c), IsoTail(d)) <==> CivilLess(c.(year := 0), d.(year := 0))
  {
    hide Fixed, Less, Pow10, ClockText;
    Widths();
    ClockOrder(c, d);
    var t1, t2 := ClockText(c), ClockText(d);
    SeparatorOrder('T', t1, t2);
    FieldOrder(c.day, d.day, 2, "T" + t1, "T" + t2);
    var u1, u2 := Fixed(c.day, 2) + ("T" + t1), Fixed(d.day, 2) + ("T" + t2);
    SeparatorOrder('-', u1, u2);
    FieldOrder(c.month, d.month, 2, "-" + u1, "-" + u2);
    var v1, v2 := Fixed(c.month, 2) + ("-" + u1), Fixed(d.month, 2) + ("-" + u2);
    SeparatorOrder('-', v1, v2);
  }

  lemma TextOrder(a: nat, b: nat)
    requires FourDigitYear(a) && FourDigitYear(b)
    ensures Less(Iso(a), Iso(b)) <==> CivilLess(CivilOf(a), CivilOf(b))
  {
    hide CivilOf, Fixed, Less, Pow10, IsoTail;
    var c, d := CivilOf(a), CivilOf(b);
    Widths();
    TailOrder(c, d);
    FieldOrder(c.year, d.year, 4, IsoTail(c), IsoTail(d));
  }

  /** Up to the year 9999, text order is time order. */
  lemma IsoOrderIsTimeOrder(a: nat, b: nat)
    requires FourDigitYear(a) && FourDigitYear(b)
    ensures Less(Iso(a), Iso(b)) <==> a < b
    ensures Iso(a) == Iso(b) <==> a == b
  {
    hide Iso, CivilOf, Less, FourDigitYear;
    TextOrder(a, b);
    TextOrder(b, a);
    LessTotal(Iso(a), Iso(b));
    if a < b { CivilIsMonotone(a, b); }
    if b < a { CivilIsMonotone(b, a); }
  }

  /** The last millisecond a Date can hold. */
  const MAX_TIME: nat := 8_640_000_000_000_000

  lemma {:induction false} YearIsBounded(year: nat, days: nat)
    requires year >= EPOCH_YEAR
    ensures 365 * (YearOf(year, days).0 - year) <= days
    decreases days
  {
    if days >= YearLength(year) { YearIsBounded(year + 1, days - YearLength(year)); }
  }

  lemma SixDigits(ms: nat)
    requires ms <= MAX_TIME
    ensures CivilOf(ms).year < 1_000_000
  {
    YearIsBounded(EPOCH_YEAR, ms / DAY);
  }

  lemma LongTextOrder(a: nat, b: nat)
    requires !FourDigitYear(a) && !FourDigitYear(b) && a <= MAX_TIME && b <= MAX_TIME
    ensures Less(Iso(a), Iso(b)) <==> CivilLess(CivilOf(a), CivilOf(b))
  {
    hide CivilOf, Fixed, Less, Pow10, IsoTail;
    var c, d := CivilOf(a), CivilOf(b);
    SixDigits(a);
    SixDigits(b);
    SixWide();
    TailOrder(c, d);
    FieldOrder(c.year, d.year, 6, IsoTail(c), IsoTail(d));
    SeparatorOrder('+', Fixed(c.year, 6) + IsoTail(c), Fixed(d.year, 6) + IsoTail(d));
    assert Iso(a) == ['+'] + (Fixed(c.year, 6) + IsoTail(c)) && Iso(b) == ['+'] + (Fixed(d.year, 6) + IsoTail(d));
  }

  lemma SixWide()
    ensures Pow10(6) == 1_000_000
  {
    Widths();
    assert Pow10(5) == 100_000;
  }

  /** After the year 9999 it is not: every later text comes before every earlier one. */
  lemma IsoOrderBreaksAfter9999(a: nat, b: nat)
    requires FourDigitYear(a) && !FourDigitYear(b)
    ensures a < b && Less(Iso(b), Iso(a))
  {
    if b < a { CivilIsMonotone(b, a); }
    assert IsDigit(Iso(a)[0]) && Iso(b)[0] == '+';
  }

  /** For any two times a Date can hold: comparing the texts compares the times exactly
      when both or neither year has four digits. */
  lemma IsoOrderExactly(a: nat, b: nat)
    requires a <= MAX_TIME && b <= MAX_TIME
    ensures (Less(Iso(a), Iso(b)) <==> a < b) <==> (FourDigitYear(a) <==> FourDigitYear(b))
  {
    hide Iso, CivilOf, Less, FourDigitYear;
    if FourDigitYear(a) && FourDigitYear(b) {
      IsoOrderIsTimeOrder(a, b);
    } else if FourDigitYear(a) {
      IsoOrderBreaksAfter9999(a, b);
      LessTotal(Iso(a), Iso(b));
    } else if FourDigitYear(b) {
      IsoOrderBreaksAfter9999(b, a);
    } else {
      LongTextOrder(a, b);
      if a < b { CivilIsMonotone(a, b); }
      if b < a { CivilIsMonotone(b, a); }
    }
  }

  // ---- reading ----

  function Number(text: string, from: nat, width: nat): nat {
    if from + width <= |text| && AllDigits(text[from..from + width]) then Value(text[from..from + width]) else 0
  }

  /** `new Date(text).getTime()` for a text of the four-digit form. */
  function GetTime(text: string): int {
    var c := Civil(Number(text, 0, 4), Number(text, 5, 2), Number(text, 8, 2),
                   Number(text, 11, 2), Number(text, 14, 2), Number(text, 17, 2), Number(text, 20, 3));
    if c.year >= EPOCH_YEAR && 1 <= c.month <= 12 then Millis(c) else -1
  }

  lemma NumberAt(text: string, before: string, n: nat, width: nat, after: string)
    requires text == before + (Fixed(n, width) + after) && n < Pow10(width)
    ensures Number(text, |before|, width) == n
  {
    assert text[|before|..|before| + width] == Fixed(n, width);
    ValueOfFixed(n, width);
  }

  lemma ReadClock(text: string, before: string, c: Civil)
    requires |before| == 11 && text == before + ClockText(c)
    requires c.hour < 24 && c.minute < 60 && c.second < 60 && c.milli < 1000
    ensures Number(text, 11, 2) == c.hour && Number(text, 14, 2) == c.minute
    ensures Number(text, 17, 2) == c.second && Number(text, 20, 3) == c.milli
  {
    Widths();
    var milli := Fixed(c.milli, 3) + "Z";
    var second := Fixed(c.second, 2) + ("." + milli);
    var minute := Fixed(c.minute, 2) + (":" + second);
    NumberAt(text, before, c.hour, 2, ":" + minute);
    var p := before + Fixed(c.hour, 2) + ":";
    assert text == p + minute;
    NumberAt(text, p, c.minute, 2, ":" + second);
    var q := p + Fixed(c.minute, 2) + ":";
    assert text == q + second;
    NumberAt(text, q, c.second, 2, "." + milli);
    var r := q + Fixed(c.second, 2) + ".";
    assert text == r + milli;
    NumberAt(text, r, c.milli, 3, "Z");
  }

  lemma ReadDate(text: string, c: Civil)
    requires text == Fixed(c.year, 4) + IsoTail(c)
    requires c.year <= 9999 && c.month <= 12 && c.day <= 31
    ensures Number(text, 0, 4) == c.year && Number(text, 5, 2) == c.month && Number(text, 8, 2) == c.day
    ensures 11 <= |text| && text == text[..11] + ClockText(c)
  {
    hide Fixed, Number, Pow10, ClockText;
    Widths();
    var day := Fixed(c.day, 2) + ("T" + ClockText(c));
    var month := Fixed(c.month, 2) + ("-" + day);
    assert text == "" + (Fixed(c.year, 4) + ("-" + month));
    NumberAt(text, "", c.year, 4, "-" + month);
    var p := Fixed(c.year, 4) + "-";
    assert text == p + month;
    NumberAt(text, p, c.month, 2, "-" + day);
    var q := p + Fixed(c.month, 2) + "-";
    assert text == q + day;
    NumberAt(text, q, c.day, 2, "T" + ClockText(c));
    var r := q + Fixed(c.day, 2) + "T";
    assert text == r + ClockText(c);
    assert text[..11] == r;
  }

  /** A printed time reads back as itself. */
  lemma GetTimeOfIso(ms: nat)
    requires FourDigitYear(ms)
    ensures GetTime(Iso(ms)) == ms
  {
    var c, text := CivilOf(ms), Iso(ms);
    ReadDate(text, c);
    ReadClock(text, text[..11], c);
    MillisOfCivil(ms);
  }

  // ---- the calendar ----

  /** Leap years, by example of each rule, and the lengths of the months. */
  lemma Calendar()
    ensures IsLeap(2024) && IsLeap(2000) && !IsLeap(2023) && !IsLeap(2100) && !IsLeap(1900)
    ensures MonthLength(2023, 2) == 28 && MonthLength(2024, 2) == 29
    ensures forall year, month | month in {4, 6, 9, 11} :: MonthLength(year, month) == 30
    ensures forall year, month | month in {1, 3, 5, 7, 8, 10, 12} :: MonthLength(year, month) == 31
  {
  }

  lemma EpochText()
    ensures Iso(0) == "1970-01-01T00:00:00.000Z"
  {
    hide CivilOf, Fixed, IsoTail;
    EpochCivil();
    EpochIs(CivilOf(0));
  }

  lemma EpochCivil()
    ensures CivilOf(0) == Civil(1970, 1, 1, 0, 0, 0, 0)
  {
    YearIsItsMonths(EPOCH_YEAR);
  }

  lemma EpochIs(c: Civil)
    requires c == Civil(1970, 1, 1, 0, 0, 0, 0)
    ensures Fixed(c.year, 4) + IsoTail(c) == "1970-01-01T00:00:00.000Z"
  {
    hide Fixed;
    EpochDigits();
    assert ClockText(c) == "00:00:00.000Z";
    assert IsoTail(c) == "-01-01T" + "00:00:00.000Z";
  }

  lemma EpochDigits()
    ensures Fixed(1970, 4) == "1970" && Fixed(1, 2) == "01" && Fixed(0, 2) == "00" && Fixed(0, 3) == "000"
  {
  }
}
