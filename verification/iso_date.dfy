/** Naive `datetime` values, `isoformat()`, `fromisoformat()`, the
    `strftime("%b %d, %Y")` the graph query uses, and day arithmetic. */
module IsoDate {
  import opened Wrappers
  import opened PyValues

  datatype DateTime = DateTime(year: int, month: int, day: int,
                               hour: int, minute: int, second: int, micro: int)

  predicate IsLeap(y: int) {
    y % 4 == 0 && (y % 100 != 0 || y % 400 == 0)
  }

  function DaysInMonth(y: int, m: int): int {
    if m == 2 then (if IsLeap(y) then 29 else 28)
    else if m == 4 || m == 6 || m == 9 || m == 11 then 30
    else 31
  }

  function DaysInYear(y: int): int {
    if IsLeap(y) then 366 else 365
  }

  /** A datetime Python can represent (years 1 to 9999). */
  predicate Valid(d: DateTime) {
    1 <= d.year <= 9999 && 1 <= d.month <= 12 && 1 <= d.day <= DaysInMonth(d.year, d.month) &&
    0 <= d.hour < 24 && 0 <= d.minute < 60 && 0 <= d.second < 60 && 0 <= d.micro < 1000000
  }

  /** `datetime.min` */
  const Min := DateTime(1, 1, 1, 0, 0, 0, 0)

  function DaysBeforeYear(y: int): int
    decreases if y < 1 then 0 else y
  {
    if y <= 1 then 0 else DaysBeforeYear(y - 1) + DaysInYear(y - 1)
  }

  function DaysBeforeMonth(y: int, m: int): int
    decreases if m < 1 then 0 else m
  {
    if m <= 1 then 0 else DaysBeforeMonth(y, m - 1) + DaysInMonth(y, m - 1)
  }

  /** `date.toordinal()`: day 1 is 0001-01-01. */
  function DayOrdinal(d: DateTime): int {
    DaysBeforeYear(d.year) + DaysBeforeMonth(d.year, d.month) + d.day
  }

  /** The instant as microseconds since the start of day 0; datetimes compare
      by this number. */
  function Micros(d: DateTime): int {
    DayOrdinal(d) * 86400000000
      + ((d.hour * 60 + d.minute) * 60 + d.second) * 1000000 + d.micro
  }

  lemma {:induction false} DaysBeforeYearNonNegative(y: int)
    ensures DaysBeforeYear(y) >= 0
    decreases if y < 1 then 0 else y
  {
    if y > 1 { DaysBeforeYearNonNegative(y - 1); }
  }

  lemma {:induction false} DaysBeforeMonthNonNegative(y: int, m: int)
    ensures DaysBeforeMonth(y, m) >= 0
    decreases if m < 1 then 0 else m
  {
    if m > 1 { DaysBeforeMonthNonNegative(y, m - 1); }
  }

  /** `datetime.min` is below every representable datetime. */
  lemma MinIsLeast(d: DateTime)
    requires Valid(d)
    ensures Micros(Min) <= Micros(d)
  {
    DaysBeforeYearNonNegative(d.year);
    DaysBeforeMonthNonNegative(d.year, d.month);
    var o := DayOrdinal(d);
    var t := ((d.hour * 60 + d.minute) * 60 + d.second) * 1000000 + d.micro;
    assert o >= 1 && t >= 0;
    assert Micros(d) == o * 86400000000 + t;
    assert Micros(Min) == 86400000000 by {
      assert DaysBeforeYear(1) == 0 && DaysBeforeMonth(1, 1) == 0;
    }
  }

  // ---------------------------------------------------------------------
  // isoformat / fromisoformat

  function Pow10(w: nat): (p: nat)
    ensures p >= 1
  {
    if w == 0 then 1 else 10 * Pow10(w - 1)
  }

  /** `n` in exactly `w` decimal digits, zero-padded on the left. */
  function Pad(n: nat, w: nat): (s: string)
    ensures |s| == w
    ensures forall i :: 0 <= i < |s| ==> '0' <= s[i] <= '9'
  {
    if w == 0 then [] else Pad(n / 10, w - 1) + [DigitChar(n % 10)]
  }

  predicate AllDigits(s: string) {
    forall i :: 0 <= i < |s| ==> '0' <= s[i] <= '9'
  }

  /** The number a string of decimal digits denotes. */
  function DigitsValue(s: string): nat
    requires AllDigits(s)
  {
    if s == [] then 0 else DigitsValue(s[..|s| - 1]) * 10 + (s[|s| - 1] as int - '0' as int)
  }

  lemma {:induction false} PadRoundTrip(n: nat, w: nat)
    requires n < Pow10(w)
    ensures DigitsValue(Pad(n, w)) == n
  {
    if w > 0 {
      var s := Pad(n, w);
      var q, r := n / 10, n % 10;
      assert n == q * 10 + r;
      assert q < Pow10(w - 1);
      assert s[..|s| - 1] == Pad(q, w - 1);
      assert s[|s| - 1] as int - '0' as int == r;
      PadRoundTrip(q, w - 1);
      assert DigitsValue(s) == DigitsValue(Pad(q, w - 1)) * 10 + r;
    }
  }

  /** `YYYY-MM-DD` */
  function DateText(d: DateTime): (s: string)
    requires Valid(d)
    ensures |s| == 10
  {
    Pad(d.year, 4) + "-" + Pad(d.month, 2) + "-" + Pad(d.day, 2)
  }

  /** `HH:MM:SS` */
  function TimeText(d: DateTime): (s: string)
    requires Valid(d)
    ensures |s| == 8
  {
    Pad(d.hour, 2) + ":" + Pad(d.minute, 2) + ":" + Pad(d.second, 2)
  }

  /** `datetime.isoformat()`: the microseconds appear only when non-zero. */
  function Format(d: DateTime): (s: string)
    requires Valid(d)
    ensures |s| == (if d.micro == 0 then 19 else 26)
  {
    DateText(d) + "T" + TimeText(d) + (if d.micro == 0 then "" else "." + Pad(d.micro, 6))
  }

  /** The digits at s[i..i+w], if they are all digits. */
  function Field(s: string, i: nat, w: nat): Option<nat>
    requires i + w <= |s|
  {
    if AllDigits(s[i..i + w]) then Some(DigitsValue(s[i..i + w])) else None
  }

  function DatePart(s: string): Option<(int, int, int)>
    requires |s| >= 10
  {
    var y := Field(s, 0, 4);
    var m := Field(s, 5, 2);
    var d := Field(s, 8, 2);
    if y.Some? && m.Some? && d.Some? && s[4] == '-' && s[7] == '-'
    then Some((y.value, m.value, d.value))
    else None
  }

  function TimePart(s: string): Option<(int, int, int)>
    requires |s| >= 19
  {
    var h := Field(s, 11, 2);
    var mi := Field(s, 14, 2);
    var se := Field(s, 17, 2);
    if h.Some? && mi.Some? && se.Some? && s[13] == ':' && s[16] == ':'
    then Some((h.value, mi.value, se.value))
    else None
  }

  /** `datetime.fromisoformat(s)`: `YYYY-MM-DD`, optionally followed by any
      separator character and `HH:MM:SS`, optionally followed by `.ffffff`.
      `None` stands for the `ValueError` Python raises. */
  function Parse(s: string): (r: Option<DateTime>)
    ensures r.Some? ==> Valid(r.value)
  {
    if |s| != 10 && |s| != 19 && |s| != 26 then None
    else
      var date := DatePart(s);
      if date.None? then None
      else
        var (y, m, d) := date.value;
        var time := if |s| == 10 then Some((0, 0, 0)) else TimePart(s);
        var micro :=
          if |s| == 26 then (if s[19] == '.' then Field(s, 20, 6) else None)
          else Some(0);
        if time.None? || micro.None? then None
        else
          var (h, mi, se) := time.value;
          var dt := DateTime(y, m, d, h, mi, se, micro.value);
          if Valid(dt) then Some(dt) else None
  }

  lemma FieldOfPad(s: string, i: nat, n: nat, w: nat)
    requires i + w <= |s| && s[i..i + w] == Pad(n, w) && n < Pow10(w)
    ensures Field(s, i, w) == Some(n)
  {
    PadRoundTrip(n, w);
  }

  lemma DatePartOfDateText(s: string, d: DateTime)
    requires Valid(d) && |s| >= 10 && s[..10] == DateText(d)
    ensures DatePart(s) == Some((d.year, d.month, d.day))
  {
    var t := DateText(d);
    assert s[0..4] == t[0..4] == Pad(d.year, 4);
    assert s[5..7] == t[5..7] == Pad(d.month, 2);
    assert s[8..10] == t[8..10] == Pad(d.day, 2);
    assert s[4] == t[4] == '-' && s[7] == t[7] == '-';
    FieldOfPad(s, 0, d.year, 4);
    FieldOfPad(s, 5, d.month, 2);
    FieldOfPad(s, 8, d.day, 2);
  }

  lemma TimePartOfTimeText(s: string, d: DateTime)
    requires Valid(d) && |s| >= 19 && s[11..19] == TimeText(d)
    ensures TimePart(s) == Some((d.hour, d.minute, d.second))
  {
    var t := TimeText(d);
    var a, b, c := Pad(d.hour, 2), Pad(d.minute, 2), Pad(d.second, 2);
    assert t == a + ":" + b + ":" + c;
    assert t[3..5] == b by { assert t[3] == b[0] && t[4] == b[1]; }
    assert s[11..13] == t[0..2] == Pad(d.hour, 2);
    assert s[14..16] == t[3..5] == Pad(d.minute, 2);
    assert s[17..19] == t[6..8] == Pad(d.second, 2);
    assert s[13] == t[2] == ':' && s[16] == t[5] == ':';
    FieldOfPad(s, 11, d.hour, 2);
    FieldOfPad(s, 14, d.minute, 2);
    FieldOfPad(s, 17, d.second, 2);
  }

  /** Parsing what `isoformat()` printed gives back the same datetime. */
  lemma FormatParseRoundTrip(d: DateTime)
    requires Valid(d)
    ensures Parse(Format(d)) == Some(d)
  {
    var s := Format(d);
    var head := DateText(d) + "T" + TimeText(d);
    assert s[..10] == DateText(d) by { assert s[..10] == head[..10]; }
    assert s[11..19] == TimeText(d) by { assert s[11..19] == head[11..19]; }
    DatePartOfDateText(s, d);
    TimePartOfTimeText(s, d);
    if d.micro != 0 {
      assert s[19] == '.';
      assert s[20..26] == Pad(d.micro, 6);
      FieldOfPad(s, 20, d.micro, 6);
    }
  }

  // ---------------------------------------------------------------------
  // strftime("%b %d, %Y")

  function MonthAbbrev(m: int): string {
    if m == 1 then "Jan" else if m == 2 then "Feb" else if m == 3 then "Mar"
    else if m == 4 then "Apr" else if m == 5 then "May" else if m == 6 then "Jun"
    else if m == 7 then "Jul" else if m == 8 then "Aug" else if m == 9 then "Sep"
    else if m == 10 then "Oct" else if m == 11 then "Nov" else "Dec"
  }

  /** `dt.strftime("%b %d, %Y")`, e.g. "Apr 07, 2025". */
  function ReadableDate(d: DateTime): (s: string)
    requires Valid(d)
    ensures |s| == 12 && s[3] == ' ' && s[6..8] == ", "
  {
    MonthAbbrev(d.month) + " " + Pad(d.day, 2) + ", " + Pad(d.year, 4)
  }

  // ---------------------------------------------------------------------
  // Day arithmetic: `d - timedelta(days=n)`

  /** The same time on the previous day; `None` is Python's OverflowError. */
  function PrevDay(d: DateTime): (r: Option<DateTime>)
    requires Valid(d)
    ensures r.Some? ==> Valid(r.value)
  {
    if d.day > 1 then Some(d.(day := d.day - 1))
    else if d.month > 1 then Some(d.(month := d.month - 1, day := DaysInMonth(d.year, d.month - 1)))
    else if d.year > 1 then Some(d.(year := d.year - 1, month := 12, day := 31))
    else None
  }

  /** The same time on the next day; `None` is Python's OverflowError. */
  function NextDay(d: DateTime): (r: Option<DateTime>)
    requires Valid(d)
    ensures r.Some? ==> Valid(r.value)
  {
    if d.day < DaysInMonth(d.year, d.month) then Some(d.(day := d.day + 1))
    else if d.month < 12 then Some(d.(month := d.month + 1, day := 1))
    else if d.year < 9999 then Some(d.(year := d.year + 1, month := 1, day := 1))
    else None
  }

  lemma MonthsMakeYear(y: int)
    ensures DaysBeforeMonth(y, 12) + 31 == DaysInYear(y)
  {
    assert DaysBeforeMonth(y, 1) == 0;
    assert DaysBeforeMonth(y, 2) == 31;
    assert DaysBeforeMonth(y, 3) == 31 + DaysInMonth(y, 2);
    assert DaysBeforeMonth(y, 12) == 334 + DaysInMonth(y, 2) - 28;
  }

  lemma PrevDayOrdinal(d: DateTime)
    requires Valid(d) && PrevDay(d).Some?
    ensures DayOrdinal(PrevDay(d).value) == DayOrdinal(d) - 1
  {
    if d.day == 1 && d.month == 1 { MonthsMakeYear(d.year - 1); }
  }

  lemma NextDayOrdinal(d: DateTime)
    requires Valid(d) && NextDay(d).Some?
    ensures DayOrdinal(NextDay(d).value) == DayOrdinal(d) + 1
  {
    if d.day == DaysInMonth(d.year, d.month) && d.month == 12 { MonthsMakeYear(d.year); }
  }

  /** `d - timedelta(days=n)`; `None` when the result leaves years 1..9999. */
  function MinusDays(d: DateTime, n: int): (r: Option<DateTime>)
    requires Valid(d)
    ensures r.Some? ==> Valid(r.value)
    decreases if n < 0 then -n else n
  {
    if n == 0 then Some(d)
    else if n > 0 then
      (match PrevDay(d) case None => None case Some(p) => MinusDays(p, n - 1))
    else
      (match NextDay(d) case None => None case Some(q) => MinusDays(q, n + 1))
  }

  /** Subtracting `n` days moves the day ordinal by exactly `n` and keeps the
      time of day. */
  lemma {:induction false} MinusDaysShiftsOrdinal(d: DateTime, n: int)
    requires Valid(d) && MinusDays(d, n).Some?
    ensures DayOrdinal(MinusDays(d, n).value) == DayOrdinal(d) - n
    ensures var r := MinusDays(d, n).value;
      r.hour == d.hour && r.minute == d.minute && r.second == d.second && r.micro == d.micro
    decreases if n < 0 then -n else n
  {
    if n > 0 {
      var p := PrevDay(d).value;
      PrevDayOrdinal(d);
      MinusDaysShiftsOrdinal(p, n - 1);
    } else if n < 0 {
      var q := NextDay(d).value;
      NextDayOrdinal(d);
      MinusDaysShiftsOrdinal(q, n + 1);
    }
  }

  /** `(b - a).days`: whole days between two instants, rounded down as
      `timedelta` normalises them. */
  function DaysBetween(a: DateTime, b: DateTime): int {
    (Micros(b) - Micros(a)) / 86400000000
  }
}
