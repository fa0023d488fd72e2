/**
  The date-time values of the pipeline and the fixed-width renderings and
  parsings it applies to them: `isoformat()`, `fromisoformat()` (the shapes
  `YYYY-MM-DD` and `YYYY-MM-DD?HH:MM:SS[.fff|.ffffff][+HH:MM]`),
  `strptime` with `%Y-%m-%dT%H:%M:%SZ` and `%Y-%m-%d %H:%M:%S`,
  `strftime('%Y-%m-%d %H:%M:%S')`, and subtracting whole days.
 */
module DateTimes {
  import opened Wrappers
  import opened Literals

  /** A Python datetime; `offset` is the UTC offset in minutes, None for a naive value. */
  datatype DateTime = DateTime(year: int, month: int, day: int,
                               hour: int, minute: int, second: int, micro: int,
                               offset: Option<int>)

  predicate IsLeap(y: int) {
    y % 4 == 0 && (y % 100 != 0 || y % 400 == 0)
  }

  function DaysInMonth(y: int, m: int): int
    requires 1 <= m <= 12
  {
    if m == 2 then (if IsLeap(y) then 29 else 28)
    else if m == 4 || m == 6 || m == 9 || m == 11 then 30
    else 31
  }

  predicate ValidDate(y: int, m: int, d: int) {
    1 <= y <= 9999 && 1 <= m <= 12 && 1 <= d <= DaysInMonth(y, m)
  }

  predicate ValidClock(h: int, mi: int, s: int) {
    0 <= h < 24 && 0 <= mi < 60 && 0 <= s < 60
  }

  predicate ValidOffset(o: Option<int>) {
    o.None? || -1440 < o.value < 1440
  }

  /** The values Python's datetime can hold (offsets in whole minutes). */
  predicate Valid(dt: DateTime) {
    && ValidDate(dt.year, dt.month, dt.day)
    && ValidClock(dt.hour, dt.minute, dt.second)
    && 0 <= dt.micro < 1000000
    && ValidOffset(dt.offset)
  }

  /** A Python `datetime`: always a valid one. */
  type Moment = dt: DateTime | Valid(dt) witness DateTime(1970, 1, 1, 0, 0, 0, 0, None)

  /** Two values that agree on every field a `%Y-%m-%d %H:%M:%S` rendering shows. */
  predicate SameSecond(a: DateTime, b: DateTime) {
    && a.year == b.year && a.month == b.month && a.day == b.day
    && a.hour == b.hour && a.minute == b.minute && a.second == b.second
  }

  // ---------------------------------------------------------------------------
  // Rendering

  /** `strftime('%Y-%m-%d')`. */
  function DateText(dt: DateTime): (r: string)
    requires Valid(dt)
    ensures |r| == 10
  {
    Pad(dt.year, 4) + "-" + Pad(dt.month, 2) + "-" + Pad(dt.day, 2)
  }

  /** `strftime('%H:%M:%S')`. */
  function ClockText(dt: DateTime): (r: string)
    requires Valid(dt)
    ensures |r| == 8
  {
    Pad(dt.hour, 2) + ":" + Pad(dt.minute, 2) + ":" + Pad(dt.second, 2)
  }

  function FractionText(micro: nat): string {
    if micro == 0 then "" else "." + Pad(micro, 6)
  }

  /** The `+HH:MM` / `-HH:MM` suffix of `isoformat()`, empty for a naive value. */
  function OffsetText(o: Option<int>): string
    requires ValidOffset(o)
  {
    match o
    case None => ""
    case Some(m) =>
      var a := if m < 0 then -m else m;
      [if m < 0 then '-' else '+'] + Pad(a / 60, 2) + ":" + Pad(a % 60, 2)
  }

  /** `isoformat()`: microseconds only when non-zero, the offset only when aware. */
  function IsoFormat(dt: DateTime): (r: string)
    requires Valid(dt)
    ensures |r| >= 19
  {
    DateText(dt) + "T" + ClockText(dt) + FractionText(dt.micro) + OffsetText(dt.offset)
  }

  /** `strftime('%Y-%m-%d %H:%M:%S')`: the second-truncated rendering the loaders compare. */
  function RenderSeconds(dt: DateTime): (r: string)
    requires Valid(dt)
    ensures |r| == 19
  {
    DateText(dt) + " " + ClockText(dt)
  }

  // ---------------------------------------------------------------------------
  // Parsing

  /** `YYYY-MM-DD`. */
  function ParseDate(s: string): (r: Option<(int, int, int)>)
    requires |s| == 10
    ensures r.Some? ==> ValidDate(r.value.0, r.value.1, r.value.2)
  {
    if s[4] == '-' && s[7] == '-' && AllDigits(s[..4]) && AllDigits(s[5..7]) && AllDigits(s[8..]) then
      var y, m, d := DigitsValue(s[..4]), DigitsValue(s[5..7]), DigitsValue(s[8..]);
      if ValidDate(y, m, d) then Some((y, m, d)) else None
    else None
  }

  /** `HH:MM:SS`. */
  function ParseClock(s: string): (r: Option<(int, int, int)>)
    requires |s| == 8
    ensures r.Some? ==> ValidClock(r.value.0, r.value.1, r.value.2)
  {
    if s[2] == ':' && s[5] == ':' && AllDigits(s[..2]) && AllDigits(s[3..5]) && AllDigits(s[6..]) then
      var h, mi, sec := DigitsValue(s[..2]), DigitsValue(s[3..5]), DigitsValue(s[6..]);
      if ValidClock(h, mi, sec) then Some((h, mi, sec)) else None
    else None
  }

  /** Nothing (naive) or `+HH:MM` / `-HH:MM`. */
  function ParseOffset(s: string): (r: Option<Option<int>>)
    ensures r.Some? ==> ValidOffset(r.value)
  {
    if s == [] then Some(None)
    else if |s| == 6 && (s[0] == '+' || s[0] == '-') && s[3] == ':'
            && AllDigits(s[1..3]) && AllDigits(s[4..]) then
      var hh, mm := DigitsValue(s[1..3]), DigitsValue(s[4..]);
      if hh < 24 && mm < 60 then
        Some(Some(if s[0] == '-' then -(hh * 60 + mm) else hh * 60 + mm))
      else None
    else None
  }

  /** What follows the seconds: an optional `.fff` or `.ffffff`, then an optional offset. */
  function ParseTail(s: string): (r: Option<(int, Option<int>)>)
    ensures r.Some? ==> 0 <= r.value.0 < 1000000 && ValidOffset(r.value.1)
  {
    if |s| > 0 && s[0] == '.' then
      if |s| >= 7 && AllDigits(s[1..7]) then
        match ParseOffset(s[7..])
        case Some(o) =>
          assert DigitsValue(s[1..7]) < 1000000 by { DigitsBound(s[1..7]); Pow10Fraction(); }
          Some((DigitsValue(s[1..7]), o))
        case None => None
      else if |s| >= 4 && AllDigits(s[1..4]) then
        match ParseOffset(s[4..])
        case Some(o) =>
          assert DigitsValue(s[1..4]) < 1000 by { DigitsBound(s[1..4]); Pow10Fraction(); }
          Some((DigitsValue(s[1..4]) * 1000, o))
        case None => None
      else None
    else
      match ParseOffset(s)
      case Some(o) => Some((0, o))
      case None => None
  }

  /** The bounds of a three- and a six-digit fraction. */
  lemma Pow10Fraction()
    ensures Pow10(3) == 1000 && Pow10(6) == 1000000
  {
    assert Pow10(1) == 10;
    assert Pow10(2) == 100;
    assert Pow10(3) == 1000;
    assert Pow10(4) == 10000;
    assert Pow10(5) == 100000;
  }

  lemma {:induction false} DigitsBound(s: string)
    requires AllDigits(s)
    ensures DigitsValue(s) < Pow10(|s|)
  {
    if s != [] {
      DigitsBound(s[..|s| - 1]);
    }
  }

  /** `datetime.fromisoformat(s)`, for the shapes listed at the top of the module. */
  function FromIsoFormat(s: string): (r: Option<DateTime>)
    ensures r.Some? ==> Valid(r.value)
  {
    if |s| < 10 then None
    else
      match ParseDate(s[..10])
      case None => None
      case Some((y, m, d)) =>
        if |s| == 10 then Some(DateTime(y, m, d, 0, 0, 0, 0, None))
        else if |s| < 19 then None
        else
          match ParseClock(s[11..19])
          case None => None
          case Some((h, mi, sec)) =>
            match ParseTail(s[19..])
            case None => None
            case Some((us, o)) => Some(DateTime(y, m, d, h, mi, sec, us, o))
  }

  /** `datetime.strptime(s, '%Y-%m-%dT%H:%M:%SZ')`: a naive value. */
  function StrptimeZ(s: string): (r: Option<DateTime>)
    ensures r.Some? ==> |s| == 20 && Valid(r.value) && r.value.offset.None? && r.value.micro == 0
  {
    if |s| == 20 && s[10] == 'T' && s[19] == 'Z' then
      match (ParseDate(s[..10]), ParseClock(s[11..19]))
      case (Some((y, m, d)), Some((h, mi, sec))) => Some(DateTime(y, m, d, h, mi, sec, 0, None))
      case _ => None
    else None
  }

  /** `datetime.strptime(s, '%Y-%m-%d %H:%M:%S')`: a naive value. */
  function StrptimeSeconds(s: string): (r: Option<DateTime>)
    ensures r.Some? ==> Valid(r.value) && r.value.offset.None? && r.value.micro == 0
  {
    if |s| == 19 && s[10] == ' ' then
      match (ParseDate(s[..10]), ParseClock(s[11..]))
      case (Some((y, m, d)), Some((h, mi, sec))) => Some(DateTime(y, m, d, h, mi, sec, 0, None))
      case _ => None
    else None
  }

  // ---------------------------------------------------------------------------
  // Round trips

  lemma ParseDateText(dt: DateTime)
    requires Valid(dt)
    ensures ParseDate(DateText(dt)) == Some((dt.year, dt.month, dt.day))
  {
    var t := DateText(dt);
    assert t[..4] == Pad(dt.year, 4);
    assert t[5..7] == Pad(dt.month, 2);
    assert t[8..] == Pad(dt.day, 2);
    PadRoundTrip(dt.year, 4);
    PadRoundTrip(dt.month, 2);
    PadRoundTrip(dt.day, 2);
  }

  lemma ParseClockText(dt: DateTime)
    requires Valid(dt)
    ensures ParseClock(ClockText(dt)) == Some((dt.hour, dt.minute, dt.second))
  {
    var t := ClockText(dt);
    assert t[..2] == Pad(dt.hour, 2);
    assert t[3..5] == Pad(dt.minute, 2);
    assert t[6..] == Pad(dt.second, 2);
    PadRoundTrip(dt.hour, 2);
    PadRoundTrip(dt.minute, 2);
    PadRoundTrip(dt.second, 2);
  }

  lemma ParseOffsetText(o: Option<int>)
    requires ValidOffset(o)
    ensures ParseOffset(OffsetText(o)) == Some(o)
  {
    if o.Some? {
      var m := o.value;
      var a := if m < 0 then -m else m;
      var t := OffsetText(o);
      assert t[1..3] == Pad(a / 60, 2);
      assert t[4..] == Pad(a % 60, 2);
      PadRoundTrip(a / 60, 2);
      PadRoundTrip(a % 60, 2);
    }
  }

  lemma ParseTailText(micro: int, o: Option<int>)
    requires 0 <= micro < 1000000 && ValidOffset(o)
    ensures ParseTail(FractionText(micro) + OffsetText(o)) == Some((micro, o))
  {
    ParseOffsetText(o);
    var t := FractionText(micro) + OffsetText(o);
    if micro == 0 {
      assert t == OffsetText(o);
    } else {
      assert t[1..7] == Pad(micro, 6);
      assert t[7..] == OffsetText(o);
      PadRoundTrip(micro, 6);
    }
  }

  /** `fromisoformat(isoformat(dt)) == dt` for every datetime. */
  lemma IsoRoundTrip(dt: DateTime)
    requires Valid(dt)
    ensures FromIsoFormat(IsoFormat(dt)) == Some(dt)
  {
    IsoFormatParts(dt);
    ParseDateText(dt);
    ParseClockText(dt);
    ParseTailText(dt.micro, dt.offset);
  }

  /** Where `isoformat()` puts the date, the clock and the tail. */
  lemma IsoFormatParts(dt: DateTime)
    requires Valid(dt)
    ensures var s := IsoFormat(dt);
      && s[..10] == DateText(dt) && s[11..19] == ClockText(dt)
      && s[19..] == FractionText(dt.micro) + OffsetText(dt.offset)
  {
    var s := IsoFormat(dt);
    var head := DateText(dt) + "T" + ClockText(dt);
    assert s == head + (FractionText(dt.micro) + OffsetText(dt.offset));
    assert head[..10] == DateText(dt);
    assert head[11..19] == ClockText(dt);
  }

  /** A run of digits holds no 'Z'. */
  lemma DigitsHaveNoZ(s: string)
    requires AllDigits(s)
    ensures 'Z' !in s
  {
  }

  /** A padded number holds no 'Z'. */
  lemma PadHasNoZ(n: nat, width: nat)
    ensures 'Z' !in Pad(n, width)
  {
    DigitsHaveNoZ(Pad(n, width));
  }

  /** `isoformat()` never writes a 'Z', so `replace('Z', '+00:00')` leaves it alone. */
  lemma IsoFormatHasNoZ(dt: DateTime)
    requires Valid(dt)
    ensures 'Z' !in IsoFormat(dt)
  {
    PadHasNoZ(dt.year, 4);
    PadHasNoZ(dt.month, 2);
    PadHasNoZ(dt.day, 2);
    PadHasNoZ(dt.hour, 2);
    PadHasNoZ(dt.minute, 2);
    PadHasNoZ(dt.second, 2);
    PadHasNoZ(dt.micro, 6);
    assert 'Z' !in DateText(dt);
    assert 'Z' !in ClockText(dt);
    assert 'Z' !in FractionText(dt.micro);
    if dt.offset.Some? {
      var a := if dt.offset.value < 0 then -dt.offset.value else dt.offset.value;
      PadHasNoZ(a / 60, 2);
      PadHasNoZ(a % 60, 2);
    }
    assert 'Z' !in OffsetText(dt.offset);
  }

  /** The second-truncated renderings agree exactly when the values agree to the second. */
  lemma RenderSecondsMatch(a: DateTime, b: DateTime)
    requires Valid(a) && Valid(b)
    ensures RenderSeconds(a) == RenderSeconds(b) <==> SameSecond(a, b)
  {
    if RenderSeconds(a) == RenderSeconds(b) {
      var ra, rb := RenderSeconds(a), RenderSeconds(b);
      assert ra[..10] == DateText(a) && rb[..10] == DateText(b);
      assert ra[11..] == ClockText(a) && rb[11..] == ClockText(b);
      ParseDateText(a);
      ParseDateText(b);
      ParseClockText(a);
      ParseClockText(b);
    }
  }

  /** `strptime(strftime(dt, '%Y-%m-%d %H:%M:%S'), '%Y-%m-%d %H:%M:%S')` is dt truncated to a naive second. */
  lemma StrptimeRenderSeconds(dt: DateTime)
    requires Valid(dt)
    ensures StrptimeSeconds(RenderSeconds(dt))
            == Some(DateTime(dt.year, dt.month, dt.day, dt.hour, dt.minute, dt.second, 0, None))
  {
    var r := RenderSeconds(dt);
    assert r[..10] == DateText(dt);
    assert r[11..] == ClockText(dt);
    ParseDateText(dt);
    ParseClockText(dt);
  }

  lemma ParsedDateHasNoZ(s: string)
    requires |s| == 10 && ParseDate(s).Some?
    ensures 'Z' !in s
  {
    forall i | 0 <= i < 10 ensures s[i] != 'Z' {
      if i < 4 { assert IsDigit(s[..4][i]); }
      else if 4 < i < 7 { assert IsDigit(s[5..7][i - 5]); }
      else if 7 < i { assert IsDigit(s[8..][i - 8]); }
    }
  }

  lemma ParsedClockHasNoZ(s: string)
    requires |s| == 8 && ParseClock(s).Some?
    ensures 'Z' !in s
  {
    forall i | 0 <= i < 8 ensures s[i] != 'Z' {
      if i < 2 { assert IsDigit(s[..2][i]); }
      else if 2 < i < 5 { assert IsDigit(s[3..5][i - 3]); }
      else if 5 < i { assert IsDigit(s[6..][i - 6]); }
    }
  }

  /**
    The strict `%Y-%m-%dT%H:%M:%SZ` reading and the fallback reading
    `fromisoformat(s.replace('Z', '+00:00'))` agree on every string the
    strict one accepts, except that the fallback is UTC-aware.
   */
  lemma StrictAndIsoAgree(s: string)
    requires StrptimeZ(s).Some?
    ensures FromIsoFormat(ReplaceZ(s)) == Some(StrptimeZ(s).value.(offset := Some(0)))
  {
    ZuluReplaced(s);
    UtcTail();
    var t := ReplaceZ(s);
    assert t[..10] == s[..10];
    assert t[11..19] == s[11..19];
    assert t[19..] == "+00:00";
  }

  /** In a strict '...Z' timestamp the only 'Z' is the last character. */
  lemma ZuluReplaced(s: string)
    requires StrptimeZ(s).Some?
    ensures ReplaceZ(s) == s[..19] + "+00:00"
  {
    var head := s[..19];
    assert s == head + "Z";
    assert head[..10] == s[..10];
    assert head[11..19] == s[11..19];
    ParsedDateHasNoZ(s[..10]);
    ParsedClockHasNoZ(s[11..19]);
    assert 'Z' !in head by {
      forall i | 0 <= i < 19 ensures head[i] != 'Z' {
        if i < 10 { assert head[i] == s[..10][i]; }
        else if i > 10 { assert head[i] == s[11..19][i - 11]; }
      }
    }
    ReplaceZAppend(head, "Z");
  }

  /** `+00:00` after the seconds: no fraction, offset zero. */
  lemma UtcTail()
    ensures ParseTail("+00:00") == Some((0, Some(0)))
  {
    assert "+00:00"[1..3] == "00";
    assert "+00:00"[4..] == "00";
    assert DigitsValue("00") == 0 by {
      assert "00"[..1] == "0";
      assert "0"[..0] == "";
    }
  }

  // ---------------------------------------------------------------------------
  // Whole days

  function DaysInYear(y: int): int {
    if IsLeap(y) then 366 else 365
  }

  /** Days in the years before `y` (year 1 starts at 0). */
  function DaysBeforeYear(y: int): int
    requires y >= 1
  {
    if y == 1 then 0 else DaysBeforeYear(y - 1) + DaysInYear(y - 1)
  }

  /** Days in the months of year `y` before month `m`. */
  function DaysBeforeMonth(y: int, m: int): int
    requires 1 <= m <= 12
  {
    if m == 1 then 0 else DaysBeforeMonth(y, m - 1) + DaysInMonth(y, m - 1)
  }

  /** `date.toordinal()`: 0001-01-01 is day 1. */
  function Ordinal(dt: DateTime): int
    requires Valid(dt)
  {
    DaysBeforeYear(dt.year) + DaysBeforeMonth(dt.year, dt.month) + dt.day
  }

  lemma DaysInLastMonth(y: int)
    ensures DaysBeforeMonth(y, 12) + DaysInMonth(y, 12) == DaysInYear(y)
  {
    var feb := DaysInMonth(y, 2);
    assert DaysBeforeMonth(y, 2) == 31;
    assert DaysBeforeMonth(y, 3) == 31 + feb;
    assert DaysBeforeMonth(y, 4) == 62 + feb;
    assert DaysBeforeMonth(y, 5) == 92 + feb;
    assert DaysBeforeMonth(y, 6) == 123 + feb;
    assert DaysBeforeMonth(y, 7) == 153 + feb;
    assert DaysBeforeMonth(y, 8) == 184 + feb;
    assert DaysBeforeMonth(y, 9) == 215 + feb;
    assert DaysBeforeMonth(y, 10) == 245 + feb;
    assert DaysBeforeMonth(y, 11) == 276 + feb;
    assert DaysBeforeMonth(y, 12) == 306 + feb;
  }

  /** The calendar day before, at the same time of day. */
  function PrevDay(dt: DateTime): (r: DateTime)
    requires Valid(dt) && !(dt.year == 1 && dt.month == 1 && dt.day == 1)
    ensures Valid(r)
  {
    if dt.day > 1 then dt.(day := dt.day - 1)
    else if dt.month > 1 then dt.(month := dt.month - 1, day := DaysInMonth(dt.year, dt.month - 1))
    else dt.(year := dt.year - 1, month := 12, day := 31)
  }

  /** `dt - timedelta(days=n)`, which overflows before 0001-01-01. */
  function MinusDays(dt: DateTime, n: nat): (r: Result<DateTime>)
    requires Valid(dt)
    ensures r.Ok? ==> Valid(r.value)
    ensures r.Err? ==> r.error == OverflowError
    decreases n
  {
    if n == 0 then Ok(dt)
    else if dt.year == 1 && dt.month == 1 && dt.day == 1 then Err(OverflowError)
    else MinusDays(PrevDay(dt), n - 1)
  }

  /** Subtracting n days lands n ordinals earlier and keeps the time of day and the offset. */
  lemma {:induction false} MinusDaysOrdinal(dt: DateTime, n: nat)
    requires Valid(dt) && MinusDays(dt, n).Ok?
    ensures Ordinal(MinusDays(dt, n).value) == Ordinal(dt) - n
    ensures MinusDays(dt, n).value == MinusDays(dt, n).value.(hour := dt.hour, minute := dt.minute,
                                                                second := dt.second, micro := dt.micro,
                                                                offset := dt.offset)
    decreases n
  {
    if n > 0 {
      var p := PrevDay(dt);
      if dt.day == 1 && dt.month == 1 {
        DaysInLastMonth(dt.year - 1);
      }
      assert Ordinal(p) == Ordinal(dt) - 1;
      MinusDaysOrdinal(p, n - 1);
    }
  }

  /** Before 0001-01-01 + n days there is nothing to subtract into: the overflow is exactly that case. */
  lemma {:induction false} MinusDaysOverflow(dt: DateTime, n: nat)
    requires Valid(dt)
    ensures MinusDays(dt, n).Ok? <==> Ordinal(dt) > n
    decreases n
  {
    OrdinalPositive(dt);
    if n > 0 {
      if dt.year == 1 && dt.month == 1 && dt.day == 1 {
        assert Ordinal(dt) == 1;
      } else {
        var p := PrevDay(dt);
        if dt.day == 1 && dt.month == 1 {
          DaysInLastMonth(dt.year - 1);
        }
        assert Ordinal(p) == Ordinal(dt) - 1;
        MinusDaysOverflow(p, n - 1);
      }
    }
  }

  lemma {:induction false} OrdinalPositive(dt: DateTime)
    requires Valid(dt)
    ensures Ordinal(dt) >= 1
    ensures Ordinal(dt) == 1 <==> dt.year == 1 && dt.month == 1 && dt.day == 1
  {
    DaysBeforeNonNegative(dt.year);
    MonthsBeforeNonNegative(dt.year, dt.month);
    if dt.year > 1 {
      DaysBeforeYearPositive(dt.year);
    }
    if dt.month > 1 {
      assert DaysBeforeMonth(dt.year, dt.month) >= DaysInMonth(dt.year, dt.month - 1) by {
        MonthsBeforeNonNegative(dt.year, dt.month - 1);
      }
    }
  }

  lemma {:induction false} DaysBeforeNonNegative(y: int)
    requires y >= 1
    ensures DaysBeforeYear(y) >= 0
  {
    if y > 1 { DaysBeforeNonNegative(y - 1); }
  }

  lemma DaysBeforeYearPositive(y: int)
    requires y > 1
    ensures DaysBeforeYear(y) >= 365
  {
    DaysBeforeNonNegative(y - 1);
  }

  lemma {:induction false} MonthsBeforeNonNegative(y: int, m: int)
    requires 1 <= m <= 12
    ensures DaysBeforeMonth(y, m) >= 0
  {
    if m > 1 { MonthsBeforeNonNegative(y, m - 1); }
  }
}
