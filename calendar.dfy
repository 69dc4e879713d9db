/** The proleptic Gregorian calendar of Python's datetime module, on ISO-formatted strings. */
module Calendar {
  import opened Wrappers
  import opened Strings

  predicate IsLeap(y: int)
  {
    y % 4 == 0 && (y % 100 != 0 || y % 400 == 0)
  }

  function DaysInMonth(y: int, m: int): int
    requires 1 <= m <= 12
  {
    if m == 2 then (if IsLeap(y) then 29 else 28)
    else if m == 4 || m == 6 || m == 9 || m == 11 then 30
    else 31
  }

  function DaysBeforeMonth(y: int, m: int): nat
    requires 1 <= m <= 12
  {
    if m == 1 then 0 else DaysBeforeMonth(y, m - 1) + DaysInMonth(y, m - 1)
  }

  function DaysBeforeYear(y: nat): nat
    requires y >= 1
  {
    var p := y - 1;
    p * 365 + p / 4 - p / 100 + p / 400
  }

  datatype Date = Date(year: int, month: int, day: int)
  {
    predicate Valid()
    {
      1 <= year <= 9999 && 1 <= month <= 12 && 1 <= day <= DaysInMonth(year, month)
    }

    /** Days since 0001-01-01 (date.toordinal() - 1). */
    function DayNumber(): nat
      requires Valid()
    {
      DaysBeforeYear(year) + DaysBeforeMonth(year, month) + day - 1
    }

    /** date.weekday(): Monday is 0; 0001-01-01 was a Monday. */
    function Weekday(): (r: nat)
      requires Valid()
      ensures r < 7
    {
      DayNumber() % 7
    }
  }


  function YearDays(y: int): nat
  {
    if IsLeap(y) then 366 else 365
  }

  lemma YearStep(y: nat)
    requires y >= 1
    ensures DaysBeforeYear(y + 1) == DaysBeforeYear(y) + YearDays(y)
  {
    assert DaysBeforeYear(y + 1) == y * 365 + y / 4 - y / 100 + y / 400;
    assert DaysBeforeYear(y) == (y - 1) * 365 + (y - 1) / 4 - (y - 1) / 100 + (y - 1) / 400;
    QuotientStep(y);
    MultipleOfMultiple(y);
  }

  /** A multiple of 400 is a multiple of 100, and a multiple of 100 one of 4. */
  lemma MultipleOfMultiple(y: nat)
    ensures y % 400 == 0 ==> y % 100 == 0
    ensures y % 100 == 0 ==> y % 4 == 0
  {
    if y % 400 == 0 {
      assert y == 100 * (4 * (y / 400));
    }
    if y % 100 == 0 {
      assert y == 4 * (25 * (y / 100));
    }
  }

  /** The quotients by 4, 100 and 400 grow by one exactly at a multiple. */
  lemma QuotientStep(y: nat)
    requires y >= 1
    ensures y / 4 == (y - 1) / 4 + (if y % 4 == 0 then 1 else 0)
    ensures y / 100 == (y - 1) / 100 + (if y % 100 == 0 then 1 else 0)
    ensures y / 400 == (y - 1) / 400 + (if y % 400 == 0 then 1 else 0)
  {
  }

  lemma {:induction false} YearMonotone(a: nat, b: nat)
    requires 1 <= a <= b
    ensures DaysBeforeYear(a) <= DaysBeforeYear(b)
    decreases b - a
  {
    if a < b {
      YearStep(a);
      YearMonotone(a + 1, b);
    }
  }

  lemma MonthsFillYear(y: int)
    ensures DaysBeforeMonth(y, 12) + DaysInMonth(y, 12) == YearDays(y)
  {
    var leap := if IsLeap(y) then 1 else 0;
    assert DaysBeforeMonth(y, 2) == 31;
    assert DaysBeforeMonth(y, 3) == 59 + leap;
    assert DaysBeforeMonth(y, 4) == 90 + leap;
    assert DaysBeforeMonth(y, 5) == 120 + leap;
    assert DaysBeforeMonth(y, 6) == 151 + leap;
    assert DaysBeforeMonth(y, 7) == 181 + leap;
    assert DaysBeforeMonth(y, 8) == 212 + leap;
    assert DaysBeforeMonth(y, 9) == 243 + leap;
    assert DaysBeforeMonth(y, 10) == 273 + leap;
    assert DaysBeforeMonth(y, 11) == 304 + leap;
    assert DaysBeforeMonth(y, 12) == 334 + leap;
  }

  /** The year holding day number n, searched upwards from y. */
  function YearOf(n: nat, y: nat): (r: nat)
    requires 1 <= y && DaysBeforeYear(y) <= n
    ensures r >= y && DaysBeforeYear(r) <= n < DaysBeforeYear(r + 1)
    decreases n - DaysBeforeYear(y)
  {
    YearStep(y);
    if n < DaysBeforeYear(y + 1) then y else YearOf(n, y + 1)
  }

  /** The month holding day k (counted from 0) of year y, searched upwards from m. */
  function MonthOf(y: int, k: nat, m: int): (r: int)
    requires 1 <= m <= 12 && DaysBeforeMonth(y, m) <= k < YearDays(y)
    ensures m <= r <= 12 && DaysBeforeMonth(y, r) <= k < DaysBeforeMonth(y, r) + DaysInMonth(y, r)
    decreases 12 - m
  {
    MonthsFillYear(y);
    if k < DaysBeforeMonth(y, m) + DaysInMonth(y, m) || m == 12 then m else MonthOf(y, k, m + 1)
  }

  /** date.min + timedelta(days=n): the inverse of Date.DayNumber. */
  function FromDayNumber(n: nat): (d: Date)
    requires n <= MaxDayNumber
    ensures d.Valid() && d.DayNumber() == n
  {
    var y := YearOf(n, 1);
    assert y < 10000;
    YearStep(y);
    var k := n - DaysBeforeYear(y);
    var m := MonthOf(y, k, 1);
    Date(y, m, k - DaysBeforeMonth(y, m) + 1)
  }

  function DigitsAt(s: string, i: nat, n: nat): nat
    requires i + n <= |s| && AllDigits(s[i..i + n])
  {
    DigitsValue(s[i..i + n])
  }

  /**
   * date.fromisoformat on the extended form YYYY-MM-DD; None stands for the
   * ValueError raised for any other string.
   */
  function ParseIsoDate(s: string): (r: Option<Date>)
    ensures r.Some? ==> r.value.Valid()
  {
    if |s| == 10 && s[4] == '-' && s[7] == '-'
       && AllDigits(s[0..4]) && AllDigits(s[5..7]) && AllDigits(s[8..10]) then
      var d := Date(DigitsAt(s, 0, 4), DigitsAt(s, 5, 2), DigitsAt(s, 8, 2));
      if d.Valid() then Some(d) else None
    else None
  }

  predicate IsIsoDate(s: string)
  {
    ParseIsoDate(s).Some?
  }

  /** The microseconds in a day; a UTC offset lies strictly between its negation and it. */
  const DayMicros: int := 86400000000

  /**
   * A time of day as datetime.fromisoformat reads it after the date: the
   * second of the day, the microseconds and, when one is given, the UTC
   * offset in microseconds.
   */
  datatype ClockTime = ClockTime(secs: nat, micros: nat, offset: Option<int>)
  {
    predicate Valid()
    {
      secs < 86400 && micros < 1000000 && (offset.Some? ==> -DayMicros < offset.value < DayMicros)
    }
  }

  function Pow10(n: nat): nat
  {
    if n == 0 then 1 else 10 * Pow10(n - 1)
  }

  lemma {:induction false} DigitsBelow(s: string)
    requires AllDigits(s)
    ensures DigitsValue(s) < Pow10(|s|)
  {
    if s != [] {
      DigitsBelow(s[..|s| - 1]);
    }
  }

  /**
   * HH[:MM[:SS[.fff[fff]]]] as hours, minutes, seconds and microseconds
   * (three fraction digits are milliseconds); None stands for the
   * ValueError of a malformed field. The ranges are checked by the caller.
   */
  function ClockFields(s: string): (r: Option<(nat, nat, nat, nat)>)
    ensures r.Some? ==> r.value.3 < 1000000
    ensures r.Some? ==> |s| >= 2 && IsDigit(s[0]) && IsDigit(s[|s| - 1])
  {
    if |s| < 2 || !AllDigits(s[0..2]) then None
    else if |s| == 2 then Some((DigitsAt(s, 0, 2), 0, 0, 0))
    else if |s| < 5 || s[2] != ':' || !AllDigits(s[3..5]) then None
    else if |s| == 5 then Some((DigitsAt(s, 0, 2), DigitsAt(s, 3, 2), 0, 0))
    else if |s| < 8 || s[5] != ':' || !AllDigits(s[6..8]) then None
    else if |s| == 8 then Some((DigitsAt(s, 0, 2), DigitsAt(s, 3, 2), DigitsAt(s, 6, 2), 0))
    else if s[8] == '.' && (|s| == 12 || |s| == 15) && AllDigits(s[9..]) then
      var f := DigitsValue(s[9..]);
      DigitsBelow(s[9..]);
      assert Pow10(3) == 1000 && Pow10(6) == 1000000;
      assert s[|s| - 1] == s[9..][|s| - 10];
      Some((DigitsAt(s, 0, 2), DigitsAt(s, 3, 2), DigitsAt(s, 6, 2), if |s| == 12 then f * 1000 else f))
    else None
  }

  /** Where the UTC offset starts: the first '+' or '-' of s, or |s| when there is none. */
  function SignAt(s: string): (k: nat)
    ensures k <= |s|
    ensures forall i :: 0 <= i < k ==> s[i] != '+' && s[i] != '-'
    ensures k < |s| ==> s[k] == '+' || s[k] == '-'
  {
    if s == [] || s[0] == '+' || s[0] == '-' then 0 else 1 + SignAt(s[1..])
  }

  /**
   * The UTC offset after its sign: HH:MM, HH:MM:SS or HH:MM:SS.ffffff;
   * timezone() refuses an offset of a whole day or more.
   */
  function ParseOffset(sign: char, z: string): (r: Option<int>)
    ensures r.Some? ==> -DayMicros < r.value < DayMicros
    ensures r.Some? ==> z != [] && IsDigit(z[|z| - 1])
  {
    if |z| == 5 || |z| == 8 || |z| == 15 then
      match ClockFields(z)
      case Some((h, m, sec, us)) =>
        var mag := (h * 3600 + m * 60 + sec) * 1000000 + us;
        var off := if sign == '-' then -mag else mag;
        if -DayMicros < off < DayMicros then Some(off) else None
      case None => None
    else None
  }

  /**
   * The time after the date in datetime.fromisoformat (Python 3.7 to 3.10):
   * HH[:MM[:SS[.fff[fff]]]], then optionally '+' or '-' and a UTC offset.
   * None stands for the ValueError raised for anything else.
   */
  function ParseIsoTime(s: string): (r: Option<ClockTime>)
    ensures r.Some? ==> r.value.Valid()
  {
    var k := SignAt(s);
    match ClockFields(s[..k])
    case None => None
    case Some((h, m, sec, us)) =>
      (match TimeOfFields(h, m, sec)
       case None => None
       case Some(secs) =>
         if k == |s| then Some(ClockTime(secs, us, None))
         else
           (match ParseOffset(s[k], s[k + 1..])
            case None => None
            case Some(off) => Some(ClockTime(secs, us, Some(off)))))
  }

  /** The second of the day hours:minutes:seconds names, None when a field is out of range. */
  function TimeOfFields(h: nat, m: nat, sec: nat): (r: Option<nat>)
    ensures r.Some? ==> r.value < 86400
  {
    if h < 24 && m < 60 && sec < 60 then Some(h * 3600 + m * 60 + sec) else None
  }

  predicate IsIsoTime(s: string)
  {
    ParseIsoTime(s).Some?
  }

  /** A time that parses starts and ends with a digit. */
  lemma IsoTimeEnds(s: string)
    requires IsIsoTime(s)
    ensures s != [] && IsDigit(s[0]) && IsDigit(s[|s| - 1])
  {
    var k := SignAt(s);
    assert ClockFields(s[..k]).Some?;
    assert s[0] == s[..k][0];
    if k < |s| {
      var z := s[k + 1..];
      assert ParseOffset(s[k], z).Some?;
      assert s[|s| - 1] == z[|z| - 1];
    } else {
      assert s[..k] == s;
    }
  }

  function TwoDigits(n: nat): (r: string)
    requires n < 100
    ensures |r| == 2 && AllDigits(r)
  {
    [DigitChar(n / 10), DigitChar(n % 10)]
  }

  /** time.isoformat() for whole seconds: HH:MM:SS */
  function TimeIsoFormat(secs: nat): (r: string)
    requires secs < 86400
    ensures |r| == 8
  {
    TwoDigits(secs / 3600) + ":" + TwoDigits(secs % 3600 / 60) + ":" + TwoDigits(secs % 60)
  }

  function SixDigits(n: nat): (r: string)
    requires n < 1000000
    ensures |r| == 6 && AllDigits(r)
  {
    TwoDigits(n / 10000) + TwoDigits(n / 100 % 100) + TwoDigits(n % 100)
  }

  /** Microseconds as isoformat() writes them: nothing for none, else '.' and six digits. */
  function FractionText(us: nat): (r: string)
    requires us < 1000000
  {
    if us == 0 then "" else "." + SixDigits(us)
  }

  /** A UTC offset as isoformat() writes it: its sign, then its size. */
  function OffsetText(offset: Option<int>): (r: string)
    requires offset.Some? ==> -DayMicros < offset.value < DayMicros
  {
    match offset
    case None => ""
    case Some(off) => [OffsetSign(off)] + OffsetDigits(OffsetSize(off))
  }

  /** The sign isoformat() writes before an offset; zero counts as positive. */
  function OffsetSign(off: int): (c: char)
    ensures c == '-' <==> off < 0
    ensures c == '+' || c == '-'
  {
    if off < 0 then '-' else '+'
  }

  /** The size of an offset, which its sign turns back into the offset. */
  function OffsetSize(off: int): (a: nat)
    ensures (if OffsetSign(off) == '-' then -(a as int) else a as int) == off
  {
    if off < 0 then -off else off
  }

  /**
   * The size of a UTC offset, given in microseconds: HH:MM, then :SS only
   * when there are seconds or microseconds, and .ffffff only for microseconds.
   */
  function OffsetDigits(a: nat): (r: string)
    requires a < DayMicros
  {
    var f := OffsetFields(a);
    OffsetFieldsText(f.0, f.1, f.2, f.3)
  }

  /** Hours and minutes, then seconds and microseconds only when either is nonzero. */
  function OffsetFieldsText(h: nat, m: nat, sec: nat, us: nat): (r: string)
    requires h < 100 && m < 100 && sec < 100 && us < 1000000
  {
    TwoDigits(h) + ":" + TwoDigits(m)
    + (if sec == 0 && us == 0 then "" else ":" + TwoDigits(sec) + FractionText(us))
  }

  /**
   * datetime.isoformat() after the 'T': the time, the microseconds when
   * there are any, and the UTC offset when the time carries one.
   */
  function ClockIsoFormat(t: ClockTime): (r: string)
    requires t.Valid()
  {
    TimeIsoFormat(t.secs) + FractionText(t.micros) + OffsetText(t.offset)
  }

  /** datetime.fromisoformat reads back the time, microseconds and offset isoformat() wrote. */
  lemma ClockIsoFormatParses(t: ClockTime)
    requires t.Valid()
    ensures ParseIsoTime(ClockIsoFormat(t)) == Some(t)
  {
    var hh, mm, ss := TwoDigits(t.secs / 3600), TwoDigits(t.secs % 3600 / 60), TwoDigits(t.secs % 60);
    var frac := FractionText(t.micros);
    var head := hh + ":" + mm + ":" + ss + frac;
    assert head == TimeIsoFormat(t.secs) + frac;
    FractionShape(t.micros);
    ClockFieldsHMS(hh, mm, ss, frac);
    TwoDigitsValue(t.secs / 3600);
    TwoDigitsValue(t.secs % 3600 / 60);
    TwoDigitsValue(t.secs % 60);
    SecondsSplit(t.secs);
    var z := OffsetText(t.offset);
    if t.offset.Some? {
      var off := t.offset.value;
      var a, sign := OffsetSize(off), OffsetSign(off);
      OffsetDigitsParse(sign, a);
      ParseIsoTimeOf(head, z, t.secs / 3600, t.secs % 3600 / 60, t.secs % 60, t.micros, t.secs, sign, OffsetDigits(a), t.offset);
    } else {
      ParseIsoTimeOf(head, z, t.secs / 3600, t.secs % 3600 / 60, t.secs % 60, t.micros, t.secs, '+', "", t.offset);
    }
  }

  /** A time without a sign followed by nothing or by a signed offset, read as a whole. */
  lemma ParseIsoTimeOf(head: string, z: string, h: nat, m: nat, sec: nat, us: nat, secs: nat,
                       sign: char, w: string, off: Option<int>)
    requires NoSign(head) && ClockFields(head) == Some((h, m, sec, us)) && TimeOfFields(h, m, sec) == Some(secs)
    requires off.None? ==> z == []
    requires off.Some? ==> z == [sign] + w && (sign == '+' || sign == '-') && ParseOffset(sign, w) == off
    ensures ParseIsoTime(head + z) == Some(ClockTime(secs, us, off))
  {
    var s := head + z;
    SignAtAppend(head, z);
    assert s[..|head|] == head;
    if off.Some? {
      assert s[|head|] == sign;
      assert s[|head| + 1..] == w;
    } else {
      assert s == head;
    }
  }

  /** A second of the day is its hours, minutes and seconds put back together. */
  lemma SecondsSplit(secs: nat)
    requires secs < 86400
    ensures TimeOfFields(secs / 3600, secs % 3600 / 60, secs % 60) == Some(secs)
  {
    assert secs / 3600 * 3600 + secs % 3600 / 60 * 60 + secs % 60 == secs;
  }

  predicate NoSign(s: string)
  {
    forall i :: 0 <= i < |s| ==> s[i] != '+' && s[i] != '-'
  }

  lemma {:induction false} SignAtAppend(a: string, b: string)
    requires NoSign(a) && (b == [] || b[0] == '+' || b[0] == '-')
    ensures SignAt(a + b) == |a|
  {
    if a != [] {
      assert (a + b)[1..] == a[1..] + b;
      SignAtAppend(a[1..], b);
    } else {
      assert a + b == b;
    }
  }

  /** What FractionText writes: nothing, or '.' and the six digits of the microseconds. */
  lemma FractionShape(us: nat)
    requires us < 1000000
    ensures var f := FractionText(us);
      NoSign(f) && (f == [] <==> us == 0) &&
      (f != [] ==> |f| == 7 && f[0] == '.' && AllDigits(f[1..]) && DigitsValue(f[1..]) == us)
  {
    if us != 0 {
      var f := FractionText(us);
      assert f[1..] == SixDigits(us);
      SixDigitsValue(us);
    }
  }

  lemma SixDigitsValue(n: nat)
    requires n < 1000000
    ensures DigitsValue(SixDigits(n)) == n
  {
    var hi, mid, lo := n / 10000, n / 100 % 100, n % 100;
    var a, b, c := TwoDigits(hi), TwoDigits(mid), TwoDigits(lo);
    TwoDigitsValue(hi);
    TwoDigitsValue(mid);
    TwoDigitsValue(lo);
    DigitsValueConcat2(a, b);
    DigitsValueConcat2(a + b, c);
    assert SixDigits(n) == (a + b) + c;
    HundredsSplit(n);
  }

  /** n is its three pairs of decimal digits put back together. */
  lemma HundredsSplit(n: nat)
    ensures 100 * (100 * (n / 10000) + n / 100 % 100) + n % 100 == n
  {
    assert n / 100 / 100 == n / 10000;
  }

  /** HH:MM:SS, optionally followed by '.' and six digits, read field by field. */
  lemma ClockFieldsSeconds(s: string)
    requires |s| == 8 || (|s| == 15 && s[8] == '.' && AllDigits(s[9..]))
    requires s[2] == ':' && s[5] == ':' && AllDigits(s[0..2]) && AllDigits(s[3..5]) && AllDigits(s[6..8])
    ensures ClockFields(s) == Some((DigitsAt(s, 0, 2), DigitsAt(s, 3, 2), DigitsAt(s, 6, 2), if |s| == 8 then 0 else DigitsValue(s[9..])))
  {
  }

  /** 'hh:mm:ss' followed by nothing or by '.' and six digits, field by field. */
  lemma ClockFieldsHMS(hh: string, mm: string, ss: string, frac: string)
    requires |hh| == 2 && |mm| == 2 && |ss| == 2 && AllDigits(hh) && AllDigits(mm) && AllDigits(ss)
    requires frac == [] || (|frac| == 7 && frac[0] == '.' && AllDigits(frac[1..]))
    ensures var s := hh + ":" + mm + ":" + ss + frac;
      NoSign(s) && ClockFields(s) == Some((DigitsValue(hh), DigitsValue(mm), DigitsValue(ss), if frac == [] then 0 else DigitsValue(frac[1..])))
  {
    var s := hh + ":" + mm + ":" + ss + frac;
    HMSPositions(hh, mm, ss, frac);
    ClockFieldsSeconds(s);
  }

  /** Where the fields of 'hh:mm:ss' and of the fraction after it sit. */
  lemma HMSPositions(hh: string, mm: string, ss: string, frac: string)
    requires |hh| == 2 && |mm| == 2 && |ss| == 2 && AllDigits(hh) && AllDigits(mm) && AllDigits(ss)
    requires frac == [] || (|frac| == 7 && frac[0] == '.' && AllDigits(frac[1..]))
    ensures var s := hh + ":" + mm + ":" + ss + frac;
      |s| == 8 + |frac| && s[2] == ':' && s[5] == ':' && s[0..2] == hh && s[3..5] == mm && s[6..8] == ss &&
      (frac != [] ==> s[8] == '.' && s[9..] == frac[1..]) && NoSign(s)
  {
    var t := hh + ":" + mm + ":" + ss;
    var s := t + frac;
    assert s == hh + ":" + mm + ":" + ss + frac;
    HMSFields(hh, mm, ss);
    assert s[0..8] == t;
    assert s[0..2] == t[0..2] && s[3..5] == t[3..5] && s[6..8] == t[6..8];
    if frac != [] {
      assert s[9..] == frac[1..];
    }
    forall i | 0 <= i < |s| ensures s[i] != '+' && s[i] != '-' {
      if i < 8 {
        assert s[i] == t[i];
      } else if i > 8 {
        assert s[i] == frac[1..][i - 9];
      }
    }
  }

  /** Where the three fields of 'hh:mm:ss' sit; none of its characters is a sign. */
  lemma HMSFields(hh: string, mm: string, ss: string)
    requires |hh| == 2 && |mm| == 2 && |ss| == 2 && AllDigits(hh) && AllDigits(mm) && AllDigits(ss)
    ensures var t := hh + ":" + mm + ":" + ss;
      |t| == 8 && t[2] == ':' && t[5] == ':' && t[0..2] == hh && t[3..5] == mm && t[6..8] == ss && NoSign(t)
  {
    var t := hh + ":" + mm + ":" + ss;
    forall i | 0 <= i < 8 ensures t[i] != '+' && t[i] != '-' {
      if i < 2 {
        assert t[i] == hh[i];
      } else if 3 <= i < 5 {
        assert t[i] == mm[i - 3];
      } else if 6 <= i {
        assert t[i] == ss[i - 6];
      }
    }
  }

  lemma ClockFieldsHM(hh: string, mm: string)
    requires |hh| == 2 && |mm| == 2 && AllDigits(hh) && AllDigits(mm)
    ensures ClockFields(hh + ":" + mm) == Some((DigitsValue(hh), DigitsValue(mm), 0, 0))
  {
    var s := hh + ":" + mm;
    assert s[0..2] == hh && s[3..5] == mm;
  }

  /** An offset text is empty or starts with its sign. */
  lemma OffsetShape(offset: Option<int>)
    requires offset.Some? ==> -DayMicros < offset.value < DayMicros
    ensures var z := OffsetText(offset);
      (z == [] <==> offset.None?) && (z != [] ==> z[0] == '+' || z[0] == '-')
  {
  }

  /** The size of an offset, after either sign, reads back as the signed offset. */
  lemma OffsetDigitsParse(sign: char, a: nat)
    requires a < DayMicros
    ensures ParseOffset(sign, OffsetDigits(a)) == Some(if sign == '-' then -(a as int) else a as int)
  {
    var f := OffsetFields(a);
    OffsetDigitsFields(a);
    MicrosSplit(a);
    ParseOffsetOf(sign, OffsetDigits(a), f.0, f.1, f.2, f.3, a);
  }

  /** The hours, minutes, seconds and microseconds of a duration given in microseconds. */
  function OffsetFields(a: nat): (r: (nat, nat, nat, nat))
    ensures r.1 < 60 && r.2 < 60 && r.3 < 1000000
    ensures a < DayMicros ==> r.0 < 24
  {
    var secs := a / 1000000;
    (secs / 3600, secs % 3600 / 60, secs % 60, a % 1000000)
  }

  lemma ParseOffsetOf(sign: char, w: string, h: nat, m: nat, sec: nat, us: nat, mag: nat)
    requires (|w| == 5 || |w| == 8 || |w| == 15) && ClockFields(w) == Some((h, m, sec, us))
    requires (h * 3600 + m * 60 + sec) * 1000000 + us == mag && mag < DayMicros
    ensures ParseOffset(sign, w) == Some(if sign == '-' then -(mag as int) else mag as int)
  {
  }

  /** The size of an offset has one of the three lengths fromisoformat takes, and reads back field by field. */
  lemma OffsetDigitsFields(a: nat)
    requires a < DayMicros
    ensures var w := OffsetDigits(a);
      (|w| == 5 || |w| == 8 || |w| == 15) && ClockFields(w) == Some(OffsetFields(a))
  {
    var f := OffsetFields(a);
    OffsetFieldsTextReads(f.0, f.1, f.2, f.3);
  }

  /** The fields of an offset, written out, have a length fromisoformat takes and read back. */
  lemma OffsetFieldsTextReads(h: nat, m: nat, sec: nat, us: nat)
    requires h < 100 && m < 100 && sec < 100 && us < 1000000
    ensures var w := OffsetFieldsText(h, m, sec, us);
      (|w| == 5 || |w| == 8 || |w| == 15) && ClockFields(w) == Some((h, m, sec, us))
  {
    if sec == 0 && us == 0 {
      assert OffsetFieldsText(h, m, sec, us) == TwoDigits(h) + ":" + TwoDigits(m);
      HMTextReads(h, m);
    } else {
      assert OffsetFieldsText(h, m, sec, us) == TwoDigits(h) + ":" + TwoDigits(m) + ":" + TwoDigits(sec) + FractionText(us);
      HMSTextReads(h, m, sec, us);
    }
  }

  lemma HMTextReads(h: nat, m: nat)
    requires h < 100 && m < 100
    ensures ClockFields(TwoDigits(h) + ":" + TwoDigits(m)) == Some((h, m, 0, 0))
  {
    TwoDigitsValue(h);
    TwoDigitsValue(m);
    ClockFieldsHM(TwoDigits(h), TwoDigits(m));
  }

  lemma HMSTextReads(h: nat, m: nat, sec: nat, us: nat)
    requires h < 100 && m < 100 && sec < 100 && us < 1000000 && (sec != 0 || us != 0)
    ensures var w := TwoDigits(h) + ":" + TwoDigits(m) + ":" + TwoDigits(sec) + FractionText(us);
      (|w| == 8 || |w| == 15) && ClockFields(w) == Some((h, m, sec, us))
  {
    TwoDigitsValue(h);
    TwoDigitsValue(m);
    TwoDigitsValue(sec);
    FractionShape(us);
    ClockFieldsHMS(TwoDigits(h), TwoDigits(m), TwoDigits(sec), FractionText(us));
  }

  /** Microseconds split into hours, minutes, seconds and microseconds add back up. */
  lemma MicrosSplit(a: nat)
    ensures var f := OffsetFields(a);
      (f.0 * 3600 + f.1 * 60 + f.2) * 1000000 + f.3 == a
  {
    var secs := a / 1000000;
    var h, r := secs / 3600, secs % 3600;
    var m, sec := r / 60, r % 60;
    assert secs == h * 3600 + r;
    assert r == m * 60 + sec;
    assert secs == (h * 60 + m) * 60 + sec;
    assert secs % 60 == sec;
    assert a == secs * 1000000 + a % 1000000;
  }

  function FourDigits(n: nat): (r: string)
    requires n < 10000
    ensures |r| == 4 && AllDigits(r)
  {
    TwoDigits(n / 100) + TwoDigits(n % 100)
  }

  lemma TwoDigitsValue(n: nat)
    requires n < 100
    ensures DigitsValue(TwoDigits(n)) == n
  {
    var hi, lo := DigitChar(n / 10), DigitChar(n % 10);
    var r := TwoDigits(n);
    DigitCharValue(n / 10);
    DigitCharValue(n % 10);
    assert r[..1] == [hi] && r[1] == lo;
    assert [hi][..0] == [];
    assert DigitsValue([hi]) == n / 10;
    assert DigitsValue(r) == 10 * DigitsValue([hi]) + (lo as int - '0' as int);
  }

  lemma DigitsValueConcat2(hi: string, lo: string)
    requires AllDigits(hi) && AllDigits(lo) && |lo| == 2
    ensures AllDigits(hi + lo) && DigitsValue(hi + lo) == 100 * DigitsValue(hi) + DigitsValue(lo)
  {
    var r := hi + lo;
    var mid := hi + [lo[0]];
    var d0, d1 := lo[0] as int - '0' as int, lo[1] as int - '0' as int;
    assert r[..|r| - 1] == mid;
    assert mid[..|mid| - 1] == hi;
    assert DigitsValue(mid) == 10 * DigitsValue(hi) + d0;
    assert lo[..1] == [lo[0]];
    assert lo[..1][..0] == [];
    assert DigitsValue(lo[..1]) == d0;
    assert DigitsValue(lo) == 10 * d0 + d1;
    assert DigitsValue(r) == 10 * DigitsValue(mid) + d1;
  }

  lemma FourDigitsValue(n: nat)
    requires n < 10000
    ensures DigitsValue(FourDigits(n)) == n
  {
    TwoDigitsValue(n / 100);
    TwoDigitsValue(n % 100);
    DigitsValueConcat2(TwoDigits(n / 100), TwoDigits(n % 100));
  }

  /** date.isoformat(): YYYY-MM-DD */
  function IsoFormat(d: Date): (r: string)
    requires d.Valid()
    ensures |r| == 10
  {
    FourDigits(d.year) + "-" + TwoDigits(d.month) + "-" + TwoDigits(d.day)
  }

  /** date.fromisoformat(d.isoformat()) == d */
  lemma ParseIsoFormat(d: Date)
    requires d.Valid()
    ensures ParseIsoDate(IsoFormat(d)) == Some(d)
  {
    var s := IsoFormat(d);
    assert s[0..4] == FourDigits(d.year);
    assert s[5..7] == TwoDigits(d.month);
    assert s[8..10] == TwoDigits(d.day);
    FourDigitsValue(d.year);
    TwoDigitsValue(d.month);
    TwoDigitsValue(d.day);
  }

  /** The number of days from 0001-01-01 to 9999-12-31 (date.max). */
  const MaxDayNumber: nat := 3652058
}
