/** The timestamp of an answer: seconds since the epoch as a civil date and time, against the calendar
  * counted day by day with the leap-year rule (RFC 3339, section 5.6 and appendix C). */
module Civil {
  import opened Basics

  // ---------------------------------------------------------------- the calendar

  datatype Stamp = Stamp(year: int, month: int, day: int, hour: int, minute: int, second: int)

  predicate Leap(y: int) { y % 4 == 0 && (y % 100 != 0 || y % 400 == 0) }

  function YearDays(y: int): nat { if Leap(y) then 366 else 365 }

  function MonthDays(y: int, m: int): nat
    requires 1 <= m <= 12
  {
    if m == 2 then (if Leap(y) then 29 else 28)
    else if m == 4 || m == 6 || m == 9 || m == 11 then 30
    else 31
  }

  /** Days from the first of January 1970 to the first of January of year `y`. */
  function DaysToYear(y: int): nat
    requires 1970 <= y
  {
    if y == 1970 then 0 else DaysToYear(y - 1) + YearDays(y - 1)
  }

  /** Days from the first of January to the first of month `m`. */
  function DaysToMonth(y: int, m: int): nat
    requires 1 <= m <= 12
  {
    if m == 1 then 0 else DaysToMonth(y, m - 1) + MonthDays(y, m - 1)
  }

  predicate ValidDate(y: int, m: int, d: int) {
    1970 <= y && 1 <= m <= 12 && 1 <= d <= MonthDays(y, m)
  }

  predicate ValidTime(h: int, mi: int, s: int) { 0 <= h < 24 && 0 <= mi < 60 && 0 <= s < 60 }

  predicate Valid(t: Stamp) { ValidDate(t.year, t.month, t.day) && ValidTime(t.hour, t.minute, t.second) }

  /** The days before a date, counted. */
  function DayNumber(y: int, m: int, d: int): nat
    requires ValidDate(y, m, d)
  {
    DaysToYear(y) + DaysToMonth(y, m) + d - 1
  }

  /** The seconds before a stamp, counted. */
  function Seconds(t: Stamp): nat
    requires Valid(t)
  {
    86400 * DayNumber(t.year, t.month, t.day) + 3600 * t.hour + 60 * t.minute + t.second
  }

  /** Days before the first of March of year `y`, from the first of March of year 0. */
  function ToMarch(y: nat): nat { 365 * y + y / 4 - y / 100 + y / 400 }

  function Every(y: nat, k: nat): nat
    requires k > 0
  {
    if y % k == 0 then 1 else 0
  }

  lemma Fourth(y: nat)
    ensures (y + 1) / 4 == y / 4 + Every(y + 1, 4)
  {
  }

  lemma Hundredth(y: nat)
    ensures (y + 1) / 100 == y / 100 + Every(y + 1, 100)
  {
  }

  lemma FourHundredth(y: nat)
    ensures (y + 1) / 400 == y / 400 + Every(y + 1, 400)
  {
  }

  lemma LeapIs(y: nat)
    ensures YearDays(y) == 365 + Every(y, 4) - Every(y, 100) + Every(y, 400)
  {
  }

  lemma NextMarch(y: nat)
    ensures ToMarch(y + 1) == ToMarch(y) + YearDays(y + 1)
  {
    hide Every, YearDays;
    Fourth(y);
    Hundredth(y);
    FourHundredth(y);
    LeapIs(y + 1);
  }

  lemma ToThirdMonth(y: int)
    ensures DaysToMonth(y, 3) == YearDays(y) - 306
  {
    assert DaysToMonth(y, 1) == 0 && DaysToMonth(y, 2) == 31;
  }

  /** The closed form counts what the leap-year rule counts. */
  lemma {:induction false} MarchIsCounted(y: nat)
    requires 1970 <= y
    ensures DaysToYear(y) + DaysToMonth(y, 3) + 719468 == ToMarch(y)
  {
    ToThirdMonth(y);
    if y > 1970 {
      MarchIsCounted(y - 1);
      NextMarch(y - 1);
      ToThirdMonth(y - 1);
    }
  }

  // ---------------------------------------------------------------- the arithmetic

  /** The year, from March, a day of a 400-year era falls in. */
  function YearOfEra(doe: nat): nat { (doe - doe / 1460 + doe / 36524 - doe / 146096) / 365 }

  /** The days before month `mp`, counted from March. */
  function MonthStart(mp: int): int { (153 * mp + 2) / 5 }

  /** The civil year, month and day of a day since the epoch. */
  function ToDate(days: nat): (int, int, int) {
    var z := days + 719468;
    var era := z / 146097;
    var doe := z - era * 146097;
    var yoe := YearOfEra(doe);
    var y := yoe + era * 400;
    var doy := DayOfYear(doe, yoe);
    var mp := (5 * doy + 2) / 153;
    var d := doy - MonthStart(mp) + 1;
    var m := if mp < 10 then mp + 3 else mp - 9;
    (if m <= 2 then y + 1 else y, m, d)
  }

  /** The day of the year, from March. */
  function DayOfYear(doe: nat, yoe: nat): int { doe - (365 * yoe + yoe / 4 - yoe / 100) }

  /** `rfc3339` up to the printing. */
  function ToStamp(secs: nat): Stamp {
    var days, rem := secs / 86400, secs % 86400;
    var date := ToDate(days);
    Stamp(date.0, date.1, date.2, rem / 3600, rem % 3600 / 60, rem % 60)
  }

  /** A day of an era by century, four years, year and day of the year. */
  predicate Splits(doe: nat, c: nat, q: nat, r: nat, k: nat) {
    && doe == 36524 * c + 1461 * q + 365 * r + k
    && c < 4 && q < 25 && r < 4 && k < 366
    && (k == 365 ==> r == 3 && (q < 24 || c == 3))
  }

  lemma Split(doe: nat) returns (c: nat, q: nat, r: nat, k: nat)
    requires doe < 146097
    ensures Splits(doe, c, q, r, k)
  {
    c := if doe < 3 * 36524 then doe / 36524 else 3;
    var w := doe - 36524 * c;
    assert w <= 36524 && (w == 36524 ==> c == 3);
    q := if w < 24 * 1461 then w / 1461 else 24;
    var u := w - 1461 * q;
    assert u <= 1460 && (u == 1460 ==> q < 24 || c == 3);
    r := if u < 3 * 365 then u / 365 else 3;
    k := u - 365 * r;
  }

  lemma Quarters(doe: nat, c: nat, q: nat, r: nat, k: nat)
    requires Splits(doe, c, q, r, k)
    ensures doe / 1460 == 25 * c + q || (k > 0 && doe / 1460 == 25 * c + q + 1)
    ensures k == 365 ==> doe / 1460 == 25 * c + q + 1
  {
  }

  lemma Centuries(doe: nat, c: nat, q: nat, r: nat, k: nat)
    requires Splits(doe, c, q, r, k)
    ensures doe / 36524 - doe / 146096 == c
  {
  }

  lemma QuarterIs(c: nat, q: nat, r: nat)
    requires r < 4
    ensures (100 * c + 4 * q + r) / 4 == 25 * c + q && (100 * c + 4 * q + r) % 4 == r
  {
  }

  lemma CenturyIs(c: nat, w: nat)
    requires w < 100
    ensures (100 * c + w) / 100 == c && (100 * c + w) % 100 == w
  {
  }

  /** The last of four years has a leap day after it, but at the end of three centuries in four. */
  lemma LeapAfter(c: nat, q: nat, r: nat)
    requires c < 4 && q < 25 && r < 4
    ensures YearDays(100 * c + 4 * q + r + 1) == 365 + if r == 3 && (q < 24 || c == 3) then 1 else 0
  {
    if r < 3 {
      QuarterIs(c, q, r + 1);
    } else if q < 24 {
      QuarterIs(c, q + 1, 0);
      CenturyIs(c, 4 * q + 4);
    } else {
      QuarterIs(c + 1, 0, 0);
      CenturyIs(c + 1, 0);
    }
  }

  lemma ToMarchIs(c: nat, q: nat, r: nat)
    requires c < 4 && q < 25 && r < 4
    ensures ToMarch(100 * c + 4 * q + r) == 36524 * c + 1461 * q + 365 * r
    ensures ToMarch(100 * c + 4 * q + r + 1) ==
      36524 * c + 1461 * q + 365 * r + 365 + if r == 3 && (q < 24 || c == 3) then 1 else 0
  {
    hide YearDays;
    var y := 100 * c + 4 * q + r;
    QuarterIs(c, q, r);
    CenturyIs(c, 4 * q + r);
    assert y / 400 == 0;
    NextMarch(y);
    LeapAfter(c, q, r);
  }

  /** The division by 365 finds the year whose days the day is among. */
  lemma YearFound(doe: nat)
    requires doe < 146097
    ensures YearOfEra(doe) < 400 && ToMarch(YearOfEra(doe)) <= doe < ToMarch(YearOfEra(doe) + 1)
  {
    var c, q, r, k := Split(doe);
    Quarters(doe, c, q, r, k);
    Centuries(doe, c, q, r, k);
    ToMarchIs(c, q, r);
    assert YearOfEra(doe) == 100 * c + 4 * q + r;
  }

  /** The division by 153 finds the month. */
  lemma MonthFound(doy: nat) returns (mp: nat)
    requires doy < 366
    ensures mp == (5 * doy + 2) / 153 && mp < 12 && MonthStart(mp) <= doy < MonthStart(mp + 1)
  {
    mp := (5 * doy + 2) / 153;
  }

  /** The start of month `mp` is where the calendar has it, from March on and in the next year. */
  lemma MonthStarts(y: int, mp: nat)
    requires mp < 12
    ensures mp < 10 ==> DaysToMonth(y, mp + 3) == DaysToMonth(y, 3) + MonthStart(mp)
    ensures mp < 10 ==> MonthDays(y, mp + 3) == MonthStart(mp + 1) - MonthStart(mp)
    ensures mp >= 10 ==> DaysToMonth(y, mp - 9) == MonthStart(mp) - 306
    ensures mp == 10 ==> MonthDays(y, 1) == MonthStart(11) - MonthStart(10)
    decreases mp
  {
    if 0 < mp < 10 {
      MonthStarts(y, mp - 1);
    } else if mp == 11 {
      assert DaysToMonth(y, 1) == 0;
    }
  }

  /** The civil date of day `doy` of the year that begins in March of `y`. */
  function MonthOf(mp: nat): nat { if mp < 10 then mp + 3 else mp - 9 }

  function YearOf(y: nat, mp: nat): nat { if MonthOf(mp) <= 2 then y + 1 else y }

  lemma DateFound(y: nat, doy: nat, mp: nat)
    requires mp < 12 && MonthStart(mp) <= doy < MonthStart(mp + 1) && doy < YearDays(y + 1)
    requires ToMarch(y) + doy >= 719468
    ensures 1970 <= YearOf(y, mp)
    ensures ValidDate(YearOf(y, mp), MonthOf(mp), doy - MonthStart(mp) + 1)
    ensures DayNumber(YearOf(y, mp), MonthOf(mp), doy - MonthStart(mp) + 1) + 719468 == ToMarch(y) + doy
  {
    SinceTheEpoch(y, doy);
    MonthStarts(YearOf(y, mp), mp);
    if mp < 10 {
      MarchIsCounted(y);
    } else {
      MarchIsCounted(y + 1);
      NextMarch(y);
      ToThirdMonth(y + 1);
    }
  }

  lemma SinceTheEpoch(y: nat, doy: nat)
    requires ToMarch(y) + doy >= 719468 && doy < 366
    ensures y >= 1969 && (y == 1969 ==> doy >= 306)
  {
    assert ToMarch(1969) == 719162 && ToMarch(1968) == 718797;
    MarchGrows(y, 1968);
    MarchGrows(y, 1969);
  }

  lemma MarchGrows(a: nat, b: nat)
    ensures a <= b ==> ToMarch(a) <= ToMarch(b)
    decreases b
  {
    if a < b {
      NextMarch(b - 1);
      MarchGrows(a, b - 1);
    }
  }

  lemma FourthShift(x: nat, n: nat)
    ensures (x + n * 400) / 4 == x / 4 + n * 100
  {
  }

  lemma HundredthShift(x: nat, n: nat)
    ensures (x + n * 400) / 100 == x / 100 + n * 4
  {
  }

  lemma FourHundredthShift(x: nat, n: nat)
    ensures (x + n * 400) / 400 == x / 400 + n
  {
  }

  lemma EraShift(era: nat, yoe: nat)
    ensures ToMarch(yoe + era * 400) == 146097 * era + ToMarch(yoe)
  {
    FourthShift(yoe, era);
    HundredthShift(yoe, era);
    FourHundredthShift(yoe, era);
  }

  lemma DayOfYearIs(doe: nat, yoe: nat)
    requires yoe < 400
    ensures DayOfYear(doe, yoe) == doe - ToMarch(yoe)
  {
  }

  /** Era, year and day of the year together are the day. */
  lemma DayPlaced(z: nat, era: nat, doe: nat, yoe: nat)
    requires era == z / 146097 && doe == z - era * 146097 && yoe == YearOfEra(doe)
    ensures 0 <= DayOfYear(doe, yoe) < YearDays(yoe + era * 400 + 1) <= 366
    ensures ToMarch(yoe + era * 400) + DayOfYear(doe, yoe) == z
  {
    hide ToMarch, YearOfEra;
    YearFound(doe);
    EraShift(era, yoe);
    EraShift(era, yoe + 1);
    NextMarch(yoe + era * 400);
    DayOfYearIs(doe, yoe);
  }

  /** For every day since the epoch, the date is valid and counting up to it gives the day back. */
  lemma DateIsCounted(days: nat)
    ensures ValidDate(ToDate(days).0, ToDate(days).1, ToDate(days).2)
    ensures DayNumber(ToDate(days).0, ToDate(days).1, ToDate(days).2) == days
  {
    hide ToMarch, YearOfEra, DayOfYear, YearDays, ValidDate, DayNumber, MonthStart;
    var z := days + 719468;
    var era := z / 146097;
    var doe := z - era * 146097;
    var yoe := YearOfEra(doe);
    DayPlaced(z, era, doe, yoe);
    var doy := DayOfYear(doe, yoe);
    var mp := MonthFound(doy);
    DateFound(yoe + era * 400, doy, mp);
  }

  /** For every second count, the stamp is a valid date and time of day, and counting the days and seconds
    * up to it by the calendar gives the count back. */
  lemma StampIsCounted(secs: nat)
    ensures Valid(ToStamp(secs)) && Seconds(ToStamp(secs)) == secs
  {
    hide ToDate, ValidDate, DayNumber;
    DateIsCounted(secs / 86400);
    TimeOfDay(secs % 86400);
  }

  lemma TimeOfDay(rem: nat)
    requires rem < 86400
    ensures ValidTime(rem / 3600, rem % 3600 / 60, rem % 60)
    ensures 3600 * (rem / 3600) + 60 * (rem % 3600 / 60) + rem % 60 == rem
  {
    var h, r := rem / 3600, rem % 3600;
    assert rem == 3600 * h + r && rem % 60 == r % 60;
  }

  // ---------------------------------------------------------------- one stamp for one second

  lemma {:induction false} YearsGrow(a: int, b: int)
    requires 1970 <= a < b
    ensures DaysToYear(a) + YearDays(a) <= DaysToYear(b)
    decreases b
  {
    if a < b - 1 {
      YearsGrow(a, b - 1);
    }
  }

  lemma {:induction false} MonthsGrow(y: int, a: int, b: int)
    requires 1 <= a < b <= 12
    ensures DaysToMonth(y, a) + MonthDays(y, a) <= DaysToMonth(y, b)
    decreases b
  {
    if a < b - 1 {
      MonthsGrow(y, a, b - 1);
    }
  }

  lemma InYear(y: int, m: int, d: int)
    requires ValidDate(y, m, d)
    ensures DaysToMonth(y, m) + d <= YearDays(y)
  {
    if m < 12 {
      MonthsGrow(y, m, 12);
    }
    MonthStarts(y, 9);
    ToThirdMonth(y);
  }

  /** An earlier date has a smaller number. */
  lemma DatesGrow(a: (int, int, int), b: (int, int, int))
    requires ValidDate(a.0, a.1, a.2) && ValidDate(b.0, b.1, b.2) && a != b
    ensures DayNumber(a.0, a.1, a.2) != DayNumber(b.0, b.1, b.2)
  {
    hide DaysToYear, DaysToMonth, YearDays, MonthDays;
    InYear(a.0, a.1, a.2);
    InYear(b.0, b.1, b.2);
    if a.0 < b.0 {
      YearsGrow(a.0, b.0);
    } else if b.0 < a.0 {
      YearsGrow(b.0, a.0);
    } else if a.1 < b.1 {
      MonthsGrow(a.0, a.1, b.1);
    } else if b.1 < a.1 {
      MonthsGrow(a.0, b.1, a.1);
    }
  }

  lemma SameDay(a: nat, p: nat, b: nat, q: nat)
    requires p < 86400 && q < 86400 && 86400 * a + p == 86400 * b + q
    ensures a == b && p == q
  {
  }

  lemma SameTime(h: nat, m: nat, s: nat, i: nat, n: nat, t: nat)
    requires m < 60 && s < 60 && n < 60 && t < 60 && 3600 * h + 60 * m + s == 3600 * i + 60 * n + t
    ensures h == i && m == n && s == t
  {
  }

  /** And the other way: every valid stamp is the one its count leads to. */
  lemma CountIsStamped(t: Stamp)
    requires Valid(t)
    ensures ToStamp(Seconds(t)) == t
  {
    hide ToStamp, ValidDate, DayNumber;
    var u := ToStamp(Seconds(t));
    StampIsCounted(Seconds(t));
    var a, b := DayNumber(t.year, t.month, t.day), DayNumber(u.year, u.month, u.day);
    var p, q := 3600 * t.hour + 60 * t.minute + t.second, 3600 * u.hour + 60 * u.minute + u.second;
    SameDay(a, p, b, q);
    if (t.year, t.month, t.day) != (u.year, u.month, u.day) {
      DatesGrow((t.year, t.month, t.day), (u.year, u.month, u.day));
    }
    SameTime(t.hour, t.minute, t.second, u.hour, u.minute, u.second);
  }

  // ---------------------------------------------------------------- the text

  function Digit(n: int): char { if 0 <= n < 10 then (48 + n) as char else '0' }

  function Decimal(n: nat): (s: string)
    ensures |s| >= 1
  {
    if n < 10 then [Digit(n)] else Decimal(n / 10) + [Digit(n % 10)]
  }

  function Zeros(n: nat): (s: string)
    ensures |s| == n
  {
    if n == 0 then "" else "0" + Zeros(n - 1)
  }

  /** At least `w` digits. */
  function Padded(n: int, w: nat): string {
    var s := Decimal(if n < 0 then 0 else n);
    if |s| < w then Zeros(w - |s|) + s else s
  }

  function Print(t: Stamp): string {
    Field(t.year, 4, '-', Field(t.month, 2, '-', Field(t.day, 2, 'T',
      Field(t.hour, 2, ':', Field(t.minute, 2, ':', Field(t.second, 2, 'Z', []))))))
  }

  function Field(n: int, w: nat, sep: char, rest: string): string { Padded(n, w) + ([sep] + rest) }

  function Value(s: string): int {
    if s == [] then 0 else 10 * Value(s[..|s| - 1]) + s[|s| - 1] as int - 48
  }

  predicate Digits(s: string) { forall i :: 0 <= i < |s| ==> '0' <= s[i] <= '9' }

  /** A field of exactly `w` digits and its separator, off the front of a text. */
  function Peel(s: string, w: nat, sep: char): Option<(int, string)> {
    if |s| > w && Digits(s[..w]) && s[w] == sep then Some((Value(s[..w]), s[w + 1..])) else None
  }

  /** The date-time of RFC 3339 without a fraction and in UTC: four digits of year, two of the rest. */
  function Read(s: string): Option<Stamp> {
    match Peel(s, 4, '-')
    case None => None
    case Some((year, s1)) => match Peel(s1, 2, '-')
    case None => None
    case Some((month, s2)) => match Peel(s2, 2, 'T')
    case None => None
    case Some((day, s3)) => match Peel(s3, 2, ':')
    case None => None
    case Some((hour, s4)) => match Peel(s4, 2, ':')
    case None => None
    case Some((minute, s5)) => match Peel(s5, 2, 'Z')
    case None => None
    case Some((second, s6)) =>
      if s6 == [] then Some(Stamp(year, month, day, hour, minute, second)) else None
  }

  lemma {:induction false} DecimalReads(n: nat)
    ensures Value(Decimal(n)) == n && Digits(Decimal(n))
    ensures n >= 10000 ==> |Decimal(n)| >= 5
    ensures n < 10000 ==> |Decimal(n)| <= 4
    ensures n < 100 ==> |Decimal(n)| <= 2
    decreases n
  {
    if n >= 10 {
      DecimalReads(n / 10);
      assert Decimal(n)[..|Decimal(n)| - 1] == Decimal(n / 10);
      DecimalLength(n);
    }
  }

  lemma DecimalLength(n: nat)
    ensures n < 100 ==> |Decimal(n)| <= 2
    ensures n < 10000 ==> |Decimal(n)| <= 4
    ensures n >= 10000 ==> |Decimal(n)| >= 5
  {
    if n >= 10000 {
      assert |Decimal(n)| == |Decimal(n / 10)| + 1;
      assert |Decimal(n / 10)| == |Decimal(n / 10 / 10)| + 1;
      assert |Decimal(n / 10 / 10)| == |Decimal(n / 10 / 10 / 10)| + 1;
      assert |Decimal(n / 10 / 10 / 10)| == |Decimal(n / 10 / 10 / 10 / 10)| + 1;
    } else if n >= 1000 {
      assert |Decimal(n / 10)| == |Decimal(n / 10 / 10)| + 1;
      assert |Decimal(n / 10 / 10)| == |Decimal(n / 10 / 10 / 10)| + 1;
    } else if n >= 100 {
      assert |Decimal(n / 10)| == |Decimal(n / 10 / 10)| + 1;
    }
  }

  lemma {:induction false} ZerosAreNothing(n: nat, s: string)
    requires Digits(s)
    ensures Value(Zeros(n) + s) == Value(s) && Digits(Zeros(n) + s)
    decreases n, |s|
  {
    hide Zeros;
    var all := Zeros(n) + s;
    if s != [] {
      assert all[..|all| - 1] == Zeros(n) + s[..|s| - 1];
      ZerosAreNothing(n, s[..|s| - 1]);
      assert all == (Zeros(n) + s[..|s| - 1]) + [s[|s| - 1]];
    } else if n > 0 {
      ZerosEnd(n);
      assert all == Zeros(n - 1) + s + "0";
      assert all[..|all| - 1] == Zeros(n - 1) + s;
      ZerosAreNothing(n - 1, s);
    } else {
      NoZeros();
    }
  }

  lemma NoZeros()
    ensures Zeros(0) + "" == ""
  {
  }

  lemma {:induction false} ZerosEnd(n: nat)
    requires n > 0
    ensures Zeros(n) == Zeros(n - 1) + "0"
  {
    if n > 1 {
      ZerosEnd(n - 1);
    }
  }

  lemma PaddedReads(n: nat, w: nat)
    requires (w == 2 && n < 100) || (w == 4 && n < 10000)
    ensures |Padded(n, w)| == w && Digits(Padded(n, w)) && Value(Padded(n, w)) == n
  {
    DecimalReads(n);
    var s := Decimal(n);
    if |s| < w {
      ZerosAreNothing(w - |s|, s);
    }
  }

  lemma YearBound(secs: nat)
    ensures ToStamp(secs).year <= 9999 <==> secs < 253402300800
  {
    hide ToStamp, DaysToYear, DaysToMonth, MonthDays;
    var t := ToStamp(secs);
    StampIsCounted(secs);
    MarchIsCounted(10000);
    ToThirdMonth(10000);
    InYear(t.year, t.month, t.day);
    if t.year < 10000 {
      YearsGrow(t.year, 10000);
    } else if t.year > 10000 {
      YearsGrow(10000, t.year);
    }
  }

  lemma Peels(n: int, w: nat, sep: char, rest: string)
    requires 0 <= n && ((w == 2 && n < 100) || (w == 4 && n < 10000))
    ensures Peel(Field(n, w, sep, rest), w, sep) == Some((n, rest))
  {
    hide Padded, Value;
    PaddedReads(n, w);
    var s := Field(n, w, sep, rest);
    assert s[..w] == Padded(n, w) && s[w + 1..] == rest;
  }

  lemma TooWide(n: int, rest: string)
    requires n >= 10000
    ensures Peel(Field(n, 4, '-', rest), 4, '-') == None
  {
    hide Value;
    DecimalReads(n);
    assert Field(n, 4, '-', rest)[4] == Decimal(n)[4];
  }

  /** The text reads as a date-time exactly up to the end of the year 9999, and then as the stamp. */
  lemma TextReads(secs: nat)
    ensures secs < 253402300800 ==> Read(Print(ToStamp(secs))) == Some(ToStamp(secs))
    ensures secs >= 253402300800 ==> Read(Print(ToStamp(secs))) == None
  {
    hide ToStamp, Field, Peel, DayNumber;
    var t := ToStamp(secs);
    StampIsCounted(secs);
    YearBound(secs);
    var s5 := Field(t.second, 2, 'Z', []);
    var s4 := Field(t.minute, 2, ':', s5);
    var s3 := Field(t.hour, 2, ':', s4);
    var s2 := Field(t.day, 2, 'T', s3);
    var s1 := Field(t.month, 2, '-', s2);
    if secs < 253402300800 {
      Peels(t.year, 4, '-', s1);
      Peels(t.month, 2, '-', s2);
      Peels(t.day, 2, 'T', s3);
      Peels(t.hour, 2, ':', s4);
      Peels(t.minute, 2, ':', s5);
      Peels(t.second, 2, 'Z', []);
    } else {
      TooWide(t.year, s1);
    }
  }

  /** The first second whose text no reader of RFC 3339 takes: it has five digits of year. */
  lemma FirstBadSecond()
    ensures ToStamp(253402300800) == Stamp(10000, 1, 1, 0, 0, 0)
    ensures Read(Print(ToStamp(253402300800))) == None
    ensures Read(Print(ToStamp(253402300799))) == Some(ToStamp(253402300799))
  {
    var t := Stamp(10000, 1, 1, 0, 0, 0);
    hide ToStamp, Read, Print, Valid, Seconds;
    TenThousand();
    CountIsStamped(t);
    TextReads(253402300800);
    TextReads(253402300799);
  }

  lemma TenThousand()
    ensures Valid(Stamp(10000, 1, 1, 0, 0, 0)) && Seconds(Stamp(10000, 1, 1, 0, 0, 0)) == 253402300800
  {
    var y := 10000;
    MarchIsCounted(y);
    ToThirdMonth(y);
    assert YearDays(y) == 366 && ToMarch(y) == 3652425;
    hide DaysToYear;
    assert DaysToMonth(y, 1) == 0;
  }
}
