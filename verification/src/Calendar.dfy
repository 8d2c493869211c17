/** The date arithmetic behind object-store request signing (rust/src/object_store.rs). */
module Calendar {

  datatype Date = Date(year: int, month: int, day: int)

  // ---- the Gregorian calendar --------------------------------------------------------

  predicate Leap(year: int) {
    year % 4 == 0 && (year % 100 != 0 || year % 400 == 0)
  }

  function MonthLength(year: int, month: int): int {
    if month == 2 then if Leap(year) then 29 else 28
    else if month in {4, 6, 9, 11} then 30 else 31
  }

  predicate Valid(date: Date) {
    1 <= date.month <= 12 && 1 <= date.day <= MonthLength(date.year, date.month)
  }

  function NextDay(date: Date): Date {
    if date.day < MonthLength(date.year, date.month) then date.(day := date.day + 1)
    else if date.month < 12 then Date(date.year, date.month + 1, 1)
    else Date(date.year + 1, 1, 1)
  }

  // ---- civil_from_days ---------------------------------------------------------------

  /** Division that truncates toward zero, as Rust's. */
  function Quotient(a: int, b: int): int
    requires b > 0
  {
    if a >= 0 then a / b else -((-a) / b)
  }

  function Era(z: int): int {
    Quotient(if z >= 0 then z else z - 146_096, 146_097)
  }

  function YearOfEra(doe: int): int {
    (doe - doe / 1_460 + doe / 36_524 - doe / 146_096) / 365
  }

  /** Days of an era before its March-based year `yoe`. */
  function YearStart(yoe: int): int {
    365 * yoe + yoe / 4 - yoe / 100
  }

  /** Days of a March-based year before its month `mp`. */
  function MonthStart(mp: int): int {
    (153 * mp + 2) / 5
  }

  function CivilFromDays(days: int): Date {
    var z := days + 719_468;
    var era := Era(z);
    var doe := z - era * 146_097;
    var yoe := YearOfEra(doe);
    var y := yoe + era * 400;
    var doy := doe - YearStart(yoe);
    var mp := (5 * doy + 2) / 153;
    var d := doy - MonthStart(mp) + 1;
    var m := mp + if mp < 10 then 3 else -9;
    Date(y + if m <= 2 then 1 else 0, m, d)
  }

  // ---- positions in the March-based calendar -------------------------------------------

  /** A position: 400-year era, March-based year in the era, day in that year. */
  datatype Position = Position(era: int, yoe: int, doy: int)

  /** February of a March-based year belongs to the following calendar year. */
  predicate LongYear(yoe: int) {
    Leap(yoe + 1)
  }

  predicate Proper(p: Position) {
    0 <= p.yoe < 400 && 0 <= p.doy < (if LongYear(p.yoe) then 366 else 365)
  }

  function DayOf(p: Position): int {
    p.era * 146_097 + YearStart(p.yoe) + p.doy
  }

  lemma EraExact(z: int)
    ensures 0 <= z - Era(z) * 146_097 < 146_097
  {
    if z < 0 {
      var k := (146_096 - z) / 146_097;
      assert Era(z) == -k;
    }
  }

  lemma EraUnique(z: int, era: int, doe: int)
    requires z == era * 146_097 + doe && 0 <= doe < 146_097
    ensures Era(z) == era
  {
    EraExact(z);
    var other := z - Era(z) * 146_097;
    assert (Era(z) - era) * 146_097 == doe - other;
  }

  /** A year of the era given by century, four-year cycle and year. */
  lemma PartsYear(c: int, q: int, y: int)
    requires 0 <= c <= 3 && 0 <= q <= 24 && 0 <= y <= 3
    ensures var yoe := 100 * c + 4 * q + y;
      && YearStart(yoe) == 36_524 * c + 1_461 * q + 365 * y
      && (LongYear(yoe) <==> y == 3 && (q < 24 || c == 3))
  {
    var yoe := 100 * c + 4 * q + y;
    assert yoe / 4 == 25 * c + q && yoe / 100 == c;
    assert (yoe + 1) % 4 == (y + 1) % 4;
  }

  lemma YearParts(yoe: int) returns (c: int, q: int, y: int)
    requires 0 <= yoe < 400
    ensures 0 <= c <= 3 && 0 <= q <= 24 && 0 <= y <= 3 && yoe == 100 * c + 4 * q + y
    ensures YearStart(yoe) == 36_524 * c + 1_461 * q + 365 * y
    ensures LongYear(yoe) <==> y == 3 && (q < 24 || c == 3)
  {
    c := yoe / 100;
    q := (yoe % 100) / 4;
    y := yoe % 4;
    assert yoe == 100 * c + 4 * q + y;
    PartsYear(c, q, y);
  }

  /** The year formula recovers the year from any of its days. */
  lemma YearFormula(yoe: int, doy: int)
    requires 0 <= yoe < 400 && 0 <= doy < (if LongYear(yoe) then 366 else 365)
    ensures 0 <= YearStart(yoe) + doy < 146_097
    ensures YearOfEra(YearStart(yoe) + doy) == yoe
  {
    hide YearStart, LongYear;
    var c, q, y := YearParts(yoe);
    var r := 365 * y + doy;
    var doe := 36_524 * c + 1_461 * q + r;
    var extra := if 24 * c + q + r >= 1_460 then 1 else 0;
    assert doe / 1_460 == 25 * c + q + extra;
    assert doe / 36_524 - doe / 146_096 == c;
    assert doe - doe / 1_460 + c == 365 * yoe + doy - extra;
    assert extra == 1 ==> y == 3 && doy >= 1;
  }

  /** Every day has a position. */
  lemma Locate(z: int) returns (p: Position)
    ensures Proper(p) && DayOf(p) == z
  {
    hide YearStart, LongYear;
    EraExact(z);
    var doe := z - Era(z) * 146_097;
    var c := if doe / 36_524 > 3 then 3 else doe / 36_524;
    var rest := doe - 36_524 * c;
    var q := rest / 1_461;
    var r := rest - 1_461 * q;
    var y := if r / 365 > 3 then 3 else r / 365;
    assert r == 1_460 ==> q < 24 || c == 3;
    PartsYear(c, q, y);
    p := Position(Era(z), 100 * c + 4 * q + y, r - 365 * y);
  }

  // ---- positions and dates ---------------------------------------------------------------

  function MonthOf(doy: int): int {
    (5 * doy + 2) / 153
  }

  function Civil(p: Position): Date {
    var mp := MonthOf(p.doy);
    var m := mp + if mp < 10 then 3 else -9;
    Date(p.yoe + p.era * 400 + (if m <= 2 then 1 else 0), m, p.doy - MonthStart(mp) + 1)
  }

  /** The code finds the position of a day. */
  lemma CivilOfPosition(p: Position)
    requires Proper(p)
    ensures CivilFromDays(DayOf(p) - 719_468) == Civil(p)
  {
    YearFormula(p.yoe, p.doy);
    hide YearOfEra, Era, MonthOf;
    EraUnique(DayOf(p), p.era, YearStart(p.yoe) + p.doy);
  }

  /** The month formula picks the month that contains the day. */
  lemma MonthFormula(doy: int)
    requires 0 <= doy <= 365
    ensures 0 <= MonthOf(doy) <= 11
    ensures MonthStart(MonthOf(doy)) <= doy < MonthStart(MonthOf(doy) + 1)
  {
  }

  lemma MonthUnique(doy: int, mp: int)
    requires 0 <= mp <= 11 && MonthStart(mp) <= doy < MonthStart(mp + 1)
    ensures MonthOf(doy) == mp
  {
  }

  /** Month lengths as the month formula has them; February ends with the year. */
  lemma MonthLengths(year: int, mp: int)
    requires 0 <= mp <= 10
    ensures MonthStart(mp + 1) - MonthStart(mp) == MonthLength(year, mp + (if mp < 10 then 3 else -9))
    ensures MonthStart(0) == 0 && MonthStart(11) == 337
  {
  }

  lemma Mod4(x: int, k: int)
    ensures (x + 400 * k) % 4 == x % 4
  {
    assert x + 400 * k == 4 * (x / 4 + 100 * k) + x % 4;
  }

  lemma Mod100(x: int, k: int)
    ensures (x + 400 * k) % 100 == x % 100
  {
    assert x + 400 * k == 100 * (x / 100 + 4 * k) + x % 100;
  }

  lemma Mod400(x: int, k: int)
    ensures (x + 400 * k) % 400 == x % 400
  {
    assert x + 400 * k == 400 * (x / 400 + k) + x % 400;
  }

  lemma LeapRepeats(year: int, era: int)
    ensures Leap(year + 400 * era) <==> Leap(year)
  {
    Mod4(year, era);
    Mod100(year, era);
    Mod400(year, era);
  }

  function Next(p: Position): Position {
    if p.doy + 1 < (if LongYear(p.yoe) then 366 else 365) then p.(doy := p.doy + 1)
    else if p.yoe < 399 then Position(p.era, p.yoe + 1, 0)
    else Position(p.era + 1, 0, 0)
  }

  lemma NextPosition(p: Position)
    requires Proper(p)
    ensures Proper(Next(p)) && DayOf(Next(p)) == DayOf(p) + 1
  {
    hide YearStart, LongYear;
    var c, q, y := YearParts(p.yoe);
    if p.yoe < 399 {
      var c', q', y' := YearParts(p.yoe + 1);
    } else {
      var c', q', y' := YearParts(0);
    }
  }

  lemma CivilValid(p: Position)
    requires Proper(p)
    ensures Valid(Civil(p))
  {
    MonthFormula(p.doy);
    var mp := MonthOf(p.doy);
    LeapRepeats(p.yoe + 1, p.era);
    if mp < 11 {
      MonthLengths(Civil(p).year, mp);
    } else {
      MonthLengths(Civil(p).year, 10);
    }
  }

  /** February, which ends the March-based year, in numbers. */
  lemma February(p: Position)
    requires Proper(p)
    ensures MonthStart(11) == 337 && MonthStart(12) > 366 && MonthStart(0) == 0 && MonthStart(1) > 0
    ensures MonthLength(p.yoe + p.era * 400 + 1, 2) == (if LongYear(p.yoe) then 29 else 28)
  {
    LeapRepeats(p.yoe + 1, p.era);
  }

  lemma MonthsFollow(mp: int)
    ensures MonthStart(mp) < MonthStart(mp + 1)
  {
  }

  lemma NextInMonth(p: Position)
    requires Proper(p) && Next(p).doy != 0 && Next(p).doy < MonthStart(MonthOf(p.doy) + 1)
    ensures Civil(Next(p)) == NextDay(Civil(p))
  {
    hide Leap, LongYear, MonthLength, MonthOf, MonthStart;
    MonthFormula(p.doy);
    February(p);
    var mp := MonthOf(p.doy);
    MonthUnique(p.doy + 1, mp);
    if mp < 11 {
      MonthLengths(Civil(p).year, mp);
    }
  }

  lemma NextMonth(p: Position)
    requires Proper(p) && Next(p).doy != 0 && Next(p).doy >= MonthStart(MonthOf(p.doy) + 1)
    ensures Civil(Next(p)) == NextDay(Civil(p))
  {
    hide Leap, LongYear, MonthLength, MonthOf, MonthStart;
    MonthFormula(p.doy);
    February(p);
    var mp := MonthOf(p.doy);
    MonthLengths(Civil(p).year, mp);
    MonthsFollow(mp + 1);
    MonthUnique(p.doy + 1, mp + 1);
  }

  lemma NextYear(p: Position)
    requires Proper(p) && Next(p).doy == 0
    ensures Civil(Next(p)) == NextDay(Civil(p))
  {
    hide Leap, LongYear, MonthLength, MonthOf, MonthStart;
    February(p);
    MonthUnique(p.doy, 11);
    MonthUnique(0, 0);
  }

  /** Moving on one position is moving on one day in the Gregorian calendar. */
  lemma CivilNext(p: Position)
    requires Proper(p)
    ensures Civil(Next(p)) == NextDay(Civil(p))
  {
    hide Civil, NextDay, Next, MonthOf, MonthStart;
    if Next(p).doy == 0 {
      NextYear(p);
    } else if Next(p).doy < MonthStart(MonthOf(p.doy) + 1) {
      NextInMonth(p);
    } else {
      NextMonth(p);
    }
  }

  // ---- what the code computes ---------------------------------------------------------------

  /** Day zero is the Unix epoch. */
  lemma EpochDate()
    ensures CivilFromDays(0) == Date(1970, 1, 1)
  {
  }

  /** On every day, past or future, the code names a real date, and the next day's date follows it. */
  lemma CalendarStep(days: int)
    ensures Valid(CivilFromDays(days))
    ensures CivilFromDays(days + 1) == NextDay(CivilFromDays(days))
  {
    var p := Locate(days + 719_468);
    NextPosition(p);
    CivilOfPosition(p);
    CivilOfPosition(Next(p));
    CivilValid(p);
    CivilNext(p);
  }

  // ---- the inverse ---------------------------------------------------------------------------

  /** Days before 1 January of a year, counted from 1 January of year 1. */
  function DaysBeforeYear(year: int): int {
    365 * (year - 1) + (year - 1) / 4 - (year - 1) / 100 + (year - 1) / 400
  }

  function DaysBeforeMonth(year: int, month: int): int
    requires 1 <= month <= 13
    decreases month
  {
    if month == 1 then 0 else DaysBeforeMonth(year, month - 1) + MonthLength(year, month - 1)
  }

  /** The day count of a date, from the Unix epoch. */
  function DayNumber(date: Date): int
    requires 1 <= date.month <= 12
  {
    DaysBeforeYear(date.year) + DaysBeforeMonth(date.year, date.month) + date.day - 1 - 719_162
  }

  lemma YearLength(year: int)
    ensures DaysBeforeYear(year + 1) == DaysBeforeYear(year) + (if Leap(year) then 366 else 365)
  {
    Carry4(year);
    Carry100(year);
    Carry400(year);
  }

  lemma Carry4(n: int)
    ensures n / 4 == (n - 1) / 4 + (if n % 4 == 0 then 1 else 0)
  {
  }

  lemma Carry100(n: int)
    ensures n / 100 == (n - 1) / 100 + (if n % 100 == 0 then 1 else 0)
  {
  }

  lemma Carry400(n: int)
    ensures n / 400 == (n - 1) / 400 + (if n % 400 == 0 then 1 else 0)
    ensures n % 400 == 0 ==> n % 100 == 0
    ensures n % 100 == 0 ==> n % 4 == 0
  {
  }

  lemma WholeYear(year: int)
    ensures DaysBeforeMonth(year, 13) == (if Leap(year) then 366 else 365)
  {
    hide Leap;
    assert DaysBeforeMonth(year, 3) == 31 + MonthLength(year, 2);
    assert DaysBeforeMonth(year, 7) == DaysBeforeMonth(year, 3) + 122;
    assert DaysBeforeMonth(year, 11) == DaysBeforeMonth(year, 7) + 123;
  }

  lemma NumberNext(date: Date)
    requires Valid(date)
    ensures Valid(NextDay(date)) && DayNumber(NextDay(date)) == DayNumber(date) + 1
  {
    hide DaysBeforeYear, Leap;
    if date.month == 12 && date.day == 31 {
      YearLength(date.year);
      WholeYear(date.year);
      assert DaysBeforeMonth(date.year, 13) == DaysBeforeMonth(date.year, 12) + 31;
    }
  }

  /** Counting the days of the date the code names gives the day back. */
  lemma {:induction false} DayNumberOfCivil(days: int)
    ensures Valid(CivilFromDays(days)) && DayNumber(CivilFromDays(days)) == days
    decreases if days >= 0 then days else -days
  {
    hide CivilFromDays, DayNumber, NextDay, MonthLength;
    CalendarStep(days);
    if days == 0 {
      EpochDate();
      EpochNumber();
    } else if days > 0 {
      DayNumberOfCivil(days - 1);
      CalendarStep(days - 1);
      NumberNext(CivilFromDays(days - 1));
    } else {
      DayNumberOfCivil(days + 1);
      NumberNext(CivilFromDays(days));
    }
  }

  lemma EpochNumber()
    ensures DayNumber(Date(1970, 1, 1)) == 0
  {
  }

  lemma {:induction false} MonthsAscend(year: int, a: int, b: int)
    requires 1 <= a <= b <= 13
    ensures DaysBeforeMonth(year, a) <= DaysBeforeMonth(year, b)
    ensures a < b ==> DaysBeforeMonth(year, a) + MonthLength(year, a) <= DaysBeforeMonth(year, b)
    decreases b - a
  {
    if a < b {
      MonthsAscend(year, a + 1, b);
    }
  }

  lemma {:induction false} YearsAscend(a: int, b: int)
    requires a <= b
    ensures DaysBeforeYear(a) <= DaysBeforeYear(b)
    ensures a < b ==> DaysBeforeYear(a + 1) <= DaysBeforeYear(b)
    decreases b - a
  {
    if a < b {
      YearLength(a);
      YearsAscend(a + 1, b);
    }
  }

  /** A date lies in its own year. */
  lemma NumberInYear(date: Date)
    requires Valid(date)
    ensures DaysBeforeYear(date.year) <= DayNumber(date) + 719_162 < DaysBeforeYear(date.year + 1)
  {
    hide DaysBeforeYear, MonthLength;
    MonthsAscend(date.year, 1, date.month);
    MonthsAscend(date.year, date.month, 13);
    WholeYear(date.year);
    YearLength(date.year);
  }

  /** Earlier dates have smaller day numbers. */
  lemma NumberOrder(a: Date, b: Date)
    requires Valid(a) && Valid(b)
    requires a.year < b.year || (a.year == b.year && (a.month < b.month || (a.month == b.month && a.day < b.day)))
    ensures DayNumber(a) < DayNumber(b)
  {
    hide DaysBeforeYear, MonthLength;
    if a.year < b.year {
      NumberInYear(a);
      NumberInYear(b);
      YearsAscend(a.year, b.year);
    } else if a.month < b.month {
      MonthsAscend(a.year, a.month, b.month);
    }
  }

  /** And the code names the date of the day a valid date counts to. */
  lemma CivilOfDayNumber(date: Date)
    requires Valid(date)
    ensures CivilFromDays(DayNumber(date)) == date
  {
    hide DayNumber, CivilFromDays;
    var other := CivilFromDays(DayNumber(date));
    DayNumberOfCivil(DayNumber(date));
    if other != date {
      if other.year < date.year
          || (other.year == date.year
              && (other.month < date.month || (other.month == date.month && other.day < date.day))) {
        NumberOrder(other, date);
      } else {
        NumberOrder(date, other);
      }
    }
  }

  // ---- amz_time --------------------------------------------------------------------------------

  function Digit(n: nat): char
    requires n < 10
  {
    ('0' as int + n) as char
  }

  function Decimal(n: nat): string {
    if n < 10 then [Digit(n)] else Decimal(n / 10) + [Digit(n % 10)]
  }

  /** The number in decimal, with leading zeros up to the width. */
  function Pad(n: nat, width: nat): string {
    Zeros(width - |Decimal(n)|) + Decimal(n)
  }

  function Zeros(count: int): string {
    if count <= 0 then "" else ['0'] + Zeros(count - 1)
  }

  predicate Digits(s: string) {
    forall i | 0 <= i < |s| :: '0' <= s[i] <= '9'
  }

  /** Reading a string of digits. */
  function Value(digits: string): nat
    requires Digits(digits)
  {
    if digits == "" then 0
    else
      var last := |digits| - 1;
      10 * Value(digits[..last]) + (digits[last] as int - '0' as int)
  }

  lemma {:induction false} DecimalReads(n: nat)
    ensures Digits(Decimal(n)) && Value(Decimal(n)) == n && |Decimal(n)| >= 1
    ensures n < 100 ==> |Decimal(n)| <= 2
  {
    if n < 10 {
      assert Decimal(n)[..0] == "";
    } else {
      DecimalReads(n / 10);
      var front, digit := Decimal(n / 10), Digit(n % 10);
      assert (front + [digit])[..|front|] == front;
    }
  }

  lemma {:induction false} ZerosLength(count: int)
    ensures |Zeros(count)| == if count <= 0 then 0 else count
  {
    if count > 0 {
      ZerosLength(count - 1);
    }
  }

  lemma {:induction false} ZerosRead(count: int, digits: string)
    requires Digits(digits)
    ensures Digits(Zeros(count) + digits) && Value(Zeros(count) + digits) == Value(digits)
    decreases |digits|
  {
    ZerosAreZero(count);
    var all := Zeros(count) + digits;
    if digits == "" {
      assert all == Zeros(count);
    } else {
      var last := |digits| - 1;
      ZerosRead(count, digits[..last]);
      assert all[..|all| - 1] == Zeros(count) + digits[..last];
    }
  }

  lemma {:induction false} ZerosAreZero(count: int)
    ensures Digits(Zeros(count)) && Value(Zeros(count)) == 0
  {
    if count > 0 {
      ZerosAreZero(count - 1);
      ZerosSnoc(count - 1);
      var all := Zeros(count);
      assert all[..|all| - 1] == Zeros(count - 1);
    }
  }

  lemma {:induction false} ZerosSnoc(count: nat)
    ensures Zeros(count + 1) == Zeros(count) + ['0']
  {
    if count > 0 {
      ZerosSnoc(count - 1);
    }
  }

  lemma PadReads(n: nat, width: nat)
    ensures Digits(Pad(n, width)) && Value(Pad(n, width)) == n
    ensures n < 100 && width == 2 ==> |Pad(n, width)| == 2
  {
    DecimalReads(n);
    ZerosLength(width - |Decimal(n)|);
    ZerosRead(width - |Decimal(n)|, Decimal(n));
  }

  /** The credential date and the request timestamp. */
  datatype Stamps = Stamps(date: string, time: string)

  lemma {:induction false} SinceEpoch(days: nat)
    ensures Valid(CivilFromDays(days)) && CivilFromDays(days).year >= 1970
  {
    hide CivilFromDays, DayNumber;
    DayNumberOfCivil(days);
    EpochNumber();
    if CivilFromDays(days).year < 1970 {
      NumberOrder(CivilFromDays(days), Date(1970, 1, 1));
    }
  }

  function AmzTime(epoch: nat): Stamps {
    var days, seconds := epoch / 86_400, epoch % 86_400;
    SinceEpoch(days);
    var civil := CivilFromDays(days);
    var date := Pad(civil.year, 4) + Pad(civil.month, 2) + Pad(civil.day, 2);
    Stamps(date, date + "T" + Pad(seconds / 3_600, 2) + Pad(seconds % 3_600 / 60, 2) + Pad(seconds % 60, 2) + "Z")
  }

  /** Reading a timestamp back, from the right since only the year has no fixed width. */
  ghost predicate Reads(time: string, date: Date, seconds: nat) {
    var n := |time|;
    && n >= 12 && Digits(time[..n - 12]) && time[n - 8] == 'T' && time[n - 1] == 'Z'
    && Value(time[..n - 12]) == date.year
    && Digits(time[n - 12..n - 10]) && Value(time[n - 12..n - 10]) == date.month
    && Digits(time[n - 10..n - 8]) && Value(time[n - 10..n - 8]) == date.day
    && Digits(time[n - 7..n - 5]) && Digits(time[n - 5..n - 3]) && Digits(time[n - 3..n - 1])
    && 3_600 * Value(time[n - 7..n - 5]) + 60 * Value(time[n - 5..n - 3]) + Value(time[n - 3..n - 1]) == seconds
  }

  /** Every timestamp reads back to the instant it was made from, and starts with its credential date. */
  lemma AmzTimeReadsBack(epoch: nat)
    ensures var s := AmzTime(epoch); var date := CivilFromDays(epoch / 86_400);
      && Valid(date) && 86_400 * DayNumber(date) + epoch % 86_400 == epoch
      && Reads(s.time, date, epoch % 86_400) && |s.date| + 8 == |s.time| && s.time[..|s.date|] == s.date
  {
    hide CivilFromDays, DayNumber, Value, Pad, MonthLength, Digits;
    var days, seconds := epoch / 86_400, epoch % 86_400;
    SinceEpoch(days);
    DayNumberOfCivil(days);
    var civil := CivilFromDays(days);
    MonthShort(civil);
    PadReads(civil.year, 4);
    PadReads(civil.month, 2);
    PadReads(civil.day, 2);
    PadReads(seconds / 3_600, 2);
    PadReads(seconds % 3_600 / 60, 2);
    PadReads(seconds % 60, 2);
    Slices(Pad(civil.year, 4), Pad(civil.month, 2), Pad(civil.day, 2),
           Pad(seconds / 3_600, 2), Pad(seconds % 3_600 / 60, 2), Pad(seconds % 60, 2));
  }

  /** A timestamp taken apart again. */
  lemma Slices(year: string, month: string, day: string, h: string, m: string, s: string)
    requires |month| == |day| == |h| == |m| == |s| == 2
    ensures var date := year + month + day; var time := date + "T" + h + m + s + "Z"; var n := |time|;
      && n == |year| + 12 && time[..n - 8] == date && time[n - 8] == 'T' && time[n - 1] == 'Z'
      && time[..n - 12] == year && time[n - 12..n - 10] == month && time[n - 10..n - 8] == day
      && time[n - 7..n - 5] == h && time[n - 5..n - 3] == m && time[n - 3..n - 1] == s
  {
  }

  lemma MonthShort(date: Date)
    requires Valid(date)
    ensures 1 <= date.month <= 12 && 1 <= date.day <= 31
  {
  }
}
