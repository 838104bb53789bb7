/** Day counts to Gregorian dates and ages to short labels, as the content projection prints them. */
module Calendar {
  import opened Basics

  datatype Date = Date(year: int, month: int, day: int)

  // --- the Gregorian calendar, by its own rules (RFC 3339 section 5.7 and Appendix C) ---

  predicate LeapYear(y: int) {
    y % 4 == 0 && (y % 100 != 0 || y % 400 == 0)
  }

  function MonthLength(y: int, m: int): int {
    if m == 2 then (if LeapYear(y) then 29 else 28)
    else if m == 4 || m == 6 || m == 9 || m == 11 then 30
    else 31
  }

  predicate ValidDate(d: Date) {
    1 <= d.month <= 12 && 1 <= d.day <= MonthLength(d.year, d.month)
  }

  function NextDay(d: Date): Date {
    if d.day < MonthLength(d.year, d.month) then d.(day := d.day + 1)
    else if d.month < 12 then Date(d.year, d.month + 1, 1)
    else Date(d.year + 1, 1, 1)
  }

  predicate Before(a: Date, b: Date) {
    || a.year < b.year
    || (a.year == b.year && (a.month < b.month || (a.month == b.month && a.day < b.day)))
  }

  // --- the closed-form conversion ---

  const EPOCH_SHIFT := 719468   // days from 0000-03-01 to 1970-01-01
  const ERA_DAYS := 146097      // days in 400 Gregorian years

  /** Year of the era holding day `doe`; years run from March to February. */
  function YearOfEra(doe: nat): int {
    (doe - doe / 1460 + doe / 36524 - doe / 146096) / 365
  }

  function YearStart(yoe: int): int {
    365 * yoe + yoe / 4 - yoe / 100
  }

  /** Date of day `doy` of the March-based year `y`. */
  function DateInYear(y: int, doy: int): Date {
    var mp := (5 * doy + 2) / 153;
    var d := doy - (153 * mp + 2) / 5 + 1;
    var m := if mp < 10 then mp + 3 else mp - 9;
    Date(if m <= 2 then y + 1 else y, m, d)
  }

  function Era(z: int): int {
    // the division applies to the whole conditional
    TruncDiv(if z >= 0 then z else z - 146096, ERA_DAYS)
  }

  function YearAndDay(era: int, doe: nat): (int, int) {
    var yoe := YearOfEra(doe);
    (yoe + era * 400, doe - YearStart(yoe))
  }

  function DateInEra(era: int, doe: nat): Date {
    DateInYear(YearAndDay(era, doe).0, YearAndDay(era, doe).1)
  }

  /** The 400-year era of a day and the day's offset inside it. */
  function EraAndDay(days: int): (int, nat) {
    var z := days + EPOCH_SHIFT;
    var era := Era(z);
    EraIsFloor(z);
    (era, z - era * ERA_DAYS)
  }

  function CivilFromDays(days: int): Date {
    DateInEra(EraAndDay(days).0, EraAndDay(days).1)
  }

  lemma EraIsFloor(z: int)
    ensures Era(z) == z / ERA_DAYS
    ensures 0 <= z - Era(z) * ERA_DAYS < ERA_DAYS
  {
    if z < 0 {
      var q, r := z / ERA_DAYS, z % ERA_DAYS;
      assert z == q * ERA_DAYS + r;
      assert 146096 - z == -q * ERA_DAYS + (146096 - r);
    }
  }

  /** Inside a four-year cycle the correction terms only matter on its last days. */
  lemma YearInCycle(c: int, b: int, u: int)
    requires 0 <= c < 4 && 0 <= b < 25 && 0 <= u < 1461
    ensures var j := (u - (b + u + 24 * c) / 1460) / 365;
            0 <= j <= 3 && 365 * j <= u && (u < 365 * (j + 1) || j == 3)
  {
    var w := (b + u + 24 * c) / 1460;
    assert 0 <= w <= 1;
    if u < 1095 { assert w == 0; }
  }

  lemma YearInCentury(c: int, t: int)
    requires 0 <= c < 4 && 0 <= t < 36524
    ensures var k := (t - (t + 24 * c) / 1460) / 365;
            0 <= k < 100 && 365 * k + k / 4 <= t && (t < 365 * (k + 1) + (k + 1) / 4 || k == 99)
  {
    var b, u := t / 1461, t % 1461;
    YearInCycle(c, b, u);
    var j := (u - (b + u + 24 * c) / 1460) / 365;
    assert (t + 24 * c) / 1460 == b + (b + u + 24 * c) / 1460;
    var k := (t - (t + 24 * c) / 1460) / 365;
    assert k == 4 * b + j;
    assert k / 4 == b;
  }

  /** The closed-form year is the year whose span holds the day. */
  lemma YearOfEraExact(doe: nat)
    requires doe < ERA_DAYS
    ensures var y := YearOfEra(doe); 0 <= y < 400 && YearStart(y) <= doe
    ensures var y := YearOfEra(doe); doe < if y == 399 then ERA_DAYS else YearStart(y + 1)
  {
    if doe == 146096 {
      assert YearOfEra(doe) == 399;
    } else {
      var c, t := doe / 36524, doe % 36524;
      YearInCentury(c, t);
      YearOfEraByCentury(c, t);
      var k := (t - (t + 24 * c) / 1460) / 365;
      YearStartByCentury(c, k);
      if k < 99 { YearStartByCentury(c, k + 1); }
      hide YearOfEra, YearStart;
    }
  }

  lemma YearOfEraByCentury(c: nat, t: nat)
    requires c < 4 && t < 36524
    ensures YearOfEra(36524 * c + t) == 100 * c + (t - (t + 24 * c) / 1460) / 365
  {
    var doe := 36524 * c + t;
    assert doe / 36524 == c && doe / 146096 == 0;
    assert doe == 1460 * (25 * c) + (t + 24 * c);
    assert doe / 1460 == 25 * c + (t + 24 * c) / 1460;
  }

  lemma YearStartByCentury(c: nat, k: nat)
    requires c < 4 && k < 100
    ensures YearStart(100 * c + k) == 36524 * c + 365 * k + k / 4
    ensures k == 99 ==> YearStart(100 * c + k + 1) == 36524 * (c + 1)
  {
    assert (100 * c + k) / 4 == 25 * c + k / 4;
    assert (100 * c + k) / 100 == c;
    assert k == 99 ==> (100 * c + 100) / 4 == 25 * c + 25;
  }

  lemma YearStartIncreases(a: nat, b: nat)
    requires a < b
    ensures YearStart(a + 1) <= YearStart(b)
  {
    var n := b - (a + 1);
    assert b / 4 >= (a + 1) / 4;
    assert b / 100 <= (a + 1) / 100 + n;
  }

  /** Days in the March-based year `y`: its last month is the February of year `y + 1`. */
  function MarchYearLength(y: int): int {
    if LeapYear(y + 1) then 366 else 365
  }

  lemma YearOfEraLength(y: nat)
    requires y < 400
    ensures (if y == 399 then ERA_DAYS else YearStart(y + 1)) - YearStart(y) == MarchYearLength(y)
  {
    var c, k := y / 100, y % 100;
    YearStartByCentury(c, k);
    if k < 99 { YearStartByCentury(c, k + 1); }
    LeapInCentury(c, k);
    hide YearStart, LeapYear;
  }

  lemma LeapInCentury(c: nat, k: nat)
    requires c < 4 && k < 100
    ensures LeapYear(100 * c + k + 1) <==> (k + 1) % 4 == 0 && (k != 99 || c == 3)
  {
    Fours(25 * c, k + 1);
    Hundreds(c, k + 1);
    assert k == 99 ==> (100 * (c + 1)) % 400 == 100 * ((c + 1) % 4);
  }

  /** Inside a year the month formula names a real date, the first of March at offset 0. */
  lemma DateInYearSteps(y: int, doy: int)
    requires 0 <= doy < MarchYearLength(y)
    ensures ValidDate(DateInYear(y, doy))
    ensures doy + 1 < MarchYearLength(y) ==> DateInYear(y, doy + 1) == NextDay(DateInYear(y, doy))
    ensures doy + 1 == MarchYearLength(y) ==> DateInYear(y + 1, 0) == NextDay(DateInYear(y, doy))
  {
    var mp := (5 * doy + 2) / 153;
    MonthSpan(doy);
    MonthLengths(y, mp);
    if doy + 1 < MarchYearLength(y) {
      MonthSpan(doy + 1);
      var next := (5 * (doy + 1) + 2) / 153;
      assert next == mp || (next == mp + 1 && doy + 1 == (153 * next + 2) / 5);
    }
  }

  lemma MonthLengths(y: int, mp: int)
    requires 0 <= mp <= 11
    ensures var m := if mp < 10 then mp + 3 else mp - 9;
            (if mp == 11 then MarchYearLength(y) else (153 * (mp + 1) + 2) / 5) - (153 * mp + 2) / 5
            == MonthLength(if m <= 2 then y + 1 else y, m)
  {
  }

  /** Month `mp` counted from March begins `(153 * mp + 2) / 5` days into the year. */
  lemma MonthSpan(doy: int)
    requires 0 <= doy < 366
    ensures var mp := (5 * doy + 2) / 153;
            0 <= mp <= 11 && (153 * mp + 2) / 5 <= doy < (153 * (mp + 1) + 2) / 5
  {
  }

  /** The following day is the next day of the same year or the first of the next one. */
  lemma NextDayOfEra(doe: nat)
    requires doe + 1 < ERA_DAYS
    ensures var y := YearOfEra(doe);
            if doe + 1 - YearStart(y) < MarchYearLength(y) then YearOfEra(doe + 1) == y
            else YearOfEra(doe + 1) == y + 1 && YearStart(y + 1) == doe + 1
  {
    var y, next := YearOfEra(doe), YearOfEra(doe + 1);
    YearOfEraExact(doe);
    YearOfEraExact(doe + 1);
    YearOfEraLength(y);
    if next < y {
      YearStartIncreases(next, y);
    }
  }

  lemma LeapRuleRepeats(y: int, era: int)
    ensures MarchYearLength(y + era * 400) == MarchYearLength(y)
  {
    var q, r := (y + 1) / 400, (y + 1) % 400;
    LeapRuleByRemainder(q, r);
    LeapRuleByRemainder(q + era, r);
    assert y + era * 400 + 1 == 400 * (q + era) + r;
  }

  lemma LeapRuleByRemainder(q: int, r: int)
    requires 0 <= r < 400
    ensures LeapYear(400 * q + r) == LeapYear(r)
  {
    assert (400 * q + r) % 400 == r;
    Hundreds(4 * q, r);
    Fours(100 * q, r);
  }

  lemma Hundreds(x: int, r: int)
    ensures (100 * x + r) % 100 == r % 100
  {
  }

  lemma Fours(x: int, r: int)
    ensures (4 * x + r) % 4 == r % 4
  {
  }

  lemma NextEraAndDay(days: int)
    ensures var (era, doe) := EraAndDay(days);
            doe < ERA_DAYS && EraAndDay(days + 1) == if doe + 1 < ERA_DAYS then (era, doe + 1) else (era + 1, 0)
  {
    EraIsFloor(days + EPOCH_SHIFT);
    EraIsFloor(days + 1 + EPOCH_SHIFT);
  }

  lemma YearAndDaySteps(era: int, doe: nat)
    requires doe < ERA_DAYS
    ensures var (y, doy) := YearAndDay(era, doe);
            && 0 <= doy < MarchYearLength(y)
            && (if doe + 1 < ERA_DAYS then YearAndDay(era, doe + 1) else YearAndDay(era + 1, 0))
               == (if doy + 1 < MarchYearLength(y) then (y, doy + 1) else (y + 1, 0))
  {
    YearOfEraExact(doe);
    YearOfEraLength(YearOfEra(doe));
    LeapRuleRepeats(YearOfEra(doe), era);
    if doe + 1 < ERA_DAYS { NextDayOfEra(doe); }
  }

  lemma DateInEraSteps(era: int, doe: nat)
    requires doe < ERA_DAYS
    ensures ValidDate(DateInEra(era, doe))
    ensures (if doe + 1 < ERA_DAYS then DateInEra(era, doe + 1) else DateInEra(era + 1, 0))
            == NextDay(DateInEra(era, doe))
  {
    hide YearOfEra, YearStart, DateInYear, NextDay, ValidDate;
    YearAndDaySteps(era, doe);
    DateInYearSteps(YearAndDay(era, doe).0, YearAndDay(era, doe).1);
  }

  // --- what the conversion promises ---

  lemma EpochDayIsFirstOfJanuary1970()
    ensures CivilFromDays(0) == Date(1970, 1, 1)
  {
    assert YearOfEra(135080) == 369;
  }

  lemma CivilIsValid(days: int)
    ensures ValidDate(CivilFromDays(days))
  {
    hide YearOfEra, DateInEra, NextDay, ValidDate, Era;
    NextEraAndDay(days);
    DateInEraSteps(EraAndDay(days).0, EraAndDay(days).1);
  }

  /** One more day is the calendar's next day, whatever the day count. */
  lemma CivilSuccessor(days: int)
    ensures CivilFromDays(days + 1) == NextDay(CivilFromDays(days))
  {
    hide YearOfEra, DateInEra, NextDay, ValidDate, Era;
    NextEraAndDay(days);
    DateInEraSteps(EraAndDay(days).0, EraAndDay(days).1);
  }

  lemma NextDayIsLater(a: Date, d: Date)
    requires ValidDate(d)
    requires a == d || Before(a, d)
    ensures Before(a, NextDay(d))
  {
  }

  lemma {:induction false} CivilStrictlyIncreasing(a: int, b: int)
    requires a < b
    ensures Before(CivilFromDays(a), CivilFromDays(b))
    decreases b - a
  {
    hide CivilFromDays, NextDay, ValidDate, Before;
    CivilIsValid(b - 1);
    CivilSuccessor(b - 1);
    if a < b - 1 { CivilStrictlyIncreasing(a, b - 1); }
    NextDayIsLater(CivilFromDays(a), CivilFromDays(b - 1));
  }

  // --- text ---

  const SECONDS_PER_DAY := 86400

  function PadYear(y: int): string {
    if y >= 0 then ZeroPad(4, Digits(y)) else "-" + ZeroPad(3, Digits(-y))
  }

  function FormatDate(d: Date): string
    requires ValidDate(d)
  {
    PadYear(d.year) + "-" + ZeroPad(2, Digits(d.month)) + "-" + ZeroPad(2, Digits(d.day))
  }

  /** `as i32`: keep the low 32 bits, read as a signed number. */
  function AsInt32(n: int): int {
    (n + 0x8000_0000) % 0x1_0000_0000 - 0x8000_0000
  }

  function EpochDay(epochSecs: int): int {
    AsInt32(TruncDiv(epochSecs, SECONDS_PER_DAY))
  }

  function EpochToDateString(epochSecs: int): string {
    CivilIsValid(EpochDay(epochSecs));
    FormatDate(CivilFromDays(EpochDay(epochSecs)))
  }

  /** Inside the range of a 32-bit day count, the day computed is the day that holds the
      instant exactly for instants from 1970 on and for earlier midnights. */
  lemma EpochDayExact(epochSecs: int)
    requires -0x8000_0000 * SECONDS_PER_DAY <= epochSecs < 0x8000_0000 * SECONDS_PER_DAY
    ensures EpochDay(epochSecs) == epochSecs / SECONDS_PER_DAY
            <==> epochSecs >= 0 || epochSecs % SECONDS_PER_DAY == 0
  {
    var q, r := epochSecs / SECONDS_PER_DAY, epochSecs % SECONDS_PER_DAY;
    if epochSecs < 0 {
      assert -epochSecs == SECONDS_PER_DAY * (-q - 1) + (SECONDS_PER_DAY - r);
      assert r > 0 ==> (-epochSecs) / SECONDS_PER_DAY == -q - 1;
      assert r == 0 ==> (-epochSecs) / SECONDS_PER_DAY == -q;
    }
  }

  /** The day count is a signed 32-bit number and starts over after 2^32 days. */
  lemma DayCountWraps(epochSecs: nat)
    ensures -0x8000_0000 <= EpochDay(epochSecs) < 0x8000_0000
    ensures EpochDay(epochSecs + 0x1_0000_0000 * SECONDS_PER_DAY) == EpochDay(epochSecs)
  {
    assert (epochSecs + 0x1_0000_0000 * SECONDS_PER_DAY) / SECONDS_PER_DAY
           == epochSecs / SECONDS_PER_DAY + 0x1_0000_0000;
  }

  lemma TwoDigits(n: nat)
    requires n < 100
    ensures |ZeroPad(2, Digits(n))| == 2
  {
    assert |Digits(n)| == if n < 10 then 1 else 2;
  }

  lemma FormatDeterminesDate(a: Date, b: Date)
    requires ValidDate(a) && ValidDate(b) && a.year >= 0 && b.year >= 0
    requires FormatDate(a) == FormatDate(b)
    ensures a == b
  {
    var ya, yb := PadYear(a.year), PadYear(b.year);
    var ma, mb := ZeroPad(2, Digits(a.month)), ZeroPad(2, Digits(b.month));
    var da, db := ZeroPad(2, Digits(a.day)), ZeroPad(2, Digits(b.day));
    var s := FormatDate(a);
    assert s == ya + "-" + ma + "-" + da == yb + "-" + mb + "-" + db;
    TwoDigits(a.month); TwoDigits(b.month); TwoDigits(a.day); TwoDigits(b.day);
    assert ya == s[..|s| - 6] == yb;
    assert ma == s[|s| - 5..|s| - 3] == mb;
    assert da == s[|s| - 2..] == db;
    PaddedDigitsDetermineNumber(4, a.year, b.year);
    PaddedDigitsDetermineNumber(2, a.month, b.month);
    PaddedDigitsDetermineNumber(2, a.day, b.day);
  }

  /** From 1970 on, and as far as the shifted day count fits 32 bits, two instants print the
      same date exactly when they fall on the same day. */
  lemma SameDateStringIffSameDay(a: nat, b: nat)
    requires a / SECONDS_PER_DAY + EPOCH_SHIFT < 0x8000_0000 && b / SECONDS_PER_DAY + EPOCH_SHIFT < 0x8000_0000
    ensures EpochToDateString(a) == EpochToDateString(b) <==> a / SECONDS_PER_DAY == b / SECONDS_PER_DAY
  {
    hide CivilFromDays, Before, ValidDate, FormatDate, EpochDay;
    EpochDayExact(a);
    EpochDayExact(b);
    var m, n := a / SECONDS_PER_DAY, b / SECONDS_PER_DAY;
    CivilIsValid(m);
    CivilIsValid(n);
    YearFrom1970(m);
    YearFrom1970(n);
    if EpochToDateString(a) == EpochToDateString(b) && m != n {
      FormatDeterminesDate(CivilFromDays(m), CivilFromDays(n));
      CivilStrictlyIncreasing(Min(m, n), Max(m, n));
      BeforeIsIrreflexive(CivilFromDays(m));
    }
  }

  lemma BeforeIsIrreflexive(d: Date)
    ensures !Before(d, d)
  {
  }

  lemma YearFrom1970(days: nat)
    ensures CivilFromDays(days).year >= 1970
  {
    EpochDayIsFirstOfJanuary1970();
    if days > 0 {
      hide CivilFromDays;
      CivilStrictlyIncreasing(0, days);
    }
  }

  // --- relative ages ---

  const MINUTE := 60
  const HOUR := 3600
  const DAY := 86400
  const WEEK := 604800
  const MONTH := 2592000

  function HumanizeTime(epochSecs: int, nowSecs: int): string {
    if epochSecs == 0 then "unknown"
    else if epochSecs > nowSecs then "in the future"
    else
      var delta := nowSecs - epochSecs;
      if delta < MINUTE then "just now"
      else if delta < HOUR then Digits(delta / MINUTE) + "m ago"
      else if delta < DAY then Digits(delta / HOUR) + "h ago"
      else if delta < WEEK then Digits(delta / DAY) + "d ago"
      else if delta < MONTH then "~" + Digits(delta / WEEK) + "w ago"
      else EpochToDateString(epochSecs)
  }

  /** The unit an age below a month is reported in. */
  function AgeUnit(delta: nat): nat {
    if delta < MINUTE then MINUTE
    else if delta < HOUR then MINUTE
    else if delta < DAY then HOUR
    else if delta < WEEK then DAY
    else WEEK
  }

  /** A relative label fixes the age to within one unit: at one `now`, two instants under a
      month old share a label exactly when they are the same whole number of the same unit old. */
  lemma SameLabelIffSameAge(a: int, b: int, nowSecs: int)
    requires a != 0 && b != 0 && a <= nowSecs && b <= nowSecs
    requires nowSecs - a < MONTH && nowSecs - b < MONTH
    ensures HumanizeTime(a, nowSecs) == HumanizeTime(b, nowSecs) <==>
            var da, db := nowSecs - a, nowSecs - b;
            AgeUnit(da) == AgeUnit(db) && da / AgeUnit(da) == db / AgeUnit(db)
  {
    var s, t := HumanizeTime(a, nowSecs), HumanizeTime(b, nowSecs);
    LabelShape(a, nowSecs);
    LabelShape(b, nowSecs);
    NumeralOfDigits((nowSecs - a) / AgeUnit(nowSecs - a));
    NumeralOfDigits((nowSecs - b) / AgeUnit(nowSecs - b));
  }

  /** The unit letter sits five characters from the end, the number in front of it. */
  lemma LabelShape(a: int, nowSecs: int)
    requires a != 0 && a <= nowSecs && nowSecs - a < MONTH
    ensures var s, d := HumanizeTime(a, nowSecs), nowSecs - a;
            && |s| >= 6
            && (s[|s| - 5] == 't' <==> d < MINUTE) && (s[|s| - 5] == 'm' <==> MINUTE <= d < HOUR)
            && (s[|s| - 5] == 'h' <==> HOUR <= d < DAY) && (s[|s| - 5] == 'd' <==> DAY <= d < WEEK)
            && (s[|s| - 5] == 'w' <==> WEEK <= d)
            && (d >= MINUTE ==> s[if d < WEEK then 0 else 1..|s| - 5] == Digits(d / AgeUnit(d)))
  {
    var s, d := HumanizeTime(a, nowSecs), nowSecs - a;
    if d >= WEEK {
      assert s[1..|s| - 5] == Digits(d / WEEK);
    }
  }

  // --- what the texts say ---

  /** A date reads as its year, month and day: two digits each for the last two behind hyphens, and at least four
      characters for the year, of which a year before 0 spends one on its sign. */
  lemma DateReads(d: Date)
    requires ValidDate(d)
    ensures var s := FormatDate(d);
            var n := |s|;
            && n >= 10 && (-999 <= d.year <= 9999 ==> n == 10) && s[n - 6] == '-' && s[n - 3] == '-'
            && (if d.year >= 0 then Numeral(s[..n - 6]) == d.year
                else s[0] == '-' && Numeral(s[1..n - 6]) == -d.year)
            && Numeral(s[n - 5..n - 3]) == d.month && Numeral(s[n - 2..]) == d.day
  {
    var y, m, r := PadYear(d.year), ZeroPad(2, Digits(d.month)), ZeroPad(2, Digits(d.day));
    YearReads(d.year);
    TwoDigits(d.month);
    TwoDigits(d.day);
    PaddedReads(2, d.month);
    PaddedReads(2, d.day);
    hide ZeroPad, Digits, Numeral, PadYear;
    var s := FormatDate(d);
    var n := |s|;
    assert s == y + "-" + m + "-" + r;
    assert s[..n - 6] == y && s[n - 5..n - 3] == m && s[n - 2..] == r && s[1..n - 6] == y[1..];
  }

  lemma YearReads(y: int)
    ensures var s := PadYear(y);
            && |s| >= 4 && (-999 <= y <= 9999 ==> |s| == 4)
            && if y >= 0 then Numeral(s) == y else s[0] == '-' && Numeral(s[1..]) == -y
  {
    if y >= 0 {
      PaddedReads(4, y);
      if y < 10000 { FourDigits(y); }
    } else {
      PaddedReads(3, -y);
      if -y < 1000 { ThreeDigits(-y); }
      assert PadYear(y)[1..] == ZeroPad(3, Digits(-y));
    }
  }

  lemma ThreeDigits(n: nat)
    requires n < 1000
    ensures |ZeroPad(3, Digits(n))| == 3
  {
    assert |Digits(n)| == if n < 10 then 1 else 1 + |Digits(n / 10)|;
    assert n >= 10 ==> |Digits(n / 10)| == if n < 100 then 1 else 2;
  }

  lemma FourDigits(n: nat)
    requires n < 10000
    ensures |ZeroPad(4, Digits(n))| == 4
  {
    assert |Digits(n)| == if n < 10 then 1 else 1 + |Digits(n / 10)|;
    assert |Digits(n / 10)| == if n < 100 then 1 else 1 + |Digits(n / 100)|;
    assert n >= 100 ==> |Digits(n / 100)| == if n < 1000 then 1 else 2;
  }

  lemma PaddedReads(width: nat, n: nat)
    ensures Numeral(ZeroPad(width, Digits(n))) == n
  {
    NumeralIgnoresPadding(width, Digits(n));
    NumeralOfDigits(n);
  }

  /** An age is said in the largest of its units, rounded down; unknown and future instants are said to be so, and older
      ones are given by their date. */
  lemma AgeReads(epochSecs: int, nowSecs: int)
    ensures var s, d := HumanizeTime(epochSecs, nowSecs), nowSecs - epochSecs;
            if epochSecs == 0 then s == "unknown"
            else if d < 0 then s == "in the future"
            else if d < 60 then s == "just now"
            else if d < 3600 then Says(s, "", d / 60, "m ago")
            else if d < 86400 then Says(s, "", d / 3600, "h ago")
            else if d < 7 * 86400 then Says(s, "", d / 86400, "d ago")
            else if d < 30 * 86400 then Says(s, "~", d / (7 * 86400), "w ago")
            else s == EpochToDateString(epochSecs)
  {
    var s, d := HumanizeTime(epochSecs, nowSecs), nowSecs - epochSecs;
    if epochSecs != 0 && 60 <= d < MONTH {
      var n := d / AgeUnit(d);
      NumeralOfDigits(n);
      hide Digits, Numeral, EpochToDateString;
      var about := if d < WEEK then "" else "~";
      assert s[..|about|] == about && s[|about|..|s| - 5] == Digits(n);
    }
  }

  predicate Says(s: string, about: string, n: int, unit: string) {
    && |about| + |unit| < |s| && about <= s && s[|s| - |unit|..] == unit
    && Numeral(s[|about|..|s| - |unit|]) == n
  }

  /** From 1970 to 9999 the printed date of an instant reads as the calendar's date of its day. */
  lemma EpochDateReads(epochSecs: nat)
    requires epochSecs / SECONDS_PER_DAY + EPOCH_SHIFT < 0x8000_0000
    requires CivilFromDays(epochSecs / SECONDS_PER_DAY).year <= 9999
    ensures var s, d := EpochToDateString(epochSecs), CivilFromDays(epochSecs / SECONDS_PER_DAY);
            |s| == 10 && Numeral(s[..4]) == d.year && Numeral(s[5..7]) == d.month && Numeral(s[8..]) == d.day
  {
    EpochDayExact(epochSecs);
    YearFrom1970(epochSecs / SECONDS_PER_DAY);
    CivilIsValid(epochSecs / SECONDS_PER_DAY);
    hide CivilFromDays, FormatDate, EpochDay, Numeral, ValidDate;
    DateReads(CivilFromDays(epochSecs / SECONDS_PER_DAY));
  }
}
