/**
 * The campaign calendar: `YYYY-MM-DD` dates on one side, stored UTC instants on the other, with
 * Malaysia's fixed +08:00 offset between them.
 */
module Calendar {
  import opened Ordering

  datatype Date = Date(year: nat, month: nat, day: nat)

  predicate LeapYear(y: nat) {
    y % 4 == 0 && (y % 100 != 0 || y % 400 == 0)
  }

  function DaysInMonth(y: nat, m: nat): nat
    requires 1 <= m <= 12
  {
    if m == 2 then (if LeapYear(y) then 29 else 28)
    else if m == 4 || m == 6 || m == 9 || m == 11 then 30
    else 31
  }

  /**
   * A real date. Years below 100 are out: the runtime reads a two-digit year as 19xx, so the
   * source's own round-trip test refuses them.
   */
  predicate IsCalendarDate(d: Date) {
    100 <= d.year <= 9999 && 1 <= d.month <= 12 && 1 <= d.day <= DaysInMonth(d.year, d.month)
  }

  predicate Before(a: Date, b: Date) {
    a.year < b.year || (a.year == b.year && (a.month < b.month || (a.month == b.month && a.day < b.day)))
  }

  // ── Dates as the text the source compares ───

  function Digit(n: nat): char {
    '0' + (n % 10) as char
  }

  function DateText(d: Date): string {
    [Digit(d.year / 1000), Digit(d.year / 100), Digit(d.year / 10), Digit(d.year), '-',
     Digit(d.month / 10), Digit(d.month), '-', Digit(d.day / 10), Digit(d.day)]
  }

  lemma {:induction false} StringLessAt(a: string, b: string, k: nat)
    requires k < |a| && k < |b| && a[..k] == b[..k] && a[k] != b[k]
    ensures StringLess(a, b) <==> a[k] < b[k]
  {
    if k > 0 {
      assert a[0] == a[..k][0] == b[..k][0] == b[0];
      assert a[1..][..k - 1] == a[..k][1..] && b[1..][..k - 1] == b[..k][1..];
      StringLessAt(a[1..], b[1..], k - 1);
    }
  }

  lemma {:induction false} FirstDifference(a: string, b: string) returns (k: nat)
    requires |a| == |b| && a != b
    ensures k < |a| && a[..k] == b[..k] && a[k] != b[k]
    decreases |a|
  {
    if a[0] != b[0] {
      k := 0;
    } else {
      assert a == [a[0]] + a[1..] && b == [b[0]] + b[1..];
      var rest := FirstDifference(a[1..], b[1..]);
      k := rest + 1;
      assert a[..k] == [a[0]] + a[1..][..rest] && b[..k] == [b[0]] + b[1..][..rest];
    }
  }

  lemma TenthsOfTenths(a: nat)
    ensures a / 10 / 10 == a / 100 && a / 100 / 10 == a / 1000
  {
  }

  lemma LastDigitOf(a: nat)
    ensures a == 10 * (a / 10) + a % 10
  {
  }

  lemma DigitSum(a: nat)
    requires a <= 9999
    ensures a == 1000 * (a / 1000 % 10) + 100 * (a / 100 % 10) + 10 * (a / 10 % 10) + a % 10
  {
    TenthsOfTenths(a);
    LastDigitOf(a);
    LastDigitOf(a / 10);
    LastDigitOf(a / 100);
  }

  lemma YearDigits(a: nat, b: nat)
    requires a <= 9999 && b <= 9999
    ensures a / 1000 % 10 < b / 1000 % 10 ==> a < b
    ensures a / 1000 % 10 == b / 1000 % 10 && a / 100 % 10 < b / 100 % 10 ==> a < b
    ensures a / 1000 % 10 == b / 1000 % 10 && a / 100 % 10 == b / 100 % 10 && a / 10 % 10 < b / 10 % 10 ==> a < b
    ensures a / 1000 % 10 == b / 1000 % 10 && a / 100 % 10 == b / 100 % 10 && a / 10 % 10 == b / 10 % 10 ==>
      (a % 10 < b % 10 <==> a < b)
  {
    DigitSum(a);
    DigitSum(b);
  }

  lemma PairDigits(a: nat, b: nat)
    requires a <= 99 && b <= 99
    ensures a / 10 % 10 < b / 10 % 10 ==> a < b
    ensures a / 10 % 10 == b / 10 % 10 ==> (a % 10 < b % 10 <==> a < b)
  {
  }

  /** Comparing two date strings is comparing the dates: what every period check relies on. */
  lemma TextOrderIsDateOrder(a: Date, b: Date)
    requires IsCalendarDate(a) && IsCalendarDate(b)
    ensures StringLess(DateText(a), DateText(b)) <==> Before(a, b)
  {
    var s, t := DateText(a), DateText(b);
    YearDigits(a.year, b.year);
    YearDigits(b.year, a.year);
    PairDigits(a.month, b.month);
    PairDigits(b.month, a.month);
    PairDigits(a.day, b.day);
    PairDigits(b.day, a.day);
    if s == t {
      StringLessTrichotomy(s, t);
      DigitsFromText(a, b);
    } else {
      var k := FirstDifference(s, t);
      StringLessAt(s, t, k);
      forall i | 0 <= i < k ensures s[i] == t[i] {
        assert s[i] == s[..k][i] && t[i] == t[..k][i];
      }
      DigitsFromPrefix(a, b, k);
    }
  }

  lemma DigitsFromText(a: Date, b: Date)
    requires IsCalendarDate(a) && IsCalendarDate(b) && DateText(a) == DateText(b)
    ensures !Before(a, b)
  {
    var s, t := DateText(a), DateText(b);
    assert forall i | 0 <= i < 10 :: s[i] == t[i];
    assert s[0] == t[0] && s[1] == t[1] && s[2] == t[2] && s[3] == t[3];
    assert s[5] == t[5] && s[6] == t[6] && s[8] == t[8] && s[9] == t[9];
    YearDigits(a.year, b.year);
    PairDigits(a.month, b.month);
    PairDigits(b.month, a.month);
    PairDigits(a.day, b.day);
    YearDigits(b.year, a.year);
  }

  lemma DigitsFromPrefix(a: Date, b: Date, k: nat)
    requires IsCalendarDate(a) && IsCalendarDate(b)
    requires k < 10 && DateText(a)[k] != DateText(b)[k]
    requires forall i | 0 <= i < k :: DateText(a)[i] == DateText(b)[i]
    ensures DateText(a)[k] < DateText(b)[k] <==> Before(a, b)
  {
    var s, t := DateText(a), DateText(b);
    YearDigits(a.year, b.year);
    YearDigits(b.year, a.year);
    PairDigits(a.month, b.month);
    PairDigits(b.month, a.month);
    PairDigits(a.day, b.day);
    PairDigits(b.day, a.day);
    if k > 0 { assert s[0] == t[0]; }
    if k > 1 { assert s[1] == t[1]; }
    if k > 2 { assert s[2] == t[2]; }
    if k > 3 { assert s[3] == t[3]; }
    if k > 5 { assert s[5] == t[5]; }
    if k > 6 { assert s[6] == t[6]; }
    if k > 8 { assert s[8] == t[8]; }
  }

  // ── Days ───────────────────────────────

  function DaysBeforeMonth(y: nat, m: nat): nat
    requires 1 <= m <= 13
  {
    if m == 1 then 0 else DaysBeforeMonth(y, m - 1) + DaysInMonth(y, m - 1)
  }

  function YearLength(y: nat): nat {
    DaysBeforeMonth(y, 13)
  }

  function DaysBeforeYear(y: nat): nat {
    if y == 0 then 0 else DaysBeforeYear(y - 1) + YearLength(y - 1)
  }

  /** Days since 0000-01-01 of the proleptic Gregorian calendar. */
  function DayNumber(d: Date): nat
    requires 1 <= d.month <= 12 && 1 <= d.day
  {
    DaysBeforeYear(d.year) + DaysBeforeMonth(d.year, d.month) + d.day - 1
  }

  function MonthOf(y: nat, rest: nat, m: nat): (r: nat)
    requires 1 <= m <= 12 && DaysBeforeMonth(y, m) <= rest < YearLength(y)
    ensures m <= r <= 12 && DaysBeforeMonth(y, r) <= rest < DaysBeforeMonth(y, r + 1)
    decreases 12 - m
  {
    if rest < DaysBeforeMonth(y, m + 1) then m else MonthOf(y, rest, m + 1)
  }

  lemma YearLengthPositive(y: nat)
    ensures YearLength(y) >= 365
  {
    assert DaysBeforeMonth(y, 2) == 31;
    assert DaysBeforeMonth(y, 4) >= 90;
    assert DaysBeforeMonth(y, 6) >= 151;
    assert DaysBeforeMonth(y, 8) >= 212;
    assert DaysBeforeMonth(y, 10) >= 273;
    assert DaysBeforeMonth(y, 12) >= 334;
  }

  function YearOf(n: nat, y: nat): (r: nat)
    requires DaysBeforeYear(y) <= n
    ensures y <= r && DaysBeforeYear(r) <= n < DaysBeforeYear(r + 1)
    decreases n - DaysBeforeYear(y)
  {
    YearLengthPositive(y);
    if n < DaysBeforeYear(y + 1) then y else YearOf(n, y + 1)
  }

  function CivilDate(n: nat): Date {
    var y := YearOf(n, 0);
    var rest := n - DaysBeforeYear(y);
    var m := MonthOf(y, rest, 1);
    Date(y, m, rest - DaysBeforeMonth(y, m) + 1)
  }

  lemma {:induction false} YearsAdd(y: nat, z: nat)
    requires y < z
    ensures DaysBeforeYear(y + 1) <= DaysBeforeYear(z)
    decreases z
  {
    if y + 1 < z { YearsAdd(y, z - 1); }
  }

  lemma {:induction false} MonthsAdd(y: nat, m: nat, k: nat)
    requires 1 <= m < k <= 13
    ensures DaysBeforeMonth(y, m + 1) <= DaysBeforeMonth(y, k)
    decreases k
  {
    if m + 1 < k { MonthsAdd(y, m, k - 1); }
  }

  lemma YearFound(y: nat, n: nat)
    requires DaysBeforeYear(y) <= n < DaysBeforeYear(y + 1)
    ensures YearOf(n, 0) == y
  {
    var z := YearOf(n, 0);
    hide DaysBeforeYear, YearLength;
    if z < y { YearsAdd(z, y); }
    if y < z { YearsAdd(y, z); }
  }

  lemma MonthFound(y: nat, m: nat, rest: nat)
    requires 1 <= m <= 12 && DaysBeforeMonth(y, m) <= rest < DaysBeforeMonth(y, m + 1) && rest < YearLength(y)
    ensures DaysBeforeMonth(y, 1) == 0 && MonthOf(y, rest, 1) == m
  {
    assert DaysBeforeMonth(y, 1) == 0;
    hide DaysBeforeMonth, YearLength;
    var k := MonthOf(y, rest, 1);
    if k < m { MonthsAdd(y, k, m); }
    if m < k { MonthsAdd(y, m, k); }
  }

  lemma DayFits(d: Date)
    requires IsCalendarDate(d)
    ensures 1 <= d.month <= 12 && 1 <= d.day
    ensures DaysBeforeMonth(d.year, d.month) + d.day <= DaysBeforeMonth(d.year, d.month + 1) <= YearLength(d.year)
    ensures DaysBeforeYear(d.year + 1) == DaysBeforeYear(d.year) + YearLength(d.year)
  {
    if d.month < 12 {
      MonthsAdd(d.year, d.month, 13);
    }
  }

  /** Counting days and reading the date back are inverse. */
  lemma CivilDateInvertsDayNumber(d: Date)
    requires IsCalendarDate(d)
    ensures CivilDate(DayNumber(d)) == d
  {
    hide DaysBeforeMonth, DaysBeforeYear, YearLength, YearOf, MonthOf, DaysInMonth, IsCalendarDate;
    DayFits(d);
    YearFound(d.year, DayNumber(d));
    MonthFound(d.year, d.month, DayNumber(d) - DaysBeforeYear(d.year));
  }

  lemma DayNumberOrder(a: Date, b: Date)
    requires IsCalendarDate(a) && IsCalendarDate(b)
    ensures Before(a, b) <==> DayNumber(a) < DayNumber(b)
  {
    MonthsAdd(a.year, a.month, 13);
    MonthsAdd(b.year, b.month, 13);
    if a.year < b.year { YearsAdd(a.year, b.year); }
    else if b.year < a.year { YearsAdd(b.year, a.year); }
    else if a.month < b.month { MonthsAdd(a.year, a.month, b.month); }
    else if b.month < a.month { MonthsAdd(a.year, b.month, a.month); }
  }

  // ── Instants ───────────────────────────

  const DAY_MS := 86_400_000
  const OFFSET_MS := 8 * 60 * 60 * 1_000
  const UNIX_EPOCH_DAY := 719_528

  /** A stored instant, in milliseconds from the Unix epoch, not before year 0 in Malaysia. */
  type Instant = t: int | t + OFFSET_MS + UNIX_EPOCH_DAY * DAY_MS >= 0 witness 0

  function CampaignStart(d: Date): (t: Instant)
    requires IsCalendarDate(d)
  {
    (DayNumber(d) - UNIX_EPOCH_DAY) * DAY_MS - OFFSET_MS
  }

  function CampaignEnd(d: Date): (t: Instant)
    requires IsCalendarDate(d)
  {
    CampaignStart(d) + (DAY_MS - 1)
  }

  function MalaysiaDate(t: Instant): Date {
    CivilDate((t + OFFSET_MS + UNIX_EPOCH_DAY * DAY_MS) / DAY_MS)
  }

  lemma MalaysiaDayOf(d: Date, t: Instant)
    requires IsCalendarDate(d) && CampaignStart(d) <= t <= CampaignEnd(d)
    ensures (t + OFFSET_MS + UNIX_EPOCH_DAY * DAY_MS) / DAY_MS == DayNumber(d)
  {
    var n := DayNumber(d);
    var local := t + OFFSET_MS + UNIX_EPOCH_DAY * DAY_MS;
    assert n * DAY_MS <= local < (n + 1) * DAY_MS;
  }

  /** Every instant of a Malaysian day, its stored start and end included, reads back as it. */
  lemma {:induction false} MalaysiaDateRoundTrip(d: Date, t: Instant)
    requires IsCalendarDate(d) && CampaignStart(d) <= t <= CampaignEnd(d)
    ensures MalaysiaDate(t) == d
  {
    MalaysiaDayOf(d, t);
    CivilDateInvertsDayNumber(d);
  }

  /** A stored period covers an instant exactly when its dates cover the instant's date. */
  lemma PeriodCoversInstant(from: Date, to: Date, d: Date, t: Instant)
    requires IsCalendarDate(from) && IsCalendarDate(to) && IsCalendarDate(d)
    requires CampaignStart(d) <= t <= CampaignEnd(d)
    ensures CampaignStart(from) <= t <= CampaignEnd(to) <==> !Before(d, from) && !Before(to, d)
  {
    DayNumberOrder(d, from);
    DayNumberOrder(to, d);
  }
}
