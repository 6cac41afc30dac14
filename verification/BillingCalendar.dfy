/** Calendar arithmetic of a subscription's billing period. */
module BillingCalendar {

  datatype RawDate = Date(year: int, month: int, day: int)

  predicate IsLeap(year: int) {
    year % 4 == 0 && (year % 100 != 0 || year % 400 == 0)
  }

  function LengthIn(leap: bool, month: int): int {
    if month == 2 then (if leap then 29 else 28)
    else if month == 4 || month == 6 || month == 9 || month == 11 then 30
    else 31
  }

  /** The second component of `calendar.monthrange`. */
  function MonthLength(year: int, month: int): int {
    LengthIn(IsLeap(year), month)
  }

  predicate IsDate(d: RawDate) {
    1 <= d.year && 1 <= d.month <= 12 && 1 <= d.day <= MonthLength(d.year, d.month)
  }

  type Date = d: RawDate | IsDate(d) witness Date(1, 1, 1)

  /** An instant: a calendar day and the microseconds elapsed in it. */
  datatype DateTime = DateTime(date: Date, time: nat)

  datatype SubscriptionType = Monthly | Semiannual | Yearly

  // ---------------------------------------------------------------- order

  predicate DateBefore(a: Date, b: Date) {
    a.year < b.year || (a.year == b.year && (a.month < b.month || (a.month == b.month && a.day < b.day)))
  }

  predicate Before(a: DateTime, b: DateTime) {
    DateBefore(a.date, b.date) || (a.date == b.date && a.time < b.time)
  }

  predicate AtMost(a: DateTime, b: DateTime) {
    a == b || Before(a, b)
  }

  /** Python's `max` on two instants. */
  function Latest(a: DateTime, b: DateTime): (r: DateTime)
    ensures AtMost(a, r) && AtMost(b, r) && r in {a, b}
  {
    if Before(a, b) then b else a
  }

  function Midnight(t: DateTime): DateTime {
    DateTime(t.date, 0)
  }

  // ---------------------------------------------------------------- billing period

  function Min(a: int, b: int): int {
    if a <= b then a else b
  }

  function MonthsIn(t: SubscriptionType): int {
    match t
    case Yearly => 12
    case Semiannual => 6
    case Monthly => 1
  }

  function AddMonths(d: Date, months: nat): Date {
    var total := d.month - 1 + months;
    var year := d.year + total / 12;
    var month := total % 12 + 1;
    Date(year, month, Min(d.day, MonthLength(year, month)))
  }

  function AddBillingPeriod(base: DateTime, t: SubscriptionType): DateTime {
    DateTime(AddMonths(base.date, MonthsIn(t)), base.time)
  }

  // ---------------------------------------------------------------- day numbers

  /** Days of the Gregorian calendar before 1 January of `year`. */
  function DaysBeforeYear(year: int): int {
    365 * (year - 1) + (year - 1) / 4 - (year - 1) / 100 + (year - 1) / 400
  }

  function DaysBeforeMonth(year: int, month: int): int
    requires 1 <= month <= 12
  {
    if month == 1 then 0 else DaysBeforeMonth(year, month - 1) + MonthLength(year, month - 1)
  }

  function DayNumber(d: Date): int {
    DaysBeforeYear(d.year) + DaysBeforeMonth(d.year, d.month) + d.day
  }

  function NextDay(d: Date): Date {
    if d.day < MonthLength(d.year, d.month) then Date(d.year, d.month, d.day + 1)
    else if d.month < 12 then Date(d.year, d.month + 1, 1)
    else Date(d.year + 1, 1, 1)
  }

  lemma QuotientStep4(year: int)
    ensures year / 4 == (year - 1) / 4 + (if year % 4 == 0 then 1 else 0)
  {
  }

  lemma QuotientStep100(year: int)
    ensures year / 100 == (year - 1) / 100 + (if year % 100 == 0 then 1 else 0)
  {
  }

  lemma QuotientStep400(year: int)
    ensures year / 400 == (year - 1) / 400 + (if year % 400 == 0 then 1 else 0)
  {
  }

  lemma FourHundredIsACentury(year: int)
    requires year % 400 == 0
    ensures year % 100 == 0
  {
    var q := year / 400;
    assert year == 100 * (4 * q);
  }

  lemma CenturyIsDivisibleByFour(year: int)
    requires year % 100 == 0
    ensures year % 4 == 0
  {
    var q := year / 100;
    assert year == 4 * (25 * q);
  }

  lemma YearStep(year: int)
    ensures DaysBeforeYear(year + 1) == DaysBeforeYear(year) + (if IsLeap(year) then 366 else 365)
  {
    QuotientStep4(year);
    QuotientStep100(year);
    QuotientStep400(year);
    if year % 400 == 0 { FourHundredIsACentury(year); }
    if year % 100 == 0 { CenturyIsDivisibleByFour(year); }
  }

  /** `DaysBeforeMonth` as a table. */
  function Cumulative(leap: bool, month: int): int
    requires 1 <= month <= 12
  {
    [0, 31, 59, 90, 120, 151, 181, 212, 243, 273, 304, 334][month - 1] + (if leap && month > 2 then 1 else 0)
  }

  lemma {:induction false} MonthTable(year: int, month: int)
    requires 1 <= month <= 12
    ensures DaysBeforeMonth(year, month) == Cumulative(IsLeap(year), month)
  {
    if month > 1 { MonthTable(year, month - 1); }
  }

  /** Day numbers count days: the next calendar day is one more. */
  lemma DayNumberCountsDays(d: Date)
    ensures DayNumber(NextDay(d)) == DayNumber(d) + 1
  {
    YearStep(d.year);
    MonthTable(d.year, d.month);
    MonthTable(NextDay(d).year, NextDay(d).month);
  }

  lemma DayOfYear(d: Date)
    ensures DaysBeforeYear(d.year) < DayNumber(d) <= DaysBeforeYear(d.year + 1)
  {
    YearStep(d.year);
    MonthTable(d.year, d.month);
  }

  lemma {:induction false} YearsAddDays(a: int, b: int)
    requires a <= b
    ensures DaysBeforeYear(a) <= DaysBeforeYear(b)
    decreases b - a
  {
    if a < b {
      YearStep(b - 1);
      YearsAddDays(a, b - 1);
    }
  }

  lemma LaterDateHasLargerNumber(a: Date, b: Date)
    requires DateBefore(a, b)
    ensures DayNumber(a) < DayNumber(b)
  {
    if a.year < b.year {
      DayOfYear(a);
      DayOfYear(b);
      YearsAddDays(a.year + 1, b.year);
    } else {
      MonthTable(a.year, a.month);
      MonthTable(b.year, b.month);
    }
  }

  predicate WithinPeriod(t: SubscriptionType, days: int) {
    match t
    case Monthly => 28 <= days <= 31
    case Semiannual => 181 <= days <= 184
    case Yearly => 365 <= days <= 366
  }

  /** The length of an extension, from the two leap flags it depends on. */
  lemma ExtensionLength(t: SubscriptionType, leap: bool, next: bool, month: int, day: int)
    requires 1 <= month <= 12 && 1 <= day <= LengthIn(leap, month) && !(leap && next)
    ensures var total := month - 1 + MonthsIn(t);
            var there, arrival := total < 12, total % 12 + 1;
            var leapThere := if there then leap else next;
            WithinPeriod(t, (if there then 0 else if leap then 366 else 365)
                            + Cumulative(leapThere, arrival) + Min(day, LengthIn(leapThere, arrival))
                            - Cumulative(leap, month) - day)
  {
  }

  lemma Arrival(d: Date, t: SubscriptionType)
    ensures var e, total := AddMonths(d, MonthsIn(t)), d.month - 1 + MonthsIn(t);
            && e.year == (if total < 12 then d.year else d.year + 1)
            && e.month == total % 12 + 1
            && e.day == Min(d.day, MonthLength(e.year, e.month))
  {
  }

  lemma NoTwoLeapYears(year: int)
    ensures !(IsLeap(year) && IsLeap(year + 1))
  {
  }

  /** Every extension, clamped or not, has the length of the period it bills. */
  lemma PeriodLength(d: Date, t: SubscriptionType)
    ensures WithinPeriod(t, DayNumber(AddMonths(d, MonthsIn(t))) - DayNumber(d))
  {
    hide AddMonths, IsLeap, LengthIn, DaysBeforeMonth, DaysBeforeYear, Cumulative, WithinPeriod;
    var e := AddMonths(d, MonthsIn(t));
    Arrival(d, t);
    YearStep(d.year);
    MonthTable(d.year, d.month);
    MonthTable(e.year, e.month);
    var leap, next := IsLeap(d.year), IsLeap(d.year + 1);
    NoTwoLeapYears(d.year);
    ExtensionLength(t, leap, next, d.month, d.day);
  }

  /** An extension is strictly later than the instant it extends. */
  lemma ExtensionIsLater(base: DateTime, t: SubscriptionType)
    ensures Before(base, AddBillingPeriod(base, t))
  {
  }

  lemma LatestThenExtended(payment: DateTime, expiry: DateTime, t: SubscriptionType)
    ensures var e := AddBillingPeriod(Latest(payment, expiry), t);
            Before(payment, e) && Before(expiry, e)
  {
    ExtensionIsLater(Latest(payment, expiry), t);
  }

  // ---------------------------------------------------------------- monotonicity

  lemma ExtensionMonotoneOnDates(a: Date, b: Date, t: SubscriptionType)
    requires DateBefore(a, b)
    ensures var x, y := AddMonths(a, MonthsIn(t)), AddMonths(b, MonthsIn(t)); x == y || DateBefore(x, y)
  {
  }

  // ---------------------------------------------------------------- iterated billing

  /** Months numbered on one line, and the length of the month with a number. */
  function MonthIndex(d: Date): int {
    12 * d.year + d.month - 1
  }

  function LengthAt(index: int): int {
    MonthLength(index / 12, index % 12 + 1)
  }

  /** `n` renewals of `months` months each, one after the other. */
  function Renewals(d: Date, months: nat, n: nat): Date {
    if n == 0 then d else AddMonths(Renewals(d, months, n - 1), months)
  }

  /** The months that `n` renewals advance in all. */
  function Span(months: nat, n: nat): nat {
    if n == 0 then 0 else Span(months, n - 1) + months
  }

  lemma {:induction false} SpanIsProduct(months: nat, n: nat)
    ensures Span(months, n) == n * months
  {
    if n > 0 { SpanIsProduct(months, n - 1); }
  }

  /** The shortest month among those that `n` renewals land in; 31 if there are none. */
  function ShortestVisited(index: int, months: nat, n: nat): int {
    if n == 0 then 31 else Min(ShortestVisited(index, months, n - 1), LengthAt(index + Span(months, n)))
  }

  lemma SameMonthOrder(a: Date, b: Date)
    requires MonthIndex(a) == MonthIndex(b) && a.day <= b.day
    ensures a == b || DateBefore(a, b)
    ensures a == b <==> a.day == b.day
  {
  }

  lemma JumpIndex(d: Date, months: nat)
    ensures MonthIndex(AddMonths(d, months)) == MonthIndex(d) + months
    ensures AddMonths(d, months).day == Min(d.day, LengthAt(MonthIndex(d) + months))
  {
    var total := d.month - 1 + months;
    assert (MonthIndex(d) + months) / 12 == d.year + total / 12;
  }

  /** An extension reverses two instants exactly when they are on different days
      of one month, both days are cut to the end of the month of arrival, and the
      earlier one has the later time of day. */
  lemma ExtensionOrderOnInstants(a: DateTime, b: DateTime, t: SubscriptionType)
    requires Before(a, b)
    ensures Before(AddBillingPeriod(b, t), AddBillingPeriod(a, t)) <==>
            && MonthIndex(a.date) == MonthIndex(b.date) && a.date.day != b.date.day
            && LengthAt(MonthIndex(a.date) + MonthsIn(t)) <= a.date.day
            && a.time > b.time
  {
    JumpIndex(a.date, MonthsIn(t));
    JumpIndex(b.date, MonthsIn(t));
    if a.date != b.date { ExtensionMonotoneOnDates(a.date, b.date, t); }
  }

  lemma ExtensionCanReverseInstants()
    ensures exists a: DateTime, b: DateTime ::
              Before(a, b) && Before(AddBillingPeriod(b, Monthly), AddBillingPeriod(a, Monthly))
  {
    var a, b := DateTime(Date(2023, 1, 30), 10), DateTime(Date(2023, 1, 31), 9);
    assert AddBillingPeriod(a, Monthly) == DateTime(Date(2023, 2, 28), 10);
    assert AddBillingPeriod(b, Monthly) == DateTime(Date(2023, 2, 28), 9);
  }

  lemma OneRenewal(before: Date, after: Date, months: nat, index: int, day: int, shortest: int)
    requires after == AddMonths(before, months)
    requires MonthIndex(before) + months == index && before.day == Min(day, shortest)
    ensures MonthIndex(after) == index && after.day == Min(day, Min(shortest, LengthAt(index)))
  {
    JumpIndex(before, months);
  }

  lemma {:induction false} IteratedByIndex(d: Date, months: nat, n: nat)
    ensures MonthIndex(Renewals(d, months, n)) == MonthIndex(d) + Span(months, n)
    ensures Renewals(d, months, n).day == Min(d.day, ShortestVisited(MonthIndex(d), months, n))
  {
    if n > 0 {
      IteratedByIndex(d, months, n - 1);
      OneRenewal(Renewals(d, months, n - 1), Renewals(d, months, n), months, MonthIndex(d) + Span(months, n),
                 d.day, ShortestVisited(MonthIndex(d), months, n - 1));
    }
  }

  /** Closed form: repeated renewals land in the month one jump reaches, on the
      start day cut down to the shortest month visited on the way. */
  lemma IteratedBilling(d: Date, months: nat, n: nat, jump: Date)
    requires jump == AddMonths(d, Span(months, n))
    ensures MonthIndex(Renewals(d, months, n)) == MonthIndex(jump) == MonthIndex(d) + Span(months, n)
    ensures Renewals(d, months, n).day == Min(d.day, ShortestVisited(MonthIndex(d), months, n))
    ensures jump.day == Min(d.day, LengthAt(MonthIndex(jump)))
  {
    hide *;
    IteratedByIndex(d, months, n);
    JumpIndex(d, Span(months, n));
  }

  /** `ShortestVisited` is the minimum: a lower bound of the visited lengths that one of them meets. */
  lemma {:induction false} ShortestIsMinimum(index: int, months: nat, n: nat)
    ensures forall k :: 1 <= k <= n ==> ShortestVisited(index, months, n) <= LengthAt(index + Span(months, k))
    ensures n > 0 ==> exists k :: 1 <= k <= n && ShortestVisited(index, months, n) == LengthAt(index + Span(months, k))
  {
    if n > 0 {
      ShortestIsMinimum(index, months, n - 1);
      assert LengthAt(index + Span(months, n)) <= 31;
    }
  }

  lemma ArrivalIsVisited(index: int, months: nat, n: nat)
    requires n > 0
    ensures ShortestVisited(index, months, n) <= LengthAt(index + Span(months, n))
  {
  }

  lemma MinOrder(day: int, shortest: int, arrival: int)
    requires shortest <= arrival
    ensures Min(day, shortest) <= Min(day, arrival)
    ensures Min(day, shortest) == Min(day, arrival) <==> Min(day, arrival) <= shortest
  {
  }

  /** Renewing in small steps never ends later than one long jump, and ends on
      the same day exactly when no month on the way is shorter, for this day,
      than the month of arrival. */
  lemma SmallStepsNeverLater(d: Date, months: nat, n: nat, jump: Date)
    requires n > 0 && jump == AddMonths(d, Span(months, n))
    ensures var slow := Renewals(d, months, n);
            && (slow == jump || DateBefore(slow, jump))
            && (slow == jump <==> Min(d.day, LengthAt(MonthIndex(jump))) <= ShortestVisited(MonthIndex(d), months, n))
  {
    hide *;
    IteratedBilling(d, months, n, jump);
    ArrivalIsVisited(MonthIndex(d), months, n);
    MinOrder(d.day, ShortestVisited(MonthIndex(d), months, n), LengthAt(MonthIndex(jump)));
    SameMonthOrder(Renewals(d, months, n), jump);
  }

  lemma {:induction false} NoShortDay(index: int, months: nat, n: nat)
    ensures 28 <= ShortestVisited(index, months, n) <= 31
  {
    if n > 0 { NoShortDay(index, months, n - 1); }
  }

  /** A year of monthly or semiannual renewals against one yearly renewal. */
  lemma YearOfRenewals(d: Date, t: SubscriptionType, n: nat)
    requires n * MonthsIn(t) == MonthsIn(Yearly)
    ensures var slow, year := Renewals(d, MonthsIn(t), n), AddMonths(d, MonthsIn(Yearly));
            (slow == year || DateBefore(slow, year)) && (d.day <= 28 ==> slow == year)
  {
    SpanIsProduct(MonthsIn(t), n);
    SmallStepsNeverLater(d, MonthsIn(t), n, AddMonths(d, MonthsIn(Yearly)));
    NoShortDay(MonthIndex(d), MonthsIn(t), n);
  }

  // ---------------------------------------------------------------- one period

  /** `later` is one billing period after `base`: that many months on, on the same
      day or the last one there is, at the same time of day, and at a distance in
      days that is the period's. */
  predicate PeriodAfter(base: DateTime, later: DateTime, t: SubscriptionType) {
    && MonthIndex(later.date) == MonthIndex(base.date) + (match t case Monthly => 1 case Semiannual => 6 case Yearly => 12)
    && later.date.day == Min(base.date.day, LengthAt(MonthIndex(later.date)))
    && later.time == base.time
    && WithinPeriod(t, DayNumber(later.date) - DayNumber(base.date))
  }

  /** An extension adds one period, and nothing else is one period after. */
  lemma ExtensionIsOnePeriod(base: DateTime, later: DateTime, t: SubscriptionType)
    ensures PeriodAfter(base, later, t) <==> later == AddBillingPeriod(base, t)
  {
    hide DayNumber, WithinPeriod, LengthAt, AddMonths;
    JumpIndex(base.date, MonthsIn(t));
    PeriodLength(base.date, t);
    if PeriodAfter(base, later, t) { SameIndexSameMonth(later.date, AddMonths(base.date, MonthsIn(t))); }
  }

  lemma SameIndexSameMonth(a: Date, b: Date)
    requires MonthIndex(a) == MonthIndex(b) && a.day == b.day
    ensures a == b
  {
  }
}
