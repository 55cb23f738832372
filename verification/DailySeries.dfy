/**
 * Sales per calendar day of the shop's time zone, the days without sales filled with zeros by
 * a date cursor that moves while its ISO text does not pass the last day.
 */
module DailySeries {
  import opened Prelude
  import opened Store

  // ---------------------------------------------------------------- the calendar

  datatype Date = Date(year: nat, month: nat, day: nat)

  predicate Leap(year: nat) {
    year % 4 == 0 && (year % 100 != 0 || year % 400 == 0)
  }

  function DaysIn(year: nat, month: nat): nat {
    if month == 2 then (if Leap(year) then 29 else 28)
    else if month in {4, 6, 9, 11} then 30
    else 31
  }

  function YearLength(year: nat): nat {
    if Leap(year) then 366 else 365
  }

  predicate Valid(d: Date) {
    1 <= d.year && 1 <= d.month <= 12 && 1 <= d.day <= DaysIn(d.year, d.month)
  }

  /** setUTCDate(getUTCDate() + 1). */
  function Next(d: Date): Date
    requires Valid(d)
  {
    if d.day < DaysIn(d.year, d.month) then Date(d.year, d.month, d.day + 1)
    else if d.month < 12 then Date(d.year, d.month + 1, 1)
    else Date(d.year + 1, 1, 1)
  }

  function DaysBeforeYear(year: nat): nat {
    if year <= 1 then 0 else DaysBeforeYear(year - 1) + YearLength(year - 1)
  }

  function DaysBeforeMonth(year: nat, month: nat): nat {
    if month <= 1 then 0 else DaysBeforeMonth(year, month - 1) + DaysIn(year, month - 1)
  }

  /** Days counted from the first of January of year 1. */
  function Ordinal(d: Date): nat {
    DaysBeforeYear(d.year) + DaysBeforeMonth(d.year, d.month) + d.day
  }

  /** Calendar order. */
  predicate Upto(a: Date, b: Date) {
    a.year < b.year || (a.year == b.year && (a.month < b.month || (a.month == b.month && a.day <= b.day)))
  }

  lemma WholeYear(year: nat)
    ensures DaysBeforeMonth(year, 12) + 31 == YearLength(year)
  {
    assert DaysBeforeMonth(year, 4) == 31 + DaysIn(year, 2) + 31 by {
      assert DaysBeforeMonth(year, 2) == 31;
    }
    assert DaysBeforeMonth(year, 7) == DaysBeforeMonth(year, 4) + 91 by {
      assert DaysBeforeMonth(year, 5) == DaysBeforeMonth(year, 4) + 30;
    }
    assert DaysBeforeMonth(year, 10) == DaysBeforeMonth(year, 7) + 92 by {
      assert DaysBeforeMonth(year, 8) == DaysBeforeMonth(year, 7) + 31;
    }
    assert DaysBeforeMonth(year, 11) == DaysBeforeMonth(year, 10) + 31;
  }

  /** The cursor moves by exactly one day, across month ends, leap days and new years. */
  lemma NextIsOneDay(d: Date)
    requires Valid(d)
    ensures Valid(Next(d)) && Ordinal(Next(d)) == Ordinal(d) + 1
  {
    if d.day == DaysIn(d.year, d.month) && d.month == 12 {
      WholeYear(d.year);
    }
  }

  lemma {:induction false} MonthsApart(year: nat, m: nat, n: nat)
    requires 1 <= m < n
    ensures DaysBeforeMonth(year, m) + DaysIn(year, m) <= DaysBeforeMonth(year, n)
  {
    if m < n - 1 { MonthsApart(year, m, n - 1); }
  }

  lemma {:induction false} YearsApart(m: nat, n: nat)
    requires 1 <= m < n
    ensures DaysBeforeYear(m) + YearLength(m) <= DaysBeforeYear(n)
  {
    if m < n - 1 { YearsApart(m, n - 1); }
  }

  lemma WithinYear(d: Date)
    requires Valid(d)
    ensures 1 <= DaysBeforeMonth(d.year, d.month) + d.day <= YearLength(d.year)
  {
    WholeYear(d.year);
    if d.month < 12 { MonthsApart(d.year, d.month, 12); }
  }

  lemma Ascending(a: Date, b: Date)
    requires Valid(a) && Valid(b) && Upto(a, b)
    ensures Ordinal(a) <= Ordinal(b) && (a != b ==> Ordinal(a) < Ordinal(b))
  {
    if a.year < b.year {
      YearsApart(a.year, b.year);
      WithinYear(a);
      WithinYear(b);
    } else if a.month < b.month {
      MonthsApart(a.year, a.month, b.month);
    }
  }

  /** Counting days and reading the calendar give the same order, and no two dates share a count. */
  lemma OrdinalOrder(a: Date, b: Date)
    requires Valid(a) && Valid(b)
    ensures Upto(a, b) <==> Ordinal(a) <= Ordinal(b)
    ensures Ordinal(a) == Ordinal(b) ==> a == b
  {
    if Upto(a, b) { Ascending(a, b); } else { Ascending(b, a); }
    if Upto(b, a) { Ascending(b, a); }
  }

  // ---------------------------------------------------------------- dates as text

  function Digit(n: nat): char
    requires n < 10
  {
    '0' + n as char
  }

  /** The last `width` decimal digits of n. */
  function Digits(n: nat, width: nat): (s: string)
    ensures |s| == width
    ensures width > 0 ==> '0' <= s[0] <= '9'
  {
    if width == 0 then "" else Digits(n / 10, width - 1) + [Digit(n % 10)]
  }

  /** JavaScript's <= on strings: by code unit, a prefix first. */
  predicate TextUpto(a: string, b: string) {
    a == "" || (b != "" && (a[0] < b[0] || (a[0] == b[0] && TextUpto(a[1..], b[1..]))))
  }

  lemma {:induction false} TextReflexive(a: string)
    ensures TextUpto(a, a)
  {
    if a != "" { TextReflexive(a[1..]); }
  }

  lemma {:induction false} TextConcat(a: string, b: string, x: string, y: string)
    requires |a| == |b|
    ensures TextUpto(a + x, b + y) <==> if a == b then TextUpto(x, y) else TextUpto(a, b)
  {
    if a == "" {
      assert a + x == x && b + y == y;
    } else {
      assert (a + x)[1..] == a[1..] + x && (b + y)[1..] == b[1..] + y;
      assert a == [a[0]] + a[1..] && b == [b[0]] + b[1..];
      TextConcat(a[1..], b[1..], x, y);
    }
  }

  function Power10(k: nat): (p: nat)
    ensures p >= 1
  {
    if k == 0 then 1 else 10 * Power10(k - 1)
  }

  lemma {:induction false} DigitsOrder(n: nat, m: nat, width: nat)
    requires n < Power10(width) && m < Power10(width)
    ensures TextUpto(Digits(n, width), Digits(m, width)) <==> n <= m
    ensures Digits(n, width) == Digits(m, width) <==> n == m
  {
    if width > 0 {
      DigitsOrder(n / 10, m / 10, width - 1);
      TextConcat(Digits(n / 10, width - 1), Digits(m / 10, width - 1), [Digit(n % 10)], [Digit(m % 10)]);
      var s, t := Digits(n, width), Digits(m, width);
      assert s[..width-1] == Digits(n / 10, width - 1) && t[..width-1] == Digits(m / 10, width - 1);
      assert s[width-1] == Digit(n % 10) && t[width-1] == Digit(m % 10);
      assert n == 10 * (n / 10) + n % 10 && m == 10 * (m / 10) + m % 10;
    }
  }

  /** The first ten characters of toISOString(): beyond the year 9999 it writes a sign and six digits. */
  function IsoSlice(d: Date): string {
    if d.year <= 9999 then Digits(d.year, 4) + ("-" + (Digits(d.month, 2) + ("-" + Digits(d.day, 2))))
    else "+" + Digits(d.year, 6) + "-" + Digits(d.month, 2)
  }

  lemma Powers()
    ensures Power10(2) == 100 && Power10(4) == 10000 && Power10(6) == 1000000
  {
    assert Power10(1) == 10 && Power10(3) == 10 * Power10(2) && Power10(5) == 10 * Power10(4);
  }

  predicate AllDigits(s: string) {
    forall i :: 0 <= i < |s| ==> '0' <= s[i] <= '9'
  }

  /** The number a row of digits writes. */
  function Number(s: string): nat
    requires AllDigits(s)
  {
    if s == "" then 0 else 10 * Number(s[..|s|-1]) + (s[|s|-1] as int - '0' as int)
  }

  lemma {:induction false} DigitsReadBack(n: nat, width: nat)
    requires n < Power10(width)
    ensures AllDigits(Digits(n, width)) && Number(Digits(n, width)) == n
  {
    if width > 0 {
      DigitsReadBack(n / 10, width - 1);
      var s := Digits(n, width);
      assert s[..width-1] == Digits(n / 10, width - 1) && s[width-1] == Digit(n % 10);
      assert forall i :: 0 <= i < width - 1 ==> s[i] == s[..width-1][i];
    }
  }

  /** Year, month and day can be read back from the text, each at its place; of a later year, year and month. */
  lemma TextReadsBack(d: Date)
    requires Valid(d) && d.year <= 275760
    ensures var t := IsoSlice(d);
            && |t| == 10
            && (d.year <= 9999 ==>
                  && t == t[..4] + "-" + t[5..7] + "-" + t[8..]
                  && AllDigits(t[..4]) && Number(t[..4]) == d.year
                  && AllDigits(t[5..7]) && Number(t[5..7]) == d.month
                  && AllDigits(t[8..]) && Number(t[8..]) == d.day)
            && (d.year > 9999 ==>
                  && t == "+" + t[1..7] + "-" + t[8..]
                  && AllDigits(t[1..7]) && Number(t[1..7]) == d.year
                  && AllDigits(t[8..]) && Number(t[8..]) == d.month)
  {
    hide Digits, Number, AllDigits;
    Powers();
    DigitsReadBack(d.month, 2);
    DigitsReadBack(d.day, 2);
    var t := IsoSlice(d);
    if d.year <= 9999 {
      DigitsReadBack(d.year, 4);
      assert t[..4] == Digits(d.year, 4) && t[5..7] == Digits(d.month, 2) && t[8..] == Digits(d.day, 2);
    } else {
      DigitsReadBack(d.year, 6);
      assert t[1..7] == Digits(d.year, 6) && t[8..] == Digits(d.month, 2);
    }
  }

  /** For four-digit years, text order is calendar order, and the text names the day. */
  lemma TextIsCalendarOrder(a: Date, b: Date)
    requires Valid(a) && Valid(b) && a.year <= 9999 && b.year <= 9999
    ensures TextUpto(IsoSlice(a), IsoSlice(b)) <==> Upto(a, b)
    ensures IsoSlice(a) == IsoSlice(b) ==> a == b
  {
    Powers();
    DigitsOrder(a.year, b.year, 4);
    DigitsOrder(a.month, b.month, 2);
    DigitsOrder(a.day, b.day, 2);
    hide Digits, Valid, TextUpto;
    var ya, yb, ma, mb, da, db :=
      Digits(a.year, 4), Digits(b.year, 4), Digits(a.month, 2), Digits(b.month, 2), Digits(a.day, 2), Digits(b.day, 2);
    Dashed(ya, yb, ma + ("-" + da), mb + ("-" + db));
    Dashed(ma, mb, da, db);
  }

  /** Two dashed texts compare part by part. */
  lemma Dashed(a: string, b: string, x: string, y: string)
    requires |a| == |b|
    ensures TextUpto(a + ("-" + x), b + ("-" + y)) <==> if a == b then TextUpto(x, y) else TextUpto(a, b)
    ensures a + ("-" + x) == b + ("-" + y) ==> a == b && x == y
  {
    TextConcat(a, b, "-" + x, "-" + y);
    TextConcat("-", "-", x, y);
    hide TextUpto;
    var s, t := a + ("-" + x), b + ("-" + y);
    assert s[..|a|] == a && t[..|a|] == b && s[|a|+1..] == x && t[|a|+1..] == y;
  }

  /** Past the year 9999 the text falls before every four-digit date. */
  lemma SignComesFirst(a: Date, b: Date)
    requires a.year > 9999 && b.year <= 9999
    ensures TextUpto(IsoSlice(a), IsoSlice(b))
  {
    assert IsoSlice(a)[0] == '+';
    assert IsoSlice(b)[0] == Digits(b.year, 4)[0];
  }

  // ---------------------------------------------------------------- the sales

  /** An order as the query sees it: the shop's calendar day of its creation, its state, its total. */
  datatype Sale = Sale(day: Date, status: OrderStatus, totalCents: nat)

  datatype Figures = Figures(count: nat, gross: nat)

  datatype Day = Day(date: string, figures: Figures)

  datatype Failure = RangeError

  const NOTHING := Figures(0, 0)

  function Plus(a: Figures, b: Figures): Figures {
    Figures(a.count + b.count, a.gross + b.gross)
  }

  /** SOLD_STATUSES. */
  predicate Sold(s: Sale) {
    s.status in {PAID, IN_PRODUCTION, SHIPPED, DELIVERED, NEEDS_REVIEW}
  }

  /** What one order adds to a sum it is counted in. */
  function Of(s: Sale, counted: bool): Figures {
    if Sold(s) && counted then Figures(1, s.totalCents) else NOTHING
  }

  /** The figures of the sold orders of the days from a count up to, not including, another. */
  function Between(sales: seq<Sale>, lo: int, hi: int): Figures {
    if sales == [] then NOTHING
    else
      var rest, s := Between(sales[..|sales|-1], lo, hi), sales[|sales|-1];
      Plus(rest, Of(s, lo <= Ordinal(s.day) < hi))
  }

  /** The direct sum of one day. */
  function OnDay(sales: seq<Sale>, d: Date): Figures {
    if sales == [] then NOTHING
    else
      var rest, s := OnDay(sales[..|sales|-1], d), sales[|sales|-1];
      Plus(rest, Of(s, s.day == d))
  }

  /** One order more adds one, and its total, to its own day if it counts as sold, and nothing to any other day. */
  lemma OneMoreSale(sales: seq<Sale>, s: Sale, d: Date)
    ensures var before, after := OnDay(sales, d), OnDay(sales + [s], d);
            if s.day == d && (s.status == PAID || s.status == IN_PRODUCTION || s.status == SHIPPED
                              || s.status == DELIVERED || s.status == NEEDS_REVIEW)
            then after.count == before.count + 1 && after.gross == before.gross + s.totalCents
            else after == before
    ensures OnDay([], d) == Figures(0, 0)
  {
    assert (sales + [s])[..|sales|] == sales;
  }

  /** GROUP BY day, with the range and the states of the query; only days with sales have a row. */
  function Grouped(sales: seq<Sale>, from: Date, to: Date): map<string, Figures> {
    if sales == [] then map[]
    else
      var rest, s := Grouped(sales[..|sales|-1], from, to), sales[|sales|-1];
      if Sold(s) && Upto(from, s.day) && Upto(s.day, to)
      then rest[IsoSlice(s.day) := Plus(RowOf(rest, IsoSlice(s.day)), Figures(1, s.totalCents))]
      else rest
  }

  /** porDia.get(date) ?? 0. */
  function RowOf(rows: map<string, Figures>, date: string): Figures {
    if date in rows then rows[date] else NOTHING
  }

  predicate SalesValid(sales: seq<Sale>) {
    forall i :: 0 <= i < |sales| ==> Valid(sales[i].day) && sales[i].day.year <= 9999
  }

  lemma {:induction false} GroupedExact(sales: seq<Sale>, from: Date, to: Date, d: Date)
    requires SalesValid(sales) && Valid(d) && d.year <= 9999 && Upto(from, d) && Upto(d, to)
    ensures RowOf(Grouped(sales, from, to), IsoSlice(d)) == OnDay(sales, d)
  {
    hide IsoSlice, Valid, Plus, Sold, Upto;
    NothingAdded();
    if sales != [] {
      var n := |sales| - 1;
      GroupedExact(sales[..n], from, to, d);
      TextIsCalendarOrder(sales[n].day, d);
    }
  }

  lemma PlusSwap(a: Figures, b: Figures, c: Figures, d: Figures)
    ensures Plus(Plus(a, b), Plus(c, d)) == Plus(Plus(a, c), Plus(b, d))
  {
  }

  lemma {:induction false} OneDayMore(sales: seq<Sale>, lo: int, d: Date)
    requires SalesValid(sales) && Valid(d) && lo <= Ordinal(d)
    ensures Between(sales, lo, Ordinal(d) + 1) == Plus(Between(sales, lo, Ordinal(d)), OnDay(sales, d))
  {
    hide Ordinal, Valid, Upto, Plus, Sold;
    if sales == [] {
      assert Plus(NOTHING, NOTHING) == NOTHING by { NothingAdded(); }
    } else {
      var n := |sales| - 1;
      var rest, s := sales[..n], sales[n];
      OneDayMore(rest, lo, d);
      OrdinalOrder(s.day, d);
      var was, now := lo <= Ordinal(s.day) < Ordinal(d), lo <= Ordinal(s.day) < Ordinal(d) + 1;
      assert Of(s, now) == Plus(Of(s, was), Of(s, s.day == d)) by { NothingAdded(); }
      PlusSwap(Between(rest, lo, Ordinal(d)), OnDay(rest, d), Of(s, was), Of(s, s.day == d));
    }
  }

  lemma NothingAdded()
    ensures forall f :: Plus(f, NOTHING) == f && Plus(NOTHING, f) == f
  {
  }

  lemma {:induction false} EmptyRange(sales: seq<Sale>, lo: int, hi: int)
    requires hi <= lo
    ensures Between(sales, lo, hi) == NOTHING
  {
    hide Ordinal, Plus, Sold;
    NothingAdded();
    if sales != [] { EmptyRange(sales[..|sales|-1], lo, hi); }
  }

  function Total(days: seq<Day>): Figures {
    if days == [] then NOTHING else Plus(Total(days[..|days|-1]), days[|days|-1].figures)
  }

  // ---------------------------------------------------------------- the series

  /** The day k days after `from`. */
  function DayAt(from: Date, k: nat): (d: Date)
    requires Valid(from)
    ensures Valid(d) && Ordinal(d) == Ordinal(from) + k
  {
    if k == 0 then from
    else
      NextIsOneDay(DayAt(from, k - 1));
      Next(DayAt(from, k - 1))
  }

  function DayCount(from: Date, to: Date): nat {
    if Ordinal(from) <= Ordinal(to) then Ordinal(to) - Ordinal(from) + 1 else 0
  }

  /** The filled series, from its definition alone. */
  predicate IsSeries(sales: seq<Sale>, from: Date, to: Date, days: seq<Day>)
    requires Valid(from)
  {
    |days| == DayCount(from, to)
    && forall k :: 0 <= k < |days| ==> days[k] == Day(IsoSlice(DayAt(from, k)), OnDay(sales, DayAt(from, k)))
  }

  /** Every day of the range stands in the series, once, with its own figures. */
  lemma EveryDayOnce(sales: seq<Sale>, from: Date, to: Date, days: seq<Day>, d: Date)
    requires Valid(from) && Valid(to) && to.year <= 9999 && IsSeries(sales, from, to, days)
    requires Valid(d) && Upto(from, d) && Upto(d, to)
    ensures exists k :: 0 <= k < |days| && days[k] == Day(IsoSlice(d), OnDay(sales, d))
    ensures forall i, k :: 0 <= i < k < |days| ==> days[i].date != days[k].date
  {
    OrdinalOrder(from, d);
    OrdinalOrder(d, to);
    var at := Ordinal(d) - Ordinal(from);
    OrdinalOrder(DayAt(from, at), d);
    assert days[at] == Day(IsoSlice(d), OnDay(sales, d));
    forall i, k | 0 <= i < k < |days| ensures days[i].date != days[k].date {
      OrdinalOrder(DayAt(from, i), to);
      OrdinalOrder(DayAt(from, k), to);
      TextIsCalendarOrder(DayAt(from, i), DayAt(from, k));
    }
  }

  lemma {:induction false} TotalUpTo(sales: seq<Sale>, from: Date, to: Date, days: seq<Day>, k: nat)
    requires SalesValid(sales) && Valid(from) && IsSeries(sales, from, to, days) && k <= |days|
    ensures Total(days[..k]) == Between(sales, Ordinal(from), Ordinal(from) + k)
  {
    hide Ordinal, Valid, Plus, OnDay, Between, DayAt, IsoSlice, SalesValid, DayCount;
    if k == 0 {
      EmptyRange(sales, Ordinal(from), Ordinal(from));
      assert days[..0] == [];
    } else {
      var d := DayAt(from, k - 1);
      assert days[k-1].figures == OnDay(sales, d);
      TotalUpTo(sales, from, to, days, k - 1);
      OneDayMore(sales, Ordinal(from), d);
      OneMoreTotal(days, k);
    }
  }

  lemma OneMoreTotal(days: seq<Day>, k: nat)
    requires 0 < k <= |days|
    ensures Total(days[..k]) == Plus(Total(days[..k-1]), days[k-1].figures)
  {
    assert days[..k][..k-1] == days[..k-1];
  }

  /** The sold orders of the whole range, counted directly. */
  function InRange(sales: seq<Sale>, from: Date, to: Date): Figures {
    if sales == [] then NOTHING
    else
      var rest, s := InRange(sales[..|sales|-1], from, to), sales[|sales|-1];
      Plus(rest, Of(s, Upto(from, s.day) && Upto(s.day, to)))
  }

  lemma {:induction false} RangeByCount(sales: seq<Sale>, from: Date, to: Date)
    requires SalesValid(sales) && Valid(from) && Valid(to)
    ensures InRange(sales, from, to) == Between(sales, Ordinal(from), Ordinal(to) + 1)
  {
    hide Ordinal, Valid, Upto;
    if sales != [] {
      var n := |sales| - 1;
      RangeByCount(sales[..n], from, to);
      OrdinalOrder(from, sales[n].day);
      OrdinalOrder(sales[n].day, to);
    }
  }

  /** Filling with zeros loses and adds nothing: the bars add up to the range. */
  lemma SeriesAddsUp(sales: seq<Sale>, from: Date, to: Date, days: seq<Day>)
    requires SalesValid(sales) && Valid(from) && Valid(to) && IsSeries(sales, from, to, days)
    ensures Total(days) == InRange(sales, from, to)
  {
    hide Ordinal, Valid, Total, InRange, Between, DayAt, OnDay, Upto, SalesValid;
    TotalUpTo(sales, from, to, days, |days|);
    assert days[..|days|] == days;
    RangeByCount(sales, from, to);
    if Ordinal(to) < Ordinal(from) {
      EmptyRange(sales, Ordinal(from), Ordinal(to) + 1);
      EmptyRange(sales, Ordinal(from), Ordinal(from));
      assert |days| == 0;
    }
  }

  // ---------------------------------------------------------------- the cursor loop

  const LAST_DAY := Date(9999, 12, 31)

  /** The last instant a JavaScript Date can hold falls on this day. */
  function DateLimit(): Date {
    Date(275760, 9, 13)
  }

  /** After the last representable day the cursor is an invalid Date, whose toISOString throws. */
  function Moved(d: Date): Option<Date>
    requires Valid(d)
  {
    if Upto(DateLimit(), d) then None else Some(Next(d))
  }

  /** What the loop keeps: the days so far, or the run past the year 9999. */
  predicate Filling(sales: seq<Sale>, from: Date, to: Date, cursor: Option<Date>, dias: seq<Day>)
    requires Valid(from)
  {
    && (cursor.Some? ==> Valid(cursor.value) && Ordinal(cursor.value) <= Ordinal(DateLimit()))
    && (cursor.Some? && cursor.value.year <= 9999 ==>
          && cursor.value == DayAt(from, |dias|)
          && (|dias| > 0 ==> Upto(DayAt(from, |dias| - 1), to))
          && forall k :: 0 <= k < |dias| ==> dias[k] == Day(IsoSlice(DayAt(from, k)), OnDay(sales, DayAt(from, k))))
    && (cursor.None? || cursor.value.year > 9999 ==> to == LAST_DAY && Upto(from, to))
  }

  lemma LimitIsADate()
    ensures Valid(DateLimit())
  {
  }

  lemma CursorAdvances(c: Date)
    requires Valid(c) && Moved(c).Some?
    ensures Valid(Moved(c).value)
    ensures Ordinal(Moved(c).value) == Ordinal(c) + 1 <= Ordinal(DateLimit())
  {
    LimitIsADate();
    hide DateLimit, Ordinal;
    NextIsOneDay(c);
    OrdinalOrder(DateLimit(), c);
  }

  lemma FillingStarts(sales: seq<Sale>, from: Date, to: Date)
    requires Valid(from) && from.year <= 9999
    ensures Filling(sales, from, to, Some(from), [])
  {
    LimitIsADate();
    hide Ordinal;
    OrdinalOrder(from, DateLimit());
  }

  /** One turn of the loop inside four-digit years: the cursor's day, with its own figures, joins the list. */
  lemma FillingInside(sales: seq<Sale>, from: Date, to: Date, c: Date, dias: seq<Day>)
    requires SalesValid(sales) && Valid(from) && Valid(to) && from.year <= 9999 && to.year <= 9999
    requires c.year <= 9999 && Filling(sales, from, to, Some(c), dias) && TextUpto(IsoSlice(c), IsoSlice(to))
    ensures c == DayAt(from, |dias|) && Upto(from, c) && Upto(c, to)
    ensures RowOf(Grouped(sales, from, to), IsoSlice(c)) == OnDay(sales, c)
  {
    hide Ordinal, IsoSlice, TextUpto, OnDay, Grouped, Valid, SalesValid, DateLimit, RowOf;
    assert Valid(c) && Ordinal(from) <= Ordinal(c);
    TextIsCalendarOrder(c, to);
    OrdinalOrder(from, c);
    GroupedExact(sales, from, to, c);
  }

  lemma LeavingTheYears(c: Date, to: Date)
    requires Valid(c) && Valid(to) && c.year <= 9999 && to.year <= 9999 && Upto(c, to)
    requires Moved(c).None? || Moved(c).value.year > 9999
    ensures to == LAST_DAY
  {
  }

  lemma NextDayAt(from: Date, c: Date, k: nat)
    requires Valid(from) && c == DayAt(from, k) && Moved(c).Some?
    ensures Moved(c).value == DayAt(from, k + 1)
  {
    hide Valid, Ordinal;
  }

  /** Where the cursor goes after one turn. */
  lemma CursorGoesOn(from: Date, to: Date, c: Date, k: nat)
    requires Valid(from) && Valid(to) && from.year <= 9999 && to.year <= 9999
    requires Valid(c) && c.year <= 9999 && c == DayAt(from, k) && Upto(from, c) && Upto(c, to)
    ensures Moved(c).Some? && Moved(c).value.year <= 9999 ==> Moved(c).value == DayAt(from, k + 1)
    ensures Moved(c).None? || Moved(c).value.year > 9999 ==> to == LAST_DAY && Upto(from, to)
  {
    hide Valid, Ordinal, DateLimit, Upto, Moved;
    if Moved(c).None? || Moved(c).value.year > 9999 {
      LeavingTheYears(c, to);
      RangeNotEmpty(from, c, to);
    } else {
      NextDayAt(from, c, k);
    }
  }

  lemma FillingGoesOn(sales: seq<Sale>, from: Date, to: Date, c: Date, dias: seq<Day>)
    requires SalesValid(sales) && Valid(from) && Valid(to) && from.year <= 9999 && to.year <= 9999
    requires Filling(sales, from, to, Some(c), dias) && TextUpto(IsoSlice(c), IsoSlice(to))
    ensures Valid(c) && Ordinal(c) <= Ordinal(DateLimit())
    ensures Moved(c).Some? ==> Ordinal(Moved(c).value) == Ordinal(c) + 1
    ensures Filling(sales, from, to, Moved(c), dias + [Day(IsoSlice(c), RowOf(Grouped(sales, from, to), IsoSlice(c)))])
  {
    hide Ordinal, IsoSlice, TextUpto, OnDay, Grouped, Valid, SalesValid, DateLimit, RowOf, Upto, Moved, DayAt;
    assert Valid(c) && Ordinal(c) <= Ordinal(DateLimit());
    if Moved(c).Some? {
      CursorAdvances(c);
    }
    if c.year <= 9999 {
      FillingInside(sales, from, to, c, dias);
      CursorGoesOn(from, to, c, |dias|);
    } else {
      assert Moved(c).Some? ==> Moved(c).value.year > 9999 by { YearsGrow(c); }
    }
  }

  lemma YearsGrow(c: Date)
    requires Valid(c)
    ensures Moved(c).Some? ==> Moved(c).value.year >= c.year
  {
  }

  lemma RangeNotEmpty(from: Date, c: Date, to: Date)
    requires Upto(from, c) && Upto(c, to)
    ensures Upto(from, to)
  {
  }

  lemma FillingEnds(sales: seq<Sale>, from: Date, to: Date, cursor: Option<Date>, dias: seq<Day>)
    requires Valid(from) && Valid(to) && from.year <= 9999 && to.year <= 9999
    requires Filling(sales, from, to, cursor, dias)
    requires cursor.Some? ==> !TextUpto(IsoSlice(cursor.value), IsoSlice(to))
    ensures cursor.Some? <==> to != LAST_DAY || !Upto(from, to)
    ensures cursor.Some? ==> IsSeries(sales, from, to, dias)
  {
    hide Ordinal, IsoSlice, TextUpto, OnDay, Digits;
    if cursor.Some? {
      if cursor.value.year > 9999 {
        SignComesFirst(cursor.value, to);
      } else {
        TextIsCalendarOrder(cursor.value, to);
        OrdinalOrder(cursor.value, to);
        if |dias| > 0 {
          OrdinalOrder(DayAt(from, |dias| - 1), to);
        }
      }
    }
  }

  /**
   * The loop of getSalesTimeseries. It always ends; it ends well, with the
   * filled series, exactly when the range is empty or its last day is not the
   * last of the year 9999. After that day the ISO text starts with a sign,
   * sorts first, and the cursor runs on until no Date can hold it.
   */
  method Fill(sales: seq<Sale>, from: Date, to: Date) returns (result: Result<seq<Day>, Failure>)
    requires SalesValid(sales) && Valid(from) && Valid(to) && from.year <= 9999 && to.year <= 9999
    ensures result.Ok? <==> to != LAST_DAY || !Upto(from, to)
    ensures result.Ok? ==> IsSeries(sales, from, to, result.value)
  {
    hide *;
    var porDia := Grouped(sales, from, to);
    var ultimo := IsoSlice(to);
    var dias: seq<Day> := [];
    var cursor := Some(from);
    FillingStarts(sales, from, to);
    while cursor.Some? && TextUpto(IsoSlice(cursor.value), ultimo)
      invariant Filling(sales, from, to, cursor, dias)
      decreases if cursor.Some? then Ordinal(DateLimit()) + 1 - Ordinal(cursor.value) else 0
    {
      var date := IsoSlice(cursor.value);
      FillingGoesOn(sales, from, to, cursor.value, dias);
      dias := dias + [Day(date, RowOf(porDia, date))];
      cursor := Moved(cursor.value);
    }
    FillingEnds(sales, from, to, cursor, dias);
    result := if cursor.None? then Err(RangeError) else Ok(dias);
  }
}
