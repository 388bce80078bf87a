/** Proleptic Gregorian calendar dates, the day arithmetic Go's time.AddDate
    performs on them, and the "2006-01-02" layout (the ISO 8601 calendar date in
    extended format, section 4.1.2.2 of ISO 8601:2004) that names each date in
    the warehouse. Time zones are a Location: two functions that are left
    uninterpreted, because their meaning comes from the IANA time-zone
    database. */
module Calendar {
  import opened Outcomes
  import opened Decimal

  datatype Date = Date(year: int, month: int, day: int) {
    predicate Valid() {
      1 <= month <= 12 && 1 <= day <= DaysIn(year, month)
    }
  }

  type CivilDate = d: Date | d.Valid() witness Date(1970, 1, 1)

  /** Go's isLeap: divisible by 4, and not by 100 unless by 400. */
  predicate IsLeap(y: int) {
    y % 4 == 0 && (y % 100 != 0 || y % 400 == 0)
  }

  function DaysIn(y: int, m: int): (n: int)
    ensures 1 <= m <= 12 ==> 28 <= n <= 31
    ensures m == 2 ==> (n == 29 <==> IsLeap(y))
  {
    if m == 2 then (if IsLeap(y) then 29 else 28)
    else if m == 4 || m == 6 || m == 9 || m == 11 then 30
    else if 1 <= m <= 12 then 31
    else 0
  }

  /** Calendar order: a is an earlier day than b. */
  predicate Before(a: Date, b: Date) {
    a.year < b.year
    || (a.year == b.year && a.month < b.month)
    || (a.year == b.year && a.month == b.month && a.day < b.day)
  }

  function PrevDay(d: CivilDate): (p: CivilDate)
    ensures Before(p, d)
  {
    if d.day > 1 then Date(d.year, d.month, d.day - 1)
    else if d.month > 1 then Date(d.year, d.month - 1, DaysIn(d.year, d.month - 1))
    else Date(d.year - 1, 12, 31)
  }

  function NextDay(d: CivilDate): (n: CivilDate)
    ensures Before(d, n)
  {
    if d.day < DaysIn(d.year, d.month) then Date(d.year, d.month, d.day + 1)
    else if d.month < 12 then Date(d.year, d.month + 1, 1)
    else Date(d.year + 1, 1, 1)
  }

  lemma NextOfPrev(d: CivilDate)
    ensures NextDay(PrevDay(d)) == d
  {}

  lemma PrevOfNext(d: CivilDate)
    ensures PrevDay(NextDay(d)) == d
  {}

  /** No date lies strictly between PrevDay(d) and d: it is the day before. */
  lemma PrevDayAdjacent(d: CivilDate, e: CivilDate)
    requires Before(e, d)
    ensures e == PrevDay(d) || Before(e, PrevDay(d))
  {}

  /** No date lies strictly between d and NextDay(d): it is the day after. */
  lemma NextDayAdjacent(d: CivilDate, e: CivilDate)
    requires Before(d, e)
    ensures e == NextDay(d) || Before(NextDay(d), e)
  {}

  /** The date n days before d (n days after it when n is negative): what
      t.AddDate(0, 0, -n).Date() gives for a time t on local date d, as long
      as t's wall-clock time exists on the target date (a zone transition
      can move a time that falls in a gap; zones are left uninterpreted). */
  function ShiftDays(d: CivilDate, n: int): (r: CivilDate)
    ensures n > 0 ==> Before(r, d)
    ensures n < 0 ==> Before(d, r)
    ensures n == 0 ==> r == d
    decreases if n >= 0 then n else -n
  {
    if n == 0 then d
    else if n > 0 then PrevDay(ShiftDays(d, n - 1))
    else NextDay(ShiftDays(d, n + 1))
  }

  /** One more day back is one PrevDay step, on either side of d. */
  lemma ShiftDaysStep(d: CivilDate, n: int)
    ensures ShiftDays(d, n + 1) == PrevDay(ShiftDays(d, n))
    ensures ShiftDays(d, n) == NextDay(ShiftDays(d, n + 1))
  {
    if n >= 0 {
      NextOfPrev(ShiftDays(d, n));
    } else {
      PrevOfNext(ShiftDays(d, n + 1));
    }
  }

  /** Going further back always gives an earlier date, so distinct offsets name
      distinct days. */
  lemma {:induction false} ShiftDaysOrdered(d: CivilDate, i: int, j: int)
    requires i < j
    ensures Before(ShiftDays(d, j), ShiftDays(d, i))
    decreases j - i
  {
    ShiftDaysStep(d, j - 1);
    if i < j - 1 {
      ShiftDaysOrdered(d, i, j - 1);
    }
  }

  function YearText(y: int): (s: string)
    ensures |s| >= 4
  {
    if y < 0 then "-" + PadLeft(FormatNat(-y), 4) else PadLeft(FormatNat(y), 4)
  }

  function TwoDigits(n: nat): (s: string)
    ensures AllDigits(s)
    ensures n < 100 ==> |s| == 2
  {
    PadLeft(FormatNat(n), 2)
  }

  /** The Go layout "2006-01-02": the year zero-padded to at least four digits
      (with a leading '-' when negative), then month and day on two digits. */
  function FormatDate(d: CivilDate): (s: string)
  {
    YearText(d.year) + "-" + TwoDigits(d.month) + "-" + TwoDigits(d.day)
  }

  function ParseYear(ys: string): Option<int> {
    if ys != [] && ys[0] == '-' then
      (if |ys| > 1 && AllDigits(ys[1..]) then Some(0 - ValueOf(ys[1..]) as int) else None)
    else if ys != [] && AllDigits(ys) then Some(ValueOf(ys))
    else None
  }

  /** Reads a date back from the layout FormatDate writes. */
  function ParseDate(s: string): Option<Date> {
    if |s| < 7 then None
    else
      var n := |s|;
      var ys, ms, ds := s[..n - 6], s[n - 5..n - 3], s[n - 2..];
      if s[n - 6] != '-' || s[n - 3] != '-' || !AllDigits(ms) || !AllDigits(ds) then None
      else match ParseYear(ys)
        case None => None
        case Some(y) => Some(Date(y, ValueOf(ms), ValueOf(ds)))
  }

  lemma ParseYearText(y: int)
    ensures ParseYear(YearText(y)) == Some(y)
  {
    if y < 0 {
      var m: nat := -y;
      PadLeftValue(m, 4);
      assert YearText(y)[1..] == PadLeft(FormatNat(m), 4);
    } else {
      PadLeftValue(y, 4);
    }
  }

  /** Round trip: the date layout loses nothing. */
  lemma ParseFormatDate(d: CivilDate)
    ensures ParseDate(FormatDate(d)) == Some(d)
  {
    var s := FormatDate(d);
    var n := |s|;
    var y := YearText(d.year);
    assert s[..n - 6] == y;
    assert s[n - 5..n - 3] == TwoDigits(d.month);
    assert s[n - 2..] == TwoDigits(d.day);
    ParseYearText(d.year);
    PadLeftValue(d.month, 2);
    PadLeftValue(d.day, 2);
  }

  /** Distinct dates get distinct names, so a date string identifies its day. */
  lemma FormatDateInjective(a: CivilDate, b: CivilDate)
    requires FormatDate(a) == FormatDate(b)
    ensures a == b
  {
    ParseFormatDate(a);
    ParseFormatDate(b);
  }

  /** A time zone, as time.LoadLocation returns it: `localDate` is the local
      calendar date of an instant (Unix seconds), and `midnight` the instant of
      local midnight starting a date (what time.Date(y, m, d, 0, 0, 0, 0, loc)
      gives). Both come from the IANA database and are not interpreted here. */
  datatype Location = Location(localDate: int -> CivilDate, midnight: CivilDate -> int)

  /** Local midnight of a date falls on that date. */
  ghost predicate RoundTrips(loc: Location) {
    forall d: CivilDate :: loc.localDate(loc.midnight(d)) == d
  }

  /** A later date starts at a later instant. */
  ghost predicate Monotone(loc: Location) {
    forall a: CivilDate, b: CivilDate :: Before(a, b) ==> loc.midnight(a) < loc.midnight(b)
  }
}
