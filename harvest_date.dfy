/** The checks `handleCreateHarvest` of the farmer dashboard runs before a harvest is
    recorded: the four required fields, the `DD-MM-YYYY` pattern, the calendar check
    done by building a JavaScript `Date` and reading its fields back, and the check
    that the date is not in the future. */
module HarvestDate {
  import opened Common
  import DateMask

  /** The three numbers `parseInt` reads out of the day, month and year groups. */
  datatype DateParts = DateParts(day: nat, month: nat, year: nat)

  /** `s.match(/^(\d{2})-(\d{2})-(\d{4})$/)` followed by `parseInt` of each group. */
  function MatchDate(s: string): Option<DateParts>
  {
    if |s| == 10 && AllDigits(s[0..2]) && s[2] == '-' && AllDigits(s[3..5]) && s[5] == '-' && AllDigits(s[6..10])
    then Some(DateParts(DecimalValue(s[0..2]), DecimalValue(s[3..5]), DecimalValue(s[6..10])))
    else None
  }

  /** A date written the way the pattern expects it. */
  function ShowDate(p: DateParts): string
  {
    Pad(p.day, 2) + "-" + Pad(p.month, 2) + "-" + Pad(p.year, 4)
  }

  /** The pattern accepts every zero-padded rendering and reads back what was rendered. */
  lemma MatchShowDate(p: DateParts)
    requires p.day < 100 && p.month < 100 && p.year < 10000
    ensures MatchDate(ShowDate(p)) == Some(p)
  {
    var s := ShowDate(p);
    assert s[0..2] == Pad(p.day, 2) && s[3..5] == Pad(p.month, 2) && s[6..10] == Pad(p.year, 4);
    assert Pow10(2) == 100 && Pow10(4) == 10000;
    PadValue(p.day, 2);
    PadValue(p.month, 2);
    PadValue(p.year, 4);
  }

  /** Every string the pattern accepts is the rendering of the numbers read from it. */
  lemma MatchDateShows(s: string)
    requires MatchDate(s).Some?
    ensures ShowDate(MatchDate(s).value) == s
  {
    PadOfValue(s[0..2]);
    PadOfValue(s[3..5]);
    PadOfValue(s[6..10]);
    assert s == s[0..2] + "-" + s[3..5] + "-" + s[6..10];
  }

  /** The masked input passes the pattern exactly when at least eight digits were typed. */
  lemma MaskedDateMatches(text: string)
    ensures MatchDate(DateMask.FormatDate(text)).Some? <==> |DateMask.Digits(text)| >= 8
  {
    DateMask.FormatDashes(text);
    var d := DateMask.Digits(text);
    var r := DateMask.FormatDate(text);
    if |d| >= 8 {
      assert r == d[..2] + "-" + d[2..4] + "-" + d[4..8];
      assert r[0..2] == d[..2] && r[3..5] == d[2..4] && r[6..10] == d[4..8];
    }
  }

  // ----- JavaScript `Date` in local time -----

  /** A local calendar date as `getFullYear()`, `getMonth()` (0 = January) and `getDate()` give it. */
  datatype CalDate = CalDate(year: int, month0: int, day: int)

  predicate IsLeapYear(y: int)
  {
    (y % 4 == 0 && y % 100 != 0) || y % 400 == 0
  }

  function DaysInMonth(y: int, m0: int): (n: int)
    requires 0 <= m0 < 12
    ensures 28 <= n <= 31
  {
    if m0 == 1 then (if IsLeapYear(y) then 29 else 28)
    else if m0 == 3 || m0 == 5 || m0 == 8 || m0 == 10 then 30
    else 31
  }

  /** Months counted from year 0; consecutive months have consecutive numbers. */
  function MonthNumber(y: int, m0: int): int
  {
    y * 12 + m0
  }

  predicate IsNormal(c: CalDate)
  {
    0 <= c.month0 < 12 && 1 <= c.day <= DaysInMonth(c.year, c.month0)
  }

  /** Day `d >= 1` of month `m0` of year `y`, carried into the following months while it
      is past the end of its month. */
  function RollForward(y: int, m0: int, d: int): (r: CalDate)
    requires 0 <= m0 < 12 && d >= 1
    ensures IsNormal(r)
    ensures MonthNumber(r.year, r.month0) >= MonthNumber(y, m0)
    ensures d > DaysInMonth(y, m0) ==> MonthNumber(r.year, r.month0) > MonthNumber(y, m0)
    ensures d <= DaysInMonth(y, m0) ==> r == CalDate(y, m0, d)
    decreases d
  {
    if d <= DaysInMonth(y, m0) then CalDate(y, m0, d)
    else if m0 == 11 then RollForward(y + 1, 0, d - DaysInMonth(y, m0))
    else RollForward(y, m0 + 1, d - DaysInMonth(y, m0))
  }

  /** Day `d <= 0` of month `m0` of year `y`, counted back into the preceding months. */
  function RollBack(y: int, m0: int, d: int): (r: CalDate)
    requires 0 <= m0 < 12 && d <= 0
    ensures IsNormal(r)
    ensures MonthNumber(r.year, r.month0) < MonthNumber(y, m0)
    ensures d > -28 ==> MonthNumber(r.year, r.month0) == MonthNumber(y, m0) - 1
    decreases -d
  {
    var py := if m0 == 0 then y - 1 else y;
    var pm := if m0 == 0 then 11 else m0 - 1;
    var d' := d + DaysInMonth(py, pm);
    if d' >= 1 then CalDate(py, pm, d') else RollBack(py, pm, d')
  }

  /** The fields of `new Date(year, monthIndex, day)`: a year from 0 to 99 means 1900 to
      1999, and a month or day out of range carries into the neighbouring months. */
  function JsDate(year: int, monthIndex: int, day: int): (r: CalDate)
    ensures IsNormal(r)
  {
    var y := if 0 <= year <= 99 then 1900 + year else year;
    var ym := y + monthIndex / 12;
    var m0 := monthIndex % 12;
    if day >= 1 then RollForward(ym, m0, day) else RollBack(ym, m0, day)
  }

  /** `day` is a day of month `month` (1 = January) of the proleptic Gregorian `year`. */
  predicate IsCalendarDate(year: int, month: int, day: int)
  {
    1 <= month <= 12 && 1 <= day <= DaysInMonth(year, month - 1)
  }

  /** The read-back check of the source succeeds exactly for real calendar dates whose
      year is at least 100: two-digit years are moved into the 1900s and fail it. */
  lemma JsDateRoundTrip(year: nat, month: nat, day: nat)
    ensures JsDate(year, month - 1, day) == CalDate(year, month - 1, day)
            <==> year >= 100 && IsCalendarDate(year, month, day)
  {
    var r := JsDate(year, month - 1, day);
    if r == CalDate(year, month - 1, day) {
      assert (month - 1) / 12 == 0 && (month - 1) % 12 == month - 1;
    }
  }

  // ----- "now" and the future check -----

  /** A local wall-clock moment: a calendar date and the milliseconds since its midnight. */
  datatype Moment = Moment(date: CalDate, msOfDay: nat)

  /** `a > b` on the time values of two local moments on normal dates. */
  predicate Later(a: Moment, b: Moment)
  {
    var ka := MonthNumber(a.date.year, a.date.month0);
    var kb := MonthNumber(b.date.year, b.date.month0);
    ka > kb || (ka == kb && (a.date.day > b.date.day || (a.date.day == b.date.day && a.msOfDay > b.msOfDay)))
  }

  /** The calendar day that follows `c`. */
  function NextDay(c: CalDate): (r: CalDate)
    requires IsNormal(c)
    ensures IsNormal(r)
  {
    RollForward(c.year, c.month0, c.day + 1)
  }

  // ----- the creation check -----

  datatype CreateError = MissingFields | MalformedDate | InvalidDate | FutureDate

  /** The four checks of `handleCreateHarvest`, in the order it makes them; `None` when
      the harvest may be recorded. */
  function CheckHarvest(cropType: string, variety: string, quantity: string, harvestDate: string, now: Moment): Option<CreateError>
  {
    if cropType == "" || variety == "" || quantity == "" || harvestDate == "" then Some(MissingFields)
    else match MatchDate(harvestDate)
      case None => Some(MalformedDate)
      case Some(p) =>
        var date := JsDate(p.year, p.month - 1, p.day);
        if date != CalDate(p.year, p.month - 1, p.day) then Some(InvalidDate)
        else if Later(Moment(date, 0), now) then Some(FutureDate)
        else None
  }

  /** The creation check stated in calendar terms: missing fields first, then the
      pattern, then the calendar (years below 100 included among the invalid), then
      the future. */
  lemma CheckHarvestSpec(cropType: string, variety: string, quantity: string, harvestDate: string, now: Moment)
    ensures CheckHarvest(cropType, variety, quantity, harvestDate, now) ==
      if cropType == "" || variety == "" || quantity == "" || harvestDate == "" then Some(MissingFields)
      else if MatchDate(harvestDate).None? then Some(MalformedDate)
      else
        var p := MatchDate(harvestDate).value;
        if !(p.year >= 100 && IsCalendarDate(p.year, p.month, p.day)) then Some(InvalidDate)
        else if Later(Moment(CalDate(p.year, p.month - 1, p.day), 0), now) then Some(FutureDate)
        else None
  {
    if MatchDate(harvestDate).Some? {
      var p := MatchDate(harvestDate).value;
      JsDateRoundTrip(p.year, p.month, p.day);
    }
  }

  /** Today's date, written as `DD-MM-YYYY`, is accepted at any time of the day. */
  lemma TodayAccepted(cropType: string, variety: string, quantity: string, now: Moment)
    requires cropType != "" && variety != "" && quantity != ""
    requires IsNormal(now.date) && 100 <= now.date.year < 10000
    ensures CheckHarvest(cropType, variety, quantity,
              ShowDate(DateParts(now.date.day, now.date.month0 + 1, now.date.year)), now) == None
  {
    var p := DateParts(now.date.day, now.date.month0 + 1, now.date.year);
    MatchShowDate(p);
    CheckHarvestSpec(cropType, variety, quantity, ShowDate(p), now);
  }

  /** The day after today is rejected as a future date. */
  lemma TomorrowRejected(cropType: string, variety: string, quantity: string, now: Moment)
    requires cropType != "" && variety != "" && quantity != ""
    requires IsNormal(now.date) && 100 <= now.date.year && NextDay(now.date).year < 10000
    ensures var t := NextDay(now.date);
            CheckHarvest(cropType, variety, quantity, ShowDate(DateParts(t.day, t.month0 + 1, t.year)), now)
            == Some(FutureDate)
  {
    var t := NextDay(now.date);
    var p := DateParts(t.day, t.month0 + 1, t.year);
    assert t.year >= now.date.year;
    MatchShowDate(p);
    CheckHarvestSpec(cropType, variety, quantity, ShowDate(p), now);
  }

  /** 30-02-2025 is not a calendar date. */
  lemma RejectsThirtiethOfFebruary(now: Moment)
    ensures CheckHarvest("Basil", "Sweet", "50kg", "30-02-2025", now) == Some(InvalidDate)
  {
    var p := DateParts(30, 2, 2025);
    MatchShowDate(p);
    assert ShowDate(p) == "30-02-2025";
    JsDateRoundTrip(2025, 2, 30);
  }

  /** 29-02-2023 is not a calendar date (2023 is not a leap year). */
  lemma RejectsLeapDayOfCommonYear(now: Moment)
    ensures CheckHarvest("Basil", "Sweet", "50kg", "29-02-2023", now) == Some(InvalidDate)
  {
    var p := DateParts(29, 2, 2023);
    MatchShowDate(p);
    assert ShowDate(p) == "29-02-2023";
    JsDateRoundTrip(2023, 2, 29);
  }

  /** 15-01-0050 is rejected: the `Date` constructor reads year 50 as 1950. */
  lemma RejectsTwoDigitYear(now: Moment)
    ensures CheckHarvest("Basil", "Sweet", "50kg", "15-01-0050", now) == Some(InvalidDate)
  {
    var p := DateParts(15, 1, 50);
    MatchShowDate(p);
    assert ShowDate(p) == "15-01-0050";
    JsDateRoundTrip(50, 1, 15);
  }

  /** 29-02-2024 (a leap day) is accepted at any moment from 1 March 2024 on. */
  lemma AcceptsLeapDay(now: Moment)
    requires MonthNumber(now.date.year, now.date.month0) >= MonthNumber(2024, 2)
    ensures CheckHarvest("Basil", "Sweet", "50kg", "29-02-2024", now) == None
  {
    var p := DateParts(29, 2, 2024);
    MatchShowDate(p);
    assert ShowDate(p) == "29-02-2024";
    JsDateRoundTrip(2024, 2, 29);
  }

  /** A single-digit day does not match the pattern; an empty field is reported first. */
  lemma PatternAndRequiredExamples(now: Moment)
    ensures CheckHarvest("Basil", "Sweet", "50kg", "1-01-2020", now) == Some(MalformedDate)
    ensures CheckHarvest("Basil", "", "50kg", "30-02-2025", now) == Some(MissingFields)
  {
  }
}
