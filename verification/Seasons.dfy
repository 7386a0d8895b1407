/**
 Seasons: one calendar year in Bucharest. An instant, a day as text and a row in the
 database are each put into a season by different code; here they are proved to agree.

 The time zone is a function from instants to offsets. Nothing is assumed of it but that
 it is +2 h or +3 h and, for the seasons in question, +2 h in the hour in which the two
 offsets would disagree about the New Year.
 */
module Seasons {
  import opened Calendar
  import opened DateStrings

  const HOUR: int := 3_600_000
  const DAY: int := 24 * HOUR

  const SEASON_MIN_YEAR: int := 2020
  const SEASON_MAX_YEAR: int := 2200

  type Zone = int -> int

  ghost predicate TwoOffsets(off: Zone) {
    forall t :: off(t) == 2 * HOUR || off(t) == 3 * HOUR
  }

  // ---------------------------------------------------------------- what the code computes

  /** The local calendar day of an instant. */
  function LocalDay(off: Zone, t: int): int { (t + off(t)) / DAY }

  function LocalDate(off: Zone, t: int): (c: Civil)
    ensures Valid(c)
  {
    CivilFromDay(LocalDay(off, t))
  }

  /** Intl prints years without their era: 1 BC, the year 0, is 1. */
  function EraYear(y: int): nat { if y > 0 then y else 1 - y }

  function RomaniaDateString(off: Zone, t: int): string {
    var c := LocalDate(off, t);
    NatString(EraYear(c.year)) + "-" + Pad2(c.month) + "-" + Pad2(c.day)
  }

  function SeasonYearOf(off: Zone, t: int): int {
    ParseDigits(NatString(EraYear(LocalDate(off, t).year)))
  }

  datatype Bounds = Bounds(startDate: string, endDateExclusive: string)

  function SeasonBounds(year: int): Bounds {
    Bounds(IntString(year) + "-01-01", IntString(year + 1) + "-01-01")
  }

  datatype Window = Window(dateFrom: string, dateTo: string)

  /** The season as the dashboard asks reports for it: both ends inclusive. */
  function SeasonWindow(year: int): Window {
    Window(SeasonBounds(year).startDate, IntString(year) + "-12-31")
  }

  predicate InBounds(day: string, b: Bounds) { !Less(day, b.startDate) && Less(day, b.endDateExclusive) }

  predicate InWindow(day: string, w: Window) { !Less(day, w.dateFrom) && !Less(w.dateTo, day) }

  /** Bucharest midnight of 1 January, at the winter offset. */
  function Midnight(year: int): int { DayFromYear(year) * DAY - 2 * HOUR }

  /** How the database filters a timestamp column. */
  predicate BetweenMidnights(t: int, year: int) { Midnight(year) <= t < Midnight(year + 1) }

  // ---------------------------------------------------------------- what date an instant has

  /** The local date: one leaf of the calendar for every 24 hours of local time since 1970 began. */
  lemma InstantHasDate(off: Zone, t: int)
    ensures LocalDate(off, t) == Leaf(Civil(1970, 1, 1), (t + off(t)) / 86_400_000)
  {
    hide CivilFromDay, Leaf;
    DateOfDay(LocalDay(off, t));
  }

  /** The season is that date's year, counted from 1 BC backwards; the text is the date, while years have four digits. */
  lemma InstantIsPrinted(off: Zone, t: int)
    ensures var c := Leaf(Civil(1970, 1, 1), (t + off(t)) / 86_400_000);
            SeasonYearOf(off, t) == if c.year >= 1 then c.year else 1 - c.year
    ensures var c := Leaf(Civil(1970, 1, 1), (t + off(t)) / 86_400_000);
            1000 <= c.year <= 9999 ==>
              && ReadDate(RomaniaDateString(off, t)) == Fields(c.year, c.month, c.day)
              && |RomaniaDateString(off, t)| == 10
  {
    hide Leaf, LocalDate, RomaniaDateString, SeasonYearOf, FullDate, ReadDate;
    InstantHasDate(off, t);
    var c := LocalDate(off, t);
    SeasonYearIsLocalYear(off, t);
    if 1000 <= c.year <= 9999 {
      LocalDateText(off, t);
      ReadsDate(c);
      TenLong(c);
    }
  }

  lemma TenLong(c: Civil)
    requires Valid(c) && 0 <= c.year <= 9999
    ensures |FullDate(c)| == 10
  {
    MonthIsShort(c);
    LessPad2(c.month, c.month);
    LessPad2(c.day, c.day);
  }

  /** The season of 1970 began two hours before the epoch; every season is as long as its year. */
  lemma MidnightsAreYearsApart(year: int)
    ensures Midnight(1970) == -7_200_000
    ensures Midnight(year + 1) - Midnight(year)
            == (if year % 400 == 0 || (year % 4 == 0 && year % 100 != 0) then 366 else 365) * 86_400_000
  {
    EpochIsDayZero();
    YearLength(year);
    hide DayFromYear;
  }

  // ---------------------------------------------------------------- the New Year

  /** The hour in which an offset of +3 h would begin the year early. */
  predicate DisputedHour(t: int, year: int) { Midnight(year) - HOUR <= t < Midnight(year) }

  ghost predicate WinterAt(off: Zone, year: int) {
    forall t :: DisputedHour(t, year) ==> off(t) == 2 * HOUR
  }

  /** The local calendar turns to `year` no earlier and no later than Midnight. */
  ghost predicate TurnsAtMidnight(off: Zone, year: int) {
    forall t :: DayFromYear(year) <= LocalDay(off, t) <==> Midnight(year) <= t
  }

  lemma DayReached(x: int, day: int)
    ensures day <= x / DAY <==> day * DAY <= x
  {
    assert x == x / DAY * DAY + x % DAY;
    if day <= x / DAY {
      assert day * DAY <= x / DAY * DAY;
    } else {
      assert (x / DAY + 1) * DAY <= day * DAY;
    }
  }

  lemma LocalDayReached(off: Zone, t: int, year: int)
    ensures DayFromYear(year) <= LocalDay(off, t) <==> Midnight(year) + 2 * HOUR <= t + off(t)
  {
    hide DayFromYear;
    DayReached(t + off(t), DayFromYear(year));
  }

  /** Winter time in the disputed hour is exactly what makes the year turn at Midnight. */
  lemma YearTurns(off: Zone, year: int)
    requires TwoOffsets(off)
    ensures TurnsAtMidnight(off, year) <==> WinterAt(off, year)
  {
    hide DayFromYear, LocalDay, Midnight;
    forall t
      ensures DayFromYear(year) <= LocalDay(off, t) <==> Midnight(year) + 2 * HOUR <= t + off(t)
    {
      LocalDayReached(off, t, year);
    }
  }

  // ---------------------------------------------------------------- agreement on instants

  lemma YearAtLeast(day: int, year: int)
    ensures year <= CivilFromDay(day).year <==> DayFromYear(year) <= day
  {
    hide DayFromYear, YearFromDay;
    var y := YearFromDay(day);
    if year < y {
      YearsOrdered(year, y);
    } else if y + 1 < year {
      YearsOrdered(y + 1, year);
    }
  }

  lemma LocalYearIs(off: Zone, t: int, year: int)
    requires TurnsAtMidnight(off, year) && TurnsAtMidnight(off, year + 1)
    ensures LocalDate(off, t).year == year <==> BetweenMidnights(t, year)
  {
    hide DayFromYear, CivilFromDay, LocalDay, Midnight;
    YearAtLeast(LocalDay(off, t), year);
    YearAtLeast(LocalDay(off, t), year + 1);
  }

  lemma SeasonYearIsLocalYear(off: Zone, t: int)
    ensures SeasonYearOf(off, t) == EraYear(LocalDate(off, t).year)
  {
    hide LocalDate, EraYear, NatString;
    ParseNatString(EraYear(LocalDate(off, t).year));
  }

  /** Every instant lies between the midnights of exactly one year, whatever the zone does. */
  lemma SeasonsPartition(t: int, year: int)
    ensures BetweenMidnights(t, year) <==> year == YearFromDay((t + 2 * HOUR) / DAY)
  {
    hide DayFromYear, YearFromDay;
    var day := (t + 2 * HOUR) / DAY;
    DayReached(t + 2 * HOUR, DayFromYear(year));
    DayReached(t + 2 * HOUR, DayFromYear(year + 1));
    if BetweenMidnights(t, year) {
      YearIs(day, year);
    }
  }

  // ---------------------------------------------------------------- agreement on days

  lemma PlainYear(year: int)
    requires 1000 <= year <= 9999
    ensures IntString(year) == Four(year) && NatString(EraYear(year)) == Four(year)
  {
    hide NatString, Four;
    FourIsNatString(year);
  }

  lemma PaddedDays()
    ensures Pad2(1) == "01" && Pad2(12) == "12" && Pad2(31) == "31"
  {
    Pad2Digits(1);
    Pad2Digits(12);
    Pad2Digits(31);
  }

  function NewYear(year: int): (c: Civil)
    ensures Valid(c)
  {
    Civil(year, 1, 1)
  }

  function NewYearsEve(year: int): (c: Civil)
    ensures Valid(c)
  {
    Civil(year, 12, 31)
  }

  lemma BoundsAreDates(year: int)
    requires 1000 <= year <= 9999
    ensures IntString(year) + "-01-01" == FullDate(NewYear(year))
    ensures IntString(year) + "-12-31" == FullDate(NewYearsEve(year))
  {
    hide IntString, Pad2, Four;
    PlainYear(year);
    PaddedDays();
    assert "-01-01" == "-" + "01" + "-" + "01" && "-12-31" == "-" + "12" + "-" + "31";
    assert IntString(year) + "-01-01" == Four(year) + "-" + "01" + "-" + "01";
    assert IntString(year) + "-12-31" == Four(year) + "-" + "12" + "-" + "31";
  }

  lemma YearBegins(c: Civil, year: int)
    requires Valid(c)
    ensures DayNumber(NewYear(year)) <= DayNumber(c) <==> year <= c.year
    ensures DayNumber(c) <= DayNumber(NewYearsEve(year)) <==> c.year <= year
  {
    hide DayNumber;
    OrderIsChronological(c, NewYear(year));
    OrderIsChronological(NewYearsEve(year), c);
  }

  /** A four-digit day is in the half-open bounds, and in the inclusive window, of its own year only. */
  lemma DayInSeason(c: Civil, year: int)
    requires Valid(c) && 1000 <= c.year <= 9999 && 1000 <= year <= 9998
    ensures InBounds(FullDate(c), SeasonBounds(year)) <==> c.year == year
    ensures InWindow(FullDate(c), SeasonWindow(year)) <==> c.year == year
  {
    hide IntString, FullDate, DayNumber, Less;
    BoundsAreDates(year);
    BoundsAreDates(year + 1);
    FullDateOrder(c, NewYear(year));
    FullDateOrder(c, NewYear(year + 1));
    FullDateOrder(NewYearsEve(year), c);
    YearBegins(c, year);
    YearBegins(c, year + 1);
  }

  lemma LocalDateText(off: Zone, t: int)
    requires 1000 <= LocalDate(off, t).year <= 9999
    ensures RomaniaDateString(off, t) == FullDate(LocalDate(off, t))
  {
    hide CivilFromDay, NatString, EraYear, Four, Pad2;
    PlainYear(LocalDate(off, t).year);
  }

  /**
   One season per instant: the year the code computes, the database's filter, the half-open
   bounds and the dashboard's inclusive window put every instant in the same season.
   */
  lemma OneSeason(off: Zone, t: int, year: int)
    requires TwoOffsets(off) && WinterAt(off, year) && WinterAt(off, year + 1)
    requires 1000 <= LocalDate(off, t).year <= 9999 && 1000 <= year <= 9998
    ensures SeasonYearOf(off, t) == year <==> BetweenMidnights(t, year)
    ensures SeasonYearOf(off, t) == year <==> InBounds(RomaniaDateString(off, t), SeasonBounds(year))
    ensures SeasonYearOf(off, t) == year <==> InWindow(RomaniaDateString(off, t), SeasonWindow(year))
  {
    hide LocalDate, RomaniaDateString, SeasonBounds, SeasonWindow, SeasonYearOf, BetweenMidnights, WinterAt,
         TurnsAtMidnight, FullDate;
    YearTurns(off, year);
    YearTurns(off, year + 1);
    LocalYearIs(off, t, year);
    SeasonYearIsLocalYear(off, t);
    LocalDateText(off, t);
    DayInSeason(LocalDate(off, t), year);
  }

  /** A summer offset in the disputed hour breaks the agreement: the text says one season, the database another. */
  lemma SummerSplitsSeasons(off: Zone, t: int, year: int)
    requires off(t) == 3 * HOUR && DisputedHour(t, year)
    ensures LocalDate(off, t).year >= year && !BetweenMidnights(t, year)
  {
    hide DayFromYear, CivilFromDay;
    LocalDayReached(off, t, year);
    YearAtLeast(LocalDay(off, t), year);
  }

  /** Five-digit years leave the order of strings: the year 10000 reads as part of season 1000. */
  lemma FiveDigitYearMisplaced()
    ensures InBounds("10000-01-01", SeasonBounds(1000))
  {
    hide NatString;
    FourDigits();
    assert "1000-01-01" == "1000" + "-01-01" && "1001-01-01" == "1001" + "-01-01";
    assert "10000-01-01" == "1000" + "0-01-01";
    LessAppend("1000", "1000", "0-01-01", "-01-01");
    LessAppend("1000", "1001", "0-01-01", "-01-01");
  }

  lemma FourDigits()
    ensures NatString(1000) == "1000" && NatString(1001) == "1001"
  {
    assert NatString(10) == "10";
    assert NatString(100) == "100";
  }

  /** The inclusive window ends the day before the exclusive bound. */
  lemma WindowMeetsBounds(year: int)
    requires 1000 <= year <= 9998
    ensures AddDays(SeasonWindow(year).dateTo, 1) == SeasonBounds(year).endDateExclusive
    ensures AddDays(SeasonBounds(year).endDateExclusive, -1) == SeasonWindow(year).dateTo
  {
    hide IntString, FullDate, DateString, AddDays, DayNumber;
    var eve, next := NewYearsEve(year), NewYear(year + 1);
    BoundsAreDates(year);
    BoundsAreDates(year + 1);
    NearDays(eve);
    NearDays(next);
    YearsMeet(year);
    AddDaysLeafs(eve, 1);
    AddDaysLeafs(next, -1);
    WrittenAlike(eve);
    WrittenAlike(next);
  }

  lemma YearsMeet(year: int)
    ensures Leaf(NewYearsEve(year), 1) == NewYear(year + 1)
    ensures Leaf(NewYear(year + 1), -1) == NewYearsEve(year)
    ensures DayNumber(NewYearsEve(year)) + 1 == DayNumber(NewYear(year + 1))
  {
    hide DayNumber;
    TomorrowIsNextDay(NewYearsEve(year));
  }

  // ---------------------------------------------------------------- choosing a season

  /** A number from outside: absent, or any real. */
  datatype Asked = Absent | Number(value: real)

  predicate IsValidSeasonYear(a: Asked) {
    a.Number? && a.value == a.value.Floor as real
    && SEASON_MIN_YEAR as real <= a.value <= SEASON_MAX_YEAR as real
  }

  /**
   The picker: every year from the first recorded season to the current one, newest first.
   A first year in the future is taken for the current one.
   */
  method SeasonYearRange(earliest: Asked, current: int) returns (years: seq<int>)
    ensures forall i :: 0 <= i < |years| ==> years[i] == current - i
    ensures forall y :: y in years <==>
                        && y <= current
                        && (y == current ||
                            (earliest.Number? && earliest.value == earliest.value.Floor as real
                             && 2020.0 <= earliest.value <= 2200.0 && earliest.value <= y as real))
  {
    var first := current;
    if IsValidSeasonYear(earliest) && earliest.value.Floor < current {
      first := earliest.value.Floor;
    }
    years := [];
    var y := current;
    while y >= first
      invariant first - 1 <= y <= current
      invariant |years| == current - y
      invariant forall i :: 0 <= i < |years| ==> years[i] == current - i
      invariant forall z :: z in years <==> y < z <= current
    {
      years := years + [y];
      y := y - 1;
    }
  }

  // ---------------------------------------------------------------- the season in the address bar

  type Params = map<string, string>

  datatype Numeric = NotInteger | Integer(value: int)

  /** Number(param): 0 when the parameter is missing. */
  function ReadParam(params: Params): Numeric {
    if "season" !in params then Integer(0)
    else if AllDigits(params["season"]) then Integer(ParseDigits(params["season"]))
    else NotInteger
  }

  function SelectedYear(params: Params, available: seq<int>, active: int): int {
    match ReadParam(params)
    case Integer(y) => if y in available then y else active
    case NotInteger => active
  }

  function SetSelectedYear(params: Params, year: int, active: int): Params {
    if year == active then params - {"season"} else params["season" := IntString(year)]
  }

  /** Picking a year shows that year, except one not on offer or, when 0 is on offer, the active one. */
  lemma PickedYearIsShown(params: Params, year: nat, available: seq<int>, active: int)
    ensures SelectedYear(SetSelectedYear(params, year, active), available, active) == year <==>
            (if year == active then 0 in available ==> active == 0 else year in available)
    ensures SetSelectedYear(params, year, active) - {"season"} == params - {"season"}
  {
    hide NatString, ParseDigits;
    ParseNatString(year);
  }
}
