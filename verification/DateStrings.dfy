/**
 Calendar dates as text: addDays on `YYYY-MM-DD` strings, and what it owes to the full-date
 of section 5.6 of RFC 3339.
 */
module DateStrings {
  import opened Calendar

  // ---------------------------------------------------------------- numerals

  predicate IsDigit(c: char) { '0' <= c <= '9' }

  predicate AllDigits(s: string) { forall i :: 0 <= i < |s| ==> IsDigit(s[i]) }

  function Digit(n: nat): (c: char)
    requires n < 10
    ensures IsDigit(c) && DigitValue(c) == n
  {
    ('0' as int + n) as char
  }

  function DigitValue(c: char): nat
    requires IsDigit(c)
  {
    c as int - '0' as int
  }

  /** String(n). */
  function NatString(n: nat): (s: string)
    ensures s != "" && AllDigits(s)
  {
    if n < 10 then [Digit(n)] else NatString(n / 10) + [Digit(n % 10)]
  }

  function IntString(n: int): string {
    if n < 0 then "-" + NatString(-n) else NatString(n)
  }

  /** String(n).padStart(2, '0'). */
  function Pad2(n: nat): (s: string)
    ensures AllDigits(s)
  {
    if n < 10 then "0" + NatString(n) else NatString(n)
  }

  /** Number(s) for a run of digits; the empty string is 0. */
  function ParseDigits(s: string): nat
    requires AllDigits(s)
  {
    if s == "" then 0 else ParseDigits(s[..|s| - 1]) * 10 + DigitValue(s[|s| - 1])
  }

  lemma {:induction false} ParseAppend(s: string, c: char)
    requires AllDigits(s) && IsDigit(c)
    ensures ParseDigits(s + [c]) == ParseDigits(s) * 10 + DigitValue(c)
  {
    assert (s + [c])[..|s|] == s;
  }

  lemma {:induction false} ParseNatString(n: nat)
    ensures ParseDigits(NatString(n)) == n
  {
    if n < 10 {
      ParseAppend("", Digit(n));
      assert "" + [Digit(n)] == NatString(n);
    } else {
      ParseNatString(n / 10);
      ParseAppend(NatString(n / 10), Digit(n % 10));
    }
  }

  lemma ParsePad2(n: nat)
    requires n < 100
    ensures ParseDigits(Pad2(n)) == n
  {
    ParseNatString(n);
    if n < 10 {
      ParseAppend("", '0');
      ParseAppend("0", Digit(n));
      assert "" + ['0'] == "0";
    }
  }

  /** A numeral reads as its number, a minus sign in front of what is below zero, and has no zero in front. */
  lemma IntStringReads(n: int)
    ensures var s := IntString(n);
            if n < 0 then s[0] == '-' && AllDigits(s[1..]) && ParseDigits(s[1..]) == -n
            else AllDigits(s) && ParseDigits(s) == n
    ensures n > 0 ==> IntString(n)[0] != '0' && IntString(-n)[1] != '0'
  {
    if n < 0 {
      ParseNatString(-n);
      NoZeroInFront(-n);
    } else {
      ParseNatString(n);
      NoZeroInFront(n);
    }
  }

  lemma {:induction false} NoZeroInFront(n: nat)
    ensures n > 0 ==> NatString(n)[0] != '0'
  {
    if n >= 10 {
      NoZeroInFront(n / 10);
    }
  }

  // ---------------------------------------------------------------- dates

  /** s.split('-'). */
  function Split(s: string): (fields: seq<string>)
    ensures |fields| >= 1
  {
    if s == "" then [""]
    else
      var rest := Split(s[1..]);
      if s[0] == '-' then [""] + rest else [[s[0]] + rest[0]] + rest[1..]
  }

  const INVALID := "NaN-NaN-NaN"

  /** The text addDays builds: the year as it is, month and day on two digits. */
  function DateString(c: Civil): string
    requires Valid(c)
  {
    IntString(c.year) + "-" + Pad2(c.month) + "-" + Pad2(c.day)
  }

  /** Date.UTC takes the years 0 to 99 for those of the twentieth century. */
  function UtcYear(y: nat): nat { if y <= 99 then 1900 + y else y }

  /** Time values reach 100 million days to either side of day 0. */
  predicate InRange(day: int) { -100_000_000 <= day <= 100_000_000 }

  datatype Fields = NotADate | Fields(year: nat, month: nat, day: nat)

  function ReadDate(s: string): Fields {
    var fields := Split(s);
    if |fields| < 3 || !AllDigits(fields[0]) || !AllDigits(fields[1]) || !AllDigits(fields[2]) then NotADate
    else Fields(ParseDigits(fields[0]), ParseDigits(fields[1]), ParseDigits(fields[2]))
  }

  function PrintDay(day: int): string {
    if InRange(day) then DateString(CivilFromDay(day)) else INVALID
  }

  function AddDays(dateStr: string, days: int): string {
    match ReadDate(dateStr)
    case NotADate => INVALID
    case Fields(y, m, d) => PrintDay(MakeDay(UtcYear(y), m - 1, d + days))
  }

  /** A full-date: four digits, two and two. */
  function FullDate(c: Civil): string
    requires Valid(c) && 0 <= c.year <= 9999
  {
    Four(c.year) + "-" + Pad2(c.month) + "-" + Pad2(c.day)
  }

  function Four(n: nat): (s: string)
    requires n <= 9999
    ensures |s| == 4 && AllDigits(s)
  {
    [Digit(n / 1000), Digit(n / 100 % 10), Digit(n / 10 % 10), Digit(n % 10)]
  }

  lemma LastDigit(s: string, n: nat)
    requires AllDigits(s) && ParseDigits(s) == n / 10
    ensures ParseDigits(s + [Digit(n % 10)]) == n
  {
    ParseAppend(s, Digit(n % 10));
  }

  lemma ParseFour(n: nat)
    requires n <= 9999
    ensures ParseDigits(Four(n)) == n
  {
    var a, b, c, d := Digit(n / 1000), Digit(n / 100 % 10), Digit(n / 10 % 10), Digit(n % 10);
    assert n / 10 / 10 == n / 100 && n / 100 / 10 == n / 1000 && n / 1000 / 10 == 0;
    assert n / 1000 % 10 == n / 1000;
    LastDigit("", n / 1000);
    LastDigit("" + [a], n / 100);
    LastDigit("" + [a] + [b], n / 10);
    LastDigit("" + [a] + [b] + [c], n);
    assert "" + [a] + [b] + [c] + [d] == Four(n);
  }

  lemma FourIsNatString(n: nat)
    requires n <= 9999
    ensures n >= 1000 ==> NatString(n) == Four(n)
    ensures n < 1000 ==> |NatString(n)| < 4
  {
    assert n / 10 / 10 == n / 100 && n / 100 / 10 == n / 1000;
    assert NatString(n / 1000) == [Digit(n / 1000)];
    assert n >= 1000 ==> NatString(n / 100) == NatString(n / 1000) + [Digit(n / 100 % 10)];
    assert n >= 100 ==> NatString(n / 10) == NatString(n / 100) + [Digit(n / 10 % 10)];
  }

  // ---------------------------------------------------------------- reading a date back

  lemma {:induction false} SplitField(a: string, b: string)
    requires AllDigits(a)
    ensures Split(a + "-" + b) == [a] + Split(b)
  {
    var s := a + "-" + b;
    if a == "" {
      assert s[1..] == b;
    } else {
      SplitField(a[1..], b);
      assert s[1..] == a[1..] + "-" + b;
      assert [s[0]] + a[1..] == a;
    }
  }

  lemma {:induction false} SplitLast(a: string)
    requires AllDigits(a)
    ensures Split(a) == [a]
  {
    if a != "" {
      SplitLast(a[1..]);
      assert [a[0]] + a[1..] == a;
    }
  }

  lemma SplitThree(a: string, b: string, c: string)
    requires AllDigits(a) && AllDigits(b) && AllDigits(c)
    ensures Split(a + "-" + b + "-" + c) == [a, b, c]
  {
    SplitField(a, b + "-" + c);
    SplitField(b, c);
    SplitLast(c);
    assert a + "-" + b + "-" + c == a + "-" + (b + "-" + c);
  }

  lemma ReadsFields(year: string, month: nat, day: nat)
    requires AllDigits(year) && month < 100 && day < 100
    ensures ReadDate(year + "-" + Pad2(month) + "-" + Pad2(day)) == Fields(ParseDigits(year), month, day)
  {
    SplitThree(year, Pad2(month), Pad2(day));
    ParsePad2(month);
    ParsePad2(day);
  }

  lemma MonthIsShort(c: Civil)
    requires Valid(c)
    ensures c.month < 100 && c.day <= 31
  {
  }

  lemma ReadsDate(c: Civil)
    requires Valid(c) && 0 <= c.year
    ensures ReadDate(DateString(c)) == Fields(c.year, c.month, c.day)
    ensures c.year <= 9999 ==> ReadDate(FullDate(c)) == Fields(c.year, c.month, c.day)
  {
    MonthIsShort(c);
    ParseNatString(c.year);
    ReadsFields(NatString(c.year), c.month, c.day);
    if c.year <= 9999 {
      ParseFour(c.year);
      ReadsFields(Four(c.year), c.month, c.day);
    }
  }

  // ---------------------------------------------------------------- addDays as an action

  lemma DayAdds(c: Civil, days: int)
    requires Valid(c) && 100 <= c.year
    ensures MakeDay(UtcYear(c.year), c.month - 1, c.day + days) == DayNumber(c) + days
  {
  }

  lemma AddDaysPrints(s: string, f: Fields, days: int, day: int)
    requires f.Fields? && ReadDate(s) == f && MakeDay(UtcYear(f.year), f.month - 1, f.day + days) == day
    ensures AddDays(s, days) == PrintDay(day)
  {
    hide ReadDate, PrintDay, MakeDay;
  }

  /** From year 100 on, addDays adds to the day number of the date it is given. */
  lemma AddsToDayNumber(s: string, c: Civil, days: int)
    requires Valid(c) && 100 <= c.year && ReadDate(s) == Fields(c.year, c.month, c.day)
    ensures AddDays(s, days) == PrintDay(DayNumber(c) + days)
  {
    hide AddDays, ReadDate, PrintDay, MakeDay, DayNumber;
    DayAdds(c, days);
    AddDaysPrints(s, Fields(c.year, c.month, c.day), days, DayNumber(c) + days);
  }

  /** And that is leafing through the calendar, for what addDays writes and for every full-date. */
  lemma AddDaysLeafs(c: Civil, days: int)
    requires Valid(c) && 100 <= c.year && InRange(DayNumber(c) + days)
    ensures AddDays(DateString(c), days) == DateString(Leaf(c, days))
    ensures c.year <= 9999 ==> AddDays(FullDate(c), days) == DateString(Leaf(c, days))
  {
    hide AddDays, ReadDate, DateString, FullDate, CivilFromDay, DayNumber, Leaf;
    ReadsDate(c);
    LeafingIsAdding(c, days);
    AddsToDayNumber(DateString(c), c, days);
    if c.year <= 9999 {
      AddsToDayNumber(FullDate(c), c, days);
    }
  }

  /** A printed day from year 100 on is read back as that day. */
  lemma AddsToPrinted(day: int, days: int)
    requires InRange(day) && 100 <= CivilFromDay(day).year
    ensures AddDays(PrintDay(day), days) == PrintDay(day + days)
  {
    hide AddDays, ReadDate, DateString, CivilFromDay, DayNumber;
    var m := CivilFromDay(day);
    DayRoundTrip(day);
    ReadsDate(m);
    AddsToDayNumber(DateString(m), m, days);
  }

  /** Adding in two steps is adding at once, as long as the first step stays past year 99. */
  lemma AddDaysAdds(s: string, c: Civil, a: int, b: int)
    requires Valid(c) && 100 <= c.year && ReadDate(s) == Fields(c.year, c.month, c.day)
    requires InRange(DayNumber(c) + a) && 100 <= CivilFromDay(DayNumber(c) + a).year
    ensures AddDays(AddDays(s, a), b) == AddDays(s, a + b)
  {
    hide AddDays, ReadDate, PrintDay, CivilFromDay, DayNumber;
    var day := DayNumber(c) + a;
    AddsToDayNumber(s, c, a);
    AddsToPrinted(day, b);
    AddsToDayNumber(s, c, a + b);
    assert day + b == DayNumber(c) + (a + b);
  }

  // ---------------------------------------------------------------- fields that are no date

  lemma FirstOfMonthAdds(y: int, m: int, d: int)
    requires 1 <= m <= 12
    ensures Valid(Civil(y, m, 1)) && MakeDay(y, m - 1, d) == DayNumber(Civil(y, m, 1)) + d - 1
  {
    MonthsHaveDays(m, LeapYear(y));
  }

  /**
   A day of any size, also 0 or 99, is leafed from the first of its month; a two-digit year is
   one of the twentieth century; and farther than 100 million days from day 0 there is no date.
   */
  lemma AnyDayLeafs(s: string, y: nat, m: nat, d: nat, days: int)
    requires ReadDate(s) == Fields(y, m, d) && 1 <= m <= 12
    ensures var first := Civil(if y <= 99 then 1900 + y else y, m, 1);
            && Valid(first)
            && AddDays(s, days) ==
               if -100_000_000 <= DayNumber(first) + d - 1 + days <= 100_000_000 then
                 DateString(Leaf(first, d - 1 + days))
               else "NaN-NaN-NaN"
  {
    hide AddDays, ReadDate, DateString, CivilFromDay, DayNumber, MakeDay, Leaf;
    var year := if y <= 99 then 1900 + y else y;
    FirstOfMonthAdds(year, m, d + days);
    LeafingIsAdding(Civil(year, m, 1), d - 1 + days);
    AddDaysPrints(s, Fields(y, m, d), days, MakeDay(year, m - 1, d + days));
  }

  /** Months carry: the thirteenth is January of the next year, and month 0 December of the last. */
  lemma MonthsCarry(s: string, t: string, y: nat, m: nat, d: nat, days: int)
    requires ReadDate(s) == Fields(y, m, d)
    ensures 12 < m && y != 99 && ReadDate(t) == Fields(y + 1, m - 12, d) ==> AddDays(s, days) == AddDays(t, days)
    ensures m == 0 < y && y != 100 && ReadDate(t) == Fields(y - 1, 12, d) ==> AddDays(s, days) == AddDays(t, days)
  {
    hide ReadDate, PrintDay, DayFromYear, DaysBefore;
  }

  lemma SplitFour(a: string, b: string, c: string, rest: string)
    requires AllDigits(a) && AllDigits(b) && AllDigits(c)
    ensures Split(a + "-" + b + "-" + c + "-" + rest) == [a, b, c] + Split(rest)
  {
    var tail := c + "-" + rest;
    SplitField(a, b + "-" + tail);
    SplitField(b, tail);
    SplitField(c, rest);
    assert a + "-" + b + "-" + c + "-" + rest == a + "-" + (b + "-" + tail);
    assert [a] + ([b] + ([c] + Split(rest))) == [a, b, c] + Split(rest);
  }

  lemma SplitTwo(a: string, b: string)
    requires AllDigits(a) && AllDigits(b)
    ensures Split(a) == [a] && Split(a + "-" + b) == [a, b]
  {
    SplitLast(a);
    SplitField(a, b);
    SplitLast(b);
  }

  /** Text without three fields of digits in front has no date; what follows them is ignored. */
  lemma ThreeFieldsCount(a: string, b: string, c: string, rest: string, days: int)
    requires AllDigits(a) && AllDigits(b) && AllDigits(c)
    ensures AddDays(a, days) == AddDays(a + "-" + b, days) == "NaN-NaN-NaN"
    ensures AddDays(a + "-" + b + "-" + c + "-" + rest, days) == AddDays(a + "-" + b + "-" + c, days)
  {
    hide PrintDay, MakeDay, ParseDigits, Split, AllDigits;
    SplitTwo(a, b);
    SplitThree(a, b, c);
    SplitFour(a, b, c, rest);
    var three, four := a + "-" + b + "-" + c, a + "-" + b + "-" + c + "-" + rest;
    assert ReadDate(four) == ReadDate(three);
  }

  // ---------------------------------------------------------------- the neutral step

  /** Two texts with the same tail are equal exactly when their heads are. */
  lemma SameTails(a: string, b: string, t: string)
    ensures a + t == b + t <==> a == b
  {
    if a + t == b + t {
      assert |a| == |b|;
      assert (a + t)[..|a|] == a && (b + t)[..|b|] == b;
    }
  }

  lemma SameDay(year: string, other: string, c: Civil)
    ensures Valid(c) ==>
              (year + "-" + Pad2(c.month) + "-" + Pad2(c.day) == other + "-" + Pad2(c.month) + "-" + Pad2(c.day)
               <==> year == other)
  {
    if Valid(c) {
      var tail := "-" + Pad2(c.month) + "-" + Pad2(c.day);
      SameTails(year, other, tail);
      assert year + "-" + Pad2(c.month) + "-" + Pad2(c.day) == year + tail;
      assert other + "-" + Pad2(c.month) + "-" + Pad2(c.day) == other + tail;
    }
  }

  /** A full-date is what addDays writes exactly from the year 1000 on. */
  lemma WrittenAlike(c: Civil)
    requires Valid(c) && 0 <= c.year <= 9999
    ensures DateString(c) == FullDate(c) <==> 1000 <= c.year
  {
    FourIsNatString(c.year);
    SameDay(NatString(c.year), Four(c.year), c);
  }

  lemma NearDays(c: Civil)
    requires Valid(c) && 0 <= c.year <= 9999
    ensures InRange(DayNumber(c))
  {
    WithinYear(c);
    YearBounds(c.year);
  }

  lemma YearBounds(y: int)
    requires 0 <= y <= 9999
    ensures -800_000 <= DayFromYear(y) && DayFromYear(y + 1) <= 3_000_000
  {
  }

  /** Adding no days gives a full-date back from the year 1000 on, and no other year. */
  lemma AddZero(c: Civil)
    requires Valid(c) && 100 <= c.year <= 9999
    ensures AddDays(FullDate(c), 0) == FullDate(c) <==> 1000 <= c.year
  {
    hide AddDays, ReadDate, DateString, FullDate, CivilFromDay, DayNumber;
    ReadsDate(c);
    AddsToDayNumber(FullDate(c), c, 0);
    NearDays(c);
    CivilRoundTrip(c);
    WrittenAlike(c);
  }

  lemma CenturyDay(c: Civil)
    requires Valid(c) && 0 <= c.year <= 99
    ensures DayFromYear(1900) <= MakeDay(1900 + c.year, c.month - 1, c.day) < DayFromYear(2000)
  {
    hide DayFromYear, DayNumber;
    var y := 1900 + c.year;
    YearLength(y);
    if 1900 < y {
      YearsOrdered(1900, y);
    }
    if y < 1999 {
      YearsOrdered(y + 1, 2000);
    }
  }

  lemma CenturyYear(day: int)
    requires DayFromYear(1900) <= day < DayFromYear(2000)
    ensures 1900 <= CivilFromDay(day).year <= 1999
  {
    hide DayFromYear, YearFromDay;
    var y := YearFromDay(day);
    if y < 1899 {
      YearsOrdered(y + 1, 1900);
    }
    if 2000 < y {
      YearsOrdered(2000, y);
    }
  }

  lemma FirstDigit(y: nat)
    ensures 1900 <= y <= 1999 ==> NatString(y)[0] == '1'
    ensures y <= 99 ==> Four(y)[0] == '0'
  {
    if y <= 1999 {
      FourIsNatString(y);
    }
  }

  /** Below year 100 not even the century comes back. */
  lemma AddZeroCentury(c: Civil)
    requires Valid(c) && 0 <= c.year <= 99
    ensures AddDays(FullDate(c), 0) != FullDate(c)
  {
    hide AddDays, ReadDate, MakeDay, CivilFromDay, DayNumber, NatString, Four, Pad2;
    ReadsDate(c);
    var day := MakeDay(1900 + c.year, c.month - 1, c.day);
    AddDaysPrints(FullDate(c), Fields(c.year, c.month, c.day), 0, day);
    CenturyDay(c);
    CenturyYear(day);
    CenturyInRange(day);
    var m := CivilFromDay(day);
    FirstDigit(m.year);
    FirstDigit(c.year);
    HeadOf(NatString(m.year), m);
    HeadOf(Four(c.year), c);
  }

  lemma CenturyInRange(day: int)
    requires DayFromYear(1900) <= day < DayFromYear(2000)
    ensures InRange(day)
  {
  }

  lemma HeadOf(year: string, c: Civil)
    requires year != "" && Valid(c)
    ensures (year + "-" + Pad2(c.month) + "-" + Pad2(c.day))[0] == year[0]
  {
  }

  /** For every full-date: adding no days gives it back exactly when its year is 1000 or later. */
  lemma AddZeroGivesBack(c: Civil)
    requires Valid(c) && 0 <= c.year <= 9999
    ensures AddDays(FullDate(c), 0) == FullDate(c) <==> 1000 <= c.year
  {
    if c.year <= 99 {
      AddZeroCentury(c);
    } else {
      AddZero(c);
    }
  }

  // ---------------------------------------------------------------- string order

  /** The `<` of strings. */
  predicate Less(a: string, b: string) {
    b != "" && (a == "" || a[0] < b[0] || (a[0] == b[0] && Less(a[1..], b[1..])))
  }

  lemma {:induction false} LessAppend(a: string, b: string, s: string, t: string)
    requires |a| == |b|
    ensures Less(a + s, b + t) <==> Less(a, b) || (a == b && Less(s, t))
  {
    if a == "" {
      assert a + s == s && b + t == t;
    } else {
      LessAppend(a[1..], b[1..], s, t);
      assert (a + s)[1..] == a[1..] + s && (b + t)[1..] == b[1..] + t;
      assert a == b <==> a[0] == b[0] && a[1..] == b[1..] by {
        assert a == [a[0]] + a[1..] && b == [b[0]] + b[1..];
      }
    }
  }

  lemma LessDigits(m: nat, n: nat)
    requires m < 10 && n < 10
    ensures Less([Digit(m)], [Digit(n)]) <==> m < n
    ensures [Digit(m)] == [Digit(n)] <==> m == n
  {
  }

  /** Numerals of the same width compare like their numbers, one more digit at a time. */
  lemma LessMore(a: string, b: string, m: nat, n: nat)
    requires |a| == |b|
    requires Less(a, b) <==> m / 10 < n / 10
    requires a == b <==> m / 10 == n / 10
    ensures Less(a + [Digit(m % 10)], b + [Digit(n % 10)]) <==> m < n
    ensures a + [Digit(m % 10)] == b + [Digit(n % 10)] <==> m == n
  {
    LessAppend(a, b, [Digit(m % 10)], [Digit(n % 10)]);
    LessDigits(m % 10, n % 10);
    var s, t := a + [Digit(m % 10)], b + [Digit(n % 10)];
    assert s[..|a|] == a && t[..|a|] == b && s[|a|] == Digit(m % 10) && t[|a|] == Digit(n % 10);
  }

  lemma Pad2Digits(n: nat)
    requires n < 100
    ensures Pad2(n) == [Digit(n / 10)] + [Digit(n % 10)]
  {
    assert NatString(n / 10) == [Digit(n / 10)];
    if n < 10 {
      assert Digit(n / 10) == '0' && Digit(n % 10) == Digit(n);
      assert "0" == [Digit(n / 10)];
    }
  }

  lemma LessPad2(m: nat, n: nat)
    requires m < 100 && n < 100
    ensures |Pad2(m)| == 2
    ensures Less(Pad2(m), Pad2(n)) <==> m < n
    ensures Pad2(m) == Pad2(n) <==> m == n
  {
    Pad2Digits(m);
    Pad2Digits(n);
    LessDigits(m / 10, n / 10);
    LessMore([Digit(m / 10)], [Digit(n / 10)], m, n);
  }

  lemma FourDigits(n: nat)
    requires n <= 9999
    ensures Four(n) == Pad2(n / 100) + [Digit(n / 10 % 10)] + [Digit(n % 10)]
  {
    Pad2Digits(n / 100);
    assert n / 100 / 10 == n / 1000;
  }

  lemma LessFour(m: nat, n: nat)
    requires m <= 9999 && n <= 9999
    ensures Less(Four(m), Four(n)) <==> m < n
    ensures Four(m) == Four(n) <==> m == n
  {
    FourDigits(m);
    FourDigits(n);
    LessPad2(m / 100, n / 100);
    assert m / 10 / 10 == m / 100 && n / 10 / 10 == n / 100;
    LessMore(Pad2(m / 100), Pad2(n / 100), m / 10, n / 10);
    LessMore(Pad2(m / 100) + [Digit(m / 10 % 10)], Pad2(n / 100) + [Digit(n / 10 % 10)], m, n);
  }

  /** Full-dates as strings are in chronological order. */
  lemma FullDateOrder(a: Civil, b: Civil)
    requires Valid(a) && Valid(b) && 0 <= a.year <= 9999 && 0 <= b.year <= 9999
    ensures Less(FullDate(a), FullDate(b)) <==> DayNumber(a) < DayNumber(b)
  {
    OrderIsChronological(a, b);
    MonthIsShort(a);
    MonthIsShort(b);
    LessFour(a.year, b.year);
    LessPad2(a.month, b.month);
    LessPad2(a.day, b.day);
    LessParts(Four(a.year), Pad2(a.month), Pad2(a.day), Four(b.year), Pad2(b.month), Pad2(b.day));
  }

  lemma DashNotLess()
    ensures !Less("-", "-")
  {
  }

  lemma LessParts(y: string, m: string, d: string, y': string, m': string, d': string)
    requires |y| == |y'| && |m| == |m'|
    ensures Less(y + "-" + m + "-" + d, y' + "-" + m' + "-" + d') <==>
            Less(y, y') || (y == y' && (Less(m, m') || (m == m' && Less(d, d'))))
  {
    hide Less;
    var t, t' := m + "-" + d, m' + "-" + d';
    LessAppend(y, y', "-" + t, "-" + t');
    LessAppend("-", "-", t, t');
    LessAppend(m, m', "-" + d, "-" + d');
    LessAppend("-", "-", d, d');
    assert y + "-" + m + "-" + d == y + ("-" + t) && y' + "-" + m' + "-" + d' == y' + ("-" + t');
    assert t == m + ("-" + d) && t' == m' + ("-" + d');
    DashNotLess();
  }

  predicate FourDigitYear(day: int) { 1000 <= CivilFromDay(day).year <= 9999 }

  /** While years keep four digits, more days later is a later string, and conversely. */
  lemma AddDaysMonotone(s: string, c: Civil, a: int, b: int)
    requires Valid(c) && 100 <= c.year && ReadDate(s) == Fields(c.year, c.month, c.day)
    requires FourDigitYear(DayNumber(c) + a) && FourDigitYear(DayNumber(c) + b)
    ensures Less(AddDays(s, a), AddDays(s, b)) <==> a < b
  {
    hide AddDays, ReadDate, FullDate, CivilFromDay, DayNumber, Less;
    PrintedFull(s, c, a);
    PrintedFull(s, c, b);
    DayRoundTrip(DayNumber(c) + a);
    DayRoundTrip(DayNumber(c) + b);
    FullDateOrder(CivilFromDay(DayNumber(c) + a), CivilFromDay(DayNumber(c) + b));
  }

  lemma PrintedFull(s: string, c: Civil, n: int)
    requires Valid(c) && 100 <= c.year && ReadDate(s) == Fields(c.year, c.month, c.day)
    requires FourDigitYear(DayNumber(c) + n)
    ensures AddDays(s, n) == FullDate(CivilFromDay(DayNumber(c) + n))
  {
    hide AddDays, ReadDate, FullDate, DateString, CivilFromDay, DayNumber;
    var m := CivilFromDay(DayNumber(c) + n);
    AddsToDayNumber(s, c, n);
    DayRoundTrip(DayNumber(c) + n);
    NearDays(m);
    WrittenAlike(m);
  }
}
