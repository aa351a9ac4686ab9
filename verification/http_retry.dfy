/** `retry_after_seconds` of components/controller/http_decoder.cpp:8-39: the delay of a Retry-After
    field, in seconds or as a date (RFC 9110, sections 10.2.3 and 5.6.7). `strptime` followed by
    `strftime` stands for reading a text that is exactly in the fixed form of a date. */
module HttpRetry {
  import opened Wrappers
  import opened Https
  import opened HttpMessages

  const DAY_S := 86400
  const NO_DATE_S := 3600

  function Min(a: nat, b: nat): nat { if a < b then a else b }

  predicate AllDigits(s: string) { forall i | 0 <= i < |s| :: IsDigit(s[i]) }

  datatype Delay = Seconds(n: nat) | NotSeconds

  /** Any number of digits is read without overflow: the delay is the number, but a day at most. */
  method DelaySeconds(field: string) returns (d: Delay)
    ensures d == if AllDigits(field) then Seconds(Min(DAY_S, DecimalValue(field))) else NotSeconds
  {
    var seconds: nat := 0;
    for i := 0 to |field|
      invariant AllDigits(field[..i]) && seconds == Min(DAY_S, DecimalValue(field[..i]))
    {
      if !IsDigit(field[i]) {
        return NotSeconds;
      }
      assert field[..i + 1][..i] == field[..i];
      seconds := Min(DAY_S, seconds * 10 + HexDigit(field[i]));
    }
    assert field[..|field|] == field;
    d := Seconds(seconds);
  }

  // ----- The calendar -----

  predicate Leap(y: nat) { y % 4 == 0 && (y % 100 != 0 || y % 400 == 0) }

  function YearDays(y: nat): nat { if Leap(y) then 366 else 365 }

  /** Months are counted from 0. */
  function MonthDays(y: nat, m: nat): nat
    requires m < 12
  {
    if m == 1 then if Leap(y) then 29 else 28
    else if m == 3 || m == 5 || m == 8 || m == 10 then 30 else 31
  }

  datatype Day = Day(year: nat, month: nat, day: nat)
  {
    predicate Valid() { year >= 1970 && month < 12 && 1 <= day <= MonthDays(year, month) }
  }

  const EPOCH := Day(1970, 0, 1)

  /** The day after. */
  function Tomorrow(d: Day): (t: Day)
    requires d.Valid()
    ensures t.Valid()
  {
    if d.day < MonthDays(d.year, d.month) then d.(day := d.day + 1)
    else if d.month < 11 then Day(d.year, d.month + 1, 1)
    else Day(d.year + 1, 0, 1)
  }

  /** The day `n` days after 1 January 1970, one day at a time. */
  function Calendar(n: nat): (d: Day)
    ensures d.Valid()
  {
    if n == 0 then EPOCH else Tomorrow(Calendar(n - 1))
  }

  function DaysBeforeYear(y: nat): nat
    requires y >= 1970
  {
    if y == 1970 then 0 else DaysBeforeYear(y - 1) + YearDays(y - 1)
  }

  function DaysBeforeMonth(y: nat, m: nat): nat
    requires m <= 12
  {
    if m == 0 then 0 else DaysBeforeMonth(y, m - 1) + MonthDays(y, m - 1)
  }

  /** The number of a day, as the code adds it up. */
  function DayNumber(d: Day): nat
    requires d.Valid()
  {
    DaysBeforeYear(d.year) + DaysBeforeMonth(d.year, d.month) + d.day - 1
  }

  lemma MonthsMakeAYear(y: nat)
    ensures DaysBeforeMonth(y, 11) + 31 == YearDays(y)
  {
    var leap := if Leap(y) then 1 else 0;
    assert DaysBeforeMonth(y, 1) == 31;
    assert DaysBeforeMonth(y, 2) == 59 + leap;
    assert DaysBeforeMonth(y, 3) == 90 + leap;
    assert DaysBeforeMonth(y, 4) == 120 + leap;
    assert DaysBeforeMonth(y, 5) == 151 + leap;
    assert DaysBeforeMonth(y, 6) == 181 + leap;
    assert DaysBeforeMonth(y, 7) == 212 + leap;
    assert DaysBeforeMonth(y, 8) == 243 + leap;
    assert DaysBeforeMonth(y, 9) == 273 + leap;
    assert DaysBeforeMonth(y, 10) == 304 + leap;
  }

  lemma TomorrowCounts(d: Day)
    requires d.Valid()
    ensures DayNumber(Tomorrow(d)) == DayNumber(d) + 1
  {
    if d.day == MonthDays(d.year, d.month) && d.month == 11 {
      MonthsMakeAYear(d.year);
    }
  }

  /** The sum is the place of the day in the calendar. */
  lemma {:induction false} DayNumberOfCalendar(n: nat)
    ensures DayNumber(Calendar(n)) == n
  {
    if n > 0 {
      DayNumberOfCalendar(n - 1);
      TomorrowCounts(Calendar(n - 1));
    }
  }

  /** The day before. */
  function Yesterday(d: Day): (t: Day)
    requires d.Valid() && d != EPOCH
    ensures t.Valid() && Tomorrow(t) == d
  {
    if d.day > 1 then d.(day := d.day - 1)
    else if d.month > 0 then Day(d.year, d.month - 1, MonthDays(d.year, d.month - 1))
    else Day(d.year - 1, 11, 31)
  }

  lemma {:induction false} CalendarOfDayNumber(d: Day)
    requires d.Valid()
    ensures Calendar(DayNumber(d)) == d
    decreases DayNumber(d)
  {
    if d == EPOCH {
    } else {
      TomorrowCounts(Yesterday(d));
      CalendarOfDayNumber(Yesterday(d));
    }
  }

  // ----- The text of a date -----

  /** Three letters. */
  datatype Name = Name(a: char, b: char, c: char)

  function DayName(w: nat): Name
    requires w < 7
  {
    match w
    case 0 => Name('S', 'u', 'n')
    case 1 => Name('M', 'o', 'n')
    case 2 => Name('T', 'u', 'e')
    case 3 => Name('W', 'e', 'd')
    case 4 => Name('T', 'h', 'u')
    case 5 => Name('F', 'r', 'i')
    case _ => Name('S', 'a', 't')
  }

  function MonthName(m: nat): Name
    requires m < 12
  {
    match m
    case 0 => Name('J', 'a', 'n')
    case 1 => Name('F', 'e', 'b')
    case 2 => Name('M', 'a', 'r')
    case 3 => Name('A', 'p', 'r')
    case 4 => Name('M', 'a', 'y')
    case 5 => Name('J', 'u', 'n')
    case 6 => Name('J', 'u', 'l')
    case 7 => Name('A', 'u', 'g')
    case 8 => Name('S', 'e', 'p')
    case 9 => Name('O', 'c', 't')
    case 10 => Name('N', 'o', 'v')
    case _ => Name('D', 'e', 'c')
  }

  function FindDay(n: Name, w: nat): (r: Option<nat>)
    requires w <= 7
    ensures r.Some? ==> w <= r.value < 7 && DayName(r.value) == n
    decreases 7 - w
  {
    if w == 7 then None else if DayName(w) == n then Some(w) else FindDay(n, w + 1)
  }

  function FindMonth(n: Name, m: nat): (r: Option<nat>)
    requires m <= 12
    ensures r.Some? ==> m <= r.value < 12 && MonthName(r.value) == n
    decreases 12 - m
  {
    if m == 12 then None else if MonthName(m) == n then Some(m) else FindMonth(n, m + 1)
  }

  lemma {:induction false} DayIsFound(w: nat, from: nat)
    requires from <= w < 7
    ensures FindDay(DayName(w), from) == Some(w)
    decreases w - from
  {
    if from < w {
      DayIsFound(w, from + 1);
    }
  }

  lemma {:induction false} MonthIsFound(m: nat, from: nat)
    requires from <= m < 12
    ensures FindMonth(MonthName(m), from) == Some(m)
    decreases m - from
  {
    if from < m {
      MonthIsFound(m, from + 1);
    }
  }

  /** What `struct tm` holds of it. */
  datatype Stamp = Stamp(weekday: nat, day: Day, hour: nat, minute: nat, second: nat)
  {
    /** What the form of the text alone allows. */
    predicate Fits() {
      weekday < 7 && day.year <= 9999 && day.month < 12 && 1 <= day.day <= 31 && hour < 24 && minute < 60 && second <= 60
    }
  }

  function Tens(n: nat): char
    requires n < 100
  {
    Digit(n / 10)
  }

  function Ones(n: nat): char
    requires n < 100
  {
    Digit(n % 10)
  }

  /** For instance `Sun, 06 Nov 1994 08:49:37 GMT`. */
  function Text(s: Stamp): (t: string)
    requires s.Fits()
    ensures |t| == 29
  {
    var d, w, m := s.day, DayName(s.weekday), MonthName(s.day.month);
    [w.a, w.b, w.c, ',', ' ', Tens(d.day), Ones(d.day), ' ', m.a, m.b, m.c, ' ',
     Tens(d.year / 100), Ones(d.year / 100), Tens(d.year % 100), Ones(d.year % 100), ' ',
     Tens(s.hour), Ones(s.hour), ':', Tens(s.minute), Ones(s.minute), ':', Tens(s.second), Ones(s.second),
     ' ', 'G', 'M', 'T']
  }

  /** The two digits at `i`. */
  predicate TwoAt(f: string, i: nat) { i + 2 <= |f| && IsDigit(f[i]) && IsDigit(f[i + 1]) }

  function NumberAt(f: string, i: nat): (n: nat)
    requires TwoAt(f, i)
    ensures n < 100 && Tens(n) == f[i] && Ones(n) == f[i + 1]
  {
    (f[i] as int - '0' as int) * 10 + (f[i + 1] as int - '0' as int)
  }

  predicate Marked(f: string)
    requires |f| == 29
  {
    && f[3] == ',' && f[4] == ' ' && f[7] == ' ' && f[11] == ' ' && f[16] == ' ' && f[19] == ':' && f[22] == ':'
    && f[25] == ' ' && f[26] == 'G' && f[27] == 'M' && f[28] == 'T'
  }

  predicate Numbered(f: string)
    requires |f| == 29
  {
    TwoAt(f, 5) && TwoAt(f, 12) && TwoAt(f, 14) && TwoAt(f, 17) && TwoAt(f, 20) && TwoAt(f, 23)
  }

  /** Reading a text that is exactly in the form. */
  function Read(f: string): Option<Stamp>
    requires |f| == 29
  {
    var w, m := FindDay(Name(f[0], f[1], f[2]), 0), FindMonth(Name(f[8], f[9], f[10]), 0);
    if w == None || m == None || !Marked(f) || !Numbered(f) then None
    else
      var d := Day(NumberAt(f, 12) * 100 + NumberAt(f, 14), m.value, NumberAt(f, 5));
      var s := Stamp(w.value, d, NumberAt(f, 17), NumberAt(f, 20), NumberAt(f, 23));
      if s.Fits() then Some(s) else None
  }

  lemma DigitsRead(f: string, i: nat, n: nat)
    requires i + 2 <= |f| && n < 100 && f[i] == Tens(n) && f[i + 1] == Ones(n)
    ensures TwoAt(f, i) && NumberAt(f, i) == n
  {
  }

  lemma NumbersRead(s: Stamp)
    requires s.Fits()
    ensures var f := Text(s);
            && Numbered(f) && NumberAt(f, 5) == s.day.day && NumberAt(f, 12) * 100 + NumberAt(f, 14) == s.day.year
            && NumberAt(f, 17) == s.hour && NumberAt(f, 20) == s.minute && NumberAt(f, 23) == s.second
  {
    var f := Text(s);
    DigitsRead(f, 5, s.day.day);
    DigitsRead(f, 12, s.day.year / 100);
    DigitsRead(f, 14, s.day.year % 100);
    DigitsRead(f, 17, s.hour);
    DigitsRead(f, 20, s.minute);
    DigitsRead(f, 23, s.second);
  }

  lemma TextIsRead(s: Stamp)
    requires s.Fits()
    ensures Read(Text(s)) == Some(s)
  {
    NumbersRead(s);
    DayIsFound(s.weekday, 0);
    MonthIsFound(s.day.month, 0);
  }

  lemma ReadIsText(f: string)
    requires |f| == 29 && Read(f).Some?
    ensures Read(f).value.Fits() && f == Text(Read(f).value)
  {
    var s := Read(f).value;
    assert s.day.year / 100 == NumberAt(f, 12) && s.day.year % 100 == NumberAt(f, 14);
    var t := Text(s);
    assert forall i | 0 <= i < 29 :: f[i] == t[i];
  }

  // ----- The delay -----

  const LAST_YEAR := 2100

  /** The instant `t` seconds after the start of 1970, as a date. */
  function Written(t: nat): (s: Stamp)
    ensures s.weekday < 7 && s.hour < 24 && s.minute < 60 && s.second < 60 && s.day.Valid() && s.day.day <= 31
  {
    var n, r := t / DAY_S, t % DAY_S;
    Stamp((n + 4) % 7, Calendar(n), r / 3600, r / 60 % 60, r % 60)
  }

  /** When a stamp is, if it is a date of the calendar with its own day of the week. */
  function Instant(s: Stamp): Option<nat>
    requires s.Fits()
  {
    if !s.day.Valid() || s.day.year > LAST_YEAR || s.second == 60 then None
    else
      var n := DayNumber(s.day);
      if s.weekday != (n + 4) % 7 then None else Some(n * DAY_S + s.hour * 3600 + s.minute * 60 + s.second)
  }

  function DateOf(field: string): Option<nat> {
    if |field| != 29 || Read(field) == None then None else
    ReadIsText(field);
    Instant(Read(field).value)
  }

  function Clamp(d: int): nat { if d < 0 then 0 else Min(d, DAY_S) }

  function RetryAfterSeconds(field: string, now: int): nat {
    if AllDigits(field) then Min(DAY_S, DecimalValue(field))
    else
      match DateOf(field)
      case None => NO_DATE_S
      case Some(t) => Clamp(t - now)
  }

  lemma SplitsDay(n: nat, h: nat, m: nat, s: nat)
    requires h < 24 && m < 60 && s < 60
    ensures var t := n * DAY_S + h * 3600 + m * 60 + s;
            t / DAY_S == n && t % DAY_S / 3600 == h && t % DAY_S / 60 % 60 == m && t % DAY_S % 60 == s
  {
  }

  lemma JoinsDay(t: nat)
    ensures var r := t % DAY_S;
            t == t / DAY_S * DAY_S + r / 3600 * 3600 + r / 60 % 60 * 60 + r % 60 && r / 3600 < 24
  {
  }

  lemma InstantIsWritten(s: Stamp, t: nat)
    requires s.Fits() && Instant(s) == Some(t)
    ensures s == Written(t)
  {
    CalendarOfDayNumber(s.day);
    SplitsDay(DayNumber(s.day), s.hour, s.minute, s.second);
  }

  lemma WrittenIsInstant(t: nat)
    requires Written(t).day.year <= LAST_YEAR
    ensures Instant(Written(t)) == Some(t)
  {
    DayNumberOfCalendar(t / DAY_S);
    JoinsDay(t);
  }

  /** A field is read as the instant `t` if and only if it is the text of that instant, in a year up to
      2100: day of the week, leap years and all. */
  lemma DateOfIff(field: string, t: nat)
    ensures DateOf(field) == Some(t)
            <==> Written(t).day.year <= LAST_YEAR && field == Text(Written(t))
  {
    if DateOf(field) == Some(t) {
      ReadIsText(field);
      InstantIsWritten(Read(field).value, t);
    }
    if Written(t).day.year <= LAST_YEAR && field == Text(Written(t)) {
      TextIsRead(Written(t));
      WrittenIsInstant(t);
    }
  }

  method DaysTo(d: Day) returns (days: nat)
    requires d.Valid()
    ensures days == DayNumber(d)
  {
    days := 0;
    var y := 1970;
    while y < d.year
      invariant 1970 <= y <= d.year && days == DaysBeforeYear(y)
    {
      days := days + if Leap(y) then 366 else 365;
      y := y + 1;
    }
    var m := 0;
    while m < d.month
      invariant m <= d.month && days == DaysBeforeYear(d.year) + DaysBeforeMonth(d.year, m)
    {
      days := days + MonthDays(d.year, m);
      m := m + 1;
    }
    days := days + d.day - 1;
  }

  /** The delay of any field: a number of seconds, the time left until a date, or an hour for anything
      else; never more than a day but for that hour. */
  method WaitSeconds(field: string, now: int) returns (seconds: nat)
    ensures seconds == RetryAfterSeconds(field, now)
  {
    var d := DelaySeconds(field);
    if d.Seconds? {
      return d.n;
    }
    if |field| != 29 || Read(field) == None {
      return NO_DATE_S;
    }
    ReadIsText(field);
    var s := Read(field).value;
    if s.day.year < 1970 || s.day.year > LAST_YEAR || s.second > 59 || s.day.day > MonthDays(s.day.year, s.day.month) {
      return NO_DATE_S;
    }
    var days := DaysTo(s.day);
    if s.weekday != (days + 4) % 7 {
      return NO_DATE_S;
    }
    seconds := Clamp(days * DAY_S + s.hour * 3600 + s.minute * 60 + s.second - now);
  }
}
