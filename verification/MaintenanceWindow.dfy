/** The recurring maintenance window, on an unbounded line of minutes whose day 0 is a Sunday. */
module MaintenanceWindow {
  import opened Options
  import opened Text

  const DAY := 1440
  const WEEK := 10080

  datatype Window = Window(start: string, end: string, days: seq<string>)

  // --- reading the manifest's fields ----------------------------------------------------------

  predicate IsTwoDigits(s: string) {
    |s| == 2 && '0' <= s[0] <= '9' && '0' <= s[1] <= '9'
  }

  function TwoDigits(s: string): (n: int)
    requires IsTwoDigits(s)
    ensures 0 <= n <= 99
  {
    (s[0] as int - '0' as int) * 10 + (s[1] as int - '0' as int)
  }

  function ParseHHMM(s: string): Option<int> {
    var t := Trim(s);
    if |t| != 5 || t[2] != ':' || !IsTwoDigits(t[..2]) || !IsTwoDigits(t[3..]) then None
    else
      var h, m := TwoDigits(t[..2]), TwoDigits(t[3..]);
      if h > 23 || m > 59 then None else Some(h * 60 + m)
  }

  function Digit(n: int): char
    requires 0 <= n <= 9
  {
    (n + '0' as int) as char
  }

  /** The canonical form of a minute of the day. */
  function HHMM(n: int): string
    requires 0 <= n < DAY
  {
    [Digit(n / 60 / 10), Digit(n / 60 % 10), ':', Digit(n % 60 / 10), Digit(n % 60 % 10)]
  }

  lemma CanonicalTimesRead(s: string, n: int)
    requires 0 <= n < DAY && Trim(s) == HHMM(n)
    ensures ParseHHMM(s) == Some(n)
  {
    hide Trim;
    var t := HHMM(n);
    assert t[..2] == [t[0], t[1]] && t[3..] == [t[3], t[4]];
  }

  lemma ReadTimesAreCanonical(s: string)
    requires ParseHHMM(s).Some?
    ensures var n := ParseHHMM(s).value; 0 <= n < DAY && Trim(s) == HHMM(n)
  {
    hide Trim;
    var t := Trim(s);
    assert t == [t[0], t[1], t[2], t[3], t[4]];
    assert t[..2] == [t[0], t[1]] && t[3..] == [t[3], t[4]];
    var n := ParseHHMM(s).value;
    assert n / 60 == TwoDigits(t[..2]) && n % 60 == TwoDigits(t[3..]);
  }

  /** A time is accepted exactly when, blanks aside, it is the canonical form of the minute it stands for. */
  lemma TimesAreCanonical(s: string, n: int)
    ensures ParseHHMM(s) == Some(n) <==> 0 <= n < DAY && Trim(s) == HHMM(n)
  {
    if ParseHHMM(s).Some? {
      ReadTimesAreCanonical(s);
    }
    if 0 <= n < DAY && Trim(s) == HHMM(n) {
      CanonicalTimesRead(s, n);
    }
    hide ParseHHMM, Trim, HHMM;
  }

  /** Sunday is 0. */
  function ParseWeekday(s: string): (day: Option<int>)
    ensures day.Some? ==> 0 <= day.value < 7
  {
    match Lower(Trim(s))
    case "sun" => Some(0)
    case "mon" => Some(1)
    case "tue" => Some(2)
    case "wed" => Some(3)
    case "thu" => Some(4)
    case "fri" => Some(5)
    case "sat" => Some(6)
    case _ => None
  }

  /** The days by number, Sunday first. */
  const DAY_NAMES := ["sun", "mon", "tue", "wed", "thu", "fri", "sat"]

  /** A name stands for a day if and only if, blanks and case aside, it is that day's. */
  lemma NamesOfDays(s: string, day: int)
    ensures ParseWeekday(s) == Some(day) <==> 0 <= day < 7 && Lower(Trim(s)) == DAY_NAMES[day]
  {
  }

  /** A day list allows a weekday when it is empty or names that day; names it cannot read are skipped. */
  ghost predicate DayAllowed(days: seq<string>, day: int) {
    days == [] || exists i :: 0 <= i < |days| && ParseWeekday(days[i]) == Some(day)
  }

  /** None stands for every day. */
  method ParseDays(days: seq<string>) returns (allowed: Option<set<int>>)
    ensures forall day :: DayAllowed(days, day) <==> allowed == None || day in allowed.value
  {
    if |days| == 0 {
      return None;
    }
    var named: set<int> := {};
    for i := 0 to |days|
      invariant forall day :: day in named <==> exists k :: 0 <= k < i && ParseWeekday(days[k]) == Some(day)
    {
      var day := ParseWeekday(days[i]);
      if day.Some? {
        named := named + {day.value};
      }
    }
    return Some(named);
  }

  function Weekday(day: int): int {
    day % 7
  }

  // --- membership -----------------------------------------------------------------------------

  predicate Usable(w: Window) {
    ParseHHMM(w.start).Some? && ParseHHMM(w.end).Some? && ParseHHMM(w.start) != ParseHHMM(w.end)
  }

  /** Whether server time t, in minutes, falls inside the window. */
  method Contains(w: Window, t: int) returns (inside: bool)
    ensures inside <==> Inside(w, t)
  {
    var start, end := ParseHHMM(w.start), ParseHHMM(w.end);
    if start == None || end == None || start == end {
      return false;
    }
    var now, today := t % DAY, Weekday(t / DAY);
    var yesterday := (today + 6) % 7;
    var allowed := ParseDays(w.days);
    var todayAllowed := allowed == None || today in allowed.value;
    var yesterdayAllowed := allowed == None || yesterday in allowed.value;
    assert yesterday == Weekday(t / DAY - 1);
    WhichDay(w, t);
    if start.value < end.value {
      return now >= start.value && now < end.value && todayAllowed;
    }
    if now >= start.value {
      return todayAllowed;
    } else if now < end.value {
      return yesterdayAllowed;
    } else {
      return false;
    }
  }

  /** How long the window stays open from its start. */
  function Length(start: int, end: int): int {
    (end - start) % DAY
  }

  /** The opening on day e covers minute t. */
  ghost predicate OpenOn(w: Window, e: int, t: int)
    requires Usable(w)
  {
    var start, end := ParseHHMM(w.start).value, ParseHHMM(w.end).value;
    DayAllowed(w.days, Weekday(e)) && DAY * e + start <= t < DAY * e + start + Length(start, end)
  }

  /** A minute is inside when the opening of some allowed day covers it. */
  ghost predicate Inside(w: Window, t: int) {
    Usable(w) && exists e :: OpenOn(w, e, t)
  }

  // --- which opening covers a minute -----------------------------------------------------------

  predicate Covers(start: int, end: int, e: int, t: int) {
    DAY * e + start <= t < DAY * e + start + Length(start, end)
  }

  lemma LengthIs(start: int, end: int)
    requires 0 <= start < DAY && 0 <= end < DAY && start != end
    ensures Length(start, end) == if start < end then end - start else end - start + DAY
    ensures 0 < Length(start, end) < DAY
  {
  }

  lemma CoveringDay(start: int, end: int, d: int, now: int, e: int)
    requires 0 <= start < DAY && 0 <= end < DAY && start != end && 0 <= now < DAY
    ensures Covers(start, end, e, DAY * d + now) <==>
              || (e == d && now >= start && (start < end ==> now < end))
              || (e == d - 1 && start > end && now < end)
  {
    LengthIs(start, end);
    hide Length;
  }

  /** Only the opening of the minute's own day or the day before can cover it. */
  lemma WhichDay(w: Window, t: int)
    requires Usable(w)
    ensures var start, end, now := ParseHHMM(w.start).value, ParseHHMM(w.end).value, t % DAY;
      forall e :: OpenOn(w, e, t) <==>
        (DayAllowed(w.days, Weekday(e)) && ((e == t / DAY && now >= start && (start < end ==> now < end))
                                            || (e == t / DAY - 1 && start > end && now < end)))
  {
    var start, end := ParseHHMM(w.start).value, ParseHHMM(w.end).value;
    TimesAreCanonical(w.start, start);
    TimesAreCanonical(w.end, end);
    forall e
      ensures OpenOn(w, e, t) <==>
        (DayAllowed(w.days, Weekday(e)) && ((e == t / DAY && t % DAY >= start && (start < end ==> t % DAY < end))
                                            || (e == t / DAY - 1 && start > end && t % DAY < end)))
    {
      CoveringDay(start, end, t / DAY, t % DAY, e);
      hide Length, ParseHHMM, HHMM, DayAllowed, Weekday;
    }
  }

  // --- how much of a week is open -----------------------------------------------------------------

  lemma LengthFacts(w: Window) returns (start: int, end: int)
    requires Usable(w)
    ensures ParseHHMM(w.start) == Some(start) && ParseHHMM(w.end) == Some(end)
    ensures 0 <= start < DAY && 0 < Length(start, end) < DAY
  {
    start, end := ParseHHMM(w.start).value, ParseHHMM(w.end).value;
    TimesAreCanonical(w.start, start);
    TimesAreCanonical(w.end, end);
    hide ParseHHMM, HHMM;
    LengthIs(start, end);
  }

  /** The window repeats every week. */
  lemma EveryWeekAlike(w: Window, t: int)
    ensures Inside(w, t + WEEK) <==> Inside(w, t)
  {
    if Usable(w) {
      hide DayAllowed, ParseHHMM, Usable, Length;
      var later := t + WEEK;
      if e :| OpenOn(w, e, later) {
        assert Weekday(e - 7) == Weekday(e);
        assert OpenOn(w, e - 7, t);
      }
      if e :| OpenOn(w, e, t) {
        assert Weekday(e + 7) == Weekday(e);
        assert OpenOn(w, e + 7, later);
      }
    }
  }

  /** The minutes inside the window, of the n from `a` on. */
  ghost function OpenMinutes(w: Window, a: int, n: nat): (m: nat)
  {
    if n == 0 then 0 else OpenMinutes(w, a, n - 1) + if Inside(w, a + n - 1) then 1 else 0
  }

  /** That is the size of the set of them. */
  lemma {:induction false} OpenMinutesCount(w: Window, a: int, n: nat)
    ensures OpenMinutes(w, a, n) == |set t | a <= t < a + n && Inside(w, t)|
  {
    hide Inside;
    var all := set t | a <= t < a + n && Inside(w, t);
    if n == 0 {
      assert all == {};
    } else {
      OpenMinutesCount(w, a, n - 1);
      var before := set t | a <= t < a + (n - 1) && Inside(w, t);
      assert all == before + if Inside(w, a + n - 1) then {a + n - 1} else {};
    }
  }

  lemma {:induction false} OpenMinutesAdd(w: Window, a: int, n: nat, m: nat)
    ensures OpenMinutes(w, a, n + m) == OpenMinutes(w, a, n) + OpenMinutes(w, a + n, m)
  {
    hide Inside;
    if m > 0 {
      OpenMinutesAdd(w, a, n, m - 1);
      assert a + (n + m) - 1 == a + n + m - 1;
    }
  }

  /** A week has as many open minutes from any minute on. */
  lemma {:induction false} AnyWeekAlike(w: Window, a: int, b: int)
    requires a <= b
    ensures OpenMinutes(w, a, WEEK) == OpenMinutes(w, b, WEEK)
    decreases b - a
  {
    if a < b {
      AnyWeekAlike(w, a, b - 1);
      OpenMinutesAdd(w, b - 1, 1, WEEK);
      OpenMinutesAdd(w, b - 1, WEEK, 1);
      EveryWeekAlike(w, b - 1);
      hide Inside;
      OneMinute(w, b - 1);
      OneMinute(w, b - 1 + WEEK);
    }
  }

  lemma OneMinute(w: Window, a: int)
    ensures OpenMinutes(w, a, 1) == if Inside(w, a) then 1 else 0
  {
    assert OpenMinutes(w, a, 0) == 0;
  }

  lemma {:induction false} AllAlike(w: Window, a: int, n: nat, inside: bool)
    requires forall t | a <= t < a + n :: Inside(w, t) == inside
    ensures OpenMinutes(w, a, n) == if inside then n else 0
  {
    hide Inside;
    if n > 0 {
      AllAlike(w, a, n - 1, inside);
    }
  }

  /** From the start of the opening of day e to that of the next: open for the length when the day is
      allowed, and not at all otherwise. */
  lemma OneOpening(w: Window, e: int)
    requires Usable(w)
    ensures var start, length := ParseHHMM(w.start).value, Length(ParseHHMM(w.start).value, ParseHHMM(w.end).value);
      OpenMinutes(w, DAY * e + start, DAY) == if DayAllowed(w.days, Weekday(e)) then length else 0
  {
    var start, end := LengthFacts(w);
    var length, a := Length(start, end), DAY * e + start;
    forall t | a <= t < a + DAY
      ensures Inside(w, t) <==> t < a + length && DayAllowed(w.days, Weekday(e))
    {
      hide Length, ParseHHMM, DayAllowed, Weekday;
      if t < a + length && DayAllowed(w.days, Weekday(e)) {
        assert OpenOn(w, e, t);
      }
      if other :| OpenOn(w, other, t) {
        assert other == e;
      }
    }
    OpenMinutesAdd(w, a, length, DAY - length);
    AllAlike(w, a, length, DayAllowed(w.days, Weekday(e)));
    AllAlike(w, a + length, DAY - length, false);
  }

  /** The allowed days among the first n of the week. */
  ghost function AllowedDays(w: Window, n: nat): nat {
    if n == 0 then 0 else AllowedDays(w, n - 1) + if DayAllowed(w.days, n - 1) then 1 else 0
  }

  lemma {:induction false} FirstDays(w: Window, n: nat)
    requires Usable(w) && n <= 7
    ensures var start, length := ParseHHMM(w.start).value, Length(ParseHHMM(w.start).value, ParseHHMM(w.end).value);
      OpenMinutes(w, start, n * DAY) == length * AllowedDays(w, n)
  {
    hide Inside, Length, ParseHHMM, DayAllowed;
    var start, length := ParseHHMM(w.start).value, Length(ParseHHMM(w.start).value, ParseHHMM(w.end).value);
    if n > 0 {
      FirstDays(w, n - 1);
      OneOpening(w, n - 1);
      OpenMinutesAdd(w, start, (n - 1) * DAY, DAY);
      assert Weekday(n - 1) == n - 1;
      OneMoreTime(length, AllowedDays(w, n - 1));
    }
  }

  lemma OneMoreTime(x: int, n: int)
    ensures x * (n + 1) == x * n + x
  {
  }

  /** Any 10080 consecutive minutes hold exactly the window's length for each weekday it allows, overnight
      tails included; a window that cannot be used holds none. */
  lemma OpenPerWeek(w: Window, a: int)
    ensures Usable(w) ==>
      |set t | a <= t < a + WEEK && Inside(w, t)|
      == Length(ParseHHMM(w.start).value, ParseHHMM(w.end).value) * AllowedDays(w, 7)
    ensures !Usable(w) ==> forall t :: !Inside(w, t)
  {
    OpenMinutesCount(w, a, WEEK);
    if Usable(w) {
      hide Inside, Length, ParseHHMM, AllowedDays, OpenMinutes;
      var start := ParseHHMM(w.start).value;
      FirstDays(w, 7);
      if a <= start {
        AnyWeekAlike(w, a, start);
      } else {
        AnyWeekAlike(w, start, a);
      }
    }
  }
}
