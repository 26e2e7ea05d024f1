/**
 * Date, countdown and link helpers (src/lib/utils.ts).
 *
 * The viewer's clock, the local-time calendar conversion and the locale date
 * formatter are not computed here: "now" is an epoch-millisecond parameter,
 * and the other two are function parameters whose `None` stands for an
 * invalid (NaN) date.
 */
module Utils {
  import opened Wrappers
  import opened Text
  import opened Types

  const MsPerSecond: int := 1000
  const MsPerMinute: int := 60000
  const MsPerHour: int := 3600000
  const MsPerDay: int := 86400000

  /** `new Date(year, monthIndex, day, hours, minutes).getTime()` in local time; None when it is NaN. */
  type Calendar = (int, int, int, int, int) -> Option<int>

  /** `new Date(s)` followed by `toLocaleDateString` with some options; None when the date is NaN. */
  type DateFormatter = string -> Option<string>

  datatype TimeUntil = TimeUntil(days: int, hours: int, minutes: int, seconds: int,
                                 isPast: bool, isPlaceholder: bool)

  /** Shown when there is no usable date. */
  const Placeholder := TimeUntil(90, 12, 30, 45, false, true)

  /** Shown once the event instant has been reached. */
  const PastResult := TimeUntil(0, 0, 0, 0, true, false)

  /** The whole seconds a countdown value stands for. */
  function RemainingSeconds(r: TimeUntil): int
  {
    r.days * 86400 + r.hours * 3600 + r.minutes * 60 + r.seconds
  }

  // ----- Parsing the date and the time -----

  /**
   * `dateString.split('-').map(Number)`, accepted only with exactly three
   * numeric parts (year, month, day).
   */
  function DateParts(dateString: string): (r: Option<(nat, nat, nat)>)
    ensures r.Some? <==>
      var parts := Split(dateString, '-');
      |parts| == 3 && AllDigits(parts[0]) && AllDigits(parts[1]) && AllDigits(parts[2])
    ensures dateString == "" ==> r.None?
  {
    var parts := Split(dateString, '-');
    if |parts| != 3 then None
    else
      match (JsNumber(parts[0]), JsNumber(parts[1]), JsNumber(parts[2]))
      case (Some(y), Some(m), Some(d)) => Some((y, m, d))
      case _ => None
  }

  /**
   * `(timeString || '12:00').split(':').map(Number)`: the first two parts
   * when there are at least two, otherwise 12:00; None when the hour or the
   * minute is not numeric.
   */
  function TimeParts(timeString: string): (r: Option<(nat, nat)>)
    ensures timeString == "" ==> r == Some((12, 0))
    ensures |Split(timeString, ':')| < 2 ==> r == Some((12, 0))
    ensures |Split(timeString, ':')| >= 2 ==>
      var parts := Split(timeString, ':');
      (r.Some? <==> AllDigits(parts[0]) && AllDigits(parts[1]))
      && (r.Some? ==> r.value == (ParseDigits(parts[0]), ParseDigits(parts[1])))
  {
    var parts := Split(OrDefault(timeString, "12:00"), ':');
    assert timeString == "" ==> parts == ["12", "00"] by {
      assert "12:00" == "12" + [':'] + "00";
      SplitAround("12", "00", ':');
    }
    if |parts| >= 2 then
      match (JsNumber(parts[0]), JsNumber(parts[1]))
      case (Some(h), Some(m)) => Some((h, m))
      case _ => None
    else Some((12, 0))
  }

  /** The event instant in epoch milliseconds, None when the date or time cannot be used. */
  function EventInstant(dateString: string, timeString: string, calendar: Calendar): Option<int>
  {
    if dateString == "" then None
    else
      match DateParts(dateString)
      case None => None
      case Some((year, month, day)) =>
        match TimeParts(timeString)
        case None => None
        case Some((hours, minutes)) => calendar(year, month - 1, day, hours, minutes)
  }

  // ----- The countdown -----

  /** Splitting a positive millisecond difference into days, hours, minutes and seconds. */
  function Decompose(diff: int): (r: TimeUntil)
    requires diff > 0
    ensures !r.isPast && !r.isPlaceholder
    ensures r.days >= 0 && 0 <= r.hours < 24 && 0 <= r.minutes < 60 && 0 <= r.seconds < 60
    ensures RemainingSeconds(r) == diff / 1000
  {
    var r := TimeUntil(diff / MsPerDay, (diff % MsPerDay) / MsPerHour,
                       (diff % MsPerHour) / MsPerMinute, (diff % MsPerMinute) / MsPerSecond,
                       false, false);
    DecomposeRecomposes(diff);
    r
  }

  /** The four units of `Decompose` put back together give the whole seconds of the difference. */
  lemma DecomposeRecomposes(diff: int)
    requires diff > 0
    ensures (diff / MsPerDay) * 86400 + ((diff % MsPerDay) / MsPerHour) * 3600
            + ((diff % MsPerHour) / MsPerMinute) * 60 + (diff % MsPerMinute) / MsPerSecond
            == diff / 1000
    ensures 0 <= (diff % MsPerDay) / MsPerHour < 24
    ensures 0 <= (diff % MsPerHour) / MsPerMinute < 60
    ensures 0 <= (diff % MsPerMinute) / MsPerSecond < 60
  {
    var d := diff / 86400000;
    var h := (diff % 86400000) / 3600000;
    var m := (diff % 3600000) / 60000;
    var s := (diff % 60000) / 1000;
    // Each remainder is what is left of the previous one after the next unit.
    DayRemainder(diff);
    HourRemainder(diff);
    MinuteRemainder(diff);
    SecondRemainder(diff);
    assert diff == 1000 * (86400 * d + 3600 * h + 60 * m + s) + diff % 1000;
    WholeSeconds(diff, 86400 * d + 3600 * h + 60 * m + s);
    UnitRanges(diff);
  }

  lemma DayRemainder(diff: int)
    ensures diff == 86400000 * (diff / 86400000) + diff % 86400000
  {
  }

  lemma HourRemainder(diff: int)
    ensures diff % 86400000 == 3600000 * ((diff % 86400000) / 3600000) + diff % 3600000
  {
    assert diff % 3600000 == (diff % 86400000) % 3600000;
  }

  lemma MinuteRemainder(diff: int)
    ensures diff % 3600000 == 60000 * ((diff % 3600000) / 60000) + diff % 60000
  {
    assert diff % 60000 == (diff % 3600000) % 60000;
  }

  lemma SecondRemainder(diff: int)
    ensures diff % 60000 == 1000 * ((diff % 60000) / 1000) + diff % 1000
  {
    assert diff % 1000 == (diff % 60000) % 1000;
  }

  lemma UnitRanges(diff: int)
    ensures 0 <= (diff % 86400000) / 3600000 < 24
    ensures 0 <= (diff % 3600000) / 60000 < 60
    ensures 0 <= (diff % 60000) / 1000 < 60
  {
  }

  lemma WholeSeconds(diff: int, q: int)
    requires diff == 1000 * q + diff % 1000
    ensures diff / 1000 == q
  {
  }

  /**
   * `getTimeUntil(dateString, timeString)` at the instant `now`: the
   * placeholder when there is no usable event instant, the past value once
   * the instant is reached, and otherwise the remaining time in units.
   */
  function GetTimeUntil(dateString: string, timeString: string, calendar: Calendar, now: int): (r: TimeUntil)
    ensures r.isPlaceholder <==> EventInstant(dateString, timeString, calendar).None?
    ensures r.isPlaceholder ==> r == Placeholder
    ensures r.isPast ==> r == PastResult
    ensures !(r.isPast && r.isPlaceholder)
    ensures dateString == "" || DateParts(dateString).None? || TimeParts(timeString).None? ==> r == Placeholder
    ensures EventInstant(dateString, timeString, calendar).Some? ==>
      var t := EventInstant(dateString, timeString, calendar).value;
      && (r.isPast <==> t <= now)
      && (t > now ==> 0 <= r.hours < 24 && 0 <= r.minutes < 60 && 0 <= r.seconds < 60
                      && r.days >= 0 && RemainingSeconds(r) == (t - now) / 1000)
  {
    match EventInstant(dateString, timeString, calendar)
    case None => Placeholder
    case Some(t) =>
      var diff := t - now;
      if diff <= 0 then PastResult else Decompose(diff)
  }

  /** Whether the countdown is a placeholder depends on the date and time only, never on the clock. */
  lemma PlaceholderIgnoresClock(dateString: string, timeString: string, calendar: Calendar, now1: int, now2: int)
    ensures GetTimeUntil(dateString, timeString, calendar, now1).isPlaceholder
        == GetTimeUntil(dateString, timeString, calendar, now2).isPlaceholder
  {
  }

  /** As the clock advances the remaining time never grows, and once past the event stays past. */
  lemma CountdownNonIncreasing(dateString: string, timeString: string, calendar: Calendar, now1: int, now2: int)
    requires now1 <= now2
    ensures RemainingSeconds(GetTimeUntil(dateString, timeString, calendar, now2))
         <= RemainingSeconds(GetTimeUntil(dateString, timeString, calendar, now1))
    ensures GetTimeUntil(dateString, timeString, calendar, now1).isPast
        ==> GetTimeUntil(dateString, timeString, calendar, now2).isPast
  {
    var r1 := GetTimeUntil(dateString, timeString, calendar, now1);
    var r2 := GetTimeUntil(dateString, timeString, calendar, now2);
    match EventInstant(dateString, timeString, calendar)
    case None =>
      assert r1 == r2 == Placeholder;
    case Some(t) =>
      if t <= now2 {
        assert r2 == PastResult;
        if t > now1 {
          assert RemainingSeconds(r1) == (t - now1) / 1000;
        }
      } else {
        assert RemainingSeconds(r2) == (t - now2) / 1000;
        assert RemainingSeconds(r1) == (t - now1) / 1000;
        DivMonotone(t - now2, t - now1);
      }
  }

  lemma DivMonotone(a: int, b: int)
    requires 0 < a <= b
    ensures a / 1000 <= b / 1000
  {
  }

  /** One timer tick of a second, while more than a second remains, takes exactly one second off. */
  lemma TickTakesOneSecond(dateString: string, timeString: string, calendar: Calendar, now: int)
    requires EventInstant(dateString, timeString, calendar).Some?
    requires EventInstant(dateString, timeString, calendar).value - now > 1000
    ensures RemainingSeconds(GetTimeUntil(dateString, timeString, calendar, now + 1000))
         == RemainingSeconds(GetTimeUntil(dateString, timeString, calendar, now)) - 1
  {
    var t := EventInstant(dateString, timeString, calendar).value;
    assert (t - now - 1000) / 1000 == (t - now) / 1000 - 1;
  }

  // ----- Formatting -----

  const NoDateText := "Дата не указана"

  /** `formatDate`: the long date, or "Дата не указана" for an empty or invalid date. */
  function FormatDate(dateString: string, longDate: DateFormatter): (r: string)
    ensures dateString == "" || longDate(dateString).None? ==> r == NoDateText
    ensures dateString != "" && longDate(dateString).Some? ==> r == longDate(dateString).value
  {
    if dateString == "" then NoDateText
    else
      match longDate(dateString)
      case None => NoDateText
      case Some(text) => text
  }

  /** `formatRsvpDeadline`: the day and month, or null for an empty or invalid date. */
  function FormatRsvpDeadline(dateString: Option<string>, dayMonth: DateFormatter): (r: Option<string>)
    ensures !Truthy(dateString) ==> r.None?
    ensures Truthy(dateString) ==> r == dayMonth(dateString.value)
  {
    if !Truthy(dateString) then None else dayMonth(dateString.value)
  }

  /** `formatTime`: a missing time shows as the empty text; a present one is shown as it is. */
  function FormatTime(timeString: Option<string>): (r: string)
    ensures timeString.None? ==> r == ""
    ensures timeString.Some? ==> r == timeString.value
  {
    if !Truthy(timeString) then "" else timeString.value
  }

  /** `Math.ceil(a / b)` for a positive divisor. */
  function CeilDiv(a: int, b: int): (q: int)
    requires b > 0
    ensures (q - 1) * b < a <= q * b
  {
    -((-a) / b)
  }

  /**
   * `getDaysUntil`: whole days, rounded up, from today's local midnight to the
   * event date's local midnight; 90 for an empty or invalid date.
   * `midnight(dateString)` is the event date's local midnight in epoch milliseconds.
   */
  function GetDaysUntil(dateString: string, midnight: string -> Option<int>, todayMidnight: int): (r: int)
    ensures dateString == "" || midnight(dateString).None? ==> r == 90
    ensures dateString != "" && midnight(dateString).Some? ==>
      var diff := midnight(dateString).value - todayMidnight;
      (r - 1) * MsPerDay < diff <= r * MsPerDay
  {
    if dateString == "" then 90
    else
      match midnight(dateString)
      case None => 90
      case Some(eventMidnight) => CeilDiv(eventMidnight - todayMidnight, MsPerDay)
  }

  // ----- Links -----

  const SiteUrl := "https://shaq.kz"
  const WhatsAppPrefix := "https://wa.me/?text="

  /** The guest's personal invitation address: the site followed by the guest's path. */
  function PersonalUrl(personalLink: string): (r: string)
    ensures StartsWith(r, SiteUrl) && r[|SiteUrl|..] == personalLink
  {
    SiteUrl + personalLink
  }

  /** The WhatsApp message: a greeting naming the guest, the invitation line, then the personal address. */
  function WhatsAppMessage(personalLink: string, guestName: string): (m: string)
    ensures StartsWith(m, "Құрметті " + guestName + "!")
    ensures |m| >= |PersonalUrl(personalLink)| && m[|m| - |PersonalUrl(personalLink)|..] == PersonalUrl(personalLink)
  {
    var greeting := "Құрметті " + guestName + "!";
    var m := greeting + "\n\nСізді біздің тойға шақырамыз!\n\n" + PersonalUrl(personalLink);
    assert m[..|greeting|] == greeting;
    m
  }

  /** `generateWhatsAppLink`: the WhatsApp share address carrying the encoded message. */
  function GenerateWhatsAppLink(personalLink: string, guestName: string, encode: string -> string): (r: string)
    ensures StartsWith(r, WhatsAppPrefix)
    ensures r[|WhatsAppPrefix|..] == encode(WhatsAppMessage(personalLink, guestName))
  {
    WhatsAppPrefix + encode(WhatsAppMessage(personalLink, guestName))
  }
}
