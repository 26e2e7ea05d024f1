// The countdown block: the time left until the event in four padded units,
// refreshed every second by a timer, or a closing message once the event is past.

module CountdownBlock {
  import opened Text
  import opened Utils

  datatype CountdownUnit = CountdownUnit(digits: string, caption: string, captionKz: string)

  datatype CountdownView =
    | EventPassed
    | Counters(units: seq<CountdownUnit>, boxed: bool, largeNumbers: bool)

  const Captions: seq<string> := ["дней", "часов", "минут", "секунд"]
  const CaptionsKz: seq<string> := ["күн", "сағат", "минут", "секунд"]

  /** `String(n).padStart(2, '0')`. */
  function Padded(n: int): string
  {
    PadStart(IntToString(n), 2, '0')
  }

  /** The four counters in their display order: days, hours, minutes, seconds. */
  function Values(t: TimeUntil): seq<int>
  {
    [t.days, t.hours, t.minutes, t.seconds]
  }

  /**
   * What the countdown block shows for a countdown value: the closing message for a real
   * past event, and otherwise exactly four units, days first, each padded to two characters.
   */
  function CountdownDisplay(t: TimeUntil, variant: string): (v: CountdownView)
    ensures v.EventPassed? <==> t.isPast && !t.isPlaceholder
    ensures v.Counters? ==> |v.units| == 4
    ensures v.Counters? ==> forall k :: 0 <= k < 4 ==> v.units[k].caption == Captions[k]
    ensures v.Counters? ==> forall k :: 0 <= k < 4 ==> v.units[k].digits == Padded(Values(t)[k])
    ensures v.Counters? ==> (v.boxed <==> variant == "boxed") && (v.largeNumbers <==> variant == "large-number")
  {
    if t.isPast && !t.isPlaceholder then EventPassed
    else
      var values := Values(t);
      var units := seq(4, k requires 0 <= k < 4 => CountdownUnit(Padded(values[k]), Captions[k], CaptionsKz[k]));
      Counters(units, variant == "boxed", variant == "large-number")
  }

  /** The counters of any countdown value: none negative, hours below 24, minutes and seconds below 60. */
  predicate InRange(t: TimeUntil)
  {
    t.days >= 0 && 0 <= t.hours < 24 && 0 <= t.minutes < 60 && 0 <= t.seconds < 60
  }

  lemma CountdownInRange(dateString: string, timeString: string, calendar: Calendar, now: int)
    ensures InRange(GetTimeUntil(dateString, timeString, calendar, now))
  {
    var t := GetTimeUntil(dateString, timeString, calendar, now);
    if !t.isPlaceholder && !t.isPast {
      var instant := EventInstant(dateString, timeString, calendar).value;
      assert instant > now;
    }
  }

  /**
   * Every unit shown (see CountdownDisplay) for a countdown in range is all digits, at least two of them, and
   * reads back as its counter; hours, minutes and seconds are exactly two digits.
   */
  lemma UnitsReadBack(t: TimeUntil)
    requires InRange(t)
    ensures forall k :: 0 <= k < 4 ==>
      var digits := Padded(Values(t)[k]);
      |digits| >= 2 && AllDigits(digits) && ParseDigits(digits) == Values(t)[k]
      && (k > 0 ==> |digits| == 2)
  {
    forall k | 0 <= k < 4
      ensures var digits := Padded(Values(t)[k]);
        |digits| >= 2 && AllDigits(digits) && ParseDigits(digits) == Values(t)[k]
        && (k > 0 ==> |digits| == 2)
    {
      PaddedNatReadsBack(Values(t)[k]);
    }
  }

  lemma PaddedNatReadsBack(n: nat)
    ensures |Padded(n)| >= 2 && AllDigits(Padded(n)) && ParseDigits(Padded(n)) == n
    ensures n < 100 ==> |Padded(n)| == 2
  {
    PaddedReadsBack(n);
  }

  /**
   * The mounted countdown block. `timeLeft` is its state; `timerArmed` says whether the
   * one-second interval is running.
   */
  class CountdownTimer {
    const calendar: Calendar
    const isPreview: bool
    var date: string
    var time: string
    var timeLeft: TimeUntil
    var timerArmed: bool
    var mounted: bool

    /** The interval runs exactly while mounted, outside the preview, with a real event instant. */
    predicate Valid()
      reads this
    {
      && timeLeft.isPlaceholder == EventInstant(date, time, calendar).None?
      && (timerArmed <==> mounted && !isPreview && !timeLeft.isPlaceholder)
    }

    /** Mounting: the state starts as the countdown at `now`, and the timer is armed when it may run. */
    constructor(date: string, time: string, isPreview: bool, calendar: Calendar, now: int)
      ensures this.date == date && this.time == time
      ensures this.isPreview == isPreview && this.calendar == calendar
      ensures timeLeft == GetTimeUntil(date, time, calendar, now)
      ensures mounted
      ensures timerArmed <==> !isPreview && EventInstant(date, time, calendar).Some?
      ensures Valid()
    {
      this.calendar := calendar;
      this.isPreview := isPreview;
      this.date := date;
      this.time := time;
      timeLeft := GetTimeUntil(date, time, calendar, now);
      mounted := true;
      timerArmed := !isPreview && !GetTimeUntil(date, time, calendar, now).isPlaceholder;
    }

    /** One interval tick at `now`: the state is recomputed and the timer keeps running. */
    method Tick(now: int)
      requires Valid() && timerArmed
      modifies this
      ensures timeLeft == GetTimeUntil(date, time, calendar, now)
      ensures date == old(date) && time == old(time) && mounted && timerArmed
      ensures Valid()
    {
      PlaceholderIgnoresClock(date, time, calendar, now, now);
      timeLeft := GetTimeUntil(date, time, calendar, now);
    }

    /** The date or the time changed: the state is recomputed and the timer re-armed or cleared. */
    method ChangeData(newDate: string, newTime: string, now: int)
      requires Valid() && mounted
      modifies this
      ensures date == newDate && time == newTime && mounted
      ensures timeLeft == GetTimeUntil(newDate, newTime, calendar, now)
      ensures timerArmed <==> !isPreview && EventInstant(newDate, newTime, calendar).Some?
      ensures Valid()
    {
      date := newDate;
      time := newTime;
      timeLeft := GetTimeUntil(newDate, newTime, calendar, now);
      timerArmed := !isPreview && !timeLeft.isPlaceholder;
    }

    /** Unmounting clears the interval. */
    method Unmount()
      requires Valid()
      modifies this
      ensures !mounted && !timerArmed
      ensures date == old(date) && time == old(time) && timeLeft == old(timeLeft)
      ensures Valid()
    {
      mounted := false;
      timerArmed := false;
    }
  }
}
