// The classic template: an envelope to open, then the whole invitation laid out
// in one page, with its own countdown and answer form.

module ClassicElegant {
  import opened Wrappers
  import opened Text
  import opened Types
  import opened Utils
  import HeroBlock
  import DetailsBlock
  import CountdownBlock
  import ProgramBlock
  import RSVPBlock

  // ----- Sections -----

  /** The hero heading: the first name, then "и" and the second name when there is one. */
  function HeroNames(names: EventNames): (parts: seq<string>)
    ensures !Truthy(names.person2) ==> parts == [names.person1]
    ensures Truthy(names.person2) ==> parts == [names.person1, "и", names.person2.value]
  {
    if Truthy(names.person2) then [names.person1, "и", names.person2.value] else [names.person1]
  }

  /** The four corners: drawn always, whatever the theme's corner-ornament setting says. */
  function Corners(theme: ThemeConfig): (corners: seq<HeroBlock.Corner>)
    ensures corners == HeroBlock.AllCorners
  {
    HeroBlock.AllCorners
  }

  /** Where the template and the hero block disagree: without corner ornaments the block draws none. */
  lemma CornersIgnoreTheme(data: EventData, theme: ThemeConfig, variant: string, isPreview: bool,
                           longDate: DateFormatter)
    requires !theme.decoration.cornerOrnaments
    ensures |Corners(theme)| == 4
    ensures |HeroBlock.Hero(data, theme, variant, isPreview, longDate).corners| == 0
  {
  }

  const DefaultGreetingKz := "Біздің өмірімізде ұмытылмас сәт орын алғалы отыр. Бақытымызды бөлісуге сізді шақырамыз!"
  const DefaultGreetingRu := "В нашей жизни наступает незабываемый момент. Мы будем рады разделить наше счастье вместе с вами!"

  datatype GreetingSection = GreetingSection(guestLine: Option<string>, kazakh: string, russian: string)

  /** The greeting: an address line only for a named guest, then always both languages, each with its default. */
  function Greeting(data: EventData, guestName: Option<string>): (g: GreetingSection)
    ensures g.guestLine.Some? <==> Truthy(guestName)
    ensures g.guestLine.Some? ==> g.guestLine.value == "Құрметті " + guestName.value
    ensures g.kazakh == OrElse(data.greetingKz, DefaultGreetingKz)
    ensures g.russian == OrElse(data.greetingRu, DefaultGreetingRu)
  {
    GreetingSection(if Truthy(guestName) then Some("Құрметті " + guestName.value) else None,
                    OrElse(data.greetingKz, DefaultGreetingKz), OrElse(data.greetingRu, DefaultGreetingRu))
  }

  const DefaultTime := "18:00"
  const DefaultVenueName := "Ресторан"
  const DefaultAddress := "Адрес уточняется"

  /**
   * The detail cards: date, time and place, then the dress code only when it is written.
   * The date is formatted as it is (the formatter supplies its own "no date" text), the time
   * falls back to 18:00, the place to a restaurant whose address is still to come.
   */
  function DetailCards(data: EventData, longDate: DateFormatter): (cards: seq<DetailsBlock.DetailCard>)
    ensures |cards| == (if Truthy(data.dressCode) then 4 else 3)
    ensures cards[0].caption == "Дата" && cards[1].caption == "Время" && cards[2].caption == "Место"
    ensures cards[0].value == FormatDate(data.date, longDate)
    ensures cards[0].sub.Some? <==> Truthy(data.gatheringTime)
    ensures cards[0].sub.Some? ==> cards[0].sub.value == "Сбор гостей в " + data.gatheringTime.value
    ensures cards[1].value == "Начало в " + OrDefault(data.time, DefaultTime)
    ensures cards[2].value == (if data.venue.Some? then OrDefault(data.venue.value.name, DefaultVenueName) else DefaultVenueName)
    ensures cards[2].sub == Some(if data.venue.Some? then OrDefault(data.venue.value.address, DefaultAddress) else DefaultAddress)
    ensures |cards| == 4 ==> cards[3] == DetailsBlock.DetailCard("Дресс-код", data.dressCode.value, None)
  {
    var venueName := if data.venue.Some? then OrDefault(data.venue.value.name, DefaultVenueName) else DefaultVenueName;
    var address := if data.venue.Some? then OrDefault(data.venue.value.address, DefaultAddress) else DefaultAddress;
    var cards := [
      DetailsBlock.DetailCard("Дата", FormatDate(data.date, longDate),
        if Truthy(data.gatheringTime) then Some("Сбор гостей в " + data.gatheringTime.value) else None),
      DetailsBlock.DetailCard("Время", "Начало в " + OrDefault(data.time, DefaultTime), None),
      DetailsBlock.DetailCard("Место", venueName, Some(address))];
    if Truthy(data.dressCode) then cards + [DetailsBlock.DetailCard("Дресс-код", data.dressCode.value, None)] else cards
  }

  /** Without a time, the template shows its 18:00 default where the details block says the time is not given. */
  lemma MissingTimeDiffers(data: EventData, longDate: DateFormatter)
    requires data.time == ""
    ensures DetailCards(data, longDate)[1].value == "Начало в 18:00"
    ensures DetailsBlock.DetailCards(data, longDate)[1].value == DetailsBlock.NotGiven
  {
  }

  /**
   * The countdown digits: days unpadded, hours, minutes and seconds padded to two.
   * There is no separate view for a past event: it shows four zero counters.
   */
  function CountdownDigits(t: TimeUntil): (digits: seq<string>)
    ensures |digits| == 4
    ensures digits[0] == IntToString(t.days)
    ensures digits[1] == CountdownBlock.Padded(t.hours)
    ensures digits[2] == CountdownBlock.Padded(t.minutes)
    ensures digits[3] == CountdownBlock.Padded(t.seconds)
  {
    [IntToString(t.days), CountdownBlock.Padded(t.hours),
     CountdownBlock.Padded(t.minutes), CountdownBlock.Padded(t.seconds)]
  }

  /**
   * Every counter the template shows reads back as its value; the days are as short as
   * their value allows, so a single-digit day count is one character, unlike the block's.
   */
  lemma DigitsReadBack(t: TimeUntil)
    requires CountdownBlock.InRange(t)
    ensures AllDigits(CountdownDigits(t)[0]) && ParseDigits(CountdownDigits(t)[0]) == t.days
    ensures t.days < 10 ==> |CountdownDigits(t)[0]| == 1
    ensures AllDigits(CountdownDigits(t)[1]) && |CountdownDigits(t)[1]| == 2 && ParseDigits(CountdownDigits(t)[1]) == t.hours
    ensures AllDigits(CountdownDigits(t)[2]) && |CountdownDigits(t)[2]| == 2 && ParseDigits(CountdownDigits(t)[2]) == t.minutes
    ensures AllDigits(CountdownDigits(t)[3]) && |CountdownDigits(t)[3]| == 2 && ParseDigits(CountdownDigits(t)[3]) == t.seconds
  {
    assert CountdownDigits(t)[0] == NatToString(t.days);
    ParseNatToString(t.days);
    CountdownBlock.PaddedNatReadsBack(t.hours);
    CountdownBlock.PaddedNatReadsBack(t.minutes);
    CountdownBlock.PaddedNatReadsBack(t.seconds);
  }

  /**
   * Where the template and the countdown block disagree about a past event: the block shows
   * its closing message, the template a single-digit zero day count and three "00" counters.
   */
  lemma PastEventDiffers(variant: string)
    ensures CountdownBlock.CountdownDisplay(PastResult, variant).EventPassed?
    ensures CountdownDigits(PastResult) == ["0", "00", "00", "00"]
  {
    assert NatToString(0) == "0";
    assert CountdownBlock.Padded(0) == "00";
  }

  /** The programme section, present only for a non-empty programme. */
  function ProgramSection(data: EventData): (rows: Option<seq<ProgramBlock.ProgramRow>>)
    ensures rows.Some? <==> data.program.Some? && |data.program.value| > 0
    ensures rows.Some? ==> rows.value == ProgramBlock.Rows(data.program.value)
  {
    if data.program.Some? && |data.program.value| > 0 then Some(ProgramBlock.Rows(data.program.value)) else None
  }

  datatype LocationSection = LocationSection(name: string, address: string, mapFrame: Option<string>, routeLink: string)

  /**
   * The location section, present only when there is a venue: its name and address as they
   * are, the map frame only for a map link, and a route link to the map link or else to a
   * Google Maps search for the address (`encode` escapes it for a query).
   */
  function Location(data: EventData, encode: string -> string): (s: Option<LocationSection>)
    ensures s.Some? <==> data.venue.Some?
    ensures s.Some? ==> s.value.name == data.venue.value.name && s.value.address == data.venue.value.address
    ensures s.Some? ==> (s.value.mapFrame.Some? <==> data.venue.value.mapUrl != "")
    ensures s.Some? && data.venue.value.mapUrl != "" ==>
      s.value.mapFrame == Some(data.venue.value.mapUrl) && s.value.routeLink == data.venue.value.mapUrl
    ensures s.Some? && data.venue.value.mapUrl == "" ==>
      s.value.routeLink == "https://maps.google.com/?q=" + encode(data.venue.value.address)
  {
    match data.venue
    case None => None
    case Some(v) =>
      Some(LocationSection(v.name, v.address, if v.mapUrl != "" then Some(v.mapUrl) else None,
                           if v.mapUrl != "" then v.mapUrl else "https://maps.google.com/?q=" + encode(v.address)))
  }

  /** The answer deadline line, only for a non-empty deadline. */
  function DeadlineLine(data: EventData, longDate: DateFormatter): (r: Option<string>)
    ensures r.Some? <==> Truthy(data.rsvpDeadline)
    ensures r.Some? ==> r.value == "Пожалуйста, подтвердите ваше присутствие до " + FormatDate(data.rsvpDeadline.value, longDate)
  {
    if Truthy(data.rsvpDeadline)
    then Some("Пожалуйста, подтвердите ваше присутствие до " + FormatDate(data.rsvpDeadline.value, longDate))
    else None
  }

  datatype FooterSection = FooterSection(names: string, date: string, hashtag: Option<string>)

  /** The footer: both names joined by " & ", the date, and the hashtag whenever one is written. */
  function Footer(data: EventData, longDate: DateFormatter): (f: FooterSection)
    ensures f.names == HeroBlock.CombinedNames(data.names)
    ensures f.date == FormatDate(data.date, longDate)
    ensures f.hashtag.Some? <==> Truthy(data.hashtag)
    ensures f.hashtag.Some? ==> f.hashtag.value == data.hashtag.value
  {
    FooterSection(HeroBlock.CombinedNames(data.names), FormatDate(data.date, longDate),
                  if Truthy(data.hashtag) then Some(data.hashtag.value) else None)
  }

  /** With two names, the hero separates them by "и" while the footer joins them by " & ". */
  lemma NameSeparatorsDiffer(data: EventData, longDate: DateFormatter)
    requires Truthy(data.names.person2)
    ensures HeroNames(data.names)[1] == "и"
    ensures Footer(data, longDate).names == data.names.person1 + " & " + data.names.person2.value
  {
  }

  // ----- The page's state -----

  datatype RsvpPhase = FormPhase | SuccessPhase | DeclinedPhase

  const SuccessTitle := "Рахмет! Спасибо!"
  const DeclinedTitle := "Жаль, что не сможете"

  /** The title shown after an answer, by outcome. */
  function PhaseTitle(phase: RsvpPhase): (r: Option<string>)
    ensures r.None? <==> phase == FormPhase
    ensures phase == SuccessPhase ==> r == Some(SuccessTitle)
    ensures phase == DeclinedPhase ==> r == Some(DeclinedTitle)
  {
    match phase
    case FormPhase => None
    case SuccessPhase => Some(SuccessTitle)
    case DeclinedPhase => Some(DeclinedTitle)
  }

  class ClassicElegantPage {
    const date: string
    const time: string
    const calendar: Calendar
    const hasHandler: bool
    var showIntro: bool
    var countdown: TimeUntil
    var timerArmed: bool
    var rsvpPhase: RsvpPhase
    var rsvpName: string
    var rsvpCount: int
    var rsvpWishes: string

    /** The timer runs exactly while the countdown is not a placeholder: there is no preview check. */
    predicate Valid()
      reads this
    {
      && countdown.isPlaceholder == EventInstant(date, time, calendar).None?
      && (timerArmed <==> !countdown.isPlaceholder)
      && rsvpCount in RSVPBlock.GuestCountChoices
    }

    constructor(date: string, time: string, guestName: Option<string>, hasHandler: bool,
                calendar: Calendar, now: int)
      ensures this.date == date && this.time == time && this.calendar == calendar
      ensures this.hasHandler == hasHandler
      ensures showIntro
      ensures countdown == GetTimeUntil(date, time, calendar, now)
      ensures timerArmed <==> EventInstant(date, time, calendar).Some?
      ensures rsvpPhase == FormPhase && rsvpName == OrElse(guestName, "") && rsvpCount == 2 && rsvpWishes == ""
      ensures Valid()
    {
      this.date := date;
      this.time := time;
      this.calendar := calendar;
      this.hasHandler := hasHandler;
      showIntro := true;
      countdown := GetTimeUntil(date, time, calendar, now);
      timerArmed := !GetTimeUntil(date, time, calendar, now).isPlaceholder;
      rsvpPhase := FormPhase;
      rsvpName := OrElse(guestName, "");
      rsvpCount := 2;
      rsvpWishes := "";
    }

    /** A click on the envelope opens it; nothing closes it again. */
    method OpenEnvelope()
      requires Valid()
      modifies this
      ensures !showIntro
      ensures countdown == old(countdown) && timerArmed == old(timerArmed)
      ensures rsvpPhase == old(rsvpPhase) && rsvpName == old(rsvpName)
      ensures rsvpCount == old(rsvpCount) && rsvpWishes == old(rsvpWishes)
      ensures Valid()
    {
      showIntro := false;
    }

    /** One timer tick at `now`. */
    method Tick(now: int)
      requires Valid() && timerArmed
      modifies this
      ensures countdown == GetTimeUntil(date, time, calendar, now) && timerArmed
      ensures showIntro == old(showIntro) && rsvpPhase == old(rsvpPhase)
      ensures rsvpName == old(rsvpName) && rsvpCount == old(rsvpCount) && rsvpWishes == old(rsvpWishes)
      ensures Valid()
    {
      PlaceholderIgnoresClock(date, time, calendar, now, now);
      countdown := GetTimeUntil(date, time, calendar, now);
    }

    /** The form's three fields. */
    method EditForm(name: string, count: int, wishes: string)
      requires Valid() && rsvpPhase == FormPhase && count in RSVPBlock.GuestCountChoices
      modifies this
      ensures rsvpName == name && rsvpCount == count && rsvpWishes == wishes
      ensures showIntro == old(showIntro) && countdown == old(countdown) && timerArmed == old(timerArmed)
      ensures rsvpPhase == FormPhase
      ensures Valid()
    {
      rsvpName := name;
      rsvpCount := count;
      rsvpWishes := wishes;
    }

    /**
     * An answer from the form. The handler, when present, is awaited with the count and the
     * wishes (not the name); if it fails the failure propagates (`threw`) and the form stays.
     * Otherwise the page moves to the success or the declined view for good.
     */
    method HandleRSVP(choice: RSVPStatus, handlerOk: bool) returns (threw: bool)
      requires Valid() && rsvpPhase == FormPhase && choice != Pending
      modifies this
      ensures threw <==> hasHandler && !handlerOk
      ensures threw ==> rsvpPhase == FormPhase
      ensures !threw ==> rsvpPhase == (if choice == Confirmed then SuccessPhase else DeclinedPhase)
      ensures showIntro == old(showIntro) && countdown == old(countdown) && timerArmed == old(timerArmed)
      ensures rsvpName == old(rsvpName) && rsvpCount == old(rsvpCount) && rsvpWishes == old(rsvpWishes)
      ensures Valid()
    {
      if hasHandler && !handlerOk {
        return true;
      }
      rsvpPhase := if choice == Confirmed then SuccessPhase else DeclinedPhase;
      threw := false;
    }
  }
}
