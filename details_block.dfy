// The details block: a card each for the date, the time and the place, and
// one for the dress code when there is one.

module DetailsBlock {
  import opened Wrappers
  import opened Text
  import opened Types
  import opened Utils

  /** One card: its caption, its main value and an optional muted line under it. */
  datatype DetailCard = DetailCard(caption: string, value: string, sub: Option<string>)

  const NoDate := "Не указана"
  const NotGiven := "Не указано"

  /**
   * The card list. Date, time and place always come first, in that order, each with its
   * fallback; the dress-code card is appended last exactly when a dress code is written.
   * A sub-line is shown only when it is present and non-empty.
   */
  function DetailCards(data: EventData, longDate: DateFormatter): (cards: seq<DetailCard>)
    ensures |cards| == (if Truthy(data.dressCode) then 4 else 3)
    ensures cards[0].caption == "Дата" && cards[1].caption == "Время" && cards[2].caption == "Место"
    ensures cards[0].value == (if data.date == "" then NoDate else FormatDate(data.date, longDate))
    ensures cards[0].sub.None?
    ensures cards[1].value == OrDefault(data.time, NotGiven)
    ensures Truthy(cards[1].sub) <==> Truthy(data.gatheringTime)
    ensures Truthy(data.gatheringTime) ==> cards[1].sub.value == "Сбор гостей: " + data.gatheringTime.value
    ensures cards[2].value == (if data.venue.Some? then OrDefault(data.venue.value.name, NotGiven) else NotGiven)
    ensures Truthy(cards[2].sub) <==> data.venue.Some? && data.venue.value.address != ""
    ensures Truthy(cards[2].sub) ==> cards[2].sub.value == data.venue.value.address
    ensures |cards| == 4 ==> cards[3] == DetailCard("Дресс-код", data.dressCode.value, None)
  {
    var dateCard := DetailCard("Дата", if data.date != "" then FormatDate(data.date, longDate) else NoDate, None);
    var timeCard := DetailCard("Время", OrDefault(data.time, NotGiven),
                               if Truthy(data.gatheringTime) then Some("Сбор гостей: " + data.gatheringTime.value) else None);
    var placeCard :=
      match data.venue
      case None => DetailCard("Место", NotGiven, None)
      case Some(venue) => DetailCard("Место", OrDefault(venue.name, NotGiven), Some(venue.address));
    var cards := [dateCard, timeCard, placeCard];
    if Truthy(data.dressCode) then cards + [DetailCard("Дресс-код", data.dressCode.value, None)] else cards
  }

  /** The card class for each card style. */
  function CardClass(style: CardStyle): string
  {
    match style
    case Bordered => "border-2"
    case Shadow => "shadow-lg"
    case Flat => ""
  }

  /** A card's border colour: the faded accent, set only when the card class mentions a border. */
  function CardBorderColor(style: CardStyle, accent: string): (r: Option<string>)
    ensures r.Some? <==> Contains(CardClass(style), "border")
    ensures r.Some? ==> r.value == accent + "30"
  {
    if Contains(CardClass(style), "border") then Some(accent + "30") else None
  }

  /** Only bordered cards get a border colour: "shadow-lg" and "" do not mention a border. */
  lemma BorderOnlyWhenBordered(style: CardStyle, accent: string)
    ensures CardBorderColor(style, accent).Some? <==> style == Bordered
  {
    match style
    case Bordered =>
      assert StartsWith("border-2", "border");
    case Shadow =>
      NoBorderIn("shadow-lg");
    case Flat =>
      NoBorderIn("");
  }

  /** A text with no 'b' in it cannot contain "border". */
  lemma {:induction false} NoBorderIn(s: string)
    requires forall i :: 0 <= i < |s| ==> s[i] != 'b'
    ensures !Contains(s, "border")
    decreases |s|
  {
    if |s| > 0 {
      NoBorderIn(s[1..]);
    }
    if |s| >= |"border"| {
      assert s[..|"border"|][0] == s[0] != 'b';
    }
  }
}
