/**
 * The shared data model of the invitation builder (src/types/index.ts):
 * events and their typed data, block configurations, themes, guests, and
 * the two constant tables, the block-variant registry and the event-type labels.
 */
module Types {
  import opened Wrappers
  import opened Document

  datatype EventType = Wedding | Sundet | Tusau | Birthday | Jubilee | Corporate
  datatype EventStatus = Draft | Published | Archived
  datatype RSVPStatus = Pending | Confirmed | Declined
  datatype BlockType =
    | Hero | Intro | Greeting | Details | Countdown | Program | Location
    | Gallery | Rsvp | Story | Wishes | DressCode | BabyInfo | Footer

  const AllEventTypes: seq<EventType> := [Wedding, Sundet, Tusau, Birthday, Jubilee, Corporate]
  const AllRSVPStatuses: seq<RSVPStatus> := [Pending, Confirmed, Declined]
  const AllBlockTypes: seq<BlockType> :=
    [Hero, Intro, Greeting, Details, Countdown, Program, Location,
     Gallery, Rsvp, Story, Wishes, DressCode, BabyInfo, Footer]

  predicate Distinct<T(==)>(xs: seq<T>)
  {
    forall i, j :: 0 <= i < j < |xs| ==> xs[i] != xs[j]
  }

  /** The wire name of a block type. */
  function BlockTypeName(t: BlockType): string
  {
    match t
    case Hero => "hero"
    case Intro => "intro"
    case Greeting => "greeting"
    case Details => "details"
    case Countdown => "countdown"
    case Program => "program"
    case Location => "location"
    case Gallery => "gallery"
    case Rsvp => "rsvp"
    case Story => "story"
    case Wishes => "wishes"
    case DressCode => "dresscode"
    case BabyInfo => "baby-info"
    case Footer => "footer"
  }

  function RSVPStatusName(s: RSVPStatus): string
  {
    match s
    case Pending => "pending"
    case Confirmed => "confirmed"
    case Declined => "declined"
  }

  /** The position of a block type in the union's declaration. */
  function BlockTypeIndex(t: BlockType): nat
  {
    match t
    case Hero => 0 case Intro => 1 case Greeting => 2 case Details => 3
    case Countdown => 4 case Program => 5 case Location => 6 case Gallery => 7
    case Rsvp => 8 case Story => 9 case Wishes => 10 case DressCode => 11
    case BabyInfo => 12 case Footer => 13
  }

  /** The block-type union has exactly fourteen members, 'intro' among them, each with its own name. */
  lemma BlockTypesEnumerated()
    ensures |AllBlockTypes| == 14 && Distinct(AllBlockTypes)
    ensures forall t: BlockType :: t in AllBlockTypes
    ensures Intro in AllBlockTypes
    ensures forall i, j :: 0 <= i < j < |AllBlockTypes| ==>
      BlockTypeName(AllBlockTypes[i]) != BlockTypeName(AllBlockTypes[j])
  {
    forall t: BlockType ensures t in AllBlockTypes {
      assert AllBlockTypes[BlockTypeIndex(t)] == t;
    }
  }

  /** Different block types have different wire names. */
  lemma BlockTypeNameInjective(s: BlockType, t: BlockType)
    requires s != t
    ensures BlockTypeName(s) != BlockTypeName(t)
  {
    BlockTypesEnumerated();
    var i, j := BlockTypeIndex(s), BlockTypeIndex(t);
    assert AllBlockTypes[i] == s && AllBlockTypes[j] == t;
    if i < j {
      assert BlockTypeName(AllBlockTypes[i]) != BlockTypeName(AllBlockTypes[j]);
    } else {
      assert BlockTypeName(AllBlockTypes[j]) != BlockTypeName(AllBlockTypes[i]);
    }
  }

  /** The RSVP status union is exactly pending, confirmed and declined. */
  lemma RSVPStatusesEnumerated()
    ensures |AllRSVPStatuses| == 3 && Distinct(AllRSVPStatuses)
    ensures forall s: RSVPStatus :: s in AllRSVPStatuses
    ensures forall s: RSVPStatus :: RSVPStatusName(s) in {"pending", "confirmed", "declined"}
  {
    forall s: RSVPStatus ensures s in AllRSVPStatuses {
      assert AllRSVPStatuses[if s.Pending? then 0 else if s.Confirmed? then 1 else 2] == s;
    }
  }

  // ----- Event data -----

  /** JavaScript truthiness of an optional string: present and not empty. */
  predicate Truthy(o: Option<string>)
  {
    o.Some? && o.value != ""
  }

  /** `o || fallback` for an optional string. */
  function OrElse(o: Option<string>, fallback: string): (r: string)
    ensures Truthy(o) ==> r == o.value
    ensures !Truthy(o) ==> r == fallback
  {
    if Truthy(o) then o.value else fallback
  }

  /** `s || fallback` for a required string. */
  function OrDefault(s: string, fallback: string): (r: string)
    ensures s != "" ==> r == s
    ensures s == "" ==> r == fallback
  {
    if s != "" then s else fallback
  }

  /** `person1` is required, `person2` optional. */
  datatype EventNames = EventNames(person1: string, person2: Option<string>)

  /** `lat` and `lng` are JavaScript numbers; 0 is falsy. */
  datatype Venue = Venue(name: string, address: string, lat: real, lng: real,
                         mapUrl: string, twoGisId: Option<string>)

  datatype ProgramItem = ProgramItem(time: string, title: string, desc: Option<string>)

  datatype EventPhotos = EventPhotos(hero: Option<string>, gallery: Option<seq<string>>)

  /**
   * The typed event data. `venue` is declared required, but every renderer
   * guards it as possibly missing, so it is optional here.
   */
  datatype EventData = EventData(
    names: EventNames,
    date: string,
    time: string,
    gatheringTime: Option<string>,
    venue: Option<Venue>,
    greetingKz: Option<string>,
    greetingRu: Option<string>,
    dressCode: Option<string>,
    hashtag: Option<string>,
    rsvpDeadline: Option<string>,
    program: Option<seq<ProgramItem>>,
    photos: Option<EventPhotos>)

  datatype BlockConfig = BlockConfig(blockType: BlockType, variant: string, enabled: bool, order: int)

  datatype EventThemeRef = EventThemeRef(id: string, customColors: map<string, string>)

  /** An event as the editor holds it: its data is the untyped document the store edits by path. */
  datatype Event = Event(id: string, userId: string, slug: string, status: EventStatus,
                         eventType: EventType, data: Json, theme: EventThemeRef,
                         blocks: seq<BlockConfig>)

  datatype Guest = Guest(id: string, eventId: string, name: string, slug: string,
                         personalLink: string, rsvpStatus: RSVPStatus, guestCount: int,
                         wishes: Option<string>, tableNumber: Option<int>)

  datatype RSVPStats = RSVPStats(confirmed: int, declined: int, pending: int, totalGuests: int)

  // ----- Themes -----

  datatype ThemeColors = ThemeColors(primary: string, secondary: string, accent: string,
                                     accentLight: string, text: string, textMuted: string)

  const ColorKeys: seq<string> := ["primary", "secondary", "accent", "accentLight", "text", "textMuted"]

  /** Reading a colour by key, as `colors[key]`; None for a key that is not one of the six. */
  function ColorOf(c: ThemeColors, key: string): Option<string>
  {
    if key == "primary" then Some(c.primary)
    else if key == "secondary" then Some(c.secondary)
    else if key == "accent" then Some(c.accent)
    else if key == "accentLight" then Some(c.accentLight)
    else if key == "text" then Some(c.text)
    else if key == "textMuted" then Some(c.textMuted)
    else None
  }

  /** Assigning a colour by key, as `colors[key] = value`, for one of the six keys. */
  function WithColor(c: ThemeColors, key: string, value: string): (r: ThemeColors)
    requires key in ColorKeys
    ensures ColorOf(r, key) == Some(value)
    ensures forall k :: k != key ==> ColorOf(r, k) == ColorOf(c, k)
  {
    if key == "primary" then c.(primary := value)
    else if key == "secondary" then c.(secondary := value)
    else if key == "accent" then c.(accent := value)
    else if key == "accentLight" then c.(accentLight := value)
    else if key == "text" then c.(text := value)
    else c.(textMuted := value)
  }

  /** `ThemeColors` has exactly six keys: a key reads a colour if and only if it is one of them. */
  lemma ColorKeysExact(c: ThemeColors)
    ensures |ColorKeys| == 6 && Distinct(ColorKeys)
    ensures forall k :: ColorOf(c, k).Some? <==> k in ColorKeys
  {
  }

  datatype ThemeFonts = ThemeFonts(heading: string, body: string, headingWeight: string, bodyWeight: string)

  datatype DividerStyle = DiamondDivider | LineDivider | DotsDivider | NoDivider
  datatype BorderStyle = DoubleBorder | SingleBorder | NoBorder
  datatype CardStyle = Bordered | Shadow | Flat
  datatype ButtonStyle = Sharp | Rounded
  datatype AnimationSpeed = Smooth | Snappy | NoAnimation

  datatype ThemeDecoration = ThemeDecoration(cornerOrnaments: bool, dividerStyle: DividerStyle,
                                             borderStyle: BorderStyle, cardStyle: CardStyle,
                                             buttonStyle: ButtonStyle, animationSpeed: AnimationSpeed)

  datatype ThemeAssets = ThemeAssets(cornerSvg: Option<string>, dividerSvg: Option<string>,
                                     patternBg: Option<string>)

  datatype ThemeConfig = ThemeConfig(colors: ThemeColors, fonts: ThemeFonts,
                                     decoration: ThemeDecoration, assets: ThemeAssets)

  datatype Tier = Free | Standard | Premium

  datatype Theme = Theme(id: string, slug: string, name: string, description: string,
                         previewUrl: string, tier: Tier, supportedEventTypes: seq<EventType>,
                         config: ThemeConfig)

  datatype PublicEventResponse = PublicEventResponse(id: string, slug: string, eventType: EventType,
                                                     data: EventData, theme: ThemeConfig,
                                                     blocks: seq<BlockConfig>)

  // ----- Constant tables -----

  datatype VariantOption = VariantOption(value: string, caption: string)

  /** `BLOCK_VARIANTS`: the variants the editor offers for each block type. */
  function BlockVariants(t: BlockType): seq<VariantOption>
  {
    match t
    case Hero => [VariantOption("fullscreen-text", "Текст на весь экран"),
                  VariantOption("photo-bg", "Фото на фоне"),
                  VariantOption("split-screen", "Разделённый")]
    case Intro => [VariantOption("envelope", "Конверт"),
                   VariantOption("swipe-up", "Свайп вверх"),
                   VariantOption("none", "Без заставки")]
    case Greeting => [VariantOption("bilingual", "Двуязычное"),
                      VariantOption("single-lang", "Одноязычное"),
                      VariantOption("with-photo", "С фото")]
    case Details => [VariantOption("cards", "Карточки"),
                     VariantOption("list", "Список"),
                     VariantOption("icon-grid", "Иконки в сетке")]
    case Countdown => [VariantOption("minimal", "Минимальный"),
                       VariantOption("boxed", "В рамках"),
                       VariantOption("large-number", "Крупные числа")]
    case Program => [VariantOption("timeline", "Таймлайн"),
                     VariantOption("cards", "Карточки"),
                     VariantOption("horizontal", "Горизонтальный")]
    case Location => [VariantOption("map-with-button", "Карта + кнопка"),
                      VariantOption("address-only", "Только адрес")]
    case Gallery => [VariantOption("grid", "Сетка"),
                     VariantOption("carousel", "Карусель"),
                     VariantOption("masonry", "Masonry")]
    case Rsvp => [VariantOption("full-form", "Полная форма"),
                  VariantOption("simple-buttons", "Приду / Не приду")]
    case Story => [VariantOption("timeline", "Таймлайн"),
                   VariantOption("slides", "Слайды")]
    case Wishes => [VariantOption("open-text", "Свободный текст"),
                    VariantOption("gift-registry", "Реестр подарков")]
    case DressCode => [VariantOption("visual-palette", "Цветовая палитра"),
                       VariantOption("text-only", "Текст")]
    case BabyInfo => [VariantOption("photo-stats", "Фото + данные"),
                      VariantOption("milestone", "Milestone")]
    case Footer => [VariantOption("minimal", "Минимальный"),
                    VariantOption("with-hashtag", "С хэштегом")]
  }

  /** The variant values offered for a block type, in registry order. */
  function VariantValues(t: BlockType): (vs: seq<string>)
    ensures |vs| == |BlockVariants(t)|
    ensures forall i :: 0 <= i < |vs| ==> vs[i] == BlockVariants(t)[i].value
  {
    seq(|BlockVariants(t)|, i requires 0 <= i < |BlockVariants(t)| => BlockVariants(t)[i].value)
  }

  /** Every block type has two or three variants, and no value repeats within one type. */
  lemma BlockVariantsWellFormed(t: BlockType)
    ensures 2 <= |BlockVariants(t)| <= 3
    ensures Distinct(VariantValues(t))
  {
  }

  /** `EVENT_TYPE_LABELS`: the label and emoji of each event type. */
  function EventTypeLabel(e: EventType): (string, string)
  {
    match e
    case Wedding => ("Свадьба", "💒")
    case Sundet => ("Сүндет той", "👶")
    case Tusau => ("Тұсау кесу", "🎀")
    case Birthday => ("День рождения", "🎂")
    case Jubilee => ("Юбилей", "🎉")
    case Corporate => ("Корпоратив", "🏢")
  }

  /** The label table covers all six event types, and no two share a label. */
  lemma EventTypeLabelsCover()
    ensures |AllEventTypes| == 6 && Distinct(AllEventTypes)
    ensures forall e: EventType :: e in AllEventTypes
    ensures forall i, j :: 0 <= i < j < |AllEventTypes| ==>
      EventTypeLabel(AllEventTypes[i]).0 != EventTypeLabel(AllEventTypes[j]).0
  {
    forall e: EventType ensures e in AllEventTypes {
      var i := match e
        case Wedding => 0 case Sundet => 1 case Tusau => 2
        case Birthday => 3 case Jubilee => 4 case Corporate => 5;
      assert AllEventTypes[i] == e;
    }
  }
}
