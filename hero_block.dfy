// The opening block of an invitation: the couple's names, the date and time,
// the corner ornaments and the scroll indicator.

module HeroBlock {
  import opened Wrappers
  import opened Types
  import opened Utils

  /** The four corner ornaments, in the order they are drawn. */
  datatype Corner = TopLeft | TopRight | BottomLeft | BottomRight

  const AllCorners: seq<Corner> := [TopLeft, TopRight, BottomLeft, BottomRight]

  datatype HeroView = HeroView(
    background: string,
    heading: string,
    dateLine: string,
    timeLine: Option<string>,
    corners: seq<Corner>,
    scrollIndicator: bool)

  /** The heading: the first name alone, or both names joined by " & " when the second is given. */
  function CombinedNames(names: EventNames): (r: string)
    ensures !Truthy(names.person2) ==> r == names.person1
    ensures Truthy(names.person2) ==> r == names.person1 + " & " + names.person2.value
  {
    if Truthy(names.person2) then names.person1 + " & " + names.person2.value else names.person1
  }

  /**
   * What the hero block shows. `variant` is accepted like every block's and
   * never consulted.
   */
  function Hero(data: EventData, theme: ThemeConfig, variant: string, isPreview: bool,
                longDate: DateFormatter): (v: HeroView)
    ensures v.heading == CombinedNames(data.names)
    ensures data.date == "" ==> v.dateLine == ""
    ensures data.date != "" ==> v.dateLine == FormatDate(data.date, longDate)
    ensures |v.corners| == (if theme.decoration.cornerOrnaments then 4 else 0)
    ensures Distinct(v.corners)
    ensures v.timeLine.Some? <==> data.time != ""
    ensures v.timeLine.Some? ==> v.timeLine.value == data.time
    ensures v.scrollIndicator <==> !isPreview
    ensures v.background == theme.colors.primary
  {
    HeroView(
      theme.colors.primary,
      CombinedNames(data.names),
      if data.date != "" then FormatDate(data.date, longDate) else "",
      if data.time != "" then Some(data.time) else None,
      if theme.decoration.cornerOrnaments then AllCorners else [],
      !isPreview)
  }

  /** The hero's date line never shows the "no date" text for an empty date: it stays blank instead. */
  lemma HeroBlankDateStaysBlank(data: EventData, theme: ThemeConfig, variant: string, isPreview: bool,
                                longDate: DateFormatter)
    requires data.date == ""
    ensures Hero(data, theme, variant, isPreview, longDate).dateLine != FormatDate(data.date, longDate)
  {
    assert FormatDate(data.date, longDate) == NoDateText;
    assert |NoDateText| > 0;
  }
}
