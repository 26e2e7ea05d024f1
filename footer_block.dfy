// The footer block: an optional hashtag, the closing line and the credit link.

module FooterBlock {
  import opened Wrappers
  import opened Types
  import opened Utils

  const HashtagVariant := "with-hashtag"
  const ClosingLine := "Күтеміз!"

  datatype FooterView = FooterView(hashtag: Option<string>, closing: string, creditLink: string)

  /**
   * What the footer shows. The hashtag appears exactly for the hashtag variant with a
   * non-empty hashtag; the closing line and the link to the site always appear.
   */
  function Footer(data: EventData, theme: ThemeConfig, variant: string, isPreview: bool): (v: FooterView)
    ensures v.hashtag.Some? <==> variant == HashtagVariant && Truthy(data.hashtag)
    ensures v.hashtag.Some? ==> v.hashtag.value == data.hashtag.value
    ensures v.closing == ClosingLine
    ensures v.creditLink == SiteUrl
  {
    FooterView(
      if variant == HashtagVariant && Truthy(data.hashtag) then Some(data.hashtag.value) else None,
      ClosingLine,
      SiteUrl)
  }

  /** The couple's names are worked out in the footer but never shown: changing them changes nothing. */
  lemma FooterIgnoresNames(data: EventData, names: EventNames, theme: ThemeConfig, variant: string, isPreview: bool)
    ensures Footer(data.(names := names), theme, variant, isPreview) == Footer(data, theme, variant, isPreview)
  {
  }
}
