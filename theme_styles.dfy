/**
 * The theme-to-style mapping of the invitation pages
 * (src/hooks/use-theme-styles.ts): CSS custom properties from a theme
 * configuration, and the Google Fonts stylesheet links for its fonts.
 */
module ThemeStyles {
  import opened Wrappers
  import opened Text
  import opened Types

  /** `--border-radius`: rounded buttons get 0.5rem, sharp ones none. */
  function BorderRadius(style: ButtonStyle): (r: string)
    ensures r == "0.5rem" <==> style == Rounded
    ensures r == "0" <==> style != Rounded
  {
    if style == Rounded then "0.5rem" else "0"
  }

  /** `--animation-duration`: 0.5s for smooth, 0.2s for snappy, 0s otherwise. */
  function AnimationDuration(speed: AnimationSpeed): (r: string)
    ensures speed.Smooth? <==> r == "0.5s"
    ensures speed.Snappy? <==> r == "0.2s"
    ensures speed.NoAnimation? <==> r == "0s"
  {
    assert |"0s"| != |"0.5s"| && |"0s"| != |"0.2s"| && "0.5s"[2] != "0.2s"[2];
    match speed
    case Smooth => "0.5s"
    case Snappy => "0.2s"
    case NoAnimation => "0s"
  }

  /** The custom property that carries each of the six theme colours. */
  function ColorVariable(key: string): string
  {
    if key == "primary" then "--color-primary"
    else if key == "secondary" then "--color-secondary"
    else if key == "accent" then "--color-accent"
    else if key == "accentLight" then "--color-accent-light"
    else if key == "text" then "--color-text"
    else "--color-text-muted"
  }

  const FontVariables: set<string> :=
    {"--font-heading", "--font-body", "--font-heading-weight", "--font-body-weight"}

  const StyleVariables: set<string> :=
    {"--color-primary", "--color-secondary", "--color-accent", "--color-accent-light",
     "--color-text", "--color-text-muted"} + FontVariables + {"--border-radius", "--animation-duration"}

  /**
   * `styles`: nothing without a theme; otherwise the twelve custom properties,
   * colours and fonts copied as they are.
   */
  function Styles(theme: Option<ThemeConfig>): (r: map<string, string>)
    ensures theme.None? ==> r == map[]
    ensures theme.Some? ==> r.Keys == StyleVariables
    ensures theme.Some? ==> forall k :: k in ColorKeys ==> Some(r[ColorVariable(k)]) == ColorOf(theme.value.colors, k)
    ensures theme.Some? ==>
      var f := theme.value.fonts;
      && r["--font-heading"] == f.heading && r["--font-body"] == f.body
      && r["--font-heading-weight"] == f.headingWeight && r["--font-body-weight"] == f.bodyWeight
    ensures theme.Some? ==> r["--border-radius"] == BorderRadius(theme.value.decoration.buttonStyle)
    ensures theme.Some? ==> r["--animation-duration"] == AnimationDuration(theme.value.decoration.animationSpeed)
  {
    match theme
    case None => map[]
    case Some(t) =>
      map[
        "--color-primary" := t.colors.primary,
        "--color-secondary" := t.colors.secondary,
        "--color-accent" := t.colors.accent,
        "--color-accent-light" := t.colors.accentLight,
        "--color-text" := t.colors.text,
        "--color-text-muted" := t.colors.textMuted,
        "--font-heading" := t.fonts.heading,
        "--font-body" := t.fonts.body,
        "--font-heading-weight" := t.fonts.headingWeight,
        "--font-body-weight" := t.fonts.bodyWeight,
        "--border-radius" := BorderRadius(t.decoration.buttonStyle),
        "--animation-duration" := AnimationDuration(t.decoration.animationSpeed)]
  }

  /** `arr.filter((f, i) => arr.indexOf(f) === i)`: each value at its first occurrence only. */
  function FirstOccurrences(xs: seq<string>): (r: seq<string>)
    ensures forall i, j :: 0 <= i < j < |r| ==> r[i] != r[j]
    ensures forall x :: x in r <==> x in xs
    decreases |xs|
  {
    if |xs| == 0 then []
    else
      var init := xs[..|xs| - 1];
      var prev := FirstOccurrences(init);
      assert xs == init + [xs[|xs| - 1]];
      if xs[|xs| - 1] in init then prev else prev + [xs[|xs| - 1]]
  }

  lemma FirstOccurrencesPair(a: string, b: string)
    ensures FirstOccurrences([a, b]) == if a == b then [a] else [a, b]
  {
    assert [a, b][..1] == [a];
    assert [a][..0] == [];
    assert FirstOccurrences([a]) == [a];
  }

  /** The font families to load: nothing without a theme, else heading then body, the body left out when it is the same font. */
  function FontFamilies(theme: Option<ThemeConfig>): (r: seq<string>)
    ensures theme.None? ==> r == []
    ensures theme.Some? && theme.value.fonts.heading == theme.value.fonts.body ==> r == [theme.value.fonts.heading]
    ensures theme.Some? && theme.value.fonts.heading != theme.value.fonts.body ==>
      r == [theme.value.fonts.heading, theme.value.fonts.body]
  {
    match theme
    case None => []
    case Some(t) =>
      FirstOccurrencesPair(t.fonts.heading, t.fonts.body);
      FirstOccurrences([t.fonts.heading, t.fonts.body])
  }

  const FontLinkPrefix := "https://fonts.googleapis.com/css2?family="
  const FontLinkSuffix := ":wght@400;500;600;700&display=swap"

  /** One stylesheet link: the fixed prefix, the font name with every space as '+', the fixed suffix. */
  function FontLink(font: string): (r: string)
    ensures StartsWith(r, FontLinkPrefix)
    ensures |r| == |FontLinkPrefix| + |font| + |FontLinkSuffix|
    ensures r[|FontLinkPrefix|..|FontLinkPrefix| + |font|] == ReplaceAll(font, ' ', '+')
    ensures r[|FontLinkPrefix| + |font|..] == FontLinkSuffix
  {
    var r := FontLinkPrefix + ReplaceAll(font, ' ', '+') + FontLinkSuffix;
    assert r[..|FontLinkPrefix|] == FontLinkPrefix;
    r
  }

  /** A font name without '+' is read back from its link by turning every '+' into a space. */
  lemma FontNameReadsBack(font: string)
    requires '+' !in font
    ensures var l := FontLink(font); ReplaceAll(l[|FontLinkPrefix|..|FontLinkPrefix| + |font|], '+', ' ') == font
  {
    var encoded := ReplaceAll(font, ' ', '+');
    var back := ReplaceAll(encoded, '+', ' ');
    assert forall i :: 0 <= i < |font| ==> back[i] == font[i];
  }

  /** `fontLinks`: one link per font family, in the same order. */
  function FontLinks(theme: Option<ThemeConfig>): (r: seq<string>)
    ensures |r| == |FontFamilies(theme)|
    ensures forall i :: 0 <= i < |r| ==> r[i] == FontLink(FontFamilies(theme)[i])
    ensures theme.None? ==> r == []
  {
    var fonts := FontFamilies(theme);
    seq(|fonts|, i requires 0 <= i < |fonts| => FontLink(fonts[i]))
  }
}
