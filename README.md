# Shaq invitation builder — a Dafny model of its decision logic

Shaq builds online invitations (weddings, anniversaries, birthdays) out of a
list of typed blocks: hero, greeting, details, countdown, program, location,
gallery, RSVP and footer. It also has an envelope intro. The editor keeps the
event, its theme and its block list in a store. A live preview renders the
blocks, and a guest page renders them for one invited guest.

This project models that pipeline without the pixels. It covers:

- the countdown arithmetic and the date, time and link formatters;
- the editor store as a class: deep dot-path update of the event document,
  block reordering, toggling and variant choice, the enabled-block view
  (filter and stable sort), the theme colour merge, and save and publish;
- the theme-to-CSS-variable map and the deduplicated font links;
- every block renderer, as a function from event data and theme to a view
  value, and the dispatch between them;
- the template registry and the ClassicElegant template, with its own intro,
  countdown and RSVP state;
- the guest page, the editor preview and the blocks panel;
- the image uploaders, the guests panel, the AI-preview flag store and the
  scroll-reveal hook.

Pure code is modelled with datatypes and functions. Code that updates state in
place becomes a class whose methods state the whole new state:

- the stores;
- the RSVP widget;
- the countdown timer;
- the ClassicElegant page;
- the guest-page intro gate;
- the guests panel;
- the scroll-reveal element.

The loops of the source keep their form as methods with loop invariants:

- the deep set walks the path one level at a time;
- the gallery upload examines files one by one.

Things outside the program are parameters:

- the clock, as epoch milliseconds;
- the calendar conversion behind `new Date(y, m-1, d, h, mi)`;
- `toLocaleDateString`;
- `encodeURIComponent`;
- `URL.createObjectURL`;
- the number formatting of coordinates;
- the outcome of every API call, as a success flag.

Modules follow the source files:

| source | module |
|---|---|
| `src/types/index.ts` | `Types` |
| `src/lib/utils.ts` | `Utils` |
| `src/stores/editor-store.ts` | `EditorStore`, plus `EditorBlocks` for the block-list operations and `Document` for `setNestedValue` |
| `src/stores/ai-design-store.ts` | `AIDesignStore` |
| `src/hooks/use-theme-styles.ts` | `ThemeStyles` |
| `src/hooks/use-scroll-animation.ts` | `ScrollAnimation` |
| one module per block, template and editor panel | named after the component |

`Wrappers` (Option) and `Text` (digits, split, join, trim) are shared helpers.

JavaScript truthiness is made explicit:

- An optional string field is `Option<string>`. It is "set" when it is present
  and non-empty (`Types.Truthy`).
- A coordinate is "set" when it is non-zero.

## Model

| member | source | states |
|---|---|---|
| Types.BlockTypesEnumerated | src/types/index.ts:4 | There are exactly fourteen block types, `intro` among them, with pairwise distinct wire names. |
| Types.RSVPStatusesEnumerated | src/types/index.ts:3 | An RSVP status is exactly one of pending, confirmed and declined. |
| Types.WithColor | src/types/index.ts:113-120 | Writing one of the six colour keys changes that colour and no other. |
| Types.ColorKeysExact | src/types/index.ts:113-120 | A theme has exactly six colour keys, and no other key names a colour. |
| Types.VariantValues | src/types/index.ts:176-240 | These are the values of a block type's registered variants, in registry order. |
| Types.BlockVariantsWellFormed | src/types/index.ts:176-240 | Every block type has two or three variants, with pairwise distinct values. |
| Types.EventTypeLabelsCover | src/types/index.ts:242-249 | The event-type labels cover all six event types, with distinct Russian labels. |
| Utils.DateParts | src/lib/utils.ts:85-88 | A date is accepted if and only if it splits on '-' into exactly three numeric parts; the empty date is never accepted. |
| Utils.TimeParts | src/lib/utils.ts:91-96 | An empty time, or one with fewer than two ':'-parts, means 12:00. Otherwise the time is accepted if and only if hours and minutes are numeric, and their values are read back. |
| Utils.Decompose | src/lib/utils.ts:110-115 | A positive difference splits into days, hours below 24, and minutes and seconds below 60, which add back up to the whole seconds of the difference. |
| Utils.DecomposeRecomposes | src/lib/utils.ts:110-115 | The day, hour, minute and second quotients recompose to diff div 1000, and each remainder is in range. |
| Utils.GetTimeUntil | src/lib/utils.ts:79-116 | The result is the placeholder if and only if the date, the time or the calendar conversion fails. It is past, with all counters zero, if and only if the instant is not after now. Otherwise it holds the in-range decomposition of the remaining seconds. It is never both past and placeholder. |
| Utils.PlaceholderIgnoresClock | src/lib/utils.ts:80-101 | Whether the placeholder is shown does not depend on the clock. |
| Utils.CountdownNonIncreasing | src/lib/utils.ts:98-115 | As the clock advances, the remaining seconds never grow, and a past event stays past. |
| Utils.TickTakesOneSecond | src/lib/utils.ts:110-115 | While more than a second remains, one second later the countdown shows exactly one second less. |
| Utils.FormatDate | src/lib/utils.ts:26-37 | An empty or unparseable date gives "Дата не указана"; otherwise the result is the long localized date. |
| Utils.FormatRsvpDeadline | src/lib/utils.ts:40-50 | There is no deadline text for an unset date; otherwise the result is the day-and-month formatter's result. |
| Utils.FormatTime | src/lib/utils.ts:52-55 | An unset time gives ""; otherwise the time is returned unchanged. |
| Utils.CeilDiv | src/lib/utils.ts:66-67 | The result is the ceiling of the quotient: the least q with a <= q*b. |
| Utils.GetDaysUntil | src/lib/utils.ts:57-68 | An empty or invalid date gives 90. Otherwise the result is the number of whole days, rounded up, between today's midnight and the date's. |
| Utils.PersonalUrl | src/lib/utils.ts:118-124 | The guest link is the site address followed by the personal path. |
| Utils.WhatsAppMessage | src/lib/utils.ts:118-124 | The message opens with the "Құрметті {name}!" greeting and ends with the guest's personal link. |
| Utils.GenerateWhatsAppLink | src/lib/utils.ts:118-124 | The link is the wa.me prefix followed by the encoded message. |
| Document.IndexMap | src/stores/editor-store.ts:43 | An array seen as an object has exactly the keys "0".."n-1", each bound to its element. |
| Document.SetPathKeepsOthers | src/stores/editor-store.ts:37-49 | A deep set gives an object that keeps every other top-level key of the copied input and adds the path's first key. |
| Document.SetNestedValue | src/stores/editor-store.ts:37-49 | The for-loop that copies each level and assigns the last key computes exactly the recursive deep set. |
| Document.AssignIsSet | src/stores/editor-store.ts:43-48 | Assigning at the end of a walked path equals deep-setting the extended path. |
| Document.CopyOnPathKeepsSet | src/stores/editor-store.ts:41-45 | Replacing a level on the path with a shallow copy of itself does not change the final result of the deep set. |
| Document.SetThenGet | src/stores/editor-store.ts:37-49 | After a deep set, reading the same path gives the value set. |
| Document.SetKeepsOtherPaths | src/stores/editor-store.ts:37-49 | A deep set leaves every path that branches off elsewhere unchanged. |
| Document.TwoLevelUpdate | src/stores/editor-store.ts:117-126 | Setting "outer.inner" stores the value at that path and keeps every other top-level field. |
| EditorBlocks.RemoveAt | src/stores/editor-store.ts:167 | `splice(i, 1)` drops exactly element i and shifts the rest down by one. |
| EditorBlocks.InsertAt | src/stores/editor-store.ts:168 | `splice(i, 0, x)` puts x at i and shifts the rest up by one. |
| EditorBlocks.Move | src/stores/editor-store.ts:166-169 | Splicing the block at from out and in again at to puts it at to, keeps the others in their relative order, and permutes the list. |
| EditorBlocks.InsertThenRemove | src/stores/editor-store.ts:166-169 | Removing what was just inserted at the same index gives back the list. |
| EditorBlocks.RemoveInsertSameMultiset | src/stores/editor-store.ts:166-169 | The splice pair keeps the same multiset of blocks. |
| EditorBlocks.MoveBack | src/stores/editor-store.ts:166-169 | Moving from to to and then back restores the list. |
| EditorBlocks.Renumber | src/stores/editor-store.ts:170-174 | Every block's order becomes its index, and nothing else changes. |
| EditorBlocks.Reorder | src/stores/editor-store.ts:162-180 | The block taken from from ends at to, the others keep their relative order, and every order field equals the new index. |
| EditorBlocks.Toggle | src/stores/editor-store.ts:182-193 | Only block i changes, and only its enabled flag, which is flipped. |
| EditorBlocks.ToggleTwice | src/stores/editor-store.ts:182-193 | Toggling the same block twice restores the list. |
| EditorBlocks.SetVariant | src/stores/editor-store.ts:195-206 | Only block i changes, and only its variant, which takes the given value unchecked. |
| EditorBlocks.FilterEnabled | src/stores/editor-store.ts:271 | The filter keeps only enabled blocks of the input. |
| EditorBlocks.InsertByOrder | src/stores/editor-store.ts:272 | Inserting into a list sorted by order keeps it sorted and adds exactly that block. |
| EditorBlocks.InsertByOrderStable | src/stores/editor-store.ts:272 | Insertion puts a block ahead of those with an equal order, so the sort, which inserts from the head of the list, keeps equal-order blocks in input order. |
| EditorBlocks.SortByOrder | src/stores/editor-store.ts:272 | The sort result is sorted by order and is a permutation of its input. |
| EditorBlocks.SortByOrderStable | src/stores/editor-store.ts:272 | Blocks with equal order keep their input order through the sort. |
| EditorBlocks.EnabledBlocks | src/stores/editor-store.ts:268-274 | The view holds exactly the enabled blocks, ascending by order, with ties in input order. |
| EditorBlocks.FilterEnabledExact | src/stores/editor-store.ts:271 | A block is in the filtered list if and only if it is an enabled block of the input. |
| EditorBlocks.SortKeepsIncreasing | src/stores/editor-store.ts:272 | A list already strictly increasing in order is left as it is by the sort. |
| EditorBlocks.FilterKeepsIncreasing | src/stores/editor-store.ts:271 | Filtering keeps strictly increasing order. |
| EditorBlocks.EnabledAfterReorderIsFiltered | src/stores/editor-store.ts:162-180 | After a reorder the enabled view needs no sorting: it equals the plain filter. |
| EditorStore.FindThemeIndex | src/stores/editor-store.ts:69 | The index found is the first theme with that slug, and None means no theme has it. |
| EditorStore.FindTheme | src/stores/editor-store.ts:69 | A theme is found if and only if one has the slug, and it carries that slug. |
| EditorStore.MergeColors | src/stores/editor-store.ts:72-79 | Each colour key present in the overrides takes the override, every other colour comes from the base, and keys that are not colours are ignored. |
| EditorStore.MergeTheme | src/stores/editor-store.ts:69-81 | The merged theme has the base's fonts, decoration and assets, and its colours are the base colours under the overrides. |
| EditorStore.MergeNothing | src/stores/editor-store.ts:72-79 | Merging no overrides leaves the theme as it is. |
| EditorStore.MergeOneMore | src/stores/editor-store.ts:145-160 | One more colour override equals writing that colour into the merged theme; a non-colour key changes nothing. |
| EditorStore.ResolveTheme | src/stores/editor-store.ts:69-81 | The event's theme resolves if and only if its id is set and found, to the found theme merged with the event's overrides; the cached themes are left unchanged (corrected behaviour). |
| EditorStore.ResolveThemeAsWritten | src/stores/editor-store.ts:72-79 | As written, the same resolved theme is returned, but the cached theme found is left holding the merged config, because the colour object is shared. |
| EditorStore.FindIndexUnchangedPrefix | src/stores/editor-store.ts:69 | A lookup still finds the same index when only entries at or after it change. |
| EditorStore.SelectedConfig | src/stores/editor-store.ts:132-141 | A theme's config is selected if and only if the slug is found. |
| EditorStore.AsWrittenReselectShowsOldColours | src/stores/editor-store.ts:128-143 | As written, choosing the event's own theme again after loading shows the old custom colours. |
| EditorStore.ReselectShowsThemeColours | src/stores/editor-store.ts:128-143 | With the corrected merge, choosing the theme again shows the theme's own colours. |
| EditorStore.AsWrittenCounterexample | src/stores/editor-store.ts:72-79 | Concrete input: theme "classic" with primary #111111 and an event override of primary #ff0000. After loading, reselecting shows #ff0000 where #111111 was intended. |
| EditorStore.ChosenThemeFollows | src/stores/editor-store.ts:128-143 | Choosing a listed theme, resetting the overrides and showing that theme's config keeps the current theme equal to the event's resolved theme. |
| EditorStore.Recoloured | src/stores/editor-store.ts:145-160 | After a colour update the current theme differs from the old one in the written colour only; fonts, decoration and assets stay. |
| EditorStore.RecolouredFollows | src/stores/editor-store.ts:145-160 | Writing one override into both the event and the current theme keeps the current theme equal to the event's resolved theme. |
| EditorStore.Store.EnabledBlocksView | src/stores/editor-store.ts:268-274 | With no event the view is empty. Otherwise it holds exactly the event's enabled blocks, sorted by order, with ties in input order. |
| EditorStore.Store.constructor | src/stores/editor-store.ts:51-60 | The store starts empty, not dirty, saving or loading, in the mobile preview and on the data tab. |
| EditorStore.Store.LoadEvent | src/stores/editor-store.ts:62-89 | A fetched event becomes the clean current event, with its theme resolved against the loaded themes by the corrected merge (see Findings), so the theme list is left as it was. A failed fetch rethrows and changes only the loading flag. |
| EditorStore.Store.LoadThemes | src/stores/editor-store.ts:91-115 | The fetched themes replace the list. The current theme is re-resolved, by the corrected merge (see Findings), only when the event's theme is among them; a failed fetch changes nothing. |
| EditorStore.Store.UpdateData | src/stores/editor-store.ts:117-126 | With no event nothing changes. Otherwise the event data gets the deep set at the dot-path, the value can be read back there, and the store is dirty. |
| EditorStore.Store.ChangeTheme | src/stores/editor-store.ts:128-143 | An unknown slug or a missing event changes nothing. Otherwise the theme ref becomes the slug with empty overrides, the current theme becomes that theme's config, and the store is dirty. |
| EditorStore.Store.UpdateCustomColor | src/stores/editor-store.ts:145-160 | The key is written into the event's overrides without a membership check. The current theme changes only that colour, and the store is dirty. |
| EditorStore.Store.ReorderBlocks | src/stores/editor-store.ts:162-180 | The event's blocks become the reordered list and the store is dirty; nothing else changes. |
| EditorStore.Store.ToggleBlock | src/stores/editor-store.ts:182-193 | The event's blocks become the toggled list and the store is dirty; nothing else changes. |
| EditorStore.Store.SetBlockVariant | src/stores/editor-store.ts:195-206 | Block i's variant is set and the store is dirty; nothing else changes. |
| EditorStore.Store.SelectBlock | src/stores/editor-store.ts:208-210 | Only the selected index changes. |
| EditorStore.Store.SetPreviewMode | src/stores/editor-store.ts:212-214 | Only the preview mode changes. |
| EditorStore.Store.SetActivePanel | src/stores/editor-store.ts:216-218 | Only the active panel changes. |
| EditorStore.Store.SaveEvent | src/stores/editor-store.ts:220-238 | With an event, the dirty flag clears only on success, a failure rethrows, and saving ends either way; with no event nothing changes. |
| EditorStore.Store.PublishEvent | src/stores/editor-store.ts:240-256 | A dirty event is saved first, and if that save fails publish is never called. A successful publish replaces the event with the server's copy; a failed one rethrows. |
| AIDesignStore.AIDesign.constructor | src/stores/ai-design-store.ts:12-13 | The store starts with no HTML and the flag off. |
| AIDesignStore.AIDesign.SetCurrentHtml | src/stores/ai-design-store.ts:15-17 | The HTML is stored, and the flag is on if and only if it is non-empty. |
| AIDesignStore.AIDesign.SetAIPreviewMode | src/stores/ai-design-store.ts:19-21 | Only the flag changes. |
| AIDesignStore.AIDesign.Clear | src/stores/ai-design-store.ts:23-25 | The store returns to no HTML and the flag off. |
| ThemeStyles.BorderRadius | src/hooks/use-theme-styles.ts:12 | The radius is 0.5rem if and only if the buttons are rounded, and 0 otherwise. |
| ThemeStyles.AnimationDuration | src/hooks/use-theme-styles.ts:13-14 | The duration is 0.5s for smooth, 0.2s for snappy and 0s otherwise, each if and only if. |
| ThemeStyles.Styles | src/hooks/use-theme-styles.ts:7-31 | No theme gives no variables. A theme gives exactly twelve variables: the six colour and four font fields copied verbatim, plus the radius and duration above. |
| ThemeStyles.FirstOccurrences | src/hooks/use-theme-styles.ts:35-37 | Deduplication keeps exactly the same names, each once. |
| ThemeStyles.FirstOccurrencesPair | src/hooks/use-theme-styles.ts:35-37 | Deduplicating two names gives one name when they are equal and both otherwise. |
| ThemeStyles.FontFamilies | src/hooks/use-theme-styles.ts:33-37 | No theme gives no fonts. Otherwise the list is [heading] when heading equals body and [heading, body] otherwise. |
| ThemeStyles.FontLink | src/hooks/use-theme-styles.ts:39-42 | A link is the fixed prefix, then the font name with spaces replaced by '+', then the fixed suffix. |
| ThemeStyles.FontNameReadsBack | src/hooks/use-theme-styles.ts:39-42 | For a name without '+', turning '+' back into spaces recovers the font name from its link. |
| ThemeStyles.FontLinks | src/hooks/use-theme-styles.ts:33-42 | There is one link per deduplicated font, in order; no theme gives no links. |
| BlockRenderer.Render | src/components/blocks/BlockRenderer.tsx:23-61 | Each of the nine built types gets its own renderer with the common props, and the handler goes to RSVP only. Intro renders nothing, and any other type renders the in-development notice. |
| BlockRenderer.UnbuiltTypes | src/components/blocks/BlockRenderer.tsx:32-59 | The types that fall to the notice are exactly "story", "wishes", "dresscode" and "baby-info" (their wire names). |
| BlockRenderer.NoticesDistinct | src/components/blocks/BlockRenderer.tsx:54-59 | The notice names the type: different types give different notices. |
| HeroBlock.CombinedNames | src/components/blocks/HeroBlock.tsx:14-16 | The heading is person1 alone when person2 is unset, and "person1 & person2" otherwise. |
| HeroBlock.Hero | src/components/blocks/HeroBlock.tsx:13-94 | The heading is the combined names, and the date line is empty when the date is. There are four distinct corners when ornaments are on and none otherwise. The time line shows if and only if a time is set. The scroll indicator shows if and only if outside preview. |
| HeroBlock.HeroBlankDateStaysBlank | src/components/blocks/HeroBlock.tsx:18 | A blank date shows an empty line, not the formatter's "no date" text. |
| GreetingBlock.TextsAppend | src/components/blocks/GreetingBlock.tsx:33-78 | The texts of joined paragraph lists are the joined texts. |
| GreetingBlock.Greeting | src/components/blocks/GreetingBlock.tsx:14-78 | The heading is the guest name or "Құрметті қонақ", followed by "!". Bilingual shows each set greeting, Kazakh first, with the divider if and only if both are set. Other variants show one paragraph, Russian, else Kazakh, else the default. The placeholder note comes last, if and only if both greetings are unset. |
| DetailsBlock.DetailCards | src/components/blocks/DetailsBlock.tsx:15-41 | The cards are Дата, Время, Место, with their fallbacks and sub-lines. A fourth Дресс-код card comes last if and only if a dress code is set. |
| DetailsBlock.CardBorderColor | src/components/blocks/DetailsBlock.tsx:73 | A border colour, the faded accent, is set if and only if the card class mentions "border". |
| DetailsBlock.BorderOnlyWhenBordered | src/components/blocks/DetailsBlock.tsx:43-73 | Only the bordered card style gets a border colour. |
| CountdownBlock.CountdownDisplay | src/components/blocks/CountdownBlock.tsx:33-107 | The past message shows if and only if the event is past and not a placeholder. Otherwise there are exactly four units, days, hours, minutes and seconds, each padded, with the box and large-number looks chosen by variant. |
| CountdownBlock.CountdownInRange | src/components/blocks/CountdownBlock.tsx:15 | Every value the countdown can show is in range: no negative days, hours below 24, minutes and seconds below 60. |
| CountdownBlock.UnitsReadBack | src/components/blocks/CountdownBlock.tsx:99 | Every unit shows at least two digits, which read back as its value. Hours, minutes and seconds show exactly two. |
| CountdownBlock.PaddedNatReadsBack | src/components/blocks/CountdownBlock.tsx:99 | Left-padding with '0' to two characters keeps the number's value. |
| CountdownBlock.CountdownTimer.constructor | src/components/blocks/CountdownBlock.tsx:15-26 | The first value is the countdown of the block's date and time. The timer is armed if and only if outside preview with a real event instant. |
| CountdownBlock.CountdownTimer.Tick | src/components/blocks/CountdownBlock.tsx:20-22 | A tick recomputes the countdown for the new instant. |
| CountdownBlock.CountdownTimer.ChangeData | src/components/blocks/CountdownBlock.tsx:17-31 | A new date or time recomputes the value and re-arms the timer under the same condition. |
| CountdownBlock.CountdownTimer.Unmount | src/components/blocks/CountdownBlock.tsx:24-25 | Teardown clears the timer and keeps the value. |
| ProgramBlock.Rows | src/components/blocks/ProgramBlock.tsx:64-98 | There is one row per item, in order, with its time and title; the description shows if and only if it is set. |
| ProgramBlock.Program | src/components/blocks/ProgramBlock.tsx:13-98 | A missing or empty program shows the empty state; otherwise there is one row per item as above. |
| LocationBlock.GoogleMapsTarget | src/components/blocks/LocationBlock.tsx:16-22 | The target is the map URL when set, else a lat,lng query when both coordinates are set, else nothing opens. |
| LocationBlock.TwoGisTargetOf | src/components/blocks/LocationBlock.tsx:24-30 | The target is the firm page when the 2GIS id is set, else a route given as lng,lat, else nothing. |
| LocationBlock.Location | src/components/blocks/LocationBlock.tsx:16-108 | The name falls back to "Место не указано", and the address line shows if and only if set. The map frame shows if and only if both coordinates are set outside preview. Both buttons are disabled exactly in preview. |
| LocationBlock.ZeroCoordinateIsMissing | src/components/blocks/LocationBlock.tsx:19-27 | A zero latitude or longitude counts as missing: without a URL or an id, neither button opens anything. |
| LocationBlock.ButtonsAgreeOnPlace | src/components/blocks/LocationBlock.tsx:16-30 | When both buttons fall back to coordinates, they point at the same place, with 2GIS swapping the order. |
| GalleryBlock.Images | src/components/blocks/GalleryBlock.tsx:57-68 | There is one image per URL, in order, with alt text "Фото n" counting from one. |
| GalleryBlock.Gallery | src/components/blocks/GalleryBlock.tsx:13-68 | An empty or missing photo list shows the empty state; otherwise there is one image per photo, in order. |
| GalleryBlock.AltTextsDistinct | src/components/blocks/GalleryBlock.tsx:64 | No two images of the grid share an alt text. |
| GalleryBlock.AltTextDiffers | src/components/blocks/GalleryBlock.tsx:64 | Different indices give different alt texts. |
| RSVPBlock.GuestWord | src/components/blocks/RSVPBlock.tsx:145 | The count word is гость for one, гостя below five, and гостей from five on. |
| RSVPBlock.DeadlineLine | src/components/blocks/RSVPBlock.tsx:94-101 | The deadline line shows if and only if a deadline is set, with its localized date. |
| RSVPBlock.RSVPWidget.constructor | src/components/blocks/RSVPBlock.tsx:17-21 | The form starts with no status, one guest, no wishes, and not submitted or submitting. |
| RSVPBlock.RSVPWidget.SetGuestCount | src/components/blocks/RSVPBlock.tsx:135 | Only the guest count changes, to one of the offered choices. |
| RSVPBlock.RSVPWidget.SetWishes | src/components/blocks/RSVPBlock.tsx:160 | Only the wishes change. |
| RSVPBlock.RSVPWidget.StartSubmit | src/components/blocks/RSVPBlock.tsx:23-28 | In preview nothing changes and no handler is called. Otherwise the status is set, submitting starts, and the handler is called if there is one. |
| RSVPBlock.RSVPWidget.Settle | src/components/blocks/RSVPBlock.tsx:29-38 | The form is submitted if and only if there is no handler or it resolved, and submitting ends either way. |
| RSVPBlock.RSVPWidget.ThankYou | src/components/blocks/RSVPBlock.tsx:45-75 | The thank-you view shows if and only if submitted: the coming message for a confirmed answer, the not-coming message for any other. |
| RSVPBlock.AnswerOnce | src/components/blocks/RSVPBlock.tsx:23-38 | One answer from a fresh form submits if and only if outside preview and the handler is absent or resolves. |
| FooterBlock.Footer | src/components/blocks/FooterBlock.tsx:24-73 | The hashtag shows if and only if the variant is with-hashtag and a hashtag is set. The closing line and the site link always show. |
| FooterBlock.FooterIgnoresNames | src/components/blocks/FooterBlock.tsx:14-16 | The combined names are never rendered: the footer does not depend on the names. |
| Templates.RenderTemplate | src/components/templates/index.tsx:31-33 | The lookup reads a plain object: a registered id renders its registry entry, an inherited `Object.prototype` name such as "toString" yields that inherited property (no fallback), any other id falls back to ClassicElegant, and the props pass unchanged. |
| Templates.RegistryCoversIds | src/components/templates/index.tsx:14-25 | The registry has exactly the nine distinct template ids as keys. |
| Templates.SameForEveryId | src/components/templates/index.tsx:14-33 | Every id that is not an inherited `Object.prototype` name, known or not, renders the same thing; an inherited name renders something other than the classic template. |
| Templates.InfoMatchesRegistry | src/components/templates/index.tsx:40-86 | The info table has an entry for exactly the registered ids. |
| ClassicElegant.HeroNames | src/components/templates/ClassicElegant/index.tsx:100-108 | The hero shows person1 alone, or person1, "и", person2 when person2 is set. |
| ClassicElegant.Corners | src/components/templates/ClassicElegant/index.tsx:91-96 | The four corners always render, whatever the theme says. |
| ClassicElegant.CornersIgnoreTheme | src/components/templates/ClassicElegant/index.tsx:91-96 | With ornaments off, the template still shows four corners where the hero block shows none. |
| ClassicElegant.Greeting | src/components/templates/ClassicElegant/index.tsx:126-133 | The "Құрметті {name}" line shows if and only if a guest name is set. Both greetings fall back to built-in texts. |
| ClassicElegant.DetailCards | src/components/templates/ClassicElegant/index.tsx:143-187 | The cards are date, time and place, plus dress code last if and only if set. Time falls back to 18:00, the venue to Ресторан and Адрес уточняется, and the gathering time is a sub-line of the date. |
| ClassicElegant.MissingTimeDiffers | src/components/templates/ClassicElegant/index.tsx:160 | With no time, the template says "Начало в 18:00" where the details block says "Не указано". |
| ClassicElegant.CountdownDigits | src/components/templates/ClassicElegant/index.tsx:199-212 | Days are unpadded; hours, minutes and seconds are padded to two. |
| ClassicElegant.DigitsReadBack | src/components/templates/ClassicElegant/index.tsx:199-212 | Every digit group reads back as its value; days below ten take one digit. |
| ClassicElegant.PastEventDiffers | src/components/templates/ClassicElegant/index.tsx:197-214 | For a past event the block shows its message, while the template shows zero counters. |
| ClassicElegant.ProgramSection | src/components/templates/ClassicElegant/index.tsx:219-240 | The program shows if and only if it is non-empty, with the block's rows. |
| ClassicElegant.Location | src/components/templates/ClassicElegant/index.tsx:243-278 | The section shows if and only if there is a venue. The frame shows if and only if a map URL is set. The route goes to the map URL, else to a Google Maps query on the encoded address. |
| ClassicElegant.DeadlineLine | src/components/templates/ClassicElegant/index.tsx:285-289 | The deadline line shows if and only if a deadline is set, with its long date. |
| ClassicElegant.Footer | src/components/templates/ClassicElegant/index.tsx:351-356 | The footer shows the combined names, the date, and the hashtag if and only if one is set. |
| ClassicElegant.NameSeparatorsDiffer | src/components/templates/ClassicElegant/index.tsx:50-108 | With two names, the hero joins them with "и" and the footer with " & ". |
| ClassicElegant.PhaseTitle | src/components/templates/ClassicElegant/index.tsx:339-344 | The form has no title; success and declined each have their own. |
| ClassicElegant.ClassicElegantPage.constructor | src/components/templates/ClassicElegant/index.tsx:16-32 | The page starts on the envelope with the RSVP form: the guest's name or "", two guests, no wishes. The timer is armed if and only if the countdown is real, with no preview check. |
| ClassicElegant.ClassicElegantPage.OpenEnvelope | src/components/templates/ClassicElegant/index.tsx:62-83 | Opening hides the envelope and changes nothing else. |
| ClassicElegant.ClassicElegantPage.Tick | src/components/templates/ClassicElegant/index.tsx:26-32 | A tick recomputes the countdown. |
| ClassicElegant.ClassicElegantPage.EditForm | src/components/templates/ClassicElegant/index.tsx:291-321 | Editing sets the name, count and wishes and stays on the form. |
| ClassicElegant.ClassicElegantPage.HandleRSVP | src/components/templates/ClassicElegant/index.tsx:54-59 | The handler throws if and only if it is present and fails, and the page then stays on the form. Otherwise it moves to success for coming and declined otherwise. |
| InvitationPage.HasIntro | src/components/invitation/InvitationPage.tsx:23 | There is an intro if and only if some enabled block has type intro. |
| InvitationPage.PageBlocks | src/components/invitation/InvitationPage.tsx:46 | The page shows exactly the enabled non-intro blocks. |
| InvitationPage.PageBlocksAreFilteredEnabled | src/components/invitation/InvitationPage.tsx:46 | The page list is the editor's enabled filter with intro dropped, in input order. |
| InvitationPage.PreviewMatchesPageAfterReorder | src/components/invitation/InvitationPage.tsx:46 | After an editor reorder the preview and the page show the same blocks in the same order. |
| InvitationPage.PageDoesNotSort | src/components/invitation/InvitationPage.tsx:46 | Concrete blocks whose orders disagree with their positions show the page keeps input order while the preview sorts. |
| InvitationPage.IntroGreeting | src/components/invitation/InvitationPage.tsx:70-81 | The envelope greeting "Құрметті {name}!" shows if and only if a guest name is set. |
| InvitationPage.RenderedBlocks | src/components/invitation/InvitationPage.tsx:143-152 | Each page block is rendered in order, outside preview, with the handler passed if and only if there is a guest slug. No rendered block is empty. |
| InvitationPage.HandleRSVP | src/components/invitation/InvitationPage.tsx:31-44 | The API is called if and only if both slugs are set, and it throws exactly when that call fails, with the matching toast in each case. |
| InvitationPage.AnswerThroughPage | src/components/invitation/InvitationPage.tsx:31-150 | For a guest, the answer is recorded if and only if the event slug is set and the API succeeds. Without the event slug the block still shows the thank-you. |
| InvitationPage.IntroGate.constructor | src/components/invitation/InvitationPage.tsx:23-29 | The envelope starts shown if and only if there is an intro. |
| InvitationPage.IntroGate.Open | src/components/invitation/InvitationPage.tsx:114-116 | Opening hides the envelope for good. |
| PreviewPanel.Preview | src/components/editor/PreviewPanel.tsx:13-86 | Without an event there is no frame, only the bare loading notice, and exactly then the result is None. The AI frame shows if and only if on the AI tab with HTML, and then there are no font links. Otherwise the theme's font links are emitted. A missing theme shows loading. The block view renders the enabled blocks in order as a preview, with the hint if and only if there are none. The mobile frame follows the mode. |
| PreviewPanel.PreviewHandsNoHandler | src/components/editor/PreviewPanel.tsx:61-69 | Preview blocks get no guest name and no RSVP handler and are marked as preview; the intro block, and only it, renders nothing. |
| BlocksPanel.SortableId | src/components/editor/BlocksPanel.tsx:45 | A sortable id starts with "block-". |
| BlocksPanel.SortableIdRoundTrip | src/components/editor/BlocksPanel.tsx:112-113 | Stripping the prefix and parsing gives back the index. |
| BlocksPanel.SortableIdInjective | src/components/editor/BlocksPanel.tsx:129 | Different indices get different ids. |
| BlocksPanel.DragEnd | src/components/editor/BlocksPanel.tsx:108-116 | A reorder is issued if and only if there is a drop target different from the dragged row, and from and to are the two indices. |
| BlocksPanel.SelectClick | src/components/editor/BlocksPanel.tsx:139 | Clicking selects the row, or deselects it if it was the selected one. |
| BlocksPanel.SelectClickTwice | src/components/editor/BlocksPanel.tsx:139 | Two clicks on an unselected row leave nothing selected. |
| BlocksPanel.BlockLabel | src/components/editor/BlocksPanel.tsx:12-27 | Every block type has a non-empty label. |
| BlocksPanel.RowLabel | src/components/editor/BlocksPanel.tsx:75 | The fallback to the raw type never applies: every row shows its label. |
| BlocksPanel.SelectedBlock | src/components/editor/BlocksPanel.tsx:118-119 | A block is selected if and only if the index is in range, and it is the block at that index. |
| BlocksPanel.VariantButtons | src/components/editor/BlocksPanel.tsx:148-165 | The buttons are the selected type's registered variants, in order, and a button is highlighted exactly when it is the current variant. |
| BlocksPanel.AtMostOneHighlighted | src/components/editor/BlocksPanel.tsx:158 | At most one variant button is highlighted. |
| ImageUploader.Settings | src/components/editor/ImageUploader.tsx:36 | With no value the settings are an empty URL, brightness 100 and overlay 0. |
| ImageUploader.HasImage | src/components/editor/ImageUploader.tsx:37 | There is an image if and only if a value with a non-empty URL is given. |
| ImageUploader.Fresh | src/components/editor/ImageUploader.tsx:77-81 | A new upload has the URL, brightness 100 and overlay 0. |
| ImageUploader.ProcessFile | src/components/editor/ImageUploader.tsx:57-89 | A non-image is rejected first and a file over the size limit next, each with its message. A failed object URL gives the upload error. The file is accepted if and only if none of these applies, with fresh settings. |
| ImageUploader.WithBrightness | src/components/editor/ImageUploader.tsx:118-121 | The brightness slider changes only the brightness. |
| ImageUploader.WithOverlay | src/components/editor/ImageUploader.tsx:123-126 | The overlay slider changes only the overlay. |
| ImageUploader.SlidersCommute | src/components/editor/ImageUploader.tsx:118-126 | The two sliders commute and together set exactly their two fields. |
| ImageUploader.Revoked | src/components/editor/ImageUploader.tsx:111-116 | A URL is revoked if and only if it is a blob URL. |
| ImageUploader.RemoveImage | src/components/editor/ImageUploader.tsx:111-116 | Removal clears the value and revokes the old URL exactly when it was a blob. |
| ImageUploader.CanAddMore | src/components/editor/ImageUploader.tsx:285 | More can be added if and only if the gallery is below its maximum. |
| ImageUploader.Examined | src/components/editor/ImageUploader.tsx:301-304 | The loop examines min(files, free slots) files, and none when there is no free slot. |
| ImageUploader.Admitted | src/components/editor/ImageUploader.tsx:304-314 | The accepted files are at most as many as those examined. |
| ImageUploader.AdmittedFailureSticks | src/components/editor/ImageUploader.tsx:304-314 | Once an object URL fails, the whole batch fails. |
| ImageUploader.AdmittedAreFresh | src/components/editor/ImageUploader.tsx:307-312 | Every accepted photo starts at brightness 100 and overlay 0. |
| ImageUploader.AdmissionAgreesWithProcessFile | src/components/editor/ImageUploader.tsx:61-83 | The gallery accepts a single file if and only if the single uploader does, with the same settings. |
| ImageUploader.ProcessFiles | src/components/editor/ImageUploader.tsx:297-325 | The new gallery is the old one followed by the accepted files in order, and the change fires if and only if some file is accepted. The limit error shows if and only if there were more files than free slots. A gallery within its limit stays within it. |
| ImageUploader.RemoveFromGallery | src/components/editor/ImageUploader.tsx:340-346 | Exactly the photo at the index is removed, the rest keep their order, and its URL is revoked if it was a blob. |
| ImageUploader.RemoveKeepsTheRest | src/components/editor/ImageUploader.tsx:340-346 | The remaining photos plus the removed one are the old gallery. |
| ImageUploader.Patched | src/components/editor/ImageUploader.tsx:348-352 | Each patched field takes the patch value when given and keeps the old one otherwise. |
| ImageUploader.UpdateImage | src/components/editor/ImageUploader.tsx:348-352 | Only the photo at the index changes, merged with the patch. |
| ImageUploader.UpdateIdempotent | src/components/editor/ImageUploader.tsx:348-352 | Applying the same patch twice is the same as once, and an empty patch changes nothing. |
| GuestsPanel.BulkNames | src/components/editor/GuestsPanel.tsx:55 | No parsed name is empty. |
| GuestsPanel.Kept | src/components/editor/GuestsPanel.tsx:55 | Trimming and dropping empty lines keeps at most as many lines, none of them empty. |
| GuestsPanel.BulkNamesFirstLine | src/components/editor/GuestsPanel.tsx:55 | The first line contributes its trimmed text, if any, ahead of the names of the rest: order is kept. |
| GuestsPanel.BulkNamesOneLine | src/components/editor/GuestsPanel.tsx:55 | A single line gives its trimmed text, or nothing if it is blank. |
| GuestsPanel.KeptNoneVisible | src/components/editor/GuestsPanel.tsx:55 | Blank lines give no names. |
| GuestsPanel.KeptSomeVisible | src/components/editor/GuestsPanel.tsx:55 | One non-blank line is enough to give a name. |
| GuestsPanel.BulkNamesEmptyIffBlank | src/components/editor/GuestsPanel.tsx:54-56 | The parsed list is empty if and only if the whole input is blank, so the second guard never fires after the first. |
| GuestsPanel.AddGuestRequest | src/components/editor/GuestsPanel.tsx:41-51 | A guest is sent if and only if there is an event and the name is not blank, and it is the trimmed name. |
| GuestsPanel.AddDisabled | src/components/editor/GuestsPanel.tsx:126 | The add button is disabled if and only if the name is blank. |
| GuestsPanel.BulkAddRequest | src/components/editor/GuestsPanel.tsx:53-67 | A bulk add is sent if and only if there is an event and the input is not blank, and it carries the parsed, non-empty name list. |
| GuestsPanel.Stats | src/components/editor/GuestsPanel.tsx:93 | With no dashboard all counts are zero; otherwise they are the dashboard's. |
| GuestsPanel.Guests | src/components/editor/GuestsPanel.tsx:94 | With no dashboard there are no guests. |
| GuestsPanel.StatusBadge | src/components/editor/GuestsPanel.tsx:153-161 | Confirmed maps to success and "Придёт", declined to error and "Не придёт", and pending to default and "Ожидает", each if and only if. |
| GuestsPanel.BadgesDistinguishAnswers | src/components/editor/GuestsPanel.tsx:153-161 | Different answers get different badges and texts. |
| GuestsPanel.ExtraGuests | src/components/editor/GuestsPanel.tsx:162-164 | A "+n" marker shows if and only if the guest brings more than one. |
| GuestsPanel.ExtraGuestsReadBack | src/components/editor/GuestsPanel.tsx:162-164 | The marker reads back as the count minus one. |
| GuestsPanel.Row | src/components/editor/GuestsPanel.tsx:145-170 | A row shows the guest's name, the badge for their answer and their extra-guest marker. |
| GuestsPanel.GuestList | src/components/editor/GuestsPanel.tsx:137-192 | The spinner shows exactly while loading and the empty text exactly when loaded without guests. Otherwise there is one row per guest, in order. |
| GuestsPanel.CopyLink | src/components/editor/GuestsPanel.tsx:80-84 | The copied link is the site address followed by the personal path. |
| GuestsPanel.ShareLink | src/components/editor/GuestsPanel.tsx:86-89 | Sharing opens the WhatsApp link for the guest's name and personal path. |
| GuestsPanel.Panel.constructor | src/components/editor/GuestsPanel.tsx:17-21 | The panel starts loading, with no dashboard, empty inputs and the modal closed. |
| GuestsPanel.Panel.LoadDashboard | src/components/editor/GuestsPanel.tsx:29-39 | With no event nothing happens. Otherwise loading ends, a fetched dashboard replaces the old one, and the error toast shows exactly when the fetch fails. |
| GuestsPanel.Panel.SetNewGuestName | src/components/editor/GuestsPanel.tsx:123 | Only the name input changes. |
| GuestsPanel.Panel.SetBulkNames | src/components/editor/GuestsPanel.tsx:200 | Only the bulk text changes. |
| GuestsPanel.Panel.SetBulkModal | src/components/editor/GuestsPanel.tsx:195-205 | Only the modal flag changes. |
| GuestsPanel.Panel.AddGuest | src/components/editor/GuestsPanel.tsx:41-51 | The request is the add-guest guard's, and the input clears only after the API succeeds. |
| GuestsPanel.Panel.BulkAdd | src/components/editor/GuestsPanel.tsx:53-67 | The request is the bulk guard's. The text clears and the modal closes only after the API succeeds; otherwise both stay. |
| ScrollAnimation.AnimationName | src/hooks/use-scroll-animation.ts:89-98 | Every animation class name is a single non-empty word. |
| ScrollAnimation.ScrollReveal.constructor | src/hooks/use-scroll-animation.ts:15-33 | An element starts hidden, not yet animated, with the observer connected. |
| ScrollAnimation.ScrollReveal.Intersect | src/hooks/use-scroll-animation.ts:33-54 | Entering the viewport reveals the element at once without a delay and schedules the reveal with one. A one-shot observer disconnects on entry. Leaving hides the element only when it is not one-shot, and a revealed one-shot element stays revealed. |
| ScrollAnimation.ScrollReveal.TimerFires | src/hooks/use-scroll-animation.ts:37-40 | A scheduled reveal shows the element. |
| ScrollAnimation.LatchHolds | src/hooks/use-scroll-animation.ts:31-51 | Under any sequence of observer reports, a revealed one-shot element stays in view. |
| ScrollAnimation.StaggerDelay | src/hooks/use-scroll-animation.ts:68-76 | Out of view the delay is "0ms"; in view it is a number of milliseconds. |
| ScrollAnimation.StaggerReadsBack | src/hooks/use-scroll-animation.ts:68-76 | In view, the delay reads back as index times step. |
| ScrollAnimation.AnimationClasses | src/hooks/use-scroll-animation.ts:89-98 | The classes are the base class, then the animation unless it is fade-up, then in-view when in view, joined with single spaces. |
| ScrollAnimation.ClassesSplitBack | src/hooks/use-scroll-animation.ts:93-97 | Splitting the class string on spaces gives exactly the applicable classes, in order. |

## Left out

- `updateSeating` in the editor store (src/stores/editor-store.ts:258-266) is left out. It writes a seating plan that no modelled component reads.
- `mergedTheme` is a getter that returns `currentTheme` unchanged. The model reads the field directly.
- Fetching and decoding: API responses arrive already decoded. The JSON-to-`EventData` decoding behind the preview is the `decode` parameter.
- Concurrency: every API call is one atomic success or failure. Edits made while a save is awaiting, and two sessions overwriting each other, are outside the model.
- Time: `Date`, the local time zone and `toLocaleDateString` are parameters. The calendar conversion is a function that may fail, which stands for NaN.
- `Number()` coercion: date and time parts are numeric when they are digit strings, and the empty string counts as 0. Signs, decimals, exponents and surrounding whitespace are treated as not numeric.
- Coordinates are reals that count as set when non-zero. NaN is not modelled. Their decimal printing in map URLs is a parameter. When a coordinate is 0, the map guard in src/components/blocks/LocationBlock.tsx:76 evaluates to the number 0, which React prints as a stray "0"; the model's view has no node for that text.
- EditorStore.Store.LoadEvent: resolves the current theme with the corrected merge (`ResolveTheme`), so the cached theme's colours are not overwritten. The source's shallow copy writes the event's overrides into the cached theme in the list; `ResolveThemeAsWritten` models that and the Findings table records it.
- EditorStore.Store.LoadThemes: the same corrected merge; the cached theme's colours are not overwritten by the event's overrides, as they are in the source (see Findings).
- Timers and observers: `setInterval`, `setTimeout` and `IntersectionObserver` are explicit tick and intersect events.
- ScrollAnimation.Options: the threshold and root margin are kept but have no effect, because the geometry of the viewport is not modelled.
- Browser effects: the toasts, the clipboard, `window.open` and `URL.revokeObjectURL` are not performed. The model returns the message, link or revoked URL instead.
- `encodeURIComponent` and `URL.createObjectURL` are parameters. A `createObjectURL` that throws is an absent result. In the gallery loop it aborts the whole batch (`failed`).
- The uploaders' drag-over highlight and loading flags, and their error state, are left out. The error is returned instead of stored.
- The guests panel's delete action and its re-fetch after adding are left out. They are calls to the server followed by `loadDashboard`.
- EditorStore.Store.UpdateCustomColor: the model keeps only the six colour keys of the current theme. The source also copies a non-colour key into the live colour object, where no renderer reads it.
- JSX layout, Tailwind classes, SVG decoration and ClassicElegant's inline style sheet are not part of this model.
- The AI chat panel, the dashboard, authentication, the landing page and the form widgets that only forward values to the store are not part of this model.
- Templates.RenderTemplate: for an inherited `Object.prototype` name the model only records that the inherited property is taken as the component. What React then does with it (a function that is not a component, or the prototype object for "__proto__") is not modelled.
- `TemplateType` is imported by the template registry, but src/types/index.ts does not declare it. The model uses the nine registry ids as its values.

## Findings

| source | as written | input that shows it | evidently intended | confidence | as-written member | corrected member |
|---|---|---|---|---|---|---|
| src/stores/editor-store.ts:72-79 | `loadEvent` and `loadThemes` copy the found theme's config shallowly, then write the event's custom colours into `colors`. That object is shared with the cached theme list, so the cached theme now holds the overridden colours. | Theme "classic" with primary #111111 and an event overriding primary to #ff0000. After loading, `changeTheme("classic")` resets the overrides to {} but shows primary #ff0000. | Merging overrides leaves the cached theme untouched, so reselecting a theme shows its own colours (#111111). | not executed | EditorStore.AsWrittenCounterexample | EditorStore.ReselectShowsThemeColours |
