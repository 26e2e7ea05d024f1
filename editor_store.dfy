/**
 * The editor's state (src/stores/editor-store.ts): the event being edited,
 * the theme list, the resolved current theme, the selection and the flags,
 * and the actions that change them. API calls are not made here: each
 * action that awaits one takes its outcome as a parameter (`None` or `false`
 * for a call that throws).
 */
module EditorStore {
  import opened Wrappers
  import opened Text
  import opened Types
  import opened Document
  import opened EditorBlocks

  datatype PreviewMode = Desktop | Mobile
  datatype Panel = BlocksTab | DataTab | ThemeTab | GuestsTab | SeatingTab | AITab

  // ----- Theme lookup and colour merge -----

  /** The index of the first theme with `slug`, as `themes.find` visits them. */
  function FindThemeIndex(themes: seq<Theme>, slug: string): (r: Option<nat>)
    ensures r.Some? ==> r.value < |themes| && themes[r.value].slug == slug
    ensures r.Some? ==> forall j :: 0 <= j < r.value ==> themes[j].slug != slug
    ensures r.None? ==> forall j :: 0 <= j < |themes| ==> themes[j].slug != slug
  {
    if |themes| == 0 then None
    else if themes[0].slug == slug then Some(0)
    else
      match FindThemeIndex(themes[1..], slug)
      case None => None
      case Some(i) => Some(i + 1)
  }

  /** `themes.find((t) => t.slug === slug)`. */
  function FindTheme(themes: seq<Theme>, slug: string): (r: Option<Theme>)
    ensures r.Some? <==> exists i :: 0 <= i < |themes| && themes[i].slug == slug
    ensures r.Some? ==> r.value in themes && r.value.slug == slug
  {
    match FindThemeIndex(themes, slug)
    case None => None
    case Some(i) => Some(themes[i])
  }

  /** The theme's colours with every custom colour whose key names one of the six colours put in; other keys are ignored. */
  function MergeColors(base: ThemeColors, custom: map<string, string>): (r: ThemeColors)
    ensures forall k :: k in ColorKeys ==>
      ColorOf(r, k) == if k in custom then Some(custom[k]) else ColorOf(base, k)
  {
    ThemeColors(
      if "primary" in custom then custom["primary"] else base.primary,
      if "secondary" in custom then custom["secondary"] else base.secondary,
      if "accent" in custom then custom["accent"] else base.accent,
      if "accentLight" in custom then custom["accentLight"] else base.accentLight,
      if "text" in custom then custom["text"] else base.text,
      if "textMuted" in custom then custom["textMuted"] else base.textMuted)
  }

  /** The theme configuration with the custom colours merged in; fonts, decoration and assets stay the theme's. */
  function MergeTheme(base: ThemeConfig, custom: map<string, string>): (r: ThemeConfig)
    ensures r.fonts == base.fonts && r.decoration == base.decoration && r.assets == base.assets
    ensures forall k :: k in ColorKeys ==>
      ColorOf(r.colors, k) == if k in custom then Some(custom[k]) else ColorOf(base.colors, k)
  {
    base.(colors := MergeColors(base.colors, custom))
  }

  /** With no custom colours the merge is the theme itself. */
  lemma MergeNothing(base: ThemeConfig)
    ensures MergeTheme(base, map[]) == base
  {
  }

  /**
   * Adding one custom colour to the map changes the merge exactly as writing
   * that colour into the merged theme would, and a key that is not a colour
   * changes nothing.
   */
  lemma MergeOneMore(base: ThemeConfig, custom: map<string, string>, key: string, value: string)
    ensures key in ColorKeys ==>
      MergeTheme(base, custom[key := value])
        == MergeTheme(base, custom).(colors := WithColor(MergeTheme(base, custom).colors, key, value))
    ensures key !in ColorKeys ==> MergeTheme(base, custom[key := value]) == MergeTheme(base, custom)
  {
  }

  /**
   * The current theme for an event's theme reference (src/stores/editor-store.ts:69-80,
   * 98-108): nothing for an empty id or an unknown slug, otherwise the
   * theme with the custom colours merged in. The theme list is only read.
   */
  function ResolveTheme(themes: seq<Theme>, ref: EventThemeRef): (r: Option<ThemeConfig>)
    ensures r.Some? <==> ref.id != "" && FindTheme(themes, ref.id).Some?
    ensures r.Some? ==> r == Some(MergeTheme(FindTheme(themes, ref.id).value.config, ref.customColors))
  {
    if ref.id == "" then None
    else
      match FindTheme(themes, ref.id)
      case None => None
      case Some(t) => Some(MergeTheme(t.config, ref.customColors))
  }

  /**
   * The merge as src/stores/editor-store.ts:72-79 performs it. `{ ...theme.config }`
   * copies only the top level, so the merged `colors` object is the cached
   * theme's own, and every assignment into it also rewrites the theme in the
   * list. The result is the new theme list and the current theme.
   */
  function ResolveThemeAsWritten(themes: seq<Theme>, ref: EventThemeRef): (r: (seq<Theme>, Option<ThemeConfig>))
    ensures r.1 == ResolveTheme(themes, ref)
    ensures |r.0| == |themes|
    ensures r.1.Some? ==> FindTheme(r.0, ref.id) == Some(FindTheme(themes, ref.id).value.(config := r.1.value))
  {
    if ref.id == "" then (themes, None)
    else
      match FindThemeIndex(themes, ref.id)
      case None => (themes, None)
      case Some(i) =>
        var merged := MergeTheme(themes[i].config, ref.customColors);
        var aliased := themes[i := themes[i].(config := merged)];
        assert FindThemeIndex(aliased, ref.id) == Some(i) by {
          FindIndexUnchangedPrefix(themes, aliased, ref.id, i);
        }
        (aliased, Some(merged))
  }

  lemma {:induction false} FindIndexUnchangedPrefix(a: seq<Theme>, b: seq<Theme>, slug: string, i: nat)
    requires |a| == |b| && i < |a| && b[i].slug == slug
    requires FindThemeIndex(a, slug) == Some(i)
    requires forall j :: 0 <= j < i ==> b[j] == a[j]
    ensures FindThemeIndex(b, slug) == Some(i)
    decreases i
  {
    if i > 0 {
      assert a[0].slug != slug;
      FindIndexUnchangedPrefix(a[1..], b[1..], slug, i - 1);
    }
  }

  /** `changeTheme(slug)` takes `{ ...theme.config }` from the theme list. */
  function SelectedConfig(themes: seq<Theme>, slug: string): (r: Option<ThemeConfig>)
    ensures r.Some? <==> FindTheme(themes, slug).Some?
  {
    match FindTheme(themes, slug)
    case None => None
    case Some(t) => Some(t.config)
  }

  /**
   * As written, choosing the event's theme again after the merge shows the
   * event's custom colours, although `changeTheme` has just reset them to none.
   */
  lemma AsWrittenReselectShowsOldColours(themes: seq<Theme>, ref: EventThemeRef)
    requires ResolveTheme(themes, ref).Some?
    ensures SelectedConfig(ResolveThemeAsWritten(themes, ref).0, ref.id) == ResolveTheme(themes, ref)
  {
  }

  /**
   * With the corrected merge the theme list is left as loaded, so choosing the event's
   * theme again shows that theme with no custom colours, as the reset intends.
   */
  lemma ReselectShowsThemeColours(themes: seq<Theme>, ref: EventThemeRef)
    requires ResolveTheme(themes, ref).Some?
    ensures SelectedConfig(themes, ref.id) == Some(MergeTheme(FindTheme(themes, ref.id).value.config, map[]))
  {
    MergeNothing(FindTheme(themes, ref.id).value.config);
  }

  /** A concrete theme list and custom colour on which the as-written merge and the intent differ. */
  lemma AsWrittenCounterexample()
    ensures
      var base := ThemeConfig(ThemeColors("#111111", "#ffffff", "#c9a96e", "#f5ecd9", "#222222", "#777777"),
                              ThemeFonts("Playfair Display", "Inter", "700", "400"),
                              ThemeDecoration(true, DiamondDivider, DoubleBorder, Bordered, Rounded, Smooth),
                              ThemeAssets(None, None, None));
      var classic := Theme("t1", "classic", "Classic", "", "", Free, [Wedding], base);
      var ref := EventThemeRef("classic", map["primary" := "#ff0000"]);
      var afterLoad := ResolveThemeAsWritten([classic], ref).0;
      && SelectedConfig(afterLoad, "classic").value.colors.primary == "#ff0000"
      && MergeTheme(base, map[]).colors.primary == "#111111"
  {
    var base := ThemeConfig(ThemeColors("#111111", "#ffffff", "#c9a96e", "#f5ecd9", "#222222", "#777777"),
                            ThemeFonts("Playfair Display", "Inter", "700", "400"),
                            ThemeDecoration(true, DiamondDivider, DoubleBorder, Bordered, Rounded, Smooth),
                            ThemeAssets(None, None, None));
    var classic := Theme("t1", "classic", "Classic", "", "", Free, [Wedding], base);
    var ref := EventThemeRef("classic", map["primary" := "#ff0000"]);
    assert FindTheme([classic], "classic") == Some(classic);
    AsWrittenReselectShowsOldColours([classic], ref);
  }

  // ----- The store's theme invariant -----

  /**
   * The current theme is the event's theme from the list, with the event's
   * custom colours merged in, whenever the event names a theme in the list
   * and a current theme is set.
   */
  predicate Follows(event: Option<Event>, themes: seq<Theme>, currentTheme: Option<ThemeConfig>)
  {
    event.Some? && currentTheme.Some? && event.value.theme.id != ""
      && FindTheme(themes, event.value.theme.id).Some?
    ==> currentTheme == ResolveTheme(themes, event.value.theme)
  }

  /** Choosing a theme of the list with no custom colours, and showing its configuration, keeps the invariant. */
  lemma ChosenThemeFollows(e: Event, themes: seq<Theme>, slug: string)
    requires FindTheme(themes, slug).Some?
    ensures Follows(Some(e.(theme := EventThemeRef(slug, map[]))), themes, Some(FindTheme(themes, slug).value.config))
  {
    MergeNothing(FindTheme(themes, slug).value.config);
  }

  /** The current theme after `updateCustomColor`: the key written into its colours when it is one of the six. */
  function Recoloured(cur: ThemeConfig, key: string, value: string): (r: ThemeConfig)
    ensures r.fonts == cur.fonts && r.decoration == cur.decoration && r.assets == cur.assets
    ensures forall k :: k in ColorKeys ==>
      ColorOf(r.colors, k) == if k == key then Some(value) else ColorOf(cur.colors, k)
  {
    cur.(colors := if key in ColorKeys then WithColor(cur.colors, key, value) else cur.colors)
  }

  /** Writing one custom colour into both the event's overrides and the current theme keeps the invariant. */
  lemma RecolouredFollows(e: Event, themes: seq<Theme>, cur: ThemeConfig, key: string, value: string)
    requires Follows(Some(e), themes, Some(cur))
    ensures Follows(Some(e.(theme := e.theme.(customColors := e.theme.customColors[key := value]))),
                    themes, Some(Recoloured(cur, key, value)))
  {
    if e.theme.id != "" && FindTheme(themes, e.theme.id).Some? {
      MergeOneMore(FindTheme(themes, e.theme.id).value.config, e.theme.customColors, key, value);
    }
  }

  // ----- The store -----

  class Store {
    var event: Option<Event>
    var themes: seq<Theme>
    var currentTheme: Option<ThemeConfig>
    var selectedBlockIndex: Option<int>
    var previewMode: PreviewMode
    var activePanel: Panel
    var isDirty: bool
    var isSaving: bool
    var isLoading: bool

    /**
     * The current theme is the event's theme from the list, with the event's
     * custom colours merged in, whenever the event names a theme in the list
     * and a current theme is set.
     */
    predicate ThemeFollowsEvent()
      reads this
    {
      Follows(event, themes, currentTheme)
    }

    /** `enabledBlocks()`: nothing without an event, else the enabled blocks sorted stably by `order`. */
    function EnabledBlocksView(): (r: seq<BlockConfig>)
      reads this
      ensures event.None? ==> r == []
      ensures event.Some? ==> SortedByOrder(r)
      ensures event.Some? ==> forall b :: b in r <==> b in event.value.blocks && b.enabled
      ensures event.Some? ==> forall o :: WithOrder(r, o) == WithOrder(FilterEnabled(event.value.blocks), o)
    {
      if event.None? then [] else EnabledBlocks(event.value.blocks)
    }

    constructor()
      ensures event.None? && themes == [] && currentTheme.None? && selectedBlockIndex.None?
      ensures previewMode == Mobile && activePanel == DataTab
      ensures !isDirty && !isSaving && !isLoading
      ensures ThemeFollowsEvent()
    {
      event := None;
      themes := [];
      currentTheme := None;
      selectedBlockIndex := None;
      previewMode := Mobile;
      activePanel := DataTab;
      isDirty := false;
      isSaving := false;
      isLoading := false;
    }

    /**
     * `loadEvent`: `fetched` is what the API returned, None when it threw.
     * On success the event is replaced, the current theme resolved from the
     * theme list and the event is clean; on failure only loading stops.
     */
    method LoadEvent(fetched: Option<Event>) returns (thrown: bool)
      modifies this
      ensures thrown <==> fetched.None?
      ensures !isLoading
      ensures themes == old(themes) && selectedBlockIndex == old(selectedBlockIndex)
      ensures previewMode == old(previewMode) && activePanel == old(activePanel) && isSaving == old(isSaving)
      ensures fetched.None? ==> event == old(event) && currentTheme == old(currentTheme) && isDirty == old(isDirty)
      ensures fetched.Some? ==> event == fetched && !isDirty
      ensures fetched.Some? ==> currentTheme == if |themes| > 0 then ResolveTheme(themes, fetched.value.theme) else None
      ensures old(ThemeFollowsEvent()) ==> ThemeFollowsEvent()
    {
      isLoading := true;
      if fetched.None? {
        isLoading := false;
        return true;
      }
      var e := fetched.value;
      var resolved: Option<ThemeConfig> := None;
      if |themes| > 0 && e.theme.id != "" {
        resolved := ResolveTheme(themes, e.theme);
      }
      event, currentTheme, isLoading, isDirty := fetched, resolved, false, false;
      return false;
    }

    /**
     * `loadThemes`: `fetched` is the API's theme list, None when the call
     * threw, which is swallowed. A loaded event whose theme is in the new
     * list gets its current theme resolved again.
     */
    method LoadThemes(fetched: Option<seq<Theme>>)
      modifies this
      ensures fetched.None? ==> themes == old(themes) && currentTheme == old(currentTheme)
      ensures fetched.Some? ==> themes == fetched.value
      ensures fetched.Some? && event.Some? && event.value.theme.id != ""
              && FindTheme(fetched.value, event.value.theme.id).Some?
              ==> currentTheme == ResolveTheme(fetched.value, event.value.theme)
      ensures fetched.Some? && !(event.Some? && event.value.theme.id != ""
              && FindTheme(fetched.value, event.value.theme.id).Some?)
              ==> currentTheme == old(currentTheme)
      ensures event == old(event) && isDirty == old(isDirty) && isSaving == old(isSaving) && isLoading == old(isLoading)
      ensures selectedBlockIndex == old(selectedBlockIndex) && previewMode == old(previewMode) && activePanel == old(activePanel)
      ensures ThemeFollowsEvent()
        || (fetched.None? && old(!ThemeFollowsEvent()))
        || (fetched.Some? && currentTheme == old(currentTheme) && !ThemeFollowsEvent()
            && event.Some? && event.value.theme.id != "" && FindTheme(fetched.value, event.value.theme.id).None?)
    {
      if fetched.None? {
        return;
      }
      var list := fetched.value;
      var resolves := event.Some? && event.value.theme.id != "" && FindTheme(list, event.value.theme.id).Some?;
      themes, currentTheme := list, if resolves then ResolveTheme(list, event.value.theme) else currentTheme;
    }

    /** `updateData(path, value)`: without an event nothing happens; otherwise the deep set of the data, and the event is dirty. */
    method UpdateData(path: string, value: Json)
      modifies this
      ensures old(event).None? ==> event == old(event) && isDirty == old(isDirty)
      ensures old(event).Some? ==>
        event == Some(old(event).value.(data := SetPath(old(event).value.data, Split(path, '.'), value)))
        && isDirty
      ensures old(event).Some? ==> GetPath(event.value.data, Split(path, '.')) == Some(value)
      ensures themes == old(themes) && currentTheme == old(currentTheme) && isSaving == old(isSaving)
      ensures isLoading == old(isLoading) && selectedBlockIndex == old(selectedBlockIndex)
      ensures previewMode == old(previewMode) && activePanel == old(activePanel)
      ensures old(ThemeFollowsEvent()) ==> ThemeFollowsEvent()
    {
      if event.None? {
        return;
      }
      var e := event.value;
      var newData := SetNestedValue(e.data, path, value);
      SetThenGet(e.data, Split(path, '.'), value);
      event := Some(e.(data := newData));
      isDirty := true;
    }

    /**
     * `changeTheme(slug)`: without an event or for a slug not in the list
     * nothing happens; otherwise the event's theme becomes `slug` with no
     * custom colours, the current theme is that theme's configuration, and
     * the event is dirty.
     */
    method ChangeTheme(slug: string)
      modifies this
      ensures old(event).None? || FindTheme(themes, slug).None? ==>
        event == old(event) && currentTheme == old(currentTheme) && isDirty == old(isDirty)
      ensures old(event).Some? && FindTheme(themes, slug).Some? ==>
        && event == Some(old(event).value.(theme := EventThemeRef(slug, map[])))
        && currentTheme == Some(FindTheme(themes, slug).value.config)
        && isDirty
      ensures themes == old(themes) && isSaving == old(isSaving) && isLoading == old(isLoading)
      ensures selectedBlockIndex == old(selectedBlockIndex) && previewMode == old(previewMode) && activePanel == old(activePanel)
      ensures old(ThemeFollowsEvent()) ==> ThemeFollowsEvent()
    {
      if event.None? {
        return;
      }
      var found := FindTheme(themes, slug);
      if found.None? {
        return;
      }
      ChosenThemeFollows(event.value, themes, slug);
      event, currentTheme, isDirty := Some(event.value.(theme := EventThemeRef(slug, map[]))), Some(found.value.config), true;
    }

    /**
     * `updateCustomColor(key, value)`: needs both an event and a current
     * theme; the key goes into the event's custom colours unchecked, and into
     * the current theme's colours.
     */
    method UpdateCustomColor(key: string, value: string)
      modifies this
      ensures old(event).None? || old(currentTheme).None? ==>
        event == old(event) && currentTheme == old(currentTheme) && isDirty == old(isDirty)
      ensures old(event).Some? && old(currentTheme).Some? ==>
        && event == Some(old(event).value.(theme := old(event).value.theme.(
             customColors := old(event).value.theme.customColors[key := value])))
        && currentTheme.Some?
        && currentTheme.value.fonts == old(currentTheme).value.fonts
        && currentTheme.value.decoration == old(currentTheme).value.decoration
        && currentTheme.value.assets == old(currentTheme).value.assets
        && (forall k :: k in ColorKeys ==>
              ColorOf(currentTheme.value.colors, k)
                == if k == key then Some(value) else ColorOf(old(currentTheme).value.colors, k))
        && isDirty
      ensures themes == old(themes) && isSaving == old(isSaving) && isLoading == old(isLoading)
      ensures selectedBlockIndex == old(selectedBlockIndex) && previewMode == old(previewMode) && activePanel == old(activePanel)
      ensures old(ThemeFollowsEvent()) ==> ThemeFollowsEvent()
    {
      if event.None? || currentTheme.None? {
        return;
      }
      var e := event.value;
      var cur := currentTheme.value;
      if ThemeFollowsEvent() {
        RecolouredFollows(e, themes, cur, key, value);
      }
      event, currentTheme, isDirty :=
        Some(e.(theme := e.theme.(customColors := e.theme.customColors[key := value]))), Some(Recoloured(cur, key, value)), true;
    }

    /** `reorderBlocks(from, to)` for indices within the list; nothing without an event. */
    method ReorderBlocks(from: nat, to: nat)
      requires event.Some? ==> from < |event.value.blocks| && to < |event.value.blocks|
      modifies this
      ensures old(event).None? ==> event == old(event) && isDirty == old(isDirty)
      ensures old(event).Some? ==>
        event == Some(old(event).value.(blocks := Reorder(old(event).value.blocks, from, to))) && isDirty
      ensures themes == old(themes) && currentTheme == old(currentTheme) && isSaving == old(isSaving)
      ensures isLoading == old(isLoading) && selectedBlockIndex == old(selectedBlockIndex)
      ensures previewMode == old(previewMode) && activePanel == old(activePanel)
      ensures old(ThemeFollowsEvent()) ==> ThemeFollowsEvent()
    {
      if event.None? {
        return;
      }
      var e := event.value;
      event := Some(e.(blocks := Reorder(e.blocks, from, to)));
      isDirty := true;
    }

    /** `toggleBlock(i)` for an index within the list; nothing without an event. */
    method ToggleBlock(i: nat)
      requires event.Some? ==> i < |event.value.blocks|
      modifies this
      ensures old(event).None? ==> event == old(event) && isDirty == old(isDirty)
      ensures old(event).Some? ==>
        event == Some(old(event).value.(blocks := Toggle(old(event).value.blocks, i))) && isDirty
      ensures themes == old(themes) && currentTheme == old(currentTheme) && isSaving == old(isSaving)
      ensures isLoading == old(isLoading) && selectedBlockIndex == old(selectedBlockIndex)
      ensures previewMode == old(previewMode) && activePanel == old(activePanel)
      ensures old(ThemeFollowsEvent()) ==> ThemeFollowsEvent()
    {
      if event.None? {
        return;
      }
      var e := event.value;
      event := Some(e.(blocks := Toggle(e.blocks, i)));
      isDirty := true;
    }

    /** `setBlockVariant(i, variant)` for an index within the list; nothing without an event. */
    method SetBlockVariant(i: nat, variant: string)
      requires event.Some? ==> i < |event.value.blocks|
      modifies this
      ensures old(event).None? ==> event == old(event) && isDirty == old(isDirty)
      ensures old(event).Some? ==>
        event == Some(old(event).value.(blocks := SetVariant(old(event).value.blocks, i, variant))) && isDirty
      ensures themes == old(themes) && currentTheme == old(currentTheme) && isSaving == old(isSaving)
      ensures isLoading == old(isLoading) && selectedBlockIndex == old(selectedBlockIndex)
      ensures previewMode == old(previewMode) && activePanel == old(activePanel)
      ensures old(ThemeFollowsEvent()) ==> ThemeFollowsEvent()
    {
      if event.None? {
        return;
      }
      var e := event.value;
      event := Some(e.(blocks := SetVariant(e.blocks, i, variant)));
      isDirty := true;
    }

    /** `selectBlock(index)`: only the selection changes. */
    method SelectBlock(index: Option<int>)
      modifies this
      ensures selectedBlockIndex == index
      ensures event == old(event) && themes == old(themes) && currentTheme == old(currentTheme)
      ensures isDirty == old(isDirty) && isSaving == old(isSaving) && isLoading == old(isLoading)
      ensures previewMode == old(previewMode) && activePanel == old(activePanel)
    {
      selectedBlockIndex := index;
    }

    /** `setPreviewMode(mode)`: only the preview mode changes. */
    method SetPreviewMode(mode: PreviewMode)
      modifies this
      ensures previewMode == mode
      ensures event == old(event) && themes == old(themes) && currentTheme == old(currentTheme)
      ensures isDirty == old(isDirty) && isSaving == old(isSaving) && isLoading == old(isLoading)
      ensures selectedBlockIndex == old(selectedBlockIndex) && activePanel == old(activePanel)
    {
      previewMode := mode;
    }

    /** `setActivePanel(panel)`: only the active panel changes. */
    method SetActivePanel(panel: Panel)
      modifies this
      ensures activePanel == panel
      ensures event == old(event) && themes == old(themes) && currentTheme == old(currentTheme)
      ensures isDirty == old(isDirty) && isSaving == old(isSaving) && isLoading == old(isLoading)
      ensures selectedBlockIndex == old(selectedBlockIndex) && previewMode == old(previewMode)
    {
      activePanel := panel;
    }

    /**
     * `saveEvent`: `ok` is whether the update call resolves. Without an event
     * nothing happens; otherwise saving ends in either case, the event is
     * clean only after a successful save, and a failure is rethrown.
     */
    method SaveEvent(ok: bool) returns (thrown: bool)
      modifies this
      ensures old(event).None? ==> !thrown && isDirty == old(isDirty) && isSaving == old(isSaving)
      ensures old(event).Some? ==> !isSaving && (thrown <==> !ok) && isDirty == (old(isDirty) && !ok)
      ensures event == old(event) && themes == old(themes) && currentTheme == old(currentTheme)
      ensures isLoading == old(isLoading) && selectedBlockIndex == old(selectedBlockIndex)
      ensures previewMode == old(previewMode) && activePanel == old(activePanel)
    {
      if event.None? {
        return false;
      }
      isSaving := true;
      if ok {
        isDirty, isSaving := false, false;
        thrown := false;
      } else {
        isSaving := false;
        thrown := true;
      }
    }

    /**
     * `publishEvent`: a dirty event is saved first, and a failed save
     * aborts before the publish call. `publishCalled` says whether the
     * publish call was made; `publishOk` is its outcome and `updated` the
     * event it returns.
     */
    method PublishEvent(saveOk: bool, publishOk: bool, updated: Event) returns (thrown: bool, publishCalled: bool)
      modifies this
      ensures publishCalled <==> old(event).Some? && (!old(isDirty) || saveOk)
      ensures thrown <==> old(event).Some? && ((old(isDirty) && !saveOk) || (publishCalled && !publishOk))
      ensures event == if publishCalled && publishOk then Some(updated) else old(event)
      ensures isDirty == (old(isDirty) && (old(event).None? || !saveOk))
      ensures old(event).Some? && old(isDirty) ==> !isSaving
      ensures !(old(event).Some? && old(isDirty)) ==> isSaving == old(isSaving)
      ensures themes == old(themes) && currentTheme == old(currentTheme) && isLoading == old(isLoading)
      ensures selectedBlockIndex == old(selectedBlockIndex) && previewMode == old(previewMode) && activePanel == old(activePanel)
      ensures old(ThemeFollowsEvent()) && (old(event).None? || updated.theme == old(event).value.theme) ==> ThemeFollowsEvent()
    {
      publishCalled := false;
      if event.None? {
        return false, false;
      }
      if isDirty {
        var saveThrew := SaveEvent(saveOk);
        if saveThrew {
          return true, false;
        }
      }
      publishCalled := true;
      if publishOk {
        event := Some(updated);
        thrown := false;
      } else {
        thrown := true;
      }
    }
  }
}
