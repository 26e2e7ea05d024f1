// The editor's preview: which of its four views shows, and what the block view holds.

module PreviewPanel {
  import opened Wrappers
  import opened Types
  import opened Document
  import EditorBlocks
  import EditorStore
  import ThemeStyles
  import BlockRenderer

  datatype PreviewView =
    /** The generated design in a sandboxed frame. */
    | AIFrame(html: string)
    /** The enabled blocks, each rendered as a preview; `enableHint` asks the user to enable some. */
    | BlockPreview(rendered: seq<BlockRenderer.Rendered>, enableHint: bool)
    /** An event but no theme yet. */
    | LoadingTheme

  /** The frame's shape: a phone outline in the mobile mode. */
  datatype PreviewFrame = PreviewFrame(view: PreviewView, fontLinks: seq<string>, mobileFrame: bool)

  /**
   * The preview. The generated design shows exactly when the AI panel is open and there is
   * generated HTML; font links are loaded only outside that view. Otherwise a theme gives the
   * block view (one preview per enabled block, in order, with no guest name and no answer
   * handler) and no theme gives the loading notice. `decode` reads the event's document as
   * typed event data. Without an event there is no frame at all, only the bare loading
   * notice, which is `None`.
   */
  function Preview(event: Option<Event>, currentTheme: Option<ThemeConfig>, previewMode: EditorStore.PreviewMode,
                   activePanel: EditorStore.Panel, currentHtml: string, decode: Json -> EventData): (p: Option<PreviewFrame>)
    ensures p.None? <==> event.None?
    ensures p.Some? ==> (p.value.view.AIFrame? <==> activePanel == EditorStore.AITab && currentHtml != "")
    ensures p.Some? && p.value.view.AIFrame? ==> p.value.view.html == currentHtml && p.value.fontLinks == []
    ensures p.Some? && !p.value.view.AIFrame? ==> p.value.fontLinks == ThemeStyles.FontLinks(currentTheme)
    ensures p.Some? && !p.value.view.AIFrame? ==> (p.value.view.LoadingTheme? <==> currentTheme.None?)
    ensures p.Some? && p.value.view.BlockPreview? ==>
      var enabled := EditorBlocks.EnabledBlocks(event.value.blocks);
      && |p.value.view.rendered| == |enabled|
      && (forall i :: 0 <= i < |enabled| ==>
            p.value.view.rendered[i]
            == BlockRenderer.Render(enabled[i], decode(event.value.data), currentTheme.value, None, true, false))
      && (p.value.view.enableHint <==> |enabled| == 0)
    ensures p.Some? ==> (p.value.mobileFrame <==> previewMode == EditorStore.Mobile)
  {
    if event.None? then None
    else
      var showAI := activePanel == EditorStore.AITab && currentHtml != "";
      var links := if showAI then [] else ThemeStyles.FontLinks(currentTheme);
      var view :=
        if showAI then AIFrame(currentHtml)
        else if currentTheme.Some? then
          var enabled := EditorBlocks.EnabledBlocks(event.value.blocks);
          var data := decode(event.value.data);
          BlockPreview(seq(|enabled|, i requires 0 <= i < |enabled| =>
                         BlockRenderer.Render(enabled[i], data, currentTheme.value, None, true, false)),
                       |enabled| == 0)
        else LoadingTheme;
      Some(PreviewFrame(view, links, previewMode == EditorStore.Mobile))
  }

  /**
   * A preview never shows the intro block itself (the renderer draws nothing for it), nor
   * hands any block a guest name or an answer handler.
   */
  lemma PreviewHandsNoHandler(event: Event, currentTheme: ThemeConfig, previewMode: EditorStore.PreviewMode,
                              activePanel: EditorStore.Panel, currentHtml: string, decode: Json -> EventData)
    ensures var p := Preview(Some(event), Some(currentTheme), previewMode, activePanel, currentHtml, decode).value;
      p.view.BlockPreview? ==> forall i :: 0 <= i < |p.view.rendered| ==>
        var r := p.view.rendered[i];
        && (r.Component? ==> !r.props.onSubmit && r.props.isPreview && r.props.guestName.None?)
        && (EditorBlocks.EnabledBlocks(event.blocks)[i].blockType == Intro <==> r.NothingRendered?)
  {
  }
}
