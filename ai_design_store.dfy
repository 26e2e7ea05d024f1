/**
 * The AI-preview store (src/stores/ai-design-store.ts): the last generated
 * page and whether the editor previews it.
 */
module AIDesignStore {

  class AIDesign {
    var currentHtml: string
    var isAIPreviewMode: bool

    /** The store starts with no page and the preview off. */
    constructor()
      ensures currentHtml == "" && !isAIPreviewMode
    {
      currentHtml := "";
      isAIPreviewMode := false;
    }

    /** `setCurrentHtml(html)`: keeps the page and turns the preview on exactly when the page is not empty. */
    method SetCurrentHtml(html: string)
      modifies this
      ensures currentHtml == html
      ensures isAIPreviewMode <==> |html| > 0
    {
      currentHtml := html;
      isAIPreviewMode := |html| > 0;
    }

    /** `setAIPreviewMode(enabled)`: only the flag changes. */
    method SetAIPreviewMode(enabled: bool)
      modifies this
      ensures isAIPreviewMode == enabled
      ensures currentHtml == old(currentHtml)
    {
      isAIPreviewMode := enabled;
    }

    /** `clear()`: back to the initial state. */
    method Clear()
      modifies this
      ensures currentHtml == "" && !isAIPreviewMode
    {
      currentHtml := "";
      isAIPreviewMode := false;
    }
  }
}
