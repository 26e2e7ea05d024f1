// Dispatch of one configured block to the renderer of its type.

module BlockRenderer {
  import opened Wrappers
  import opened Types
  import opened Text

  /** The properties every renderer receives; `onSubmit` says whether an answer handler is passed on. */
  datatype BlockProps = BlockProps(data: EventData, theme: ThemeConfig, variant: string,
                                   guestName: Option<string>, isPreview: bool, onSubmit: bool)

  datatype Rendered =
    /** The renderer of `kind`, given `props`. */
    | Component(kind: BlockType, props: BlockProps)
    /** Nothing at all: the intro is shown by the page itself. */
    | NothingRendered
    /** A notice that this block type is not built yet. */
    | InDevelopment(message: string)

  /** The block types that have a renderer of their own. */
  predicate HasRenderer(t: BlockType)
  {
    t in {Hero, Greeting, Details, Countdown, Program, Location, Gallery, Rsvp, Footer}
  }

  function InDevelopmentMessage(t: BlockType): string
  {
    "Блок \"" + BlockTypeName(t) + "\" в разработке"
  }

  /**
   * `BlockRenderer`: each of the nine built types goes to its own renderer with the block's
   * variant and the guest name and preview flag unchanged, the answer handler only to the
   * RSVP block; the intro renders nothing; any other type renders a notice naming it.
   */
  function Render(block: BlockConfig, data: EventData, theme: ThemeConfig, guestName: Option<string>,
                  isPreview: bool, onRSVP: bool): (r: Rendered)
    ensures HasRenderer(block.blockType) <==> r.Component?
    ensures r.Component? ==> r.kind == block.blockType
    ensures r.Component? ==> r.props == BlockProps(data, theme, block.variant, guestName, isPreview, block.blockType == Rsvp && onRSVP)
    ensures r.NothingRendered? <==> block.blockType == Intro
    ensures r.InDevelopment? ==> r.message == InDevelopmentMessage(block.blockType)
  {
    var common := BlockProps(data, theme, block.variant, guestName, isPreview, false);
    match block.blockType
    case Hero => Component(Hero, common)
    case Greeting => Component(Greeting, common)
    case Details => Component(Details, common)
    case Countdown => Component(Countdown, common)
    case Program => Component(Program, common)
    case Location => Component(Location, common)
    case Gallery => Component(Gallery, common)
    case Rsvp => Component(Rsvp, common.(onSubmit := onRSVP))
    case Footer => Component(Footer, common)
    case Intro => NothingRendered
    case _ => InDevelopment(InDevelopmentMessage(block.blockType))
  }

  /** Exactly four block types fall through to the notice: story, wishes, dress code and baby info. */
  lemma UnbuiltTypes()
    ensures forall t: BlockType :: !HasRenderer(t) && t != Intro <==> t in {Story, Wishes, DressCode, BabyInfo}
  {
  }

  /** Notices for different block types never read the same. */
  lemma {:induction false} NoticesDistinct(s: BlockType, t: BlockType)
    requires s != t
    ensures InDevelopmentMessage(s) != InDevelopmentMessage(t)
  {
    BlockTypeNameInjective(s, t);
    InfixInjective("Блок \"", BlockTypeName(s), BlockTypeName(t), "\" в разработке");
  }
}
