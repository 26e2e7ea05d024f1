// The public invitation page: an optional envelope intro, then the enabled
// blocks, with the guest's answers sent to the server.

module InvitationPage {
  import opened Wrappers
  import opened Types
  import EditorBlocks
  import BlockRenderer
  import RSVPBlock

  /** `blocks.some(b => b.type === 'intro' && b.enabled)`. */
  function HasIntro(blocks: seq<BlockConfig>): (r: bool)
    ensures r <==> exists i :: 0 <= i < |blocks| && blocks[i].blockType == Intro && blocks[i].enabled
  {
    if |blocks| == 0 then false
    else if blocks[0].blockType == Intro && blocks[0].enabled then true
    else
      var rest := HasIntro(blocks[1..]);
      assert rest <==> exists i :: 1 <= i < |blocks| && blocks[i].blockType == Intro && blocks[i].enabled by {
        if rest {
          var i :| 0 <= i < |blocks[1..]| && blocks[1..][i].blockType == Intro && blocks[1..][i].enabled;
          assert blocks[i + 1] == blocks[1..][i];
        }
        if exists i :: 1 <= i < |blocks| && blocks[i].blockType == Intro && blocks[i].enabled {
          var i :| 1 <= i < |blocks| && blocks[i].blockType == Intro && blocks[i].enabled;
          assert blocks[1..][i - 1] == blocks[i];
        }
      }
      rest
  }

  /** The blocks the page shows: the enabled ones other than the intro, in list order, never sorted. */
  function PageBlocks(blocks: seq<BlockConfig>): (r: seq<BlockConfig>)
    ensures forall b :: b in r <==> b in blocks && b.enabled && b.blockType != Intro
    ensures |r| <= |blocks|
  {
    if |blocks| == 0 then []
    else
      var rest := PageBlocks(blocks[1..]);
      assert forall b :: b in blocks <==> b == blocks[0] || b in blocks[1..];
      if blocks[0].enabled && blocks[0].blockType != Intro then [blocks[0]] + rest else rest
  }

  /** The intro blocks dropped from a list, the rest kept in order. */
  function DropIntro(blocks: seq<BlockConfig>): seq<BlockConfig>
  {
    if |blocks| == 0 then []
    else if blocks[0].blockType == Intro then DropIntro(blocks[1..])
    else [blocks[0]] + DropIntro(blocks[1..])
  }

  /** The page's list is the editor's enabled filter with the intro taken out. */
  lemma {:induction false} PageBlocksAreFilteredEnabled(blocks: seq<BlockConfig>)
    ensures PageBlocks(blocks) == DropIntro(EditorBlocks.FilterEnabled(blocks))
  {
    if |blocks| > 0 {
      PageBlocksAreFilteredEnabled(blocks[1..]);
      if blocks[0].enabled {
        var f := EditorBlocks.FilterEnabled(blocks[1..]);
        assert EditorBlocks.FilterEnabled(blocks) == [blocks[0]] + f;
        assert ([blocks[0]] + f)[1..] == f;
      }
    }
  }

  /**
   * After the editor reorders the blocks, its preview (the enabled blocks sorted by order)
   * shows what the published page shows, apart from the intro.
   */
  lemma PreviewMatchesPageAfterReorder(blocks: seq<BlockConfig>, from: nat, to: nat)
    requires from < |blocks| && to < |blocks|
    ensures var r := EditorBlocks.Reorder(blocks, from, to);
      DropIntro(EditorBlocks.EnabledBlocks(r)) == PageBlocks(r)
  {
    var r := EditorBlocks.Reorder(blocks, from, to);
    EditorBlocks.EnabledAfterReorderIsFiltered(blocks, from, to);
    PageBlocksAreFilteredEnabled(r);
  }

  /** Without a reorder the two can differ: the page keeps list order where the preview sorts by `order`. */
  lemma PageDoesNotSort()
    ensures var a := BlockConfig(Hero, "classic", true, 1);
      var b := BlockConfig(Footer, "simple", true, 0);
      PageBlocks([a, b]) == [a, b] && EditorBlocks.EnabledBlocks([a, b]) == [b, a]
  {
    var a := BlockConfig(Hero, "classic", true, 1);
    var b := BlockConfig(Footer, "simple", true, 0);
    assert [a, b][1..] == [b];
    assert EditorBlocks.FilterEnabled([a, b]) == [a, b];
    var e := EditorBlocks.EnabledBlocks([a, b]);
    assert multiset(e) == multiset{a, b};
    assert |e| == 2;
    assert e[0] in multiset(e) && e[1] in multiset(e);
    assert EditorBlocks.SortedByOrder(e);
    assert e[0].order <= e[1].order;
  }

  /** The heading on the envelope: shown only for a named guest. */
  function IntroGreeting(guestName: Option<string>): (r: Option<string>)
    ensures r.Some? <==> Truthy(guestName)
    ensures r.Some? ==> r.value == "Құрметті " + guestName.value + "!"
  {
    if Truthy(guestName) then Some("Құрметті " + guestName.value + "!") else None
  }

  /**
   * The rendered blocks: each page block through the block renderer, outside the preview,
   * with the guest's name, and with the answer handler only when the guest has a slug.
   */
  function RenderedBlocks(blocks: seq<BlockConfig>, data: EventData, theme: ThemeConfig,
                          guestName: Option<string>, guestSlug: Option<string>): (r: seq<BlockRenderer.Rendered>)
    ensures |r| == |PageBlocks(blocks)|
    ensures forall i :: 0 <= i < |r| ==>
      r[i] == BlockRenderer.Render(PageBlocks(blocks)[i], data, theme, guestName, false, Truthy(guestSlug))
    ensures forall i :: 0 <= i < |r| ==> !r[i].NothingRendered?
  {
    var page := PageBlocks(blocks);
    seq(|page|, i requires 0 <= i < |page| =>
      assert page[i] in page;
      BlockRenderer.Render(page[i], data, theme, guestName, false, Truthy(guestSlug)))
  }

  /** What the answer handler did: whether it reached the server, and whether it failed to its caller. */
  datatype AnswerOutcome = AnswerOutcome(apiCalled: bool, threw: bool, toast: string)

  /**
   * `handleRSVP`: with either slug missing it shows an error and returns normally without
   * calling the server; otherwise it sends the answer and, if that fails, shows an error and
   * passes the failure on.
   */
  function HandleRSVP(eventSlug: Option<string>, guestSlug: Option<string>, apiOk: bool): (o: AnswerOutcome)
    ensures o.apiCalled <==> Truthy(eventSlug) && Truthy(guestSlug)
    ensures o.threw <==> o.apiCalled && !apiOk
    ensures !o.apiCalled ==> o.toast == "Невозможно отправить ответ"
    ensures o.apiCalled && apiOk ==> o.toast == "Ваш ответ записан!"
    ensures o.threw ==> o.toast == "Ошибка при отправке ответа"
  {
    if !Truthy(eventSlug) || !Truthy(guestSlug) then AnswerOutcome(false, false, "Невозможно отправить ответ")
    else if apiOk then AnswerOutcome(true, false, "Ваш ответ записан!")
    else AnswerOutcome(true, true, "Ошибка при отправке ответа")
  }

  /**
   * The page's answer handler behind the RSVP block: the block ends submitted exactly when
   * the handler did not throw, so an answer is thanked for without being recorded when the
   * event slug is missing.
   */
  method AnswerThroughPage(eventSlug: Option<string>, guestSlug: Option<string>, apiOk: bool, choice: RSVPStatus)
    returns (submitted: bool, recorded: bool)
    requires Truthy(guestSlug) && choice != Pending
    ensures recorded <==> Truthy(eventSlug) && apiOk
    ensures submitted <==> !Truthy(eventSlug) || apiOk
  {
    var widget := new RSVPBlock.RSVPWidget(false, true);
    var callsHandler := widget.StartSubmit(choice);
    var outcome := HandleRSVP(eventSlug, guestSlug, apiOk);
    widget.Settle(!outcome.threw);
    submitted := widget.isSubmitted;
    recorded := outcome.apiCalled && apiOk;
  }

  /** The page's intro state. */
  class IntroGate {
    const hasIntro: bool
    var showIntro: bool

    /** Mounting, with the effect that drops the intro when there is no enabled intro block. */
    constructor(blocks: seq<BlockConfig>)
      ensures hasIntro == HasIntro(blocks)
      ensures showIntro == hasIntro
    {
      hasIntro := HasIntro(blocks);
      showIntro := HasIntro(blocks);
    }

    /** The envelope screen shows exactly while the intro is pending and there is an intro. */
    predicate ShowsEnvelope()
      reads this
    {
      showIntro && hasIntro
    }

    /** The open button: one way only. */
    method Open()
      modifies this
      ensures !showIntro && !ShowsEnvelope()
    {
      showIntro := false;
    }
  }
}
