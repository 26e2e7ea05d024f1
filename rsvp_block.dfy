// The RSVP block: a guest answers "coming" or "not coming", optionally with a
// party size and wishes, and then sees a thank-you message.

module RSVPBlock {
  import opened Wrappers
  import opened Types

  const FullFormVariant := "full-form"
  const ComingMessage := "Мы рады, что вы будете с нами!"
  const NotComingMessage := "Жаль, что вы не сможете присутствовать. Надеемся увидеть вас в следующий раз!"

  /** The party sizes the form offers. */
  const GuestCountChoices: seq<int> := [1, 2, 3, 4, 5]

  /** The word after a party size: one guest, two to four, five. */
  function GuestWord(n: int): (w: string)
    ensures n == 1 ==> w == "гость"
    ensures n != 1 && n < 5 ==> w == "гостя"
    ensures n >= 5 ==> w == "гостей"
  {
    if n == 1 then "гость" else if n < 5 then "гостя" else "гостей"
  }

  /** The deadline line: shown only for a non-empty deadline, as the Russian date `ruDate` writes it. */
  function DeadlineLine(data: EventData, ruDate: string -> string): (r: Option<string>)
    ensures r.Some? <==> Truthy(data.rsvpDeadline)
    ensures r.Some? ==> r.value == "Пожалуйста, ответьте до " + ruDate(data.rsvpDeadline.value)
  {
    if Truthy(data.rsvpDeadline) then Some("Пожалуйста, ответьте до " + ruDate(data.rsvpDeadline.value)) else None
  }

  /**
   * The form's state. `hasHandler` says whether the page passed an answer handler;
   * `status` is the last answer chosen, None before any.
   */
  class RSVPWidget {
    const isPreview: bool
    const hasHandler: bool
    var status: Option<RSVPStatus>
    var guestCount: int
    var wishes: string
    var isSubmitted: bool
    var isSubmitting: bool

    /** A chosen answer is coming or not coming, and the party size is one the form offers. */
    predicate Valid()
      reads this
    {
      && (status.Some? ==> status.value != Pending)
      && guestCount in GuestCountChoices
      && (isSubmitted || isSubmitting ==> status.Some?)
    }

    constructor(isPreview: bool, hasHandler: bool)
      ensures this.isPreview == isPreview && this.hasHandler == hasHandler
      ensures status.None? && guestCount == 1 && wishes == ""
      ensures !isSubmitted && !isSubmitting
      ensures Valid()
    {
      this.isPreview := isPreview;
      this.hasHandler := hasHandler;
      status := None;
      guestCount := 1;
      wishes := "";
      isSubmitted := false;
      isSubmitting := false;
    }

    method SetGuestCount(n: int)
      requires Valid() && n in GuestCountChoices
      modifies this
      ensures guestCount == n
      ensures status == old(status) && wishes == old(wishes)
      ensures isSubmitted == old(isSubmitted) && isSubmitting == old(isSubmitting)
      ensures Valid()
    {
      guestCount := n;
    }

    method SetWishes(w: string)
      requires Valid()
      modifies this
      ensures wishes == w
      ensures status == old(status) && guestCount == old(guestCount)
      ensures isSubmitted == old(isSubmitted) && isSubmitting == old(isSubmitting)
      ensures Valid()
    {
      wishes := w;
    }

    /**
     * The first half of an answer, up to the awaited handler: in the preview nothing
     * changes; otherwise the answer is recorded and the form is marked as submitting.
     * `callsHandler` says whether the handler is then awaited with the current form values.
     */
    method StartSubmit(choice: RSVPStatus) returns (callsHandler: bool)
      requires Valid() && choice != Pending
      modifies this
      ensures isPreview ==> status == old(status) && isSubmitting == old(isSubmitting) && !callsHandler
      ensures !isPreview ==> status == Some(choice) && isSubmitting && callsHandler == hasHandler
      ensures guestCount == old(guestCount) && wishes == old(wishes) && isSubmitted == old(isSubmitted)
      ensures Valid()
    {
      if isPreview {
        return false;
      }
      status := Some(choice);
      isSubmitting := true;
      callsHandler := hasHandler;
    }

    /**
     * The second half: the handler resolved (`handlerOk`) or threw. The form counts as
     * submitted when there was no handler or it resolved; either way it stops submitting.
     */
    method Settle(handlerOk: bool)
      requires Valid() && isSubmitting
      modifies this
      ensures isSubmitted <==> old(isSubmitted) || !hasHandler || handlerOk
      ensures !isSubmitting
      ensures status == old(status) && guestCount == old(guestCount) && wishes == old(wishes)
      ensures Valid()
    {
      if !hasHandler || handlerOk {
        isSubmitted := true;
      }
      isSubmitting := false;
    }

    /** Both answer buttons are disabled while an answer is in flight and throughout the preview. */
    predicate ButtonsDisabled()
      reads this
    {
      isSubmitting || isPreview
    }

    /** The thank-you message, once submitted: chosen by the recorded answer. */
    function ThankYou(): (m: Option<string>)
      requires Valid()
      reads this
      ensures m.Some? <==> isSubmitted
      ensures isSubmitted ==> (m.value == ComingMessage <==> status == Some(Confirmed))
      ensures isSubmitted && status != Some(Confirmed) ==> m == Some(NotComingMessage)
    {
      if !isSubmitted then None
      else if status == Some(Confirmed) then Some(ComingMessage)
      else
        assert |NotComingMessage| != |ComingMessage|;
        Some(NotComingMessage)
    }
  }

  /** The party-size and wishes fields appear only in the full form. */
  predicate ShowsFullForm(variant: string)
  {
    variant == FullFormVariant
  }

  /** A whole answer from the fresh form: outside the preview it is submitted exactly when the handler does not fail. */
  method AnswerOnce(isPreview: bool, hasHandler: bool, choice: RSVPStatus, handlerOk: bool)
    returns (submitted: bool, shown: Option<RSVPStatus>)
    requires choice != Pending
    ensures submitted <==> !isPreview && (!hasHandler || handlerOk)
    ensures shown == (if isPreview then None else Some(choice))
  {
    var w := new RSVPWidget(isPreview, hasHandler);
    var calls := w.StartSubmit(choice);
    if w.isSubmitting {
      w.Settle(handlerOk);
    }
    submitted := w.isSubmitted;
    shown := w.status;
  }
}
