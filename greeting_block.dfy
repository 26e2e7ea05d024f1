// The greeting block: an address to the guest and the greeting paragraphs,
// chosen by the block's variant.

module GreetingBlock {
  import opened Wrappers
  import opened Types

  const DefaultGuestName := "Құрметті қонақ"
  const DefaultGreeting := "Қуанышты сәтті бірге бөлісуге шақырамыз!"
  const BilingualVariant := "bilingual"

  /** One element under the heading. */
  datatype GreetingItem =
    | Paragraph(text: string)
    | Divider
    /** The muted two-language invitation shown when no greeting is written. */
    | NoGreetingNote

  datatype GreetingView = GreetingView(heading: string, items: seq<GreetingItem>)

  /** The texts of the paragraphs among `items`, in order. */
  function Texts(items: seq<GreetingItem>): seq<string>
  {
    if |items| == 0 then []
    else (if items[0].Paragraph? then [items[0].text] else []) + Texts(items[1..])
  }

  lemma {:induction false} TextsAppend(a: seq<GreetingItem>, b: seq<GreetingItem>)
    ensures Texts(a + b) == Texts(a) + Texts(b)
  {
    if |a| == 0 {
      assert a + b == b;
    } else {
      assert (a + b)[1..] == a[1..] + b;
      TextsAppend(a[1..], b);
    }
  }

  /**
   * What the greeting block shows.
   * The heading addresses the guest by name, or the default address.
   * The bilingual variant shows each written greeting, Kazakh first, with a divider only
   * between two; every other variant shows a single paragraph, Russian before Kazakh
   * before the built-in text. The note appears, last, exactly when neither greeting is written.
   */
  function Greeting(data: EventData, theme: ThemeConfig, variant: string, guestName: Option<string>,
                    isPreview: bool): (v: GreetingView)
    ensures v.heading == OrElse(guestName, DefaultGuestName) + "!"
    ensures variant == BilingualVariant ==>
      Texts(v.items) == (if Truthy(data.greetingKz) then [data.greetingKz.value] else [])
                        + (if Truthy(data.greetingRu) then [data.greetingRu.value] else [])
    ensures variant == BilingualVariant ==>
      (Divider in v.items <==> Truthy(data.greetingKz) && Truthy(data.greetingRu))
    ensures variant != BilingualVariant ==>
      Texts(v.items) == [OrElse(data.greetingRu, OrElse(data.greetingKz, DefaultGreeting))]
    ensures variant != BilingualVariant ==> Divider !in v.items
    ensures NoGreetingNote in v.items <==> !Truthy(data.greetingKz) && !Truthy(data.greetingRu)
    ensures NoGreetingNote in v.items ==> v.items[|v.items| - 1] == NoGreetingNote
  {
    var kz := data.greetingKz;
    var ru := data.greetingRu;
    var body :=
      if variant == BilingualVariant then
        (if Truthy(kz) then [Paragraph(kz.value)] else [])
        + (if Truthy(kz) && Truthy(ru) then [Divider] else [])
        + (if Truthy(ru) then [Paragraph(ru.value)] else [])
      else
        [Paragraph(OrElse(ru, OrElse(kz, DefaultGreeting)))];
    var note := if !Truthy(kz) && !Truthy(ru) then [NoGreetingNote] else [];
    var items := body + note;
    assert NoGreetingNote !in body;
    assert Texts(note) == [] by { if |note| > 0 { assert note[1..] == []; } }
    TextsAppend(body, note);
    if variant == BilingualVariant then
      var p := if Truthy(kz) then [Paragraph(kz.value)] else [];
      var d := if Truthy(kz) && Truthy(ru) then [Divider] else [];
      var q := if Truthy(ru) then [Paragraph(ru.value)] else [];
      assert body == p + d + q;
      TextsAppend(p + d, q);
      TextsAppend(p, d);
      assert Texts(d) == [] by { if |d| > 0 { assert d[1..] == []; } }
      assert Texts(p) == (if Truthy(kz) then [kz.value] else []) by { if |p| > 0 { assert p[1..] == []; } }
      assert Texts(q) == (if Truthy(ru) then [ru.value] else []) by { if |q| > 0 { assert q[1..] == []; } }
      GreetingView(OrElse(guestName, DefaultGuestName) + "!", items)
    else
      assert Texts(body) == [body[0].text] by { assert body[1..] == []; }
      GreetingView(OrElse(guestName, DefaultGuestName) + "!", items)
  }
}
