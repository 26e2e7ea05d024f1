// The template registry: every template id the editor knows, what renders it,
// and the metadata the editor lists for it.

module Templates {
  import opened Wrappers

  /**
   * What the registry lookup can yield: the classic template, the only one written, or a
   * property that the registry object inherits from `Object.prototype`, under its name.
   */
  datatype TemplateComponent = ClassicElegantTemplate | PrototypeMember(name: string)

  /** The properties a template receives. */
  datatype TemplateProps<Data, Theme> = TemplateProps(data: Data, theme: Theme, guestName: Option<string>,
                                                       onRSVP: bool)

  datatype Rendering<Data, Theme> = Rendering(component: TemplateComponent, props: TemplateProps<Data, Theme>)

  const TemplateIds: seq<string> := [
    "classic-elegant", "horizontal-story", "typewriter-reveal", "light-switch", "card-flip",
    "parallax-cinematic", "minimal-modern", "magazine-layout", "kazakh-ornamental"]

  /** The registry: each of the nine ids is mapped, and for now all to the classic template. */
  const Registry: map<string, TemplateComponent> := map[
    "classic-elegant" := ClassicElegantTemplate,
    "horizontal-story" := ClassicElegantTemplate,
    "typewriter-reveal" := ClassicElegantTemplate,
    "light-switch" := ClassicElegantTemplate,
    "card-flip" := ClassicElegantTemplate,
    "parallax-cinematic" := ClassicElegantTemplate,
    "minimal-modern" := ClassicElegantTemplate,
    "magazine-layout" := ClassicElegantTemplate,
    "kazakh-ornamental" := ClassicElegantTemplate]

  /**
   * The names of the properties every plain object inherits from `Object.prototype`. Each is
   * truthy, so looking one up in the registry object finds it and the fallback is not taken.
   */
  const PrototypeNames: set<string> := {
    "constructor", "hasOwnProperty", "isPrototypeOf", "propertyIsEnumerable", "toString",
    "toLocaleString", "valueOf", "__proto__", "__defineGetter__", "__defineSetter__",
    "__lookupGetter__", "__lookupSetter__"}

  /**
   * `TemplateRenderer`: `templates[template] || ClassicElegant` over the registry object. A
   * registered id gives its component, an inherited property name gives that property, and
   * any other string falls back to the classic template; every other property is passed on.
   */
  function RenderTemplate<Data, Theme>(template: string, props: TemplateProps<Data, Theme>): (r: Rendering<Data, Theme>)
    ensures r.props == props
    ensures template in Registry ==> r.component == Registry[template]
    ensures template in PrototypeNames ==> r.component == PrototypeMember(template)
    ensures template !in Registry && template !in PrototypeNames ==> r.component == ClassicElegantTemplate
    ensures r.component == ClassicElegantTemplate <==> template !in PrototypeNames
  {
    assert forall k :: k in Registry ==> k !in PrototypeNames;
    var found := if template in Registry then Some(Registry[template])
                 else if template in PrototypeNames then Some(PrototypeMember(template))
                 else None;
    Rendering(if found.Some? then found.value else ClassicElegantTemplate, props)
  }

  /** The registry holds exactly the nine template ids, none twice. */
  lemma RegistryCoversIds()
    ensures |TemplateIds| == 9
    ensures forall i, j :: 0 <= i < j < |TemplateIds| ==> TemplateIds[i] != TemplateIds[j]
    ensures Registry.Keys == set id | id in TemplateIds
  {
  }

  /**
   * Two renderings with the same properties are the same for any two ids that are not
   * inherited property names, registered or not; an inherited name renders something else.
   */
  lemma SameForEveryId<Data, Theme>(a: string, b: string, props: TemplateProps<Data, Theme>)
    ensures a !in PrototypeNames && b !in PrototypeNames ==> RenderTemplate(a, props) == RenderTemplate(b, props)
    ensures a in PrototypeNames ==> RenderTemplate(a, props) != RenderTemplate("classic-elegant", props)
  {
  }

  datatype TemplateInfo = TemplateInfo(name: string, description: string, preview: string)

  /** `TEMPLATE_INFO`: the editor's name, description and preview image of each template. */
  const Info: map<string, TemplateInfo> := map[
    "classic-elegant" := TemplateInfo("Классическая элегантность",
      "Традиционный вертикальный скролл с конвертом и орнаментами", "/templates/classic-elegant.jpg"),
    "horizontal-story" := TemplateInfo("Горизонтальная история",
      "Свайп влево-вправо как в сторис", "/templates/horizontal-story.jpg"),
    "typewriter-reveal" := TemplateInfo("Печатная машинка",
      "Текст появляется как будто печатается", "/templates/typewriter-reveal.jpg"),
    "light-switch" := TemplateInfo("Выключатель",
      "Тёмная тема, можно \"включить свет\" дёрнув за шнур", "/templates/light-switch.jpg"),
    "card-flip" := TemplateInfo("Переворот карточек",
      "Секции переворачиваются как карточки", "/templates/card-flip.jpg"),
    "parallax-cinematic" := TemplateInfo("Кинематограф",
      "Глубокий параллакс, кинематографичный эффект", "/templates/parallax-cinematic.jpg"),
    "minimal-modern" := TemplateInfo("Минимал модерн",
      "Чистый дизайн, много воздуха, тонкие анимации", "/templates/minimal-modern.jpg"),
    "magazine-layout" := TemplateInfo("Журнальный стиль",
      "Layout как в журнале с разными размерами секций", "/templates/magazine-layout.jpg"),
    "kazakh-ornamental" := TemplateInfo("Қазақ өрнегі",
      "Богатые казахские орнаменты и узоры", "/templates/kazakh-ornamental.jpg")]

  /** Every registered template has metadata and nothing else does. */
  lemma InfoMatchesRegistry()
    ensures Info.Keys == Registry.Keys
  {
  }
}
