// The editor's block list: sortable rows identified by position, selection,
// visibility toggles and the variant picker.

module BlocksPanel {
  import opened Wrappers
  import opened Text
  import opened Types

  const IdPrefix := "block-"

  /** The sortable id of the row at `index`. */
  function SortableId(index: nat): (id: string)
    ensures StartsWith(id, IdPrefix)
  {
    IdPrefix + NatToString(index)
  }

  /** `parseInt(String(id).replace('block-', ''))`. */
  function ParseSortableId(id: string): Option<nat>
  {
    ParseIntPrefix(ReplaceFirst(id, IdPrefix, ""))
  }

  /** Reading a row's id back gives its index. */
  lemma SortableIdRoundTrip(index: nat)
    ensures ParseSortableId(SortableId(index)) == Some(index)
  {
    var digits := NatToString(index);
    ReplacePrefix(IdPrefix, digits);
    ParseIntOfDigits(digits);
    ParseNatToString(index);
  }

  /** Two rows never share an id. */
  lemma SortableIdInjective(i: nat, j: nat)
    ensures SortableId(i) == SortableId(j) ==> i == j
  {
    SortableIdRoundTrip(i);
    SortableIdRoundTrip(j);
  }

  /**
   * The end of a drag from row `active` over row `over` (None: dropped outside the list):
   * a reorder from the one index to the other, requested only for a drop on another row.
   */
  function DragEnd(active: nat, over: Option<nat>): (move: Option<(nat, nat)>)
    ensures move.Some? <==> over.Some? && over.value != active
    ensures move.Some? ==> move.value == (active, over.value)
  {
    if over.Some? && SortableId(active) != SortableId(over.value) then
      SortableIdRoundTrip(active);
      SortableIdRoundTrip(over.value);
      Some((ParseSortableId(SortableId(active)).value, ParseSortableId(SortableId(over.value)).value))
    else
      SortableIdInjective(active, if over.Some? then over.value else active);
      None
  }

  /** A click on a row's name selects it, or clears the selection when it was the selected row. */
  function SelectClick(selected: Option<int>, index: nat): (r: Option<int>)
    ensures r.None? <==> selected == Some(index)
    ensures r.Some? ==> r.value == index
  {
    if selected == Some(index) then None else Some(index)
  }

  /** Two clicks on a row that was not selected select it and then clear the selection. */
  lemma SelectClickTwice(selected: Option<int>, index: nat)
    requires selected != Some(index)
    ensures SelectClick(SelectClick(selected, index), index).None?
  {
  }

  /** The row caption of each block type. */
  function BlockLabel(t: BlockType): (r: string)
    ensures r != ""
  {
    match t
    case Intro => "Заставка"
    case Hero => "Главный экран"
    case Greeting => "Приветствие"
    case Details => "Детали"
    case Countdown => "Обратный отсчёт"
    case Program => "Программа"
    case Location => "Место проведения"
    case Gallery => "Галерея"
    case Rsvp => "RSVP"
    case Story => "История"
    case Wishes => "Пожелания"
    case DressCode => "Дресс-код"
    case BabyInfo => "Информация о ребёнке"
    case Footer => "Футер"
  }

  /** `BLOCK_LABELS[type] || type`: every type has a non-empty caption, so the raw name never shows. */
  function RowLabel(t: BlockType): (r: string)
    ensures r == BlockLabel(t)
  {
    var caption := BlockLabel(t);
    if caption != "" then caption else BlockTypeName(t)
  }

  /** The selected block: none when nothing is selected or the index is past the list. */
  function SelectedBlock(blocks: seq<BlockConfig>, selected: Option<int>): (r: Option<BlockConfig>)
    ensures r.Some? <==> selected.Some? && 0 <= selected.value < |blocks|
    ensures r.Some? ==> r.value == blocks[selected.value]
  {
    if selected.Some? && 0 <= selected.value < |blocks| then Some(blocks[selected.value]) else None
  }

  /** A variant button: the option and whether it is highlighted. */
  datatype VariantButton = VariantButton(option: VariantOption, highlighted: bool)

  /**
   * The variant picker: for a selected block, one button per registered variant of its type,
   * highlighted exactly when it is the block's current variant. Clicking a button sets the
   * button's value, so only registered values are ever set from here.
   */
  function VariantButtons(selected: Option<BlockConfig>): (r: seq<VariantButton>)
    ensures selected.None? ==> r == []
    ensures selected.Some? ==> |r| == |BlockVariants(selected.value.blockType)|
    ensures selected.Some? ==> forall i :: 0 <= i < |r| ==>
      r[i].option == BlockVariants(selected.value.blockType)[i]
      && (r[i].highlighted <==> r[i].option.value == selected.value.variant)
  {
    match selected
    case None => []
    case Some(block) =>
      var options := BlockVariants(block.blockType);
      seq(|options|, i requires 0 <= i < |options| =>
        VariantButton(options[i], options[i].value == block.variant))
  }

  /** At most one variant button is highlighted, because a type's variant values are distinct. */
  lemma AtMostOneHighlighted(selected: Option<BlockConfig>)
    ensures var r := VariantButtons(selected);
      forall i, j :: 0 <= i < j < |r| && r[i].highlighted ==> !r[j].highlighted
  {
    if selected.Some? {
      var t := selected.value.blockType;
      BlockVariantsWellFormed(t);
      var r := VariantButtons(selected);
      forall i, j | 0 <= i < j < |r| && r[i].highlighted
        ensures !r[j].highlighted
      {
        assert VariantValues(t)[i] == r[i].option.value;
        assert VariantValues(t)[j] == r[j].option.value;
      }
    }
  }
}
