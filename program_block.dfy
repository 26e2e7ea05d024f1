// The programme block: the evening's timeline, or a note that it comes later.

module ProgramBlock {
  import opened Wrappers
  import opened Types

  /** One timeline row; the description is present only when it is non-empty. */
  datatype ProgramRow = ProgramRow(time: string, title: string, desc: Option<string>)

  datatype ProgramView = EmptyProgram | Timeline(rows: seq<ProgramRow>)

  /** The programme items, a missing programme being an empty one. */
  function Items(data: EventData): seq<ProgramItem>
  {
    if data.program.Some? then data.program.value else []
  }

  function Rows(items: seq<ProgramItem>): (rows: seq<ProgramRow>)
    ensures |rows| == |items|
    ensures forall i :: 0 <= i < |items| ==>
      rows[i].time == items[i].time && rows[i].title == items[i].title
      && (rows[i].desc.Some? <==> Truthy(items[i].desc))
      && (rows[i].desc.Some? ==> rows[i].desc.value == items[i].desc.value)
  {
    if |items| == 0 then []
    else
      var item := items[0];
      [ProgramRow(item.time, item.title, if Truthy(item.desc) then Some(item.desc.value) else None)]
      + Rows(items[1..])
  }

  /**
   * What the programme block shows: the empty note for a missing or empty programme,
   * otherwise one row per item in input order, each description only when non-empty.
   */
  function Program(data: EventData, theme: ThemeConfig, variant: string, isPreview: bool): (v: ProgramView)
    ensures v.EmptyProgram? <==> data.program.None? || |data.program.value| == 0
    ensures v.Timeline? ==> |v.rows| == |data.program.value|
    ensures v.Timeline? ==> forall i :: 0 <= i < |v.rows| ==>
      var item := data.program.value[i];
      v.rows[i].time == item.time && v.rows[i].title == item.title
      && (v.rows[i].desc.Some? <==> Truthy(item.desc))
  {
    var items := Items(data);
    if |items| == 0 then EmptyProgram else Timeline(Rows(items))
  }
}
