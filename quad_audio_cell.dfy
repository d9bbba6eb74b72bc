/** A quad-audio cell: four audio slots in a two-by-two block, each with its
    own player status, failure outline and per-slot fallbacks. */
module QuadAudioCell {
  import opened Types
  import Grid

  /** The number of slots a quad-audio cell shows. */
  const SlotCount: nat := 4

  /** The per-slot statuses, reported by each slot's player. */
  class SlotStatuses {
    var statuses: map<nat, StreamStatus>

    constructor ()
      ensures statuses == map[]
      ensures forall i :: StatusOf(i).None?
    {
      statuses := map[];
    }

    /** `handleStatusChange`: the entry for `index` takes the new status and
        every other entry keeps its own. */
    method HandleStatusChange(index: nat, status: StreamStatus)
      modifies this
      ensures statuses.Keys == old(statuses).Keys + {index}
      ensures statuses[index] == status
      ensures forall j :: j in old(statuses) && j != index ==> statuses[j] == old(statuses)[j]
      ensures StatusOf(index) == Some(status)
      ensures forall j :: j != index ==> StatusOf(j) == old(StatusOf(j))
    {
      statuses := statuses[index := status];
    }

    /** `statuses[index]`: absent until the slot's player has reported. */
    function StatusOf(index: nat): (r: Option<StreamStatus>)
      reads this
      ensures r.Some? <==> index in statuses
      ensures r.Some? ==> r.value == statuses[index]
    {
      if index in statuses then Some(statuses[index]) else None
    }
  }

  /** The border a slot is drawn with. */
  datatype Outline = FailureGlow | Transparent

  /** `getIndividualOutlineClass`. */
  function OutlineFor(status: Option<StreamStatus>): Outline
  {
    match status
    case Some(Connecting) => FailureGlow
    case Some(Error) => FailureGlow
    case Some(Stalled) => FailureGlow
    case _ => Transparent
  }

  /** The glow is drawn exactly while a slot is connecting or failing; a
      healthy, idle or not yet reported slot gets a transparent border. */
  lemma OutlineRule(status: Option<StreamStatus>)
    ensures OutlineFor(status) == FailureGlow <==>
              status.Some? && status.value in {StreamStatus.Connecting, StreamStatus.Error, StreamStatus.Stalled}
    ensures status.None? || status.value in {StreamStatus.Idle, StreamStatus.Connected} ==>
              OutlineFor(status) == Transparent
  {
  }

  /** What one slot shows: a placeholder, or an audio-only player with its
      resolved fields. */
  datatype SlotView =
    | NoStream
    | AudioPlayer(url: string, title: string, titleImageUrl: Option<string>, imageUrl: Option<string>,
                  backgroundType: AudioBackgroundType, backgroundVideoUrl: Option<string>,
                  signalLossImageUrl: Option<string>)

  /** The slot at `index`: a player when the slot has a non-empty URL, whose
      title is the slot's non-empty name or else the cell's name, and whose
      background is the slot's type or else Image. */
  function SlotAt(item: CellItem, index: nat): SlotView
    requires item.QuadAudioItem?
  {
    var url := At(item.urls, index);
    if url.None? || url.value == "" then NoStream
    else
      var name := Slot(item.streamNames, index);
      var kind := Slot(item.backgroundTypes, index);
      AudioPlayer(url.value,
                  if name.Some? && name.value != "" then name.value else item.name,
                  Slot(item.titleImageUrls, index),
                  Slot(item.imageUrls, index),
                  if kind.Some? then kind.value else AudioBackgroundType.Image,
                  Slot(item.backgroundVideoUrls, index),
                  Slot(item.signalLossImageUrls, index))
  }

  /** `Array.from({ length: 4 }).map(...)`: the four slots in order. */
  function Slots(item: CellItem): (views: seq<SlotView>)
    requires item.QuadAudioItem?
  {
    seq(SlotCount, i requires 0 <= i < SlotCount => SlotAt(item, i))
  }

  /** Always four slots, whatever the number of URLs; a slot shows a player
      exactly when its URL is present and non-empty; names and background
      types fall back to the cell's name and Image; the per-slot pictures are
      taken as they are. */
  lemma SlotsRule(item: CellItem)
    requires item.QuadAudioItem?
    ensures |Slots(item)| == SlotCount
    ensures forall i :: 0 <= i < SlotCount ==>
              (Slots(item)[i].AudioPlayer? <==> i < |item.urls| && item.urls[i] != "")
    ensures forall i :: 0 <= i < SlotCount && Slots(item)[i].AudioPlayer? ==>
              && Slots(item)[i].url == item.urls[i]
              && Slots(item)[i].title ==
                   (if Slot(item.streamNames, i).Some? && Slot(item.streamNames, i).value != ""
                    then Slot(item.streamNames, i).value else item.name)
              && Slots(item)[i].backgroundType ==
                   (if Slot(item.backgroundTypes, i).Some? then Slot(item.backgroundTypes, i).value
                    else AudioBackgroundType.Image)
              && Slots(item)[i].imageUrl == Slot(item.imageUrls, i)
              && Slots(item)[i].titleImageUrl == Slot(item.titleImageUrls, i)
              && Slots(item)[i].backgroundVideoUrl == Slot(item.backgroundVideoUrls, i)
              && Slots(item)[i].signalLossImageUrl == Slot(item.signalLossImageUrls, i)
  {
  }

  /** A slot whose name is missing or empty is titled with the cell's name. */
  lemma TitleFallback(item: CellItem, i: nat)
    requires item.QuadAudioItem? && i < SlotCount && i < |item.urls| && item.urls[i] != ""
    requires i >= |item.streamNames| || item.streamNames[i] == None || item.streamNames[i] == Some("")
    ensures Slots(item)[i].title == item.name
  {
  }

  /** `handleSoloClick` of the quad cell: null (None) when the cell is solo,
      its own id otherwise. Unlike the player's toggle it has no guard. */
  function SoloToggle(isSolo: bool, cellId: string): (r: Option<string>)
    ensures r.None? <==> isSolo
    ensures r.Some? ==> r.value == cellId
  {
    if isSolo then None else Some(cellId)
  }

  /** The toggle does what the button is for: on a cell of the full grid it
      makes the grid show that cell alone, as solo; on the solo cell it brings
      back every cell, none solo. */
  lemma SoloToggleEffect(cells: seq<Cell>, k: nat)
    requires k < |cells| && cells[k].id != ""
    ensures var shown := Grid.Render(cells, SoloToggle(false, cells[k].id));
      |shown| == 1 && shown[0].isSolo && shown[0].cell.id == cells[k].id
    ensures var shown := Grid.Render(cells, SoloToggle(true, cells[k].id));
      |shown| == |cells| && forall i :: 0 <= i < |cells| ==> shown[i] == Grid.Rendered(cells[i], false)
  {
    Grid.RenderRule(cells, Some(cells[k].id));
    Grid.RenderRule(cells, None);
  }
}
