/** The shared records of the multiviewer: stream status, alert kinds, cell
    descriptions and the alert-log entry. */
module Types {

  /** A value that may be absent: `undefined`, `null` or a missing array element. */
  datatype Option<+T> = None | Some(value: T)

  /** `arr[i]` in JavaScript: an index past the end reads `undefined`. */
  function At<T>(s: seq<T>, i: nat): (r: Option<T>)
    ensures r.Some? <==> i < |s|
    ensures r.Some? ==> r.value == s[i]
  {
    if i < |s| then Some(s[i]) else None
  }

  /** `arr?.[i]` over an array of optional elements: absent when the index is past
      the end or the element itself is `undefined`. */
  function Slot<T>(s: seq<Option<T>>, i: nat): (r: Option<T>)
    ensures r.Some? <==> i < |s| && s[i].Some?
    ensures r.Some? ==> r.value == s[i].value
  {
    if i < |s| then s[i] else None
  }

  /** The health of one stream, as the connection controller reports it. */
  datatype StreamStatus = Idle | Connecting | Connected | Error | Stalled

  /** The two kinds of entry in the alert log. */
  datatype AlertType = Error | Recovery

  datatype CellType = Video | QuadAudio | Image

  /** What a quad-audio slot shows behind its meter. */
  datatype AudioBackgroundType = Image | Video

  /** A file the operator picked in the form. The data URL it reads as is given
      here; reading it is the browser's business. */
  datatype File = File(dataUrl: string)

  /** What a cell shows. An optional array of a quad-audio item that is absent
      is the empty sequence: every reader treats the two alike. `posterImageUrl`
      is the video item's optional `imageUrl`. */
  datatype CellItem =
    | VideoItem(urls: seq<string>, name: string, posterImageUrl: Option<string>,
                titleImageUrl: Option<string>, signalLossImageUrl: Option<string>)
    | QuadAudioItem(urls: seq<string>, name: string,
                    imageUrls: seq<Option<string>>,
                    streamNames: seq<Option<string>>,
                    titleImageUrls: seq<Option<string>>,
                    backgroundTypes: seq<Option<AudioBackgroundType>>,
                    backgroundVideoUrls: seq<Option<string>>,
                    signalLossImageUrls: seq<Option<string>>)
    | ImageItem(name: string, imageUrl: string)

  datatype Cell = Cell(id: string, cellType: CellType, item: CellItem)

  /** A cell whose type agrees with the kind of its item, as every cell the
      application builds does. */
  predicate WellTyped(cell: Cell)
  {
    match cell.cellType
    case Video => cell.item.VideoItem?
    case Image => cell.item.ImageItem?
    case QuadAudio => cell.item.QuadAudioItem?
  }

  /** One line of the alert log; `id` and `timestamp` are the clock reading at
      the time it was raised. */
  datatype AlertEntry = AlertEntry(id: int, timestamp: int, streamName: string,
                                   message: string, kind: AlertType)
}
