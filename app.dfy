/** The supervisor (the `App` component): the list of cells, the solo
    selection, the global refresh generation, the alert log with its unread
    flag, and the routing of Error alerts to sound and e-mail. */
module App {
  import opened Types
  import Text
  import Player

  // ---------------------------------------------------------------------------
  // Building and editing cells

  /** A string JavaScript treats as true: present and non-empty. */
  predicate Truthy(s: Option<string>) { s.Some? && s.value != "" }

  /** `names.find(n => n && n.trim())`: the first name that is not blank. */
  function FirstNonBlank(names: seq<string>): (r: Option<string>)
    ensures r.None? <==> forall i :: 0 <= i < |names| ==> Text.IsBlank(names[i])
    ensures r.Some? ==> exists k :: 0 <= k < |names| && names[k] == r.value && !Text.IsBlank(r.value) &&
                                    forall i :: 0 <= i < k ==> Text.IsBlank(names[i])
  {
    if names == [] then None
    else if !Text.IsBlank(names[0]) then Some(names[0])
    else
      var r := FirstNonBlank(names[1..]);
      assert forall i :: 1 <= i < |names| ==> names[i] == names[1..][i - 1];
      if r.Some? then
        ghost var k :| 0 <= k < |names[1..]| && names[1..][k] == r.value && !Text.IsBlank(r.value) &&
                       forall i :: 0 <= i < k ==> Text.IsBlank(names[1..][i]);
        assert names[k + 1] == r.value;
        r
      else r
  }

  /** The name of a quad-audio cell: its first non-blank stream name, or
      'Quad Audio' when every name is blank. */
  function QuadName(names: seq<string>): string
  {
    var first := FirstNonBlank(names);
    if first.Some? then first.value else "Quad Audio"
  }

  lemma QuadNameRule(names: seq<string>)
    ensures QuadName(names) == "Quad Audio" || QuadName(names) in names
    ensures (forall i :: 0 <= i < |names| ==> Text.IsBlank(names[i])) ==> QuadName(names) == "Quad Audio"
    ensures (exists i :: 0 <= i < |names| && !Text.IsBlank(names[i])) ==>
              !Text.IsBlank(QuadName(names)) && QuadName(names) in names
  {
  }

  /** The URLs a cell item already holds for one kind of per-slot file, used
      when an edit leaves a slot's file unchanged. */
  datatype UrlField = ImageUrls | TitleImageUrls | BackgroundVideoUrls

  function ExistingUrls(item: CellItem, field: UrlField): seq<Option<string>>
  {
    match item
    case VideoItem(_, _, poster, title, _) =>
      if field == ImageUrls then [poster] else if field == TitleImageUrls then [title] else []
    case ImageItem(_, imageUrl) =>
      if field == ImageUrls then [Some(imageUrl)] else []
    case QuadAudioItem(_, _, imageUrls, _, titleImageUrls, _, backgroundVideoUrls, _) =>
      if field == ImageUrls then imageUrls
      else if field == TitleImageUrls then titleImageUrls
      else backgroundVideoUrls
  }

  /** `files.map((file, i) => file ? fileToDataUrl(file) : existing[i])`: a
      slot with a new file gets that file's data URL, every other slot keeps
      what `existing` holds for it (nothing past its end). */
  function ResolveSlots(files: seq<Option<File>>, existing: seq<Option<string>>): (urls: seq<Option<string>>)
    ensures |urls| == |files|
    ensures forall i :: 0 <= i < |files| && files[i].Some? ==> urls[i] == Some(files[i].value.dataUrl)
    ensures forall i :: 0 <= i < |files| && files[i].None? ==> urls[i] == Slot(existing, i)
  {
    seq(|files|, i requires 0 <= i < |files| =>
      if files[i].Some? then Some(files[i].value.dataUrl) else Slot(existing, i))
  }

  function SomeAll<T>(s: seq<T>): (r: seq<Option<T>>)
    ensures |r| == |s| && forall i :: 0 <= i < |s| ==> r[i] == Some(s[i])
  {
    seq(|s|, i requires 0 <= i < |s| => Some(s[i]))
  }

  /** The item `addCell` or `updateCell` stores. A video cell keeps only the
      first URL and name, an image cell the first name and picture (or
      `imageFallback` when no picture was resolved), a quad-audio cell every
      slot. */
  function BuildItem(cellType: CellType, urls: seq<string>, names: seq<string>,
                     dataUrls: seq<Option<string>>, titleDataUrls: seq<Option<string>>,
                     backgroundTypes: seq<AudioBackgroundType>, backgroundVideoDataUrls: seq<Option<string>>,
                     imageFallback: string): CellItem
    requires |urls| >= 1 && |names| >= 1
  {
    match cellType
    case Video =>
      VideoItem([urls[0]], names[0], Slot(dataUrls, 0), Slot(titleDataUrls, 0), None)
    case Image =>
      ImageItem(names[0], if Truthy(Slot(dataUrls, 0)) then Slot(dataUrls, 0).value else imageFallback)
    case QuadAudio =>
      QuadAudioItem(urls, QuadName(names), dataUrls, SomeAll(names), titleDataUrls,
                    SomeAll(backgroundTypes), backgroundVideoDataUrls, [])
  }

  /** What each kind of built item keeps from the form. */
  lemma BuildItemShape(cellType: CellType, urls: seq<string>, names: seq<string>,
                       dataUrls: seq<Option<string>>, titleDataUrls: seq<Option<string>>,
                       backgroundTypes: seq<AudioBackgroundType>, backgroundVideoDataUrls: seq<Option<string>>,
                       imageFallback: string)
    requires |urls| >= 1 && |names| >= 1
    ensures var item := BuildItem(cellType, urls, names, dataUrls, titleDataUrls, backgroundTypes,
                                  backgroundVideoDataUrls, imageFallback);
      && (cellType == CellType.Video <==> item.VideoItem?)
      && (cellType == CellType.Image <==> item.ImageItem?)
      && (item.VideoItem? ==> item.urls == [urls[0]] && item.name == names[0])
      && (item.ImageItem? ==> item.name == names[0] &&
                              item.imageUrl == (if Truthy(Slot(dataUrls, 0)) then Slot(dataUrls, 0).value
                                                else imageFallback))
      && (item.QuadAudioItem? ==>
            && item.urls == urls
            && |item.streamNames| == |names| && (forall i :: 0 <= i < |names| ==> item.streamNames[i] == Some(names[i]))
            && |item.backgroundTypes| == |backgroundTypes|
            && (forall i :: 0 <= i < |backgroundTypes| ==> item.backgroundTypes[i] == Some(backgroundTypes[i]))
            && item.imageUrls == dataUrls && item.titleImageUrls == titleDataUrls
            && item.backgroundVideoUrls == backgroundVideoDataUrls
            && (item.name == "Quad Audio" || item.name in names))
  {
    QuadNameRule(names);
  }

  /** The new id `cell-<now>`. */
  function CellId(now: nat): string
  {
    "cell-" + Text.DecimalString(now)
  }

  /** Cells added at different clock readings get different ids. */
  lemma CellIdInjective(a: nat, b: nat)
    ensures CellId(a) == CellId(b) ==> a == b
  {
    if CellId(a) == CellId(b) {
      assert Text.DecimalString(a) == CellId(a)[5..];
      assert Text.DecimalString(b) == CellId(b)[5..];
      Text.DecimalRoundTrip(a);
      Text.DecimalRoundTrip(b);
    }
  }

  /** `prev.map(cell => cell.id === id ? { ...cell, type, item } : cell)`. */
  function ReplaceById(cells: seq<Cell>, id: string, cellType: CellType, item: CellItem): (r: seq<Cell>)
  {
    if cells == [] then []
    else
      (if cells[0].id == id then [Cell(cells[0].id, cellType, item)] else [cells[0]])
      + ReplaceById(cells[1..], id, cellType, item)
  }

  /** Only the cells with the given id change; they keep their id and get the
      new type and item. */
  lemma {:induction false} ReplaceByIdEffect(cells: seq<Cell>, id: string, cellType: CellType, item: CellItem)
    ensures var r := ReplaceById(cells, id, cellType, item);
      && |r| == |cells|
      && (forall i :: 0 <= i < |cells| && cells[i].id != id ==> r[i] == cells[i])
      && (forall i :: 0 <= i < |cells| && cells[i].id == id ==> r[i] == Cell(id, cellType, item))
  {
    if cells != [] {
      ReplaceByIdEffect(cells[1..], id, cellType, item);
    }
  }

  /** `prev.filter(cell => cell.id !== id)`. */
  function RemoveById(cells: seq<Cell>, id: string): seq<Cell>
  {
    if cells == [] then []
    else (if cells[0].id != id then [cells[0]] else []) + RemoveById(cells[1..], id)
  }

  /** Removal keeps exactly the cells with another id. */
  lemma {:induction false} RemoveByIdMembers(cells: seq<Cell>, id: string, c: Cell)
    ensures c in RemoveById(cells, id) <==> c in cells && c.id != id
  {
    if cells != [] {
      RemoveByIdMembers(cells[1..], id, c);
      assert cells == [cells[0]] + cells[1..];
    }
  }

  /** Removal works piece by piece, so the kept cells stay in their order. */
  lemma {:induction false} RemoveByIdOrder(a: seq<Cell>, b: seq<Cell>, id: string)
    ensures RemoveById(a + b, id) == RemoveById(a, id) + RemoveById(b, id)
  {
    if a == [] {
      assert a + b == b;
    } else {
      assert (a + b)[1..] == a[1..] + b;
      RemoveByIdOrder(a[1..], b, id);
    }
  }

  /** Removing an id no cell has changes nothing. */
  lemma {:induction false} RemoveAbsentId(cells: seq<Cell>, id: string)
    requires forall i :: 0 <= i < |cells| ==> cells[i].id != id
    ensures RemoveById(cells, id) == cells
  {
    if cells != [] {
      RemoveAbsentId(cells[1..], id);
    }
  }

  // ---------------------------------------------------------------------------
  // Alerts

  /** One call of `sendEmailAlert(to, subject, body)`. */
  datatype EmailRequest = EmailRequest(to: string, subject: string, body: string)

  function EmailSubject(streamName: string): string
  {
    "[MultiViewer Alert] Stream: " + streamName
  }

  /** The e-mail body; `when` is the locale rendering of the current time. */
  function EmailBody(streamName: string, message: string, when: string): string
  {
    "An alert was triggered for stream: \"" + streamName + "\"\n\nMessage: " + message + "\n\nTimestamp: " + when
  }

  /** The supervisor's state. The e-mail flag is a plain sequential flag here. */
  class Supervisor {
    var cells: seq<Cell>
    var soloCellId: Option<string>
    var globalRefreshKey: int
    var masterMute: bool
    var audibleAlertsEnabled: bool
    var alertLog: seq<AlertEntry>
    var isAlertLogOpen: bool
    var hasUnreadAlerts: bool
    var emailAddress: string
    var emailAlertsEnabled: bool
    var isSendingEmail: bool

    /** The initial state, with the cells and e-mail settings of the loaded
        (or default) configuration. */
    constructor (cells: seq<Cell>, emailAddress: string, emailAlertsEnabled: bool)
      ensures this.cells == cells && this.emailAddress == emailAddress
      ensures this.emailAlertsEnabled == emailAlertsEnabled
      ensures soloCellId == None && globalRefreshKey == 0 && !masterMute && audibleAlertsEnabled
      ensures alertLog == [] && !isAlertLogOpen && !hasUnreadAlerts && !isSendingEmail
    {
      this.cells := cells;
      this.emailAddress := emailAddress;
      this.emailAlertsEnabled := emailAlertsEnabled;
      soloCellId := None;
      globalRefreshKey := 0;
      masterMute := false;
      audibleAlertsEnabled := true;
      alertLog := [];
      isAlertLogOpen := false;
      hasUnreadAlerts := false;
      isSendingEmail := false;
    }

    /** `sendEmailAlert`, up to the request: dropped while another send is in
        flight, otherwise marks a send in flight and dispatches. */
    method SendEmailAlert(to: string, subject: string, body: string) returns (sent: Option<EmailRequest>)
      modifies this`isSendingEmail
      ensures sent.Some? <==> !old(isSendingEmail)
      ensures sent.Some? ==> sent.value == EmailRequest(to, subject, body)
      ensures isSendingEmail
    {
      if isSendingEmail {
        return None;
      }
      isSendingEmail := true;
      sent := Some(EmailRequest(to, subject, body));
    }

    /** The request settles: the in-flight flag is cleared on success and on
        failure alike, and nothing reaches the alert log. */
    method EmailSettled(succeeded: bool)
      modifies this`isSendingEmail
      ensures !isSendingEmail
    {
      isSendingEmail := false;
    }

    /** `addAlert`: the new entry goes to the head of the log; the unread flag
        is raised unless the log is open; an Error alert plays the sound when
        audible alerts are on and sends an e-mail when e-mail alerts are on, an
        address is set and no send is in flight. */
    method AddAlert(streamName: string, message: string, kind: AlertType, now: int, when: string)
      returns (playSound: bool, email: Option<EmailRequest>)
      modifies this`alertLog, this`hasUnreadAlerts, this`isSendingEmail
      ensures alertLog == [AlertEntry(now, now, streamName, message, kind)] + old(alertLog)
      ensures hasUnreadAlerts == (old(hasUnreadAlerts) || !isAlertLogOpen)
      ensures playSound <==> kind == AlertType.Error && audibleAlertsEnabled
      ensures email.Some? <==>
                kind == AlertType.Error && emailAlertsEnabled && emailAddress != "" && !old(isSendingEmail)
      ensures email.Some? ==>
                email.value == EmailRequest(emailAddress, EmailSubject(streamName), EmailBody(streamName, message, when))
      ensures isSendingEmail == (old(isSendingEmail) || email.Some?)
    {
      alertLog := [AlertEntry(now, now, streamName, message, kind)] + alertLog;
      if !isAlertLogOpen {
        hasUnreadAlerts := true;
      }
      playSound := false;
      email := None;
      if kind == AlertType.Error {
        playSound := audibleAlertsEnabled;
        if emailAlertsEnabled && emailAddress != "" {
          email := SendEmailAlert(emailAddress, EmailSubject(streamName), EmailBody(streamName, message, when));
        }
      }
    }

    /** Opening the alert log marks everything read. */
    method OpenAlertLog()
      modifies this`isAlertLogOpen, this`hasUnreadAlerts
      ensures isAlertLogOpen && !hasUnreadAlerts
    {
      isAlertLogOpen := true;
      hasUnreadAlerts := false;
    }

    method CloseAlertLog()
      modifies this`isAlertLogOpen
      ensures !isAlertLogOpen
    {
      isAlertLogOpen := false;
    }

    /** Clearing empties the log and leaves the unread flag alone. */
    method ClearAlertLog()
      modifies this`alertLog
      ensures alertLog == []
    {
      alertLog := [];
    }

    /** Refresh-all: the next generation, which every controller watches. */
    method RefreshAllStreams()
      modifies this`globalRefreshKey
      ensures globalRefreshKey == old(globalRefreshKey) + 1
    {
      globalRefreshKey := globalRefreshKey + 1;
    }

    /** `addCell`: build the item from the form and the files' data URLs and
        append the new cell at the end. */
    method AddCell(cellType: CellType, urls: seq<string>, names: seq<string>,
                   imageFiles: seq<Option<File>>, titleImageFiles: seq<Option<File>>,
                   backgroundTypes: seq<AudioBackgroundType>, backgroundVideoFiles: seq<Option<File>>, now: nat)
      requires |urls| >= 1 && |names| >= 1
      modifies this`cells
      ensures cells == old(cells) + [Cell(CellId(now), cellType,
                 BuildItem(cellType, urls, names, ResolveSlots(imageFiles, []), ResolveSlots(titleImageFiles, []),
                           backgroundTypes, ResolveSlots(backgroundVideoFiles, []), ""))]
    {
      var item := BuildItem(cellType, urls, names, ResolveSlots(imageFiles, []), ResolveSlots(titleImageFiles, []),
                            backgroundTypes, ResolveSlots(backgroundVideoFiles, []), "");
      cells := cells + [Cell(CellId(now), cellType, item)];
    }

    /** `updateCell`: slots without a new file keep the original's URLs, an
        image cell without a new picture keeps its picture, and only the cell
        with the original's id is replaced. The type cannot change in an edit. */
    method UpdateCell(original: Cell, urls: seq<string>, names: seq<string>,
                      imageFiles: seq<Option<File>>, titleImageFiles: seq<Option<File>>,
                      backgroundTypes: seq<AudioBackgroundType>, backgroundVideoFiles: seq<Option<File>>)
      requires WellTyped(original) && |urls| >= 1 && |names| >= 1
      modifies this`cells
      ensures var item := BuildItem(original.cellType, urls, names,
                                    ResolveSlots(imageFiles, ExistingUrls(original.item, ImageUrls)),
                                    ResolveSlots(titleImageFiles, ExistingUrls(original.item, TitleImageUrls)),
                                    backgroundTypes,
                                    ResolveSlots(backgroundVideoFiles, ExistingUrls(original.item, BackgroundVideoUrls)),
                                    if original.item.ImageItem? then original.item.imageUrl else "");
              cells == ReplaceById(old(cells), original.id, original.cellType, item)
    {
      var item := BuildItem(original.cellType, urls, names,
                            ResolveSlots(imageFiles, ExistingUrls(original.item, ImageUrls)),
                            ResolveSlots(titleImageFiles, ExistingUrls(original.item, TitleImageUrls)),
                            backgroundTypes,
                            ResolveSlots(backgroundVideoFiles, ExistingUrls(original.item, BackgroundVideoUrls)),
                            if original.item.ImageItem? then original.item.imageUrl else "");
      cells := ReplaceById(cells, original.id, original.cellType, item);
    }

    /** `removeCell`: drop the cells with this id and leave solo view if it was
        the solo cell. */
    method RemoveCell(id: string)
      modifies this`cells, this`soloCellId
      ensures cells == RemoveById(old(cells), id)
      ensures soloCellId == if old(soloCellId) == Some(id) then None else old(soloCellId)
    {
      cells := RemoveById(cells, id);
      if soloCellId == Some(id) {
        soloCellId := None;
      }
    }

    method SetSoloCellId(id: Option<string>)
      modifies this`soloCellId
      ensures soloCellId == id
    {
      soloCellId := id;
    }

    /** `setMasterMute`, from the control panel. The flag is passed down to
        every player, so the wall's mute silences every analyser output, and
        unmuting leaves each player to its own mute. */
    /** `setAudibleAlertsEnabled`, from the control panel. */
    method SetAudibleAlertsEnabled(enabled: bool)
      modifies this`audibleAlertsEnabled
      ensures audibleAlertsEnabled == enabled
    {
      audibleAlertsEnabled := enabled;
    }

    /** `setEmailAlertsEnabled`, from the e-mail settings. */
    method SetEmailAlertsEnabled(enabled: bool)
      modifies this`emailAlertsEnabled
      ensures emailAlertsEnabled == enabled
    {
      emailAlertsEnabled := enabled;
    }

    /** `setEmailAddress`, from the e-mail settings. */
    method SetEmailAddress(address: string)
      modifies this`emailAddress
      ensures emailAddress == address
    {
      emailAddress := address;
    }

    method SetMasterMute(muted: bool)
      modifies this`masterMute
      ensures masterMute == muted
      ensures muted ==> forall isMuted :: Player.AnalyserArguments(isMuted, masterMute).0
      ensures !muted ==> forall isMuted :: Player.AnalyserArguments(isMuted, masterMute).0 == isMuted
    {
      masterMute := muted;
    }
  }
}
