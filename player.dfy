/** The player component around one stream: the status-transition alert rule
    with its remembered previous status, the mute arguments it hands the audio
    analyser, and the solo toggle. */
module Player {
  import opened Types
  import HlsPlayer
  import Grid

  /** A call `addAlert(streamName, message, type)`. */
  datatype AlertRequest = AlertRequest(streamName: string, message: string, kind: AlertType)

  /** `title || url`: the title when it is present and non-empty, else the URL. */
  function StreamIdentifier(title: Option<string>, url: string): string
  {
    if title.Some? && title.value != "" then title.value else url
  }

  lemma StreamIdentifierChoice(title: Option<string>, url: string)
    ensures title.Some? && title.value != "" ==> StreamIdentifier(title, url) == title.value
    ensures title.None? || title.value == "" ==> StreamIdentifier(title, url) == url
  {
  }

  predicate IsFailure(s: StreamStatus) { s == StreamStatus.Error || s == Stalled }

  /** The alerts one run of the effect raises, from the previous and the new
      status: the failure check, then the recovery check. */
  function StatusAlerts(prev: StreamStatus, status: StreamStatus, identifier: string): seq<AlertRequest>
  {
    (if (status == StreamStatus.Error || status == Stalled) &&
        (prev == Connected || prev == Idle || prev == Connecting)
     then [AlertRequest(identifier,
                        if status == StreamStatus.Error then "Fatal error detected" else "Stream stalled",
                        AlertType.Error)]
     else [])
    +
    (if status == Connected && (prev == StreamStatus.Error || prev == Stalled)
     then [AlertRequest(identifier, "Stream recovered", Recovery)]
     else [])
  }

  /** At most one alert per run; an Error alert exactly on entering Error or
      Stalled from a healthy or connecting status, a Recovery alert exactly on
      reaching Connected from Error or Stalled; both name the stream and carry
      the message for the case. */
  lemma StatusAlertsRule(prev: StreamStatus, status: StreamStatus, identifier: string)
    ensures var alerts := StatusAlerts(prev, status, identifier);
      && |alerts| <= 1
      && (|alerts| == 1 && alerts[0].kind == AlertType.Error <==> IsFailure(status) && !IsFailure(prev))
      && (|alerts| == 1 && alerts[0].kind == Recovery <==> status == Connected && IsFailure(prev))
      && (|alerts| == 1 ==> alerts[0].streamName == identifier)
      && (|alerts| == 1 ==>
            alerts[0].message == (if status == StreamStatus.Error then "Fatal error detected"
                                  else if status == Stalled then "Stream stalled"
                                  else "Stream recovered"))
  {
  }

  /** A run with an unchanged status raises nothing. */
  lemma NoAlertWithoutChange(status: StreamStatus, identifier: string)
    ensures StatusAlerts(status, status, identifier) == []
  {
  }

  /** The alert effect of one player: `prevStatusRef` starts Idle and each run
      compares it with the current status, then overwrites it. */
  class AlertEffect {
    var prevStatus: StreamStatus

    constructor ()
      ensures prevStatus == Idle
    {
      prevStatus := Idle;
    }

    method Run(status: StreamStatus, title: Option<string>, url: string) returns (alerts: seq<AlertRequest>)
      modifies this
      ensures prevStatus == status
      ensures alerts == StatusAlerts(old(prevStatus), status, StreamIdentifier(title, url))
    {
      alerts := StatusAlerts(prevStatus, status, StreamIdentifier(title, url));
      prevStatus := status;
    }
  }

  /** The alerts raised when the effect runs after each of `writes` in turn,
      starting from `prev`. */
  function AlertsOver(prev: StreamStatus, writes: seq<StreamStatus>, identifier: string): seq<AlertRequest>
    decreases writes
  {
    if writes == [] then []
    else StatusAlerts(prev, writes[0], identifier) + AlertsOver(writes[0], writes[1..], identifier)
  }

  /** Running the effect over two stretches of writes is running it over the
      first, then over the second from where the first ended. */
  lemma {:induction false} AlertsOverAppend(prev: StreamStatus, a: seq<StreamStatus>, b: seq<StreamStatus>, identifier: string)
    ensures AlertsOver(prev, a + b, identifier) ==
            AlertsOver(prev, a, identifier) + AlertsOver(HlsPlayer.LastWrite([prev] + a), b, identifier)
    decreases a
  {
    if a == [] {
      assert a + b == b;
    } else {
      assert (a + b)[1..] == a[1..] + b;
      assert HlsPlayer.LastWrite([prev] + a) == HlsPlayer.LastWrite([a[0]] + a[1..]);
      AlertsOverAppend(a[0], a[1..], b, identifier);
    }
  }

  /** `isMuted || masterMute` and the fixed volume 1: the arguments the player
      passes to the audio analyser. */
  function AnalyserArguments(isMuted: bool, masterMute: bool): (args: (bool, real))
  {
    (isMuted || masterMute, 1.0)
  }

  /** Each player starts locally muted. */
  const InitialLocalMute: bool := true

  lemma AnalyserArgumentsRule(isMuted: bool, masterMute: bool)
    ensures AnalyserArguments(isMuted, masterMute).0 <==> isMuted || masterMute
    ensures AnalyserArguments(isMuted, masterMute).1 == 1.0
    ensures AnalyserArguments(InitialLocalMute, masterMute).0
  {
  }

  /** `handleSoloClick`: when a setter and a non-empty cell id are given, the
      call made, with null (None) for a solo cell and the cell's id otherwise;
      no call at all (None) otherwise. */
  function SoloClick(hasSetter: bool, cellId: Option<string>, isSolo: bool): (call: Option<Option<string>>)
    ensures call.Some? <==> hasSetter && cellId.Some? && cellId.value != ""
    ensures call.Some? ==> (call.value.None? <==> isSolo)
    ensures call.Some? && call.value.Some? ==> call.value.value == cellId.value
  {
    if hasSetter && cellId.Some? && cellId.value != "" then
      Some(if isSolo then None else Some(cellId.value))
    else None
  }

  /** The click applied to the grid: with a setter and a non-empty id, a
      cell of the full grid is shown alone, as solo, and the solo cell brings
      back every cell, none solo; without a setter or an id the solo selection
      stays as it was. */
  lemma SoloClickEffect(cells: seq<Cell>, k: nat, hasSetter: bool, isSolo: bool, current: Option<string>)
    requires k < |cells|
    ensures SoloClick(hasSetter, None, isSolo).None?
    ensures var call := SoloClick(hasSetter, Some(cells[k].id), isSolo);
      var next := if call.Some? then call.value else current;
      && (hasSetter && cells[k].id != "" && !isSolo ==>
            |Grid.Render(cells, next)| == 1 && Grid.Render(cells, next)[0].isSolo &&
            Grid.Render(cells, next)[0].cell.id == cells[k].id)
      && (hasSetter && cells[k].id != "" && isSolo ==>
            |Grid.Render(cells, next)| == |cells| &&
            forall i :: 0 <= i < |cells| ==> Grid.Render(cells, next)[i] == Grid.Rendered(cells[i], false))
      && (!hasSetter || cells[k].id == "" ==> next == current)
  {
    Grid.RenderRule(cells, Some(cells[k].id));
    Grid.RenderRule(cells, None);
  }

  /** A media-element error on a connected stream, then the retry: one Error
      alert ("Fatal error detected") and, because the retry goes through
      Connecting, no Recovery alert when playback resumes. */
  method MediaErrorRetryScenario() returns (alerts: seq<AlertRequest>, attempt: nat, delay: real)
    ensures alerts == [AlertRequest("Cam", "Fatal error detected", AlertType.Error)]
    ensures delay == 1000.0 && attempt == 0
  {
    var c := new HlsPlayer.ConnectionController("https://cam/live.m3u8", true, HlsPlayer.HlsJs, 0);
    c.OnPlaying();
    c.OnError();
    var t := c.timerRef.value;
    delay := c.pending[t];
    HlsPlayer.RetryDelayBounds(0);
    c.FireTimer(t);
    c.OnPlaying();
    var w := c.writes;
    assert w == [Connecting, Connected, StreamStatus.Error, Connecting, Connecting, Connected];
    var id := StreamIdentifier(Some("Cam"), "https://cam/live.m3u8");
    assert AlertsOver(Connecting, w[5..], id) == [];
    assert AlertsOver(Connecting, w[4..], id) == [];
    assert AlertsOver(StreamStatus.Error, w[3..], id) == [];
    assert AlertsOver(Connected, w[2..], id) == [AlertRequest("Cam", "Fatal error detected", AlertType.Error)];
    assert AlertsOver(Connecting, w[1..], id) == AlertsOver(Connected, w[2..], id);
    alerts := AlertsOver(Idle, w, id);
    attempt := c.attempt;
  }

  /** Buffering on a connected stream, then playback again: a "Stream stalled"
      Error alert followed by a Recovery alert. */
  method WaitingRecoveryScenario() returns (alerts: seq<AlertRequest>)
    ensures alerts == [AlertRequest("Cam", "Stream stalled", AlertType.Error),
                       AlertRequest("Cam", "Stream recovered", Recovery)]
  {
    var c := new HlsPlayer.ConnectionController("https://cam/live.m3u8", true, HlsPlayer.HlsJs, 0);
    c.OnPlaying();
    c.OnWaiting();
    c.OnPlaying();
    var w := c.writes;
    assert w == [Connecting, Connected, Stalled, Connected];
    var id := StreamIdentifier(Some("Cam"), "https://cam/live.m3u8");
    assert AlertsOver(Stalled, w[3..], id) == [AlertRequest("Cam", "Stream recovered", Recovery)];
    assert AlertsOver(Connected, w[2..], id) ==
      [AlertRequest("Cam", "Stream stalled", AlertType.Error), AlertRequest("Cam", "Stream recovered", Recovery)];
    assert AlertsOver(Connecting, w[1..], id) == AlertsOver(Connected, w[2..], id);
    alerts := AlertsOver(Idle, w, id);
  }

  /** A fatal HLS.js error on a connected stream only schedules a retry: the
      stream goes to Connecting and no alert is raised. */
  method FatalHlsErrorScenario() returns (alerts: seq<AlertRequest>, status: StreamStatus)
    ensures alerts == [] && status == Connecting
  {
    var c := new HlsPlayer.ConnectionController("https://cam/live.m3u8", true, HlsPlayer.HlsJs, 0);
    c.OnPlaying();
    c.OnHlsError(true, HlsPlayer.OtherDetails("fragLoadError"));
    var w := c.writes;
    assert w == [Connecting, Connected, Connecting];
    var id := StreamIdentifier(Some("Cam"), "https://cam/live.m3u8");
    assert AlertsOver(Connected, w[2..], id) == [];
    assert AlertsOver(Connecting, w[1..], id) == [];
    alerts := AlertsOver(Idle, w, id);
    status := c.status;
  }
}
