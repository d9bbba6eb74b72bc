# HLS multiviewer: supervision core in Dafny

This project models the core of a browser-based HLS multiviewer, a wall of
live audio and video streams watched by an operator, and proves properties
of that model. The model covers:

- **the per-stream connection controller** (`useHlsPlayer`):
  - five states: Idle, Connecting, Connected, Error and Stalled;
  - one cancellable retry timer;
  - capped exponential backoff;
  - the media-element and HLS.js error handlers;
  - manual refresh and refresh of the whole wall;
- **the player's alert rule**: the previous status is remembered, and an
  Error or Recovery alert is raised on the transitions that call for one;
- **the supervisor**:
  - the alert log, its unread flag, and routing Error alerts to sound and
    e-mail (with one e-mail in flight at a time);
  - the refresh generation;
  - adding, editing and removing cells, and the solo selection;
- **the add/edit form**: its state, how edit mode prefills and pads the
  slots, the per-slot edits and the submit validation;
- **the e-mail address check** of the control panel;
- **the quad-audio cell**: per-slot statuses, the failure outline and the
  per-slot fallbacks;
- **the grid**: reading the "CxR" layout, and the solo or full-grid choice;
- **the VU meter arithmetic**: segment count, clamping, lit segments,
  colours and labels;
- **the audio analyser**: the level loop over a frame of frequency bins,
  the output gain, and the audio graph built once and torn down;
- **the alert-sound service**: the latched lazy initialisation and its
  guards.

Each source file is one Dafny module:

| module | file |
|---|---|
| `Types` | `types.dfy` |
| `Text` | `text.dfy` (the JavaScript string operations the code relies on) |
| `HlsPlayer` | `hls_player.dfy` |
| `Player` | `player.dfy` |
| `App` | `app.dfy` |
| `AddCellModal` | `add_cell_modal.dfy` |
| `ControlPanel` | `control_panel.dfy` |
| `QuadAudioCell` | `quad_audio_cell.dfy` |
| `Grid` | `grid.dfy` |
| `VUMeter` | `vu_meter.dfy` |
| `AudioAnalyser` | `audio_analyser.dfy` |
| `AudioAlertService` | `audio_alert_service.dfy` |

Code that changes state step by step is written as classes:
- the controller, the alert effect, the supervisor and the form;
- the quad cell's status map, the audio graph and the sound service.

Each of these has `modifies` frames and states its whole new state.
Expressions become functions, with lemmas about them.

## How the model treats the source

- **Status writes**:
  - every `setStatus` is one write, recorded in `writes`;
  - the status a handler's guard reads is the last write.
  - The alert rule runs over the sequence of writes (`Player.AlertsOver`).
- **Timers**:
  - a timer is the number `setTimeout` returned, mapped to its delay in
    `pending`; `timerRef` is `retryTimerRef`;
  - a timer that comes due is `FireTimer`;
  - elapsed time is not modelled.
- **Handler inputs**:
  - whether `play()` is rejected;
  - whether the audio constructors throw;
  - the state the browser gives a new audio context;
  - the data URL of a picked file;
  - the clock reading.
- **Behaviour of the code worth knowing.** The model states each of these
  as the code has it.
  - A fatal or critical HLS.js error only schedules a retry. It shows
    Connecting, never Error, and raises no alert.
    `Player.FatalHlsErrorScenario` shows this.
  - A media-element `error` writes Error and then, through
    `scheduleRetry`, Connecting. `stalled` writes Stalled and then
    Connecting.
    - Error is therefore never the status a handler leaves behind: this is
      part of `HlsPlayer.ConnectionController.Valid`.
    - When such a retry succeeds, the player goes Connecting → Connected,
      so no Recovery alert is raised (`Player.MediaErrorRetryScenario`).
    - A Recovery alert follows only `waiting` (Stalled, no retry) and then
      `playing` (`Player.WaitingRecoveryScenario`).
  - A new refresh generation re-initialises the controller and cancels
    its timer, but leaves the attempt counter as it is.
  - The manual refresh resets the attempt counter to 0.
  - The attempt counter goes up when the retry timer fires, not when the
    retry is scheduled.
  - Alert ids are the clock reading at the time the alert is raised.
    Nothing makes them strictly increasing.
  - The e-mail address is stored even when it fails the check. The check
    only sets the message.
  - The audio graph is built once per media element: the effect's
    dependencies never change. A second run of the build effect on the same
    element only happens when React runs the effect twice in a row (its
    development mode does this).
    - The Web Audio API allows one source node per media element, and
      disconnecting does not release it. So the second build creates a new
      context, fails to attach a source and wires nothing.
    - Its gain ref is still the first build's node, which no longer feeds
      the output. A volume change then aims at that node
      (`AudioAnalyser.RebuildScenario`).

## Model

| member | source | states |
|---|---|---|
| HlsPlayer.RetryDelayBounds | hooks/useHlsPlayer.ts:12-14 | the delay `min(1000·1.5^attempt, 30000)` is 1000 at attempt 0 and always lies in [1000, 30000] |
| HlsPlayer.RetryDelayMonotone | hooks/useHlsPlayer.ts:49-52 | a later attempt never waits less than an earlier one |
| HlsPlayer.RetryDelaySchedule | hooks/useHlsPlayer.ts:49-52 | the delays for attempts 0 to 8 are 1000, 1500, 2250, 3375, 5062.5, 7593.75, 11390.625, 17085.9375 and 25628.90625; they strictly increase up to attempt 9, and from attempt 9 on the delay is the 30000 cap |
| HlsPlayer.ConnectionController.constructor | hooks/useHlsPlayer.ts:21-31 | mounting starts Idle with attempt 0 and no timer; then the effect shows Idle with no listeners (no source or no media element), or attaches the listeners and shows Connecting with HLS.js or native HLS; an unsupported browser gets the listeners but stays Idle |
| HlsPlayer.ConnectionController.ClearRetryTimer | hooks/useHlsPlayer.ts:33-38 | the timer `timerRef` names is cancelled and the ref cleared; other timers are untouched |
| HlsPlayer.ConnectionController.ScheduleRetry | hooks/useHlsPlayer.ts:46-66 | the old timer is cancelled and exactly one timer is armed, with the delay of the current attempt; Connecting is written unless it is already the status |
| HlsPlayer.ConnectionController.Setup | hooks/useHlsPlayer.ts:69-172 | with no source or no media element: write Idle and attach nothing; otherwise the listeners are attached, and HLS.js or native HLS writes Connecting while an unsupported browser writes nothing |
| HlsPlayer.ConnectionController.Cleanup | hooks/useHlsPlayer.ts:176-190 | cancels the timer, destroys HLS.js and removes the listeners |
| HlsPlayer.ConnectionController.Reinitialize | hooks/useHlsPlayer.ts:174-191 | a re-run of the effect leaves no timer pending and restores the controller invariant |
| HlsPlayer.ConnectionController.OnPlaying | hooks/useHlsPlayer.ts:78-83 | writes Connected, cancels the timer and resets the attempt counter to 0 |
| HlsPlayer.ConnectionController.OnWaiting | hooks/useHlsPlayer.ts:85-90 | writes Stalled exactly when the status is Connected; schedules no retry |
| HlsPlayer.ConnectionController.OnError | hooks/useHlsPlayer.ts:92-98 | unless the status is Error or Connecting: writes Error, then Connecting, and arms one timer; otherwise changes nothing |
| HlsPlayer.ConnectionController.OnStalled | hooks/useHlsPlayer.ts:100-107 | from Connected: writes Stalled, then Connecting, and arms one timer; from any other status changes nothing |
| HlsPlayer.ConnectionController.OnCanPlay | hooks/useHlsPlayer.ts:109-115 | a rejected `play()` writes Idle, not Error; otherwise nothing is written |
| HlsPlayer.ConnectionController.OnHlsError | hooks/useHlsPlayer.ts:142-159 | a retry is scheduled iff the error is fatal or one of the four critical kinds; it leaves Connecting and never writes Error |
| HlsPlayer.ConnectionController.FireTimer | hooks/useHlsPlayer.ts:61-64 | a cancelled timer does nothing; the armed timer raises the attempt counter by exactly 1 and `refreshCount` by 1, then re-initialises |
| HlsPlayer.ConnectionController.RefreshStream | hooks/useHlsPlayer.ts:193-197 | cancels the timer, resets the attempt counter to 0, bumps `refreshCount` and re-initialises |
| HlsPlayer.ConnectionController.SetGlobalRefreshKey | hooks/useHlsPlayer.ts:191 | a new refresh generation re-initialises and cancels the timer, but keeps the attempt counter |
| HlsPlayer.ConnectionController.SetSource | hooks/useHlsPlayer.ts:69-73 | a new source re-initialises; an empty source shows Idle with no listeners and no timer |
| HlsPlayer.ConnectionController.Unmount | hooks/useHlsPlayer.ts:176-190 | after unmounting nothing is pending or listening |
| HlsPlayer.AtMostOnePendingTimer | hooks/useHlsPlayer.ts:33-38 | in every reachable state at most one retry timer is pending |
| Player.StreamIdentifierChoice | components/Player.tsx:84 | the alert names the title when it is non-empty, otherwise the URL |
| Player.StatusAlertsRule | components/Player.tsx:86-96 | each run raises at most one alert. An Error alert is raised iff the status enters Error or Stalled from Connected, Idle or Connecting. A Recovery alert is raised iff the status reaches Connected from Error or Stalled. The messages are "Fatal error detected", "Stream stalled" and "Stream recovered" |
| Player.NoAlertWithoutChange | components/Player.tsx:98 | a re-run with an unchanged status raises nothing |
| Player.AlertEffect.constructor | components/Player.tsx:67 | the previous status starts Idle |
| Player.AlertEffect.Run | components/Player.tsx:80-99 | raises the alerts for (previous, current) and then remembers the current status |
| Player.AlertsOverAppend | components/Player.tsx:80-99 | running the effect over two stretches of writes is running it over the first, then over the second from the status the first ended in |
| Player.AnalyserArgumentsRule | components/Player.tsx:74-78 | the analyser is muted iff the local or the master mute is on; its volume is always 1; the local mute starts on |
| Player.SoloClick | components/Player.tsx:112-116 | with a setter and a non-empty cell id, the solo selection becomes null for a solo cell and the cell's id otherwise; without them, no call is made |
| Player.SoloClickEffect | components/Player.tsx:112-116 | applied to the grid, the click on a cell of the full grid shows that cell alone, as solo, and the click on the solo cell brings back every cell, none solo; without a setter or an id the selection stays as it was |
| Player.MediaErrorRetryScenario | hooks/useHlsPlayer.ts:92-98 | playing, then a media error, then the retry firing, then playing again: one "Fatal error detected" alert, a first delay of 1000, the attempt counter back at 0, and no Recovery alert |
| Player.WaitingRecoveryScenario | components/Player.tsx:94-96 | playing, then buffering, then playing again: a "Stream stalled" alert followed by a "Stream recovered" alert |
| Player.FatalHlsErrorScenario | hooks/useHlsPlayer.ts:155-158 | a fatal HLS.js error on a playing stream leaves it Connecting and raises no alert |
| App.QuadNameRule | App.tsx:239 | a quad cell's name is its first non-blank stream name, or "Quad Audio" when every name is blank |
| App.ResolveSlots | App.tsx:278-280 | a slot with a new file gets that file's data URL; every other slot keeps its existing URL |
| App.BuildItemShape | App.tsx:221-245 | a video item keeps only the first URL and name; an image item keeps the first name, and its picture is the first data URL when truthy, else the fallback; a quad item keeps every URL, every name, every background type, and the picture, title picture and background video lists as given |
| App.CellIdInjective | App.tsx:249 | cells added at different clock readings get different ids |
| App.ReplaceByIdEffect | App.tsx:295 | only the cells with the edited id are replaced, with the new type and item; every other cell is unchanged and in place |
| App.RemoveByIdMembers | App.tsx:309 | removal keeps exactly the cells whose id differs |
| App.RemoveByIdOrder | App.tsx:309 | removal works piece by piece, so the kept cells keep their order |
| App.RemoveAbsentId | App.tsx:309 | removing an id that no cell has changes nothing |
| App.Supervisor.constructor | App.tsx:29-47 | the initial state: no solo cell, generation 0, audible alerts on, empty log, nothing unread, no e-mail in flight |
| App.Supervisor.SendEmailAlert | App.tsx:71-73 | the request is dropped while a send is in flight; otherwise it is sent, and a send is then in flight |
| App.Supervisor.EmailSettled | App.tsx:94-96 | the in-flight flag is cleared on success and on failure alike |
| App.Supervisor.AddAlert | App.tsx:99-117 | the new entry goes to the head of the log and the earlier entries keep their order. The unread flag is raised only while the log is closed. The sound plays iff the alert is an Error and audible alerts are on. An e-mail with the subject and body is sent iff the alert is an Error, e-mail alerts are on, the address is non-empty and no send is in flight |
| App.Supervisor.OpenAlertLog | App.tsx:119-122 | opening the log clears the unread flag |
| App.Supervisor.CloseAlertLog | App.tsx:124-126 | closes the log view |
| App.Supervisor.ClearAlertLog | App.tsx:128-130 | clearing empties the log and leaves the unread flag alone |
| App.Supervisor.RefreshAllStreams | App.tsx:161-163 | the refresh generation goes up by exactly 1 |
| App.Supervisor.AddCell | App.tsx:211-255 | the built cell, with id `cell-<now>`, is appended at the end |
| App.Supervisor.UpdateCell | App.tsx:257-297 | the cell with the original's id is replaced by the rebuilt item; slots without a new file keep the original's URLs, and an image cell without a new picture keeps its picture |
| App.Supervisor.RemoveCell | App.tsx:308-313 | removes the cells with this id and clears the solo selection only if it named that id |
| App.Supervisor.SetSoloCellId | App.tsx:35 | the solo selection becomes the given id |
| App.Supervisor.SetAudibleAlertsEnabled | App.tsx:39 | the audible-alert switch becomes the given flag |
| App.Supervisor.SetEmailAlertsEnabled | App.tsx:46 | the e-mail-alert switch becomes the given flag |
| App.Supervisor.SetEmailAddress | App.tsx:45 | the alert address becomes the given string |
| App.Supervisor.SetMasterMute | App.tsx:33 | the wall's mute becomes the given flag; while it is on every player's analyser output is muted, and while it is off each player follows its own mute |
| AddCellModal.Put | components/AddCellModal.tsx:80-114 | a per-index change sets that index and leaves every other slot unchanged |
| AddCellModal.PadToSlots | components/AddCellModal.tsx:33-43 | padding keeps the existing prefix and fills with the given value up to four slots |
| AddCellModal.FilledCountRange | components/AddCellModal.tsx:134 | the count of filled URLs is at most the number of URLs, and is positive iff some URL is not blank |
| AddCellModal.AcceptedForm | components/AddCellModal.tsx:116-145 | an accepted form guarantees: a non-blank first name for a video or image cell; exactly one filled URL for a video cell; a picture for a new image cell; at least one filled URL for a video or quad cell |
| AddCellModal.RejectedMessages | components/AddCellModal.tsx:120-132 | the name and picture messages each appear iff their check is the first to fail; the name checks apply only to their own cell type; a quad cell's names are never checked |
| AddCellModal.RejectedUrlMessages | components/AddCellModal.tsx:134-142 | "Video cell requires exactly one HLS URL." appears iff a named video cell has other than one non-blank URL; the quad-audio message appears iff every URL of a quad-audio cell is blank |
| AddCellModal.CellForm.constructor | components/AddCellModal.tsx:14-59 | the initial form, then the prefill: an empty one-stream video form when adding; when editing, the cell's type, URLs and names, a quad cell's padded to four slots with its background types, and the file inputs cleared |
| AddCellModal.CellForm.Load | components/AddCellModal.tsx:23-59 | edit mode copies the type, URLs and names; a quad cell is padded to four slots with '', '' and Image; every file input is cleared; add mode resets to an empty one-stream video form |
| AddCellModal.CellForm.HandleTypeChange | components/AddCellModal.tsx:61-78 | switching to quad audio resets every slot array to four blank or default entries; any other type resets to one blank slot |
| AddCellModal.CellForm.HandleUrlChange | components/AddCellModal.tsx:80-84 | only the URL at the index changes |
| AddCellModal.CellForm.HandleStreamNameChange | components/AddCellModal.tsx:86-90 | only the name at the index changes |
| AddCellModal.CellForm.HandleFileChange | components/AddCellModal.tsx:92-96 | only the picture at the index changes; a cleared input empties it |
| AddCellModal.CellForm.HandleTitleFileChange | components/AddCellModal.tsx:98-102 | only the title picture at the index changes |
| AddCellModal.CellForm.HandleBackgroundTypeChange | components/AddCellModal.tsx:104-108 | only the background type at the index changes |
| AddCellModal.CellForm.HandleBackgroundVideoFileChange | components/AddCellModal.tsx:110-114 | only the background video at the index changes |
| AddCellModal.CellForm.HandleSubmit | components/AddCellModal.tsx:116-145 | the error shows the first failed check, or is cleared; the form is saved iff it passes, unfiltered and with at least one URL and one name |
| ControlPanel.EmailShapedMatches | components/ControlPanel.tsx:71 | the field-by-field check accepts exactly the strings that match `^[^\s@]+@[^\s@]+\.[^\s@]+$` |
| ControlPanel.ValidateEmailRule | components/ControlPanel.tsx:70-77 | an address is accepted iff it is empty or matches the pattern; the error message is set iff it is rejected |
| ControlPanel.ValidAddressShape | components/ControlPanel.tsx:71 | a valid non-empty address has no whitespace and exactly one '@', with text before it; after the '@' is a '.' with text on both sides |
| ControlPanel.AcceptsUsualAddress | components/ControlPanel.tsx:71 | "ops@example.com" is accepted |
| ControlPanel.RejectsDotlessDomain | components/ControlPanel.tsx:71 | "ops@example" is rejected |
| ControlPanel.RejectsSpace | components/ControlPanel.tsx:71 | "ops @example.com", with a space in its local part, is rejected (the general rule is `ValidAddressShape`'s) |
| ControlPanel.EmailSettings.Validate | components/ControlPanel.tsx:70-77 | the verdict and the message shown are those of the check |
| ControlPanel.EmailSettings.HandleEmailChange | components/ControlPanel.tsx:79-83 | the supervisor's alert address becomes the new text whether or not it passes; the message follows the check |
| QuadAudioCell.SlotStatuses.constructor | components/QuadAudioCell.tsx:44 | no slot has a status until its player reports one |
| QuadAudioCell.SlotStatuses.HandleStatusChange | components/QuadAudioCell.tsx:47-49 | the reported slot's status becomes the new one; every other slot keeps its own |
| QuadAudioCell.SlotStatuses.StatusOf | components/QuadAudioCell.tsx:114 | a slot's status is present iff its player has reported one, and is then the last reported |
| QuadAudioCell.OutlineRule | components/QuadAudioCell.tsx:51-60 | the glow is drawn iff the slot is Connecting, Error or Stalled; Idle, Connected and unreported slots get a transparent border |
| QuadAudioCell.SlotsRule | components/QuadAudioCell.tsx:105-146 | always four slots; a slot shows a player iff its URL is present and non-empty. Names fall back to the cell name and background types to Image; the other per-slot fields are taken as stored |
| QuadAudioCell.TitleFallback | components/QuadAudioCell.tsx:108 | a slot whose name is missing or empty is titled with the cell's name |
| QuadAudioCell.SoloToggle | components/QuadAudioCell.tsx:62-64 | the solo selection becomes null for a solo cell and the cell's id otherwise |
| QuadAudioCell.SoloToggleEffect | components/QuadAudioCell.tsx:62-64 | applied to the grid, the toggle on a cell of the full grid shows that cell alone, as solo, and on the solo cell brings back every cell, none solo |
| Grid.ParseLayout | components/Grid.tsx:22 | a column count is always read, and a row count iff the string holds an 'x' |
| Grid.LayoutRoundTrip | components/Grid.tsx:22 | reading "CxR" gives C columns and R rows |
| Grid.AvailableLayoutsParse | components/SettingsModal.tsx:50 | each offered layout reads as the columns and rows it names |
| Grid.FindById | components/Grid.tsx:26 | finds the first cell with the id, or none when no cell has it |
| Grid.RenderRule | components/Grid.tsx:26-67 | a solo id that names a cell renders exactly that cell, as solo; a missing, empty or unknown solo id renders every cell in order, none as solo |
| Text.SplitAtFirst | components/Grid.tsx:22 | splitting at the first separator gives the piece before it, then the split of the rest |
| Text.DecimalRoundTrip | components/Grid.tsx:22 | `Number` of the numeral of n is n |
| Text.ToNumber | components/Grid.tsx:22 | a digit string reads as a count, and the empty string as 0 |
| VUMeter.SegmentCount | components/VUMeter.tsx:30-32 | a vertical bar has 8 segments or one per 4 pixels of height, whichever is more; a horizontal bar 12 or one per 4 pixels of width, whichever is more |
| VUMeter.Clamp | components/VUMeter.tsx:34 | the clamped level lies in [0, 1] and equals the level inside that range |
| VUMeter.ActiveSegmentsRange | components/VUMeter.tsx:35 | the number of lit segments lies in [0, count]; it is 0 iff the level is 0 or less, and is the full count for a level of 1 or more |
| VUMeter.ActiveSegmentsMonotone | components/VUMeter.tsx:34-35 | a louder level never lights fewer segments |
| VUMeter.ColorMonotone | components/VUMeter.tsx:37-42 | colours never get milder towards the top of the bar |
| VUMeter.SegmentsPrefix | components/VUMeter.tsx:44-46 | segment i is lit iff i is below the lit count |
| VUMeter.FullBarEndsRed | components/VUMeter.tsx:37-42 | on a full bar the last segment is red |
| VUMeter.LabelRule | components/VUMeter.tsx:96-143 | labels are shown iff a horizontal meter is taller than 32 or a vertical one wider than 48; the dB caption is shown only on a vertical meter that is also taller than 60 |
| AudioAnalyser.CalculateRmsSquared | hooks/useAudioAnalyser.ts:77-83 | the loop's result is the mean of the squared bins divided by 128², i.e. the square of the level |
| AudioAnalyser.SumOfSquaresBound | hooks/useAudioAnalyser.ts:79-81 | the sum of squares is at most n·255² |
| AudioAnalyser.SumOfSquaresSilent | hooks/useAudioAnalyser.ts:79-81 | a silent frame sums to 0 |
| AudioAnalyser.LevelRange | hooks/useAudioAnalyser.ts:77-83 | the level is never negative and is 0 for a silent frame. Its square is at most (255/128)², a bound a full-scale frame reaches, so the level can exceed 1 |
| AudioAnalyser.EffectiveVolume | hooks/useAudioAnalyser.ts:115 | the gain is 0 when muted, otherwise the given volume |
| AudioAnalyser.PlayerGain | hooks/useAudioAnalyser.ts:113-118 | with the player's arguments the gain is 0 iff the player or the wall is muted, and 1 otherwise |
| AudioAnalyser.AnalysisBypassesGain | hooks/useAudioAnalyser.ts:57-61 | the analysers are fed through the splitter and never through the gain node, which alone feeds the output |
| AudioAnalyser.AudioGraph.Build | hooks/useAudioAnalyser.ts:25-96 | the graph is built only with a media element and no source held. It stops at the failing step, and a failed build keeps the earlier splitter, analyser and gain refs. Attaching a source to an element that already had one always fails. The play listener is registered either way. Only a full build wires the graph and starts drawing |
| AudioAnalyser.AudioGraph.Teardown | hooks/useAudioAnalyser.ts:98-110 | every connection is gone and the source and context are dropped, so a later run rebuilds; the gain ref is kept |
| AudioAnalyser.AudioGraph.SetVolume | hooks/useAudioAnalyser.ts:113-118 | with a gain node and an open context the gain aims at the effective volume; the connections never change |
| AudioAnalyser.RebuildScenario | hooks/useAudioAnalyser.ts:25-118 | build, tear down, build again on the same element: both builds run, but the second wires nothing; a volume change in between does nothing, and one after the rebuild is aimed at the first build's gain node |
| AudioAlertService.AlertSound.constructor | services/audioAlertService.ts:1-2 | loading the module initialises once: the latch is set iff there is a window and the constructor does not throw |
| AudioAlertService.AlertSound.InitializeAudio | services/audioAlertService.ts:4-24 | once initialised, or without a window, nothing happens; a throwing constructor leaves the latch down; otherwise the context is kept, both gesture listeners are added and the latch is set |
| AudioAlertService.AlertSound.OnGesture | services/audioAlertService.ts:11-17 | a suspended context is asked to resume, and both listeners are removed |
| AudioAlertService.AlertSound.PlayAlertSound | services/audioAlertService.ts:26-50 | initialises first if needed; plays one tone iff a context exists and is running |
| AudioAlertService.GestureUnlockScenario | services/audioAlertService.ts:31-34 | a context that starts suspended plays nothing until the first gesture resumes it, and plays after that |
| AudioAlertService.RetryAfterThrowScenario | services/audioAlertService.ts:7-23 | a constructor that throws at load leaves the latch down; the first alert initialises again and plays |

## Left out

- Storage and network:
  - saving and loading the configuration (local storage);
  - the e-mail HTTP request;
  - reading files as data URLs, which is an input here.
- HLS.js itself and its configuration: only the engine that is chosen and
  the error events matter here.
- The Web Audio node objects: only which refs are held and which
  connections exist are modelled. Also left out are `requestAnimationFrame`
  and the alert tone's oscillator parameters.
- React scheduling. Update batching could merge the Error or Stalled write
  with the Connecting write in the same handler; here every write is a
  separate step. The previous-status ref is updated on every run of the
  effect. If the two writes of `onError` or `onStalled` were merged into
  one render, the player would see only Connecting: no "Fatal error
  detected" or "Stream stalled" alert would be raised, so
  `Player.MediaErrorRetryScenario` holds only with writes applied one at
  a time.
- The e-mail in-flight flag lives in a render closure. It is modelled as a
  plain sequential flag, and nothing is claimed about concurrent sends.
- Elapsed time: a timer is pending or not, plus its delay.
- Drag-reorder of the cells, which is a library call.
- Presentation only:
  - the settings, alert-log and generated-code dialogs;
  - the image and sortable cells;
  - the video cell, whose border rule is the quad-audio outline rule;
  - icons, CSS classes, full screen and size measurement.
- `Number` on strings other than digit strings and the empty string:
  exponents, signs, decimals and surrounding whitespace are all read as
  NaN here.
- AudioAnalyser.CalculateRmsSquared: returns the square of the level,
  because Dafny's reals have no square root. Each level property is stated
  for the square.
- AudioAnalyser.AudioGraph.Build: only the context constructor and the
  source attachment can fail; the node creations and connections after
  them are taken to succeed. Which context a node belongs to is not
  modelled, only whether a ref is held.
- App.Supervisor.UpdateCell: takes the cell type from the original cell.
  The form disables the type select while editing, and cells keep their
  type and item kind in step, so the image fallback always reads an image
  item.
- App.BuildItem: requires at least one URL and one name, which every saved
  form has (`AddCellModal.CellForm.HandleSubmit`). An undefined stream name
  or background type from a loaded configuration enters the form as '' or
  Image, which every reader treats alike.
- AddCellModal.CellForm.HandleUrlChange: a per-index change requires an
  index inside the array or just past its end; the form never renders
  another index.
- Alert-log rendering, and the unread badge as a widget.
- The `canplay` promise: whether `play()` is rejected is a parameter, and
  the rejection is treated as arriving at once.
