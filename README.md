# bilibili-enhancer content script: a Dafny model of its stateful rules

The content script injects a floating control panel next to a page's video.
Most of it builds DOM and wires events. This project models the few rules
that carry state:

- **A/B loop controller** (`loop.dfy`, module `Loop`). `startLoop` checks,
  in order, that a video is present, that both endpoints parsed, and that
  `0 <= A < B <= duration`. On success it seeks to A, plays, clears any
  earlier interval and registers a new one that seeks back to A whenever
  the playhead reaches B. `stopLoop` clears it. The state is a value
  `LoopState`: the video's playhead, `loopInterval`, the browser's table of
  registered intervals (handle to the (A, B) its callback captured), and
  the next handle. Pure step functions (`Start`, `Poll`, `Stop`,
  `StopClick`) specify the class `LoopController`, whose methods mutate the
  shared `Media.Video` object. The invariant `Invariant` says that at most
  one interval is registered and that `loopInterval` names it. `RunInvariant`
  shows that no sequence of clicks, timer firings and playhead moves breaks
  it.
- **Drag gesture** (`drag.dfy`, module `Drag`). This is the closure of
  `makeDraggable`: its `posX/posY/mouseX/mouseY`, the panel's `top/left`,
  and whether the document's move/up handlers are attached. The main
  result is that the moves telescope: over a gesture the panel moves by the
  final cursor position minus the press position.
- **Collapse toggle** (`collapse.dfy`, module `Collapse`). The header
  button flips the body's inline `display` and its glyph.
- **Speed controller** (`speed.dfy`, module `Speed`). This covers
  `setSpeed`, the saved-speed start-up and the slider handler. Speeds are
  integer hundredths. The slider's min 0.1, max 4 and step 0.05 keep every
  slider value on that grid. The readout `toFixed(2) + "x"` and the stored
  string `String(speed)` are then exact string functions. Each has a parser
  and a round-trip lemma.
- **Screenshot file name** (`capture.dfy`, module `Capture`):
  `bilibili-<ms>.png`.
- Support: `Wrappers.Option`, and `Decimal`, which prints a natural number
  in decimal and reads it back.

Details of content.js that the model keeps:

- **Drag direction.** `elementDrag` computes `posX = mouseX - clientX` and
  writes `left = offsetLeft - posX` (and likewise for the vertical axis).
  So the panel moves by the final cursor point minus the press point
  (`Drag.GestureOffset`).
- **Speed at start-up.** `init` assigns the saved speed to the slider,
  which the browser clamps and snaps to its grid. It then passes the
  unsnapped value to `setSpeed` and writes nothing to storage. Slider and
  playback rate therefore agree after start-up only when the saved value
  lies on the slider's grid (`Speed.InitAgreesOnGrid`). After every slider
  input, slider, readout, rate and stored string all agree
  (`Speed.SpeedController.SliderInput`, `Speed.StoredRoundTrip`).
- **Collapse.** The body starts with no inline `display` (`""`). Two
  clicks restore visibility and the glyph, but they leave `"block"`, not
  `""` (`Collapse.ToggleTwice`).
- **Timer handle test.** `if (loopInterval)` is a truthiness test. Interval
  handles are positive, so it is modelled as "a handle is held".
- **Loop ending at the duration.** The bounds test accepts B equal to the
  duration. The playhead then reaches B only when the media ends, and
  reaching the end pauses the video. The tick seeks back to A but does not
  resume playback, so such a loop stops at A (`Loop.ScenarioEndAtDuration`).
- **Shared video.** The loop and speed controllers hold the same video.
  Each controller's methods state that the video fields the other one
  relies on stay unchanged.

## Model

| member | source | states |
|---|---|---|
| Decimal.ValueOfShow | content.js:67 | the decimal numeral printed for n denotes n (induction on n) |
| Decimal.ParseShow | content.js:67 | reading back the printed integer part gives the number printed |
| Loop.Validate | content.js:98-116 | rejects with NoVideo exactly when there is no video, with InvalidNumber exactly when a video exists but an endpoint is NaN, accepts exactly when 0 <= A < B <= duration, and the accepted range is (A, B) |
| Loop.Start | content.js:97-130 | a rejected start changes nothing (interval, playhead, play state); an accepted one seeks to A, plays, and makes loopInterval a fresh handle whose timer carries (A, B) |
| Loop.Poll | content.js:125-129 | firing a handle that is not registered changes nothing; with the playhead at or past B the registered timer seeks to exactly A, and before B it changes nothing; so the playhead ends strictly before B and only currentTime may change |
| Loop.Stop | content.js:132-137 | afterwards no handle is held and no interval stays registered; stopping while idle changes nothing; the video is untouched |
| Loop.StopClick | content.js:183-187 | the stop button stops the loop, then pauses the video (if any) without moving the playhead |
| Loop.StartInvariant | content.js:118-129 | start keeps the invariant, and after a successful start exactly one interval is registered, holding the new (A, B) |
| Loop.PollInvariant | content.js:125-129 | a timer firing keeps the invariant |
| Loop.StopInvariant | content.js:132-137 | stopLoop and the stop button keep the invariant |
| Loop.RunInvariant | content.js:95-137 | any sequence of start/stop clicks, timer firings, playhead moves and media endings keeps the invariant, so at most one interval is ever registered |
| Loop.FireKeepsBeforeB | content.js:125-128 | after any event sequence, the active interval's firing leaves the playhead before its B |
| Loop.ScenarioReseek | content.js:118-128 | duration 120, A=10, B=20: the start seeks to 10 and plays; at 20.1 the next tick seeks back to 10 |
| Loop.ScenarioEndAtDuration | content.js:113-128 | with B equal to the duration 120 and A=100, the media's end pauses the video and the next tick seeks to 100 without resuming |
| Loop.ScenarioReversed | content.js:113-116 | A=30, B=20 is refused as out of range and registers no interval |
| Loop.LoopController.constructor | content.js:95 | the script starts with no interval held |
| Loop.LoopController.StartLoop | content.js:97-130 | returns the verdict and leaves the object and video in the state `Start` gives; keeps the invariant; leaves the playback rate alone |
| Loop.LoopController.Tick | content.js:125-129 | the state after a firing is the one `Poll` gives; keeps the invariant; leaves the playback rate alone |
| Loop.LoopController.StopLoop | content.js:132-137 | the state after stopping is the one `Stop` gives; keeps the invariant |
| Loop.LoopController.StopButton | content.js:183-187 | the state after the stop button is the one `StopClick` gives; keeps the invariant; leaves the playback rate alone |
| Drag.Down | content.js:38-44 | mousedown records the cursor and attaches the handlers without moving the panel |
| Drag.Move | content.js:46-54 | while attached, a move shifts left/top by the cursor's travel since the recorded point and records the new point; detached, nothing changes |
| Drag.Up | content.js:56-59 | mouseup detaches the handlers without moving the panel, after which any move changes nothing |
| Drag.MovesTelescope | content.js:46-54 | over any path of moves, the panel's total shift is the last cursor position minus the first recorded one (induction on the path) |
| Drag.GestureOffset | content.js:38-59 | press, moves, release: the panel's offset changes by final minus press position and the handlers end detached |
| Drag.MovesAfterUp | content.js:56-59 | after release, any number of moves leaves the panel and closure state unchanged |
| Drag.DownTwice | content.js:38-44 | a second mousedown replaces the handlers: the state is as after one press at the newer point, and the next move shifts the panel once |
| Drag.Draggable.constructor | content.js:34-36 | makeDraggable starts with all closure variables 0 and nothing attached |
| Drag.Draggable.MouseDown | content.js:38-44 | the state after the event is the one `Down` gives |
| Drag.Draggable.MouseMove | content.js:46-54 | the state after the event is the one `Move` gives |
| Drag.Draggable.MouseUp | content.js:56-59 | the state after the event is the one `Up` gives |
| Collapse.Toggle | content.js:190-198 | one click flips visibility, leaves a glyph consistent with it, and leaves the display "block" or "none" |
| Collapse.ToggleTwice | content.js:190-198 | two clicks restore visibility and a consistent glyph, restore the panel exactly once display has been written, and turn the initial state into ("block", '−') |
| Collapse.CollapseToggle.constructor | content.js:8-10 | the body starts with no inline display and the glyph '−' |
| Collapse.CollapseToggle.Click | content.js:190-198 | the state after a click is the one `Toggle` gives |
| Speed.Sanitize | content.js:12 | assigning a value to the slider leaves a value on its 0.1..4 step-0.05 grid, keeps grid values unchanged, and picks the grid value nearest to the clamped input |
| Speed.SavedSpeed | content.js:153 | the saved speed falls back to 1: never 0; the parsed value when it is present and non-zero; 1.00 when it is missing, NaN or 0 |
| Speed.LabelRoundTrip | content.js:67 | the readout `toFixed(2) + "x"` reads back as exactly the speed shown |
| Speed.StoredRoundTrip | content.js:160 | the string the slider handler stores parses back to the speed stored |
| Speed.NextSessionRestores | content.js:153-160 | a slider speed stored in one session is the saved speed, and the slider position, at the next start-up |
| Speed.ScenarioOneAndAHalf | content.js:157-161 | speed 1.5 shows "1.50x" and is stored as "1.5" |
| Speed.InitAgreesOnGrid | content.js:153-155 | at start-up the slider equals the applied speed exactly when the saved speed is on the grid; a saved 7 puts the slider at 4 |
| Speed.SpeedController.constructor | content.js:11-12 | the panel starts with the slider at 1 and the readout "1.00x" |
| Speed.SpeedController.SetSpeed | content.js:63-68 | the readout always shows the speed; the video's rate is set only when there is a video; nothing else changes |
| Speed.SpeedController.Init | content.js:153-155 | the slider holds the snapped saved speed, while the readout and the video's rate hold the saved speed itself; storage and the video's playhead, play state and duration are untouched |
| Speed.SpeedController.SliderInput | content.js:157-161 | slider, readout, video rate and the stored string all carry the same speed; only the speed key of storage changes, and the video's playhead, play state and duration are untouched |
| Capture.FileName | content.js:86 | the download name is "bilibili-", then a numeral that parses back to the timestamp, then ".png" |
| Capture.FileNamesDistinct | content.js:86 | screenshots taken at different milliseconds get different names |

## Left out

- Panel construction (`createPanel`), its HTML and CSS, the initial `top/right/left` placement (content.js:204-206) and the external link: these are presentation only.
- `takeScreenshot` drawing, PNG encoding, object URLs and the synthetic download click: these are browser services. Only the file name is modelled.
- The picture-in-picture handler: its only rule depends on whether the browser's asynchronous request succeeds, which is outside the script.
- Real time: the 200 ms interval period and the 500 ms `waitVideoAndInit` retry. A timer firing is the explicit event `Poll`/`Tick`, and the bootstrap poll is not modelled.
- `parseFloat` on arbitrary strings: the loop endpoints and the stored speed arrive already parsed, with None for NaN. `ParseStored` models `parseFloat` only on the strings the slider writes.
- Speed.SavedSpeed: does not model stored strings that parse to negative numbers or to values finer than hundredths. The controller itself only writes speeds between 0.1 and 4.
- Speed.SpeedController.Init: applies every saved speed. In a browser, assigning a playback rate it does not support (Chromium accepts 0.0625 to 16) throws at content.js:65. The readout is then not written, and `init` stops before wiring any handler. The model does not capture that abort.
- Alert texts, including the `duration.toFixed(1)` message: a rejection is returned as a `Rejection` value instead.
- A NaN or unknown `duration`: durations are real numbers.
- Layout: `offsetTop/offsetLeft` are taken to be the last `top/left` written, and `preventDefault` is not modelled.
- The media element's own behaviour: `play()` may be refused by autoplay policy, and assigning `currentTime` clamps it to the media's range. The model takes `play()` as unpausing and the assignment as exact. Reaching the end of the media is the `Ended` event (playhead at the duration, paused).
- A page with several videos, or one whose video is replaced while a loop runs: a single video is found once and shared by the controllers.
- The `if (speedValue)` guard in `setSpeed`: the readout always exists once the panel is built.
