# Magic Wheel — a verified model of the wheel, its drag control and its edit-mode keys

This project models the core of the Magic Wheel widget: a "wheel of answers"
drawn on a canvas, which the user spins by dragging it with the mouse or a
finger. Once released, it slows down under constant friction. An edit mode sends
keystrokes to the wheel's text instead of the page.

Three Dafny modules follow the three source files:

- `Spinner` (`wheel.dfy`, for `js/wheel.js`) holds the `Wheel` class, with its
  angle, speed, centre, radius, friction, segment table and edit-mode flag.
  - `Update` is one physics step. It is specified by the function `Decayed`.
  - `Coast` iterates `Decayed` over many frames. The lemmas about it prove that
    friction never flips the sign of the speed, never increases its magnitude,
    and brings the wheel to rest within a bounded number of frames, after which
    it stays at rest.
  - `Layout` and `PlaceText` are the loops inside `render` that compute each
    sector's start and end angle, its bisector, and each text line's distance
    from the hub. Their results are tied to closed forms (`SectorAt`,
    `WidthBefore`, `Placements`).
  - `DefaultSegments` is the built-in table. Its eight wedges cover the full
    circle.
- `Control` (`control.dfy`, for `js/control.js`) holds the `Controller` class.
  - Its fields are the drag flag, click position, origin angle, last speed,
    speed limit and last frame time.
  - `StartDrag`, `DoDrag` and `StopDrag` are proved against the pure
    transitions `AfterStartDrag`, `AfterDoDrag` and `AfterStopDrag` on a
    `DragState` value. The release bound, idempotence and event-routing lemmas
    are stated on those transitions.
  - `Render` is one animation frame: update by the time since the last frame,
    then lay out.
- `Edit` (`editor.dfy`, for `js/editor.js`) holds the keydown decoder `Decode`.
  - It maps a key code and the shift, alt and ctrl flags to one wheel command.
    It uses the fixed key tables and the shift map.
  - The `Editor` class implements `load`, `unload` and `toggle`, which switch
    the wheel's edit mode and the window's key handler together.

Numbers are modelled as mathematical reals: angles in radians, speeds in
radians per ms, times in ms. `Math.PI` is the real 3.141592653589793. Clock
readings are method parameters (`now`). The pointer's angular movement is an
input (`delta`), and so is the speed sampled from it (`sample`).

Behaviour of the code worth noting:

- `startDrag` acts in any state, not only when idle.
- `startDrag` does not reset the controller's remembered speed. So a press and
  release with no move in between hands the previous drag's clamped speed back
  to the wheel (`ClickWithoutMoveReusesSpeed`).

## Model

| member | source | states |
|---|---|---|
| `Spinner.Decayed` | js/wheel.js:67-79 | a zero speed stays zero; for elapsed ≥ 0 and friction ≥ 0 the speed keeps its sign and its magnitude drops by friction×elapsed, or to exactly 0 if that would pass zero |
| `Spinner.Wheel.Update` | js/wheel.js:67-79 | the angle advances by the pre-friction speed × elapsed; the speed becomes `Decayed`; a stopped wheel is left as it is; centre, radius, friction, segments and edit mode are untouched |
| `Spinner.CoastKeepsSign` | js/wheel.js:70-77 | over any number of frames with elapsed ≥ 0 the speed never crosses zero and never exceeds its starting magnitude |
| `Spinner.CoastMonotone` | js/wheel.js:70-77 | each further frame leaves the speed's magnitude no larger |
| `Spinner.RestIsFinal` | js/wheel.js:68 | a wheel at rest stays at rest on every later frame |
| `Spinner.RestWithin` | js/wheel.js:67-79 | with positive friction and frame time, n frames stop the wheel once n×friction×elapsed covers its speed |
| `Spinner.StepsToRest` | js/wheel.js:67-79 | gives a finite frame count whose total friction covers the speed |
| `Spinner.ComesToRest` | js/wheel.js:67-79 | with positive friction and frame time the wheel is at rest on every frame from `StepsToRest` on |
| `Spinner.WidthBeforeUniform` | js/wheel.js:86-87 | k segments of equal width w start k×w after the wheel's angle |
| `Spinner.DefaultSegments` | js/wheel.js:17-58 | the built-in table holds eight segments, each a quarter of π wide with two to four lines of text |
| `Spinner.DefaultSegmentsCoverCircle` | js/wheel.js:17-58 | the eight π/4-wide segments of the default table together span 2π |
| `Spinner.Wheel.constructor` | js/wheel.js:8-59 | a new wheel is at angle 0 and speed 0, with friction 0.00001, the default segment table and edit mode off |
| `Spinner.Wheel.PlaceText` | js/wheel.js:101-119 | line j of a segment sits at distance radius − 15 − 45×(j+1) on the bisector, rotated a quarter turn past it |
| `Spinner.Wheel.Layout` | js/wheel.js:81-122 | there is one sector per segment; sector i is `SectorAt` i: it starts at angle + the widths of the segments before it, ends one width later, has its bisector at the midpoint and its text lines as `PlaceText` places them; it ends where sector i+1 starts |
| `Spinner.SectorsTile` | js/wheel.js:86-121 | each sector spans exactly its segment's width, with the bisector inside the span for a non-negative width; consecutive sectors share a boundary, and the last ends at angle + the total width |
| `Control.Clamp` | js/control.js:163-168 | the released speed lies in [−max, max], equals an in-range speed, is max or −max for an out-of-range one, keeps its sign and is never larger in magnitude |
| `Control.AfterStartDrag` | js/control.js:106-121 | a press starts a drag, records the click position and the wheel's angle as origin, stops the wheel and leaves the angle and remembered speed alone |
| `Control.AfterDoDrag` | js/control.js:138-148 | while dragging the wheel's angle becomes origin + delta and the sampled speed is remembered; the click position is never touched; while not dragging nothing changes |
| `Control.AfterStopDrag` | js/control.js:153-172 | without a drag nothing changes; from a drag the drag ends, the origin and click position are cleared, and the clamped speed becomes both the controller's and the wheel's speed |
| `Control.AfterEvent` | js/control.js:70-87 | a mousedown or touchstart starts a drag and stops the wheel; a move never starts or ends a drag; mouseup, mouseout, touchend and touchcancel leave no drag in progress; only a move during a drag turns the wheel |
| `Control.EventsKeepConsistent` | js/control.js:70-87 | every mouse and touch event keeps "origin recorded ⇔ dragging"; mouseup, mouseout, touchend and touchcancel all have exactly the effect of `stopDrag` |
| `Control.ReleaseIsBounded` | js/control.js:163-169 | after a release from a drag the wheel's speed lies within ±0.020, equals the controller's speed and has the sign of the last sample |
| `Control.StopDragIdempotent` | js/control.js:156-161 | releasing a second time changes nothing |
| `Control.DragAndFling` | js/control.js:112-169 | press, move by delta, release: the wheel ends at its grabbed angle + delta and spins at the clamped sampled speed |
| `Control.ClickWithoutMoveReusesSpeed` | js/control.js:106-172 | press then release without a move hands the previous remembered speed, clamped, to the wheel and leaves its angle |
| `Control.Controller.constructor` | js/control.js:22-46 | the controller starts idle with speed 0, limit 0.020, the given start time, a fresh default wheel at (600, 420) radius 400 and an editor on that wheel with edit mode off |
| `Control.Controller.StartDrag` | js/control.js:106-121 | the controller's state after a press is `AfterStartDrag` of its state before |
| `Control.Controller.DoDrag` | js/control.js:122-152 | the state after a move is `AfterDoDrag` of the state before |
| `Control.Controller.StopDrag` | js/control.js:153-172 | the state after a release is `AfterStopDrag` of the state before, with the controller's limit |
| `Control.Controller.Handle` | js/control.js:66-87 | each canvas event runs its bound handler, with the state change `AfterEvent` gives, and keeps the controller valid |
| `Control.Controller.Render` | js/control.js:54-65 | a frame updates the wheel by now − previous frame time, records now as the frame time and lays out the sectors `Layout` gives for the new angle |
| `Edit.ShiftMap` | js/editor.js:11-33 | the shift table maps printable ASCII to printable ASCII, has no capital letter as a key and never yields '\|' (backslash maps to itself) |
| `Edit.ToLower` | js/editor.js:105 | the result is never an upper-case letter; an upper-case letter becomes its lower-case form 32 codes on, and any other character is unchanged |
| `Edit.Modified` | js/editor.js:98-106 | with shift a character in the shift table becomes its entry and any other stays as it is; without shift the result is not upper-case; a printable character other than '\|' stays printable and is never turned into '\|' |
| `Edit.KeyLetter` | js/editor.js:54-96 | a key code gives at most one character, and gives one exactly for codes 48–90 and the thirteen punctuation codes |
| `Edit.ControlCommand` | js/editor.js:112-138 | only the codes 46, 8, 37–40 and 9 issue a control command; every other code does nothing |
| `Edit.Decode` | js/editor.js:48-140 | with alt or ctrl the key is not intercepted, and only then; otherwise it inserts a character exactly for the character keys, issues a control command exactly for the control keys, and does nothing for every other key |
| `Edit.CharAndControlKeysDisjoint` | js/editor.js:55-138 | no key both produces a character and is a control key, so one keydown calls at most one wheel operation |
| `Edit.LetterKeys` | js/editor.js:55-106 | codes 65–90 insert 'a'–'z', or 'A'–'Z' with shift |
| `Edit.CharCodes` | js/editor.js:55-57 | every code from 48 to 90 inserts its own character lower-cased; codes 48–64, ':' to '@' included, insert their own character |
| `Edit.DigitKeys` | js/editor.js:11-33 | codes 48–57 insert the digit, or its shift-map symbol with shift |
| `Edit.SymbolKeys` | js/editor.js:58-78 | codes 192, 32, 219, 221, 220 and 222 insert '`', ' ', '[', ']', '\\' and the apostrophe; shifted space stays a space |
| `Edit.PunctuationKeys` | js/editor.js:79-96 | codes 186, 187, 188, 190 and 191 insert ';', '=', ',', '.' and '/' |
| `Edit.ShiftedSymbolKeys` | js/editor.js:11-106 | with shift, codes 192, 219, 220, 221 and 222 insert '~', '{', '\\', '}' and '"' |
| `Edit.ShiftedPunctuationKeys` | js/editor.js:11-106 | with shift, codes 186, 187, 188, 190 and 191 insert ':', '+', '<', '>' and '?' |
| `Edit.MinusKeys` | js/editor.js:64-66 | codes 109 and 189 behave the same, inserting '-', or '_' with shift |
| `Edit.InsertsPrintableNeverPipe` | js/editor.js:28 | every inserted character is printable ASCII and none is '\|' |
| `Edit.ControlKeys` | js/editor.js:113-138 | 46→del, 8→backspace, 37→left, 38→up, 39→right, 40→down, 9→next segment, or previous segment with shift |
| `Edit.Editor.constructor` | js/editor.js:8-34 | a new editor is attached to the given wheel with no key handler bound |
| `Edit.Editor.Load` | js/editor.js:42-48 | turns edit mode on and binds the key handler |
| `Edit.Editor.Unload` | js/editor.js:143-147 | turns edit mode off and unbinds the key handler |
| `Edit.Editor.Toggle` | js/editor.js:148-155 | flips edit mode, so two toggles restore it, and leaves the key handler bound exactly while edit mode is on |
| `Edit.Editor.KeyDown` | js/editor.js:48-52 | in edit mode a keydown issues the decoded command; otherwise the key is not intercepted |

## Left out

- Canvas drawing is not modelled. This covers arcs, fills, text, fonts, save/restore, the title and the red arrow. `Layout` stops at the angles and distances that drawing uses.
- `Math.cos` and `Math.sin` are not modelled. They turn the bisector and distance into x/y offsets for each text line.
- The `atan2` angle difference in `doDrag` is replaced by the input `delta`.
- The `Math.sqrt` cursor test and the CSS cursor changes are not modelled.
- The release speed `angle / (now − lastUpdateTime)` is not modelled. It can divide by zero and depends on the clock, so the model takes it as the input `sample`.
- Floating point is not modelled. Speeds and angles are reals, so NaN, infinities and rounding are absent. A NaN speed would be falsy in `update`.
- The `requestAnimFrame` shim and the animation loop are not modelled. `Render` is one frame and takes the clock reading as a parameter.
- `console.log` calls are not modelled, including the one for frames delayed over 200 ms.
- jQuery event binding is not modelled. `Controller.Handle` routes the eight canvas events to their handlers.
- Extracting the first touch point and `Utils.getRelPos` (js/util.js) are not modelled. `StartDrag` receives the relative position directly.
- Restoring the wheel from the URL hash and the `#save` link are not modelled. The `wheel.restore` and `wheel.save` they call are not part of this model.
- The `#edit_mode` click binding is not modelled. It only calls `Editor.Toggle`.
- The wheel's text operations are not modelled. These are `insert`, `del`, `backspace`, `left`, `right`, `up`, `down`, `nextSegment` and `prevSegment`. They are not part of this model, so the decoder stops at the `Command` it would issue.
- `wheel.updated` is set by `doDrag` but never read, so it is not modelled.
- Edit.Editor.Load: a second `load` while already loaded would bind a second key handler in the source. The model keeps one boolean, so it does not capture that double binding. `toggle`, the only caller, never loads twice.
- Edit.ToLower: lower-cases ASCII letters only. This is all `toLowerCase` meets here, since the characters come from codes 48–90 and fixed punctuation.
