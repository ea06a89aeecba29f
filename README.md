# KidsDrawingApp drawing view: a verified model

This project models the stroke-capture engine of the KidsDrawingApp drawing
view (`DrawingView`). The view turns single-pointer touch events into paths. It
keeps the finished paths in a list, oldest first, and redraws them in that
order. Each path carries the colour and thickness it was started with.

The model has three files:

- `graphics.dfy` (module `Graphics`) holds the values: packed colours as signed
  32-bit ints (`BLACK` is 0xFF000000 read as a signed value), points, the calls
  recorded into a path (`MoveTo`, `LineTo`), motion events with their action
  codes (DOWN 0, UP 1, MOVE 2), and draw commands. It also holds the
  `Platform` record. That record stands for the services the view calls but
  does not define: colour parsing, conversion from density-independent size to
  pixels, and the path's emptiness test.
- `drawing_spec.dfy` (module `DrawingSpec`) is the view as a pure state
  machine. There is one function per operation (touch, set colour, set brush
  thickness, redraw), plus `Run` over a sequence of operations. The lemmas about
  whole runs are here.
- `drawing_view.dfy` (module `DrawingViewModel`) has the classes `CustomPath`
  and `DrawingView`, with fields updated in place as the source does it.
  `DrawingView.Valid()` says the path being drawn is never one of the committed
  path objects. Each method is proved to move `State()` exactly as the
  matching `DrawingSpec` function says.

Behaviour reproduced as the code has it:

- The `color` field is never assigned. `setColor` parses into a local of the
  same name and gives it only to the paint. So the fresh path installed on UP
  is always black (`FreshPathIsBlack`). The next DOWN then overwrites that
  colour from the paint.
- UP commits the active path unconditionally, even with no DOWN before it or
  no segment in it.
- Only DOWN, MOVE and UP are handled. A missing event and every other action,
  cancel included, return false with no change.
- Drawing sets the paint's colour and width from each path it draws. After a
  redraw the paint therefore holds the last drawn path's values. Because DOWN
  copies the paint, a redraw between a colour change and the next DOWN hands
  that DOWN the last committed path's colour, when the active path is empty
  (`RedrawBeforeDownTakesLastColour`).
- The brush thickness starts at 0 and the paint at the platform's default
  width 0. A size is converted with the display metrics and stored as is,
  with no clamping.

The code does not treat cancel as UP. It does not skip committing a path
without segments, does not clamp a non-positive thickness, and has no undo.
The model does none of these either.

## Model

| member | source | states |
|---|---|---|
| `DrawingViewModel.DrawingView.constructor` | app/src/main/java/com/suzhiyam/kidsdrawingapp/DrawingView.kt:15-32 | the initial state: no committed paths, thickness 0, paint and colour field black, paint width 0, and an empty active path that is black with thickness 0 |
| `DrawingSpec.OnTouch` | app/src/main/java/com/suzhiyam/kidsdrawingapp/DrawingView.kt:54-81 | handled iff the event is DOWN, MOVE or UP, otherwise the state is unchanged; touches never change the brush; DOWN gives the active path exactly the down point, with the paint's colour and width, and keeps the committed list; MOVE appends exactly one line-to at the end and keeps colour, thickness and the committed list; UP grows the committed list by one, keeps its earlier entries, puts the old active path last and installs an empty path with the colour field and the thickness field |
| `DrawingViewModel.DrawingView.OnTouchEvent` | app/src/main/java/com/suzhiyam/kidsdrawingapp/DrawingView.kt:54-81 | the object-level touch handler follows `OnTouch` exactly; the committed list keeps its objects; UP appends the active path object itself and installs a freshly allocated one; every other event keeps both the list and the active object |
| `DrawingViewModel.CustomPath.constructor` | app/src/main/java/com/suzhiyam/kidsdrawingapp/DrawingView.kt:97-100 | a new path has no geometry and the given colour and thickness |
| `DrawingViewModel.CustomPath.Reset` | app/src/main/java/com/suzhiyam/kidsdrawingapp/DrawingView.kt:62 | reset clears the geometry and keeps the path's colour and thickness |
| `DrawingViewModel.CustomPath.MoveTo` | app/src/main/java/com/suzhiyam/kidsdrawingapp/DrawingView.kt:64 | a move-to is appended to the geometry and nothing else changes |
| `DrawingViewModel.CustomPath.LineTo` | app/src/main/java/com/suzhiyam/kidsdrawingapp/DrawingView.kt:69 | a line-to is appended to the geometry and nothing else changes |
| `DrawingSpec.SetBrushThickness` | app/src/main/java/com/suzhiyam/kidsdrawingapp/DrawingView.kt:83-90 | the thickness field and the paint width both become the converted size; the paths and both colours are unchanged |
| `DrawingViewModel.DrawingView.SetBrushThickness` | app/src/main/java/com/suzhiyam/kidsdrawingapp/DrawingView.kt:83-90 | the object-level setter follows `DrawingSpec.SetBrushThickness` |
| `DrawingSpec.SetColor` | app/src/main/java/com/suzhiyam/kidsdrawingapp/DrawingView.kt:92-95 | succeeds iff the platform parses the string; on success only the paint colour changes, to the parsed colour, and the colour field stays; on failure it reports the string and the state is unchanged |
| `DrawingViewModel.DrawingView.SetColor` | app/src/main/java/com/suzhiyam/kidsdrawingapp/DrawingView.kt:92-95 | the object-level setter follows `DrawingSpec.SetColor` |
| `DrawingSpec.CommittedCommands` | app/src/main/java/com/suzhiyam/kidsdrawingapp/DrawingView.kt:42-46 | one draw command per committed path, in list order, each with that path's own colour and thickness |
| `DrawingSpec.DrawCommands` | app/src/main/java/com/suzhiyam/kidsdrawingapp/DrawingView.kt:39-52 | a redraw draws the committed paths oldest first with their own colour and width (never the live paint), then the active path last with its own colour and width, and only when it is not empty |
| `DrawingSpec.AfterDraw` | app/src/main/java/com/suzhiyam/kidsdrawingapp/DrawingView.kt:42-51 | a redraw leaves the paths, the thickness field and the colour field alone; the paint ends with the colour and width of the last command drawn, or unchanged when nothing is drawn |
| `DrawingViewModel.DrawingView.OnDraw` | app/src/main/java/com/suzhiyam/kidsdrawingapp/DrawingView.kt:39-52 | the object-level redraw loop returns exactly `DrawCommands` of the state before it, and leaves the state `AfterDraw` says |
| `DrawingSpec.CommittedFrozen` | app/src/main/java/com/suzhiyam/kidsdrawingapp/DrawingView.kt:72-74 | over any later touches, brush changes and redraws, the committed paths stay as they were, in order, as a prefix; the list grows by exactly the number of UP events |
| `DrawingSpec.ColorFieldNeverChanges` | app/src/main/java/com/suzhiyam/kidsdrawingapp/DrawingView.kt:92-94 | no sequence of operations changes the colour field |
| `DrawingSpec.FreshPathIsBlack` | app/src/main/java/com/suzhiyam/kidsdrawingapp/DrawingView.kt:72-75 | from the initial state, whatever happened before, the path an UP installs is black |
| `DrawingSpec.MovesExtendActive` | app/src/main/java/com/suzhiyam/kidsdrawingapp/DrawingView.kt:67-71 | MOVE events, with redraws anywhere among them, append one line-to per MOVE in event order and keep the active path's colour and thickness, the committed list and the thickness and colour fields |
| `DrawingSpec.Gesture` | app/src/main/java/com/suzhiyam/kidsdrawingapp/DrawingView.kt:54-81 | DOWN, N MOVEs with any redraws among them, then UP, adds exactly one committed path and keeps the earlier ones; that path has N+1 points in event order, the down point first, with the paint's colour and width at DOWN; a fresh empty path is installed |
| `DrawingSpec.GestureKeepsBrush` | app/src/main/java/com/suzhiyam/kidsdrawingapp/DrawingView.kt:54-81 | a gesture of touch events alone leaves the paint, the thickness field and the colour field as they were |
| `DrawingSpec.TouchesKeepBrush` | app/src/main/java/com/suzhiyam/kidsdrawingapp/DrawingView.kt:54-81 | any sequence of touch events leaves the brush unchanged |
| `DrawingSpec.RedrawIsIdempotent` | app/src/main/java/com/suzhiyam/kidsdrawingapp/DrawingView.kt:39-52 | a second redraw draws the same commands as the first and leaves the same state |
| `DrawingSpec.RedrawBeforeDownTakesLastColour` | app/src/main/java/com/suzhiyam/kidsdrawingapp/DrawingView.kt:42-60 | after a successful colour change, a redraw while the active path is empty makes the next DOWN take the last committed path's colour and width, not the colour just set |

## Left out

- The redraw request (`invalidate()`) is not a call in the model. The platform runs the redraw later. The model makes it a separate `Redraw` operation, which may come between any two operations.
- Undo: `onClickUndo` is called by the activity but is not defined in `DrawingView.kt`, so it is not part of this model.
- The activity (`MainActivity.kt`) is not part of this model. That covers permission dialogs, image picking, the brush-size and colour-button wiring, and saving or sharing the picture. The export of the screen to a bitmap (`getBitmapFormView`) is also left out: it only hands over to the platform's bitmap and canvas.
- The canvas bitmap: `onSizeChanged`, drawing the bitmap first in `onDraw`, and the failure when a redraw happens before a size is known. These are graphics-library behaviour. Rasterisation, round caps and joins and the canvas paint are left out for the same reason.
- `Color.parseColor`, `TypedValue.applyDimension` and `Path.isEmpty` are the abstract functions of `Platform`. Nothing is proved about their values. A parse failure, an exception in the source, is a `ParseOutcome.IllegalArgument` result.
- Floating-point coordinates and sizes are `real`. They are only carried along, never computed on. How the platform's paint treats a negative width is not modelled: the converted value is stored as given.
