/** The drawing view as the source has it: objects whose fields are updated in
    place. Each method is proved to move the view's state exactly as the
    matching function of DrawingSpec says. */
module DrawingViewModel {
  import opened Graphics
  import opened DrawingSpec

  /** A platform path that also carries the colour and thickness it is drawn with.
      The path geometry is kept as the list of calls made on it. */
  class CustomPath {
    var color: ColorInt
    var brushThickness: real
    var ops: seq<PathOp>

    constructor (color: ColorInt, brushThickness: real)
      ensures Value() == Stroke([], color, brushThickness)
    {
      this.color := color;
      this.brushThickness := brushThickness;
      ops := [];
    }

    function Value(): Stroke
      reads this
    {
      Stroke(ops, color, brushThickness)
    }

    /** Clears the geometry; the colour and thickness are this class's own and stay. */
    method Reset()
      modifies this`ops
      ensures Value() == old(Value()).(ops := [])
    {
      ops := [];
    }

    method MoveTo(x: real, y: real)
      modifies this`ops
      ensures Value() == old(Value()).(ops := old(ops) + [PathOp.MoveTo(Point(x, y))])
    {
      ops := ops + [PathOp.MoveTo(Point(x, y))];
    }

    method LineTo(x: real, y: real)
      modifies this`ops
      ensures Value() == old(Value()).(ops := old(ops) + [PathOp.LineTo(Point(x, y))])
    {
      ops := ops + [PathOp.LineTo(Point(x, y))];
    }
  }

  /** The values of a list of path objects, in list order. */
  ghost function Values(ps: seq<CustomPath>): (r: seq<Stroke>)
    reads ps
    ensures |r| == |ps|
    ensures forall i :: 0 <= i < |ps| ==> r[i] == ps[i].Value()
  {
    if ps == [] then [] else Values(ps[..|ps| - 1]) + [ps[|ps| - 1].Value()]
  }

  class DrawingView {
    const platform: Platform
    var drawPath: CustomPath
    var paths: seq<CustomPath>
    var paintColor: ColorInt
    var paintStrokeWidth: real
    var brushThickness: real
    var color: ColorInt

    /** The path being drawn is never one of the committed paths, so changing it
        leaves every committed path as it was. */
    ghost predicate Valid()
      reads this
    {
      drawPath !in paths
    }

    ghost function State(): ViewState
      reads this, drawPath, paths
    {
      ViewState(drawPath.Value(), Values(paths), paintColor, paintStrokeWidth, brushThickness, color)
    }

    /** Construction with the field initialisers and the set-up step: an empty
        path in the colour field's black with thickness 0, a black paint at the
        platform's default width, no committed paths. */
    constructor (platform: Platform)
      ensures Valid() && this.platform == platform
      ensures State() == Initial()
      ensures fresh(drawPath)
    {
      this.platform := platform;
      brushThickness := 0.0;
      color := BLACK;
      paths := [];
      drawPath := new CustomPath(BLACK, 0.0);
      paintColor := BLACK;
      paintStrokeWidth := 0.0;
    }

    /** Draws the committed paths in list order, then the active path when it is
        not empty; before each path the paint takes that path's own width and
        colour, and the path is drawn with the paint. Returns the draw calls made. */
    method OnDraw() returns (cmds: seq<DrawCommand>)
      requires Valid()
      modifies this`paintColor, this`paintStrokeWidth
      ensures Valid()
      ensures cmds == DrawCommands(platform, old(State()))
      ensures State() == AfterDraw(platform, old(State()))
    {
      cmds := [];
      for i := 0 to |paths|
        invariant |cmds| == i
        invariant forall k :: 0 <= k < i ==> cmds[k] == CommandFor(paths[k].Value())
        invariant i == 0 ==> paintColor == old(paintColor) && paintStrokeWidth == old(paintStrokeWidth)
        invariant i > 0 ==> paintColor == paths[i - 1].color && paintStrokeWidth == paths[i - 1].brushThickness
      {
        var it := paths[i];
        paintStrokeWidth := it.brushThickness;
        paintColor := it.color;
        cmds := cmds + [DrawPath(it.ops, paintColor, paintStrokeWidth)];
      }
      if !platform.pathIsEmpty(drawPath.ops) {
        paintStrokeWidth := drawPath.brushThickness;
        paintColor := drawPath.color;
        cmds := cmds + [DrawPath(drawPath.ops, paintColor, paintStrokeWidth)];
      }
    }

    /** A touch event (None for a missing event). DOWN copies the paint's colour
        and width into the active path, resets it and sets its origin; MOVE adds a
        line-to; UP appends the active path object itself to the committed list
        and installs a fresh one; anything else returns false untouched. */
    method OnTouchEvent(event: Option<MotionEvent>) returns (handled: bool)
      requires Valid()
      modifies this, drawPath
      ensures Valid()
      ensures TouchResult(handled, State()) == OnTouch(old(State()), event)
      ensures old(paths) <= paths
      ensures IsAction(event, ACTION_UP) ==> paths == old(paths) + [old(drawPath)] && fresh(drawPath)
      ensures !IsAction(event, ACTION_UP) ==> paths == old(paths) && drawPath == old(drawPath)
    {
      if event.None? {
        return false;
      }
      var e := event.value;
      if e.action == ACTION_DOWN {
        drawPath.color := paintColor;
        drawPath.brushThickness := paintStrokeWidth;
        drawPath.Reset();
        drawPath.MoveTo(e.x, e.y);
      } else if e.action == ACTION_MOVE {
        drawPath.LineTo(e.x, e.y);
      } else if e.action == ACTION_UP {
        paths := paths + [drawPath];
        drawPath := new CustomPath(color, brushThickness);
        assert Values(paths) == Values(old(paths)) + [old(drawPath.Value())];
      } else {
        return false;
      }
      // the redraw request is left to the caller: rendering is OnDraw
      return true;
    }

    /** Converts the size with the platform's display metrics and gives it to both
        the thickness field and the paint. */
    method SetBrushThickness(newSize: real)
      requires Valid()
      modifies this`brushThickness, this`paintStrokeWidth
      ensures Valid()
      ensures State() == DrawingSpec.SetBrushThickness(platform, old(State()), newSize)
    {
      brushThickness := platform.applyDimension(newSize);
      paintStrokeWidth := brushThickness;
    }

    /** Parses the colour into a local that hides the colour field, and gives it to
        the paint only; an unparsable string fails before any assignment. */
    method SetColor(newColor: string) returns (outcome: ParseOutcome)
      requires Valid()
      modifies this`paintColor
      ensures Valid()
      ensures SetColorResult(outcome, State()) == DrawingSpec.SetColor(platform, old(State()), newColor)
    {
      var color := platform.parseColor(newColor);
      if color.None? {
        return IllegalArgument(newColor);
      }
      paintColor := color.value;
      return Parsed;
    }
  }
}
