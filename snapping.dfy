/**
 * Snap-to-guide while dragging (app/components/snappingHelper.ts).
 *
 * On every drag frame the handler measures the object once, removes the
 * guidelines of the previous frame, then tries six rules in a fixed order:
 * left edge, right edge, top edge, bottom edge, horizontal centre, vertical
 * centre. A rule fires when its edge or centre lies strictly closer than the
 * snapping distance to the matching canvas edge or centre line; it then
 * moves the object onto that line and draws a red dashed guideline there.
 *
 * `Snap` is the decision table as a function of the pre-move box; the
 * imperative `HandleObjectMoving` is proved to do what it says, and the
 * lemmas say what the table means (which rules fire, which one wins, where
 * the object ends up).
 */
module SnappingHelper {
  import opened Fabric
  import opened EcmaScript
  import opened Wrappers

  const SnappingDistance: real := 10.0

  /** `canvas.width || 500` */
  function CanvasWidthOr(w: real): real
  {
    if w == 0.0 then 500.0 else w
  }

  /** `canvas.height || 600` */
  function CanvasHeightOr(h: real): real
  {
    if h == 0.0 then 600.0 else h
  }

  function Abs(x: real): real
  {
    if x < 0.0 then -x else x
  }

  // ---------------------------------------------------------------------
  // The decision table
  // ---------------------------------------------------------------------

  /** The object's position and drawn size, measured once before any rule is tried. */
  datatype Box = Box(left: real, top: real, width: real, height: real)

  function EffectiveBox(p: Props): Box
  {
    Box(p.left, p.top, EffectiveWidth(p), EffectiveHeight(p))
  }

  /** The six rules, named after the feature they align. */
  datatype Rule = LeftEdge | RightEdge | TopEdge | BottomEdge | CenterX | CenterY

  /** The order in which the handler tries the rules. */
  const Rules: seq<Rule> := [LeftEdge, RightEdge, TopEdge, BottomEdge, CenterX, CenterY]

  function RuleIndex(r: Rule): (i: nat)
    ensures i < |Rules| && Rules[i] == r
  {
    match r
    case LeftEdge => 0
    case RightEdge => 1
    case TopEdge => 2
    case BottomEdge => 3
    case CenterX => 4
    case CenterY => 5
  }

  /** Rules that move `left` and draw a vertical guideline; the others move `top` and draw a horizontal one. */
  predicate MovesLeft(r: Rule)
  {
    r.LeftEdge? || r.RightEdge? || r.CenterX?
  }

  /** The id of the guideline a rule draws. */
  function GuideId(r: Rule): string
  {
    match r
    case LeftEdge => "vertical-left"
    case RightEdge => "vertical-right"
    case TopEdge => "horizontal-top"
    case BottomEdge => "horizontal-bottom"
    case CenterX => "vertical-center"
    case CenterY => "horizontal-center"
  }

  /** The coordinate a rule tests: an edge or a centre of the box. */
  function Feature(r: Rule, b: Box): real
  {
    match r
    case LeftEdge => b.left
    case RightEdge => b.left + b.width
    case TopEdge => b.top
    case BottomEdge => b.top + b.height
    case CenterX => b.left + b.width / 2.0
    case CenterY => b.top + b.height / 2.0
  }

  /** Where a rule's guideline lies, for canvas width `cw` and height `ch`. */
  function GuidePos(r: Rule, cw: real, ch: real): real
  {
    match r
    case LeftEdge => 0.0
    case RightEdge => cw
    case TopEdge => 0.0
    case BottomEdge => ch
    case CenterX => cw / 2.0
    case CenterY => ch / 2.0
  }

  /** A rule fires when its feature is strictly closer than the snapping distance to its line. */
  predicate Fires(r: Rule, b: Box, cw: real, ch: real)
  {
    Abs(Feature(r, b) - GuidePos(r, cw, ch)) < SnappingDistance
  }

  /**
   * A rule fires exactly when its feature lies strictly inside the band of
   * half-width 10 around its line; a feature exactly 10 away does not snap.
   */
  lemma FiresStrictly(r: Rule, b: Box, cw: real, ch: real)
    ensures Fires(r, b, cw, ch) <==>
      GuidePos(r, cw, ch) - SnappingDistance < Feature(r, b) < GuidePos(r, cw, ch) + SnappingDistance
    ensures Feature(r, b) == GuidePos(r, cw, ch) + SnappingDistance ==> !Fires(r, b, cw, ch)
    ensures Feature(r, b) == GuidePos(r, cw, ch) - SnappingDistance ==> !Fires(r, b, cw, ch)
  {
  }

  /** The `left` (for rules that move left) or `top` a firing rule sets. */
  function Target(r: Rule, b: Box, cw: real, ch: real): real
  {
    match r
    case LeftEdge => 0.0
    case RightEdge => cw - b.width
    case TopEdge => 0.0
    case BottomEdge => ch - b.height
    case CenterX => cw / 2.0 - b.width / 2.0
    case CenterY => ch / 2.0 - b.height / 2.0
  }

  /** The object's new position and the rules that fired, in the order they fired. */
  datatype Outcome = Outcome(left: real, top: real, fired: seq<Rule>)

  /** Trying one rule: a firing rule overwrites the coordinate it moves. */
  function Try(o: Outcome, r: Rule, b: Box, cw: real, ch: real): Outcome
  {
    if !Fires(r, b, cw, ch) then o
    else if MovesLeft(r) then Outcome(Target(r, b, cw, ch), o.top, o.fired + [r])
    else Outcome(o.left, Target(r, b, cw, ch), o.fired + [r])
  }

  /**
   * Trying a rule either leaves the outcome alone or reports the rule and
   * moves only the coordinate the rule moves, and it reports the rule
   * exactly when the rule fires.
   */
  lemma TryMovesOneCoordinate(o: Outcome, r: Rule, b: Box, cw: real, ch: real)
    ensures var o' := Try(o, r, b, cw, ch);
      && (o'.fired == o.fired + [r] <==> Fires(r, b, cw, ch))
      && (o'.fired == o.fired ==> o' == o)
      && (o'.fired == o.fired || o'.fired == o.fired + [r])
      && (MovesLeft(r) ==> o'.top == o.top)
      && (!MovesLeft(r) ==> o'.left == o.left)
  {
    var o' := Try(o, r, b, cw, ch);
    if !Fires(r, b, cw, ch) {
      assert |o'.fired| != |o.fired + [r]|;
    }
  }

  /** The outcome after trying the first `k` rules on the pre-move box `b`. */
  function SnapThrough(b: Box, cw: real, ch: real, k: nat): Outcome
    requires k <= |Rules|
  {
    if k == 0 then Outcome(b.left, b.top, [])
    else Try(SnapThrough(b, cw, ch, k - 1), Rules[k - 1], b, cw, ch)
  }

  /**
   * After the first `k` rules, exactly those among them that fire are
   * reported, each once and in the order they are tried.
   */
  lemma {:induction false} SnapThroughFired(b: Box, cw: real, ch: real, k: nat)
    requires k <= |Rules|
    ensures var o := SnapThrough(b, cw, ch, k);
      && (forall r :: r in o.fired <==> RuleIndex(r) < k && Fires(r, b, cw, ch))
      && (forall i, j :: 0 <= i < j < |o.fired| ==> RuleIndex(o.fired[i]) < RuleIndex(o.fired[j]))
  {
    if k > 0 {
      SnapThroughFired(b, cw, ch, k - 1);
      var o := SnapThrough(b, cw, ch, k - 1);
      var r := Rules[k - 1];
      assert RuleIndex(r) == k - 1;
      assert SnapThrough(b, cw, ch, k) == Try(o, r, b, cw, ch);
    }
  }

  /**
   * The whole decision table. Exactly the rules that fire are reported,
   * each once and in the order they are tried.
   */
  function Snap(b: Box, cw: real, ch: real): (o: Outcome)
    ensures o.fired == [] <==> forall r :: !Fires(r, b, cw, ch)
    ensures o.fired == [] ==> o.left == b.left && o.top == b.top
  {
    SnapThroughFired(b, cw, ch, |Rules|);
    SnapThroughLastWins(b, cw, ch, |Rules|);
    var o := SnapThrough(b, cw, ch, |Rules|);
    assert o.fired != [] ==> o.fired[0] in o.fired;
    o
  }

  lemma SnapFired(b: Box, cw: real, ch: real)
    ensures var o := Snap(b, cw, ch);
      && (forall r :: r in o.fired <==> Fires(r, b, cw, ch))
      && (forall i, j :: 0 <= i < j < |o.fired| ==> RuleIndex(o.fired[i]) < RuleIndex(o.fired[j]))
  {
    SnapThroughFired(b, cw, ch, |Rules|);
  }

  /** The last rule in `fired` that moves the given coordinate (`left` when `horizontal`). */
  function LastMoving(fired: seq<Rule>, horizontal: bool): (w: Option<Rule>)
    ensures w.Some? ==> w.value in fired && MovesLeft(w.value) == horizontal
    ensures w.None? ==> forall r :: r in fired ==> MovesLeft(r) != horizontal
  {
    if fired == [] then None
    else if MovesLeft(fired[|fired| - 1]) == horizontal then Some(fired[|fired| - 1])
    else LastMoving(fired[..|fired| - 1], horizontal)
  }

  /** The position a coordinate ends up at: the target of the last rule that moved it, or where it was. */
  function Settled(w: Option<Rule>, start: real, b: Box, cw: real, ch: real): real
  {
    if w.Some? then Target(w.value, b, cw, ch) else start
  }

  lemma {:induction false} SnapThroughLastWins(b: Box, cw: real, ch: real, k: nat)
    requires k <= |Rules|
    ensures var o := SnapThrough(b, cw, ch, k);
      && o.left == Settled(LastMoving(o.fired, true), b.left, b, cw, ch)
      && o.top == Settled(LastMoving(o.fired, false), b.top, b, cw, ch)
  {
    if k > 0 {
      SnapThroughLastWins(b, cw, ch, k - 1);
      var o := SnapThrough(b, cw, ch, k - 1);
      var r := Rules[k - 1];
      var o' := SnapThrough(b, cw, ch, k);
      assert o' == Try(o, r, b, cw, ch);
      if Fires(r, b, cw, ch) {
        var f := o'.fired;
        assert f == o.fired + [r];
        assert f[..|f| - 1] == o.fired;
        assert LastMoving(f, MovesLeft(r)) == Some(r);
        assert LastMoving(f, !MovesLeft(r)) == LastMoving(o.fired, !MovesLeft(r));
      }
    }
  }

  /**
   * Later rules override earlier ones: the final `left` is the target of the
   * last rule among left edge, right edge and horizontal centre that fired,
   * and the final `top` likewise among top edge, bottom edge and vertical
   * centre; a coordinate no rule moved keeps its pre-move value.
   */
  lemma SnapLastRuleWins(b: Box, cw: real, ch: real)
    ensures var o := Snap(b, cw, ch);
      && o.left == Settled(LastMoving(o.fired, true), b.left, b, cw, ch)
      && o.top == Settled(LastMoving(o.fired, false), b.top, b, cw, ch)
  {
    SnapThroughLastWins(b, cw, ch, |Rules|);
  }

  /** The precedence spelled out: centre over right edge over left edge, centre over bottom over top. */
  lemma SnapPrecedence(b: Box, cw: real, ch: real)
    ensures Snap(b, cw, ch).left ==
      if Fires(CenterX, b, cw, ch) then cw / 2.0 - b.width / 2.0
      else if Fires(RightEdge, b, cw, ch) then cw - b.width
      else if Fires(LeftEdge, b, cw, ch) then 0.0
      else b.left
    ensures Snap(b, cw, ch).top ==
      if Fires(CenterY, b, cw, ch) then ch / 2.0 - b.height / 2.0
      else if Fires(BottomEdge, b, cw, ch) then ch - b.height
      else if Fires(TopEdge, b, cw, ch) then 0.0
      else b.top
  {
    var f := Snap(b, cw, ch).fired;
    SnapFired(b, cw, ch);
    SnapLastRuleWins(b, cw, ch);
    LastMovingIsLatest(f, true);
    LastMovingIsLatest(f, false);
    var wx := LastMoving(f, true);
    if Fires(CenterX, b, cw, ch) {
      assert CenterX in f;
      assert wx == Some(CenterX);
    } else if Fires(RightEdge, b, cw, ch) {
      assert RightEdge in f;
      assert wx == Some(RightEdge);
    } else if Fires(LeftEdge, b, cw, ch) {
      assert LeftEdge in f;
      assert wx == Some(LeftEdge);
    } else {
      assert wx == None;
    }
    var wy := LastMoving(f, false);
    if Fires(CenterY, b, cw, ch) {
      assert CenterY in f;
      assert wy == Some(CenterY);
    } else if Fires(BottomEdge, b, cw, ch) {
      assert BottomEdge in f;
      assert wy == Some(BottomEdge);
    } else if Fires(TopEdge, b, cw, ch) {
      assert TopEdge in f;
      assert wy == Some(TopEdge);
    } else {
      assert wy == None;
    }
  }

  /** No rule in `fired` that moves the same coordinate comes after the last one found. */
  lemma {:induction false} LastMovingIsLatest(fired: seq<Rule>, horizontal: bool)
    requires forall i, j :: 0 <= i < j < |fired| ==> RuleIndex(fired[i]) < RuleIndex(fired[j])
    ensures var w := LastMoving(fired, horizontal);
      w.Some? ==> forall r :: r in fired && MovesLeft(r) == horizontal ==> RuleIndex(r) <= RuleIndex(w.value)
  {
    if fired != [] {
      var init := fired[..|fired| - 1];
      var last := fired[|fired| - 1];
      if MovesLeft(last) == horizontal {
        forall r | r in fired && MovesLeft(r) == horizontal ensures RuleIndex(r) <= RuleIndex(last) {
          var i :| 0 <= i < |fired| && fired[i] == r;
          if i < |fired| - 1 {
            assert RuleIndex(fired[i]) < RuleIndex(fired[|fired| - 1]);
          }
        }
      } else {
        assert forall i, j :: 0 <= i < j < |init| ==> RuleIndex(init[i]) < RuleIndex(init[j]) by {
          forall i, j | 0 <= i < j < |init| ensures RuleIndex(init[i]) < RuleIndex(init[j]) {
            assert init[i] == fired[i] && init[j] == fired[j];
          }
        }
        LastMovingIsLatest(init, horizontal);
        forall r | r in fired && MovesLeft(r) == horizontal ensures r in init {
          var i :| 0 <= i < |fired| && fired[i] == r;
          assert i < |init| && init[i] == r;
        }
      }
    }
  }

  /** When no rule fires the object stays where it was and no guideline is reported. */
  lemma SnapNothingFires(b: Box, cw: real, ch: real)
    requires forall r :: !Fires(r, b, cw, ch)
    ensures Snap(b, cw, ch) == Outcome(b.left, b.top, [])
  {
    assert SnapThrough(b, cw, ch, 1) == Outcome(b.left, b.top, []);
    assert SnapThrough(b, cw, ch, 2) == Outcome(b.left, b.top, []);
    assert SnapThrough(b, cw, ch, 3) == Outcome(b.left, b.top, []);
    assert SnapThrough(b, cw, ch, 4) == Outcome(b.left, b.top, []);
    assert SnapThrough(b, cw, ch, 5) == Outcome(b.left, b.top, []);
  }

  /** Moving the box to a rule's target puts the rule's feature exactly on its guideline. */
  lemma TargetOnGuide(r: Rule, b: Box, cw: real, ch: real)
    ensures MovesLeft(r) ==> Feature(r, b.(left := Target(r, b, cw, ch))) == GuidePos(r, cw, ch)
    ensures !MovesLeft(r) ==> Feature(r, b.(top := Target(r, b, cw, ch))) == GuidePos(r, cw, ch)
    ensures MovesLeft(r) ==> Target(r, b, cw, ch) - b.left == GuidePos(r, cw, ch) - Feature(r, b)
    ensures !MovesLeft(r) ==> Target(r, b, cw, ch) - b.top == GuidePos(r, cw, ch) - Feature(r, b)
  {
  }

  /**
   * After snapping, the winning rule's guideline passes exactly through the
   * feature it aligned, and a snap moves the object by less than the
   * snapping distance along each axis.
   */
  lemma SnapAlignsAndStaysClose(b: Box, cw: real, ch: real)
    ensures var o := Snap(b, cw, ch);
      var wx := LastMoving(o.fired, true);
      var wy := LastMoving(o.fired, false);
      && (wx.Some? ==> Feature(wx.value, b.(left := o.left)) == GuidePos(wx.value, cw, ch))
      && (wy.Some? ==> Feature(wy.value, b.(top := o.top)) == GuidePos(wy.value, cw, ch))
      && Abs(o.left - b.left) < SnappingDistance
      && Abs(o.top - b.top) < SnappingDistance
  {
    SnapFired(b, cw, ch);
    SnapLastRuleWins(b, cw, ch);
    var o := Snap(b, cw, ch);
    var wx := LastMoving(o.fired, true);
    var wy := LastMoving(o.fired, false);
    if wx.Some? {
      TargetOnGuide(wx.value, b, cw, ch);
    }
    if wy.Some? {
      TargetOnGuide(wy.value, b, cw, ch);
    }
  }

  // ---------------------------------------------------------------------
  // Guidelines on the canvas
  // ---------------------------------------------------------------------

  /** The line objects the previous frame drew: type "line" and an id starting with "vertical-" or "horizontal-". */
  predicate IsGuideline(o: FabricObject)
    ensures IsGuideline(o) ==> o.typeName == "line"
  {
    o.typeName == "line" && o.id != ""
    && (StartsWith(o.id, "vertical-") || StartsWith(o.id, "horizontal-"))
  }

  /** Every guideline a rule draws is one the next frame clears, and its prefix tells its direction. */
  lemma GuideIdPrefix(r: Rule)
    ensures MovesLeft(r) ==> StartsWith(GuideId(r), "vertical-")
    ensures !MovesLeft(r) ==> StartsWith(GuideId(r), "horizontal-")
    ensures forall q :: GuideId(q) == GuideId(r) ==> q == r
  {
  }

  /** `[x, 0, x, canvas.height || 600]`, red, dashed, neither selectable nor evented. */
  function VerticalGuidelineProps(canvasHeight: real, x: real): (p: Props)
    ensures p.x1 == p.x2 == x && p.y1 == 0.0 && p.y2 == CanvasHeightOr(canvasHeight)
    ensures p.stroke == "red" && p.strokeDashArray == [5, 5] && !p.selectable && !p.evented
  {
    DefaultProps.(x1 := x, y1 := 0.0, x2 := x, y2 := CanvasHeightOr(canvasHeight),
                  stroke := "red", strokeWidth := 1.0, selectable := false, evented := false,
                  strokeDashArray := [5, 5], opacity := 0.8)
  }

  /** `[0, y, canvas.width || 500, y]`, with the same style. */
  function HorizontalGuidelineProps(canvasWidth: real, y: real): (p: Props)
    ensures p.y1 == p.y2 == y && p.x1 == 0.0 && p.x2 == CanvasWidthOr(canvasWidth)
    ensures p.stroke == "red" && p.strokeDashArray == [5, 5] && !p.selectable && !p.evented
  {
    DefaultProps.(x1 := 0.0, y1 := y, x2 := CanvasWidthOr(canvasWidth), y2 := y,
                  stroke := "red", strokeWidth := 1.0, selectable := false, evented := false,
                  strokeDashArray := [5, 5], opacity := 0.8)
  }

  method CreateVerticalGuideline(canvas: Canvas, x: real, id: string) returns (line: FabricObject)
    ensures fresh(line) && line.typeName == "line" && line.id == id
    ensures line.props == VerticalGuidelineProps(canvas.height, x)
  {
    line := new FabricObject("line", id, VerticalGuidelineProps(canvas.height, x));
  }

  method CreateHorizontalGuideline(canvas: Canvas, y: real, id: string) returns (line: FabricObject)
    ensures fresh(line) && line.typeName == "line" && line.id == id
    ensures line.props == HorizontalGuidelineProps(canvas.width, y)
  {
    line := new FabricObject("line", id, HorizontalGuidelineProps(canvas.width, y));
  }

  /** The guideline a rule draws on a canvas of the given (possibly unset) size. */
  function GuidelineProps(r: Rule, canvasWidth: real, canvasHeight: real): (p: Props)
    ensures p.stroke == "red" && !p.selectable && !p.evented
  {
    var pos := GuidePos(r, CanvasWidthOr(canvasWidth), CanvasHeightOr(canvasHeight));
    if MovesLeft(r) then VerticalGuidelineProps(canvasHeight, pos)
    else HorizontalGuidelineProps(canvasWidth, pos)
  }

  /**
   * A guideline spans the whole canvas through the rule's line, vertically
   * for rules that move `left` and horizontally for the others, and can be
   * neither selected nor hit.
   */
  lemma GuidelineSpansCanvas(r: Rule, canvasWidth: real, canvasHeight: real)
    ensures var p := GuidelineProps(r, canvasWidth, canvasHeight);
      var cw := CanvasWidthOr(canvasWidth);
      var ch := CanvasHeightOr(canvasHeight);
      && (MovesLeft(r) ==> p.x1 == p.x2 == GuidePos(r, cw, ch) && p.y1 == 0.0 && p.y2 == ch)
      && (!MovesLeft(r) ==> p.y1 == p.y2 == GuidePos(r, cw, ch) && p.x1 == 0.0 && p.x2 == cw)
      && !p.selectable && !p.evented
  {
  }

  /** `lines` are the guidelines drawn for `fired`, one per rule and in the same order. */
  predicate DrawnIds(lines: seq<FabricObject>, fired: seq<Rule>)
  {
    |lines| == |fired|
    && forall i :: 0 <= i < |lines| ==> lines[i].typeName == "line" && lines[i].id == GuideId(fired[i])
  }

  predicate Draws(lines: seq<FabricObject>, fired: seq<Rule>, canvasWidth: real, canvasHeight: real)
    reads lines
  {
    DrawnIds(lines, fired)
    && forall i :: 0 <= i < |lines| ==> lines[i].props == GuidelineProps(fired[i], canvasWidth, canvasHeight)
  }

  /**
   * `guidelineExists`: `canvas.getObjects("line").some(obj => obj.id === id)`,
   * one scan over the scene.
   */
  function GuidelineExists(objects: seq<FabricObject>, id: string): (r: bool)
    ensures r <==> exists i :: 0 <= i < |objects| && objects[i].typeName == "line" && objects[i].id == id
  {
    if objects == [] then false
    else (objects[0].typeName == "line" && objects[0].id == id) || GuidelineExists(objects[1..], id)
  }

  /** The objects `clearGuideLines` leaves: every non-guideline, in its original order. */
  function Kept(objects: seq<FabricObject>): (r: seq<FabricObject>)
    ensures |r| <= |objects|
    ensures forall o :: o in r ==> o in objects && !IsGuideline(o)
    ensures forall o :: o in objects && !IsGuideline(o) ==> o in r
  {
    if objects == [] then []
    else (if IsGuideline(objects[0]) then [] else [objects[0]]) + Kept(objects[1..])
  }

  /** Clearing works piecewise, so the objects that stay keep their relative order. */
  lemma {:induction false} KeptAppend(a: seq<FabricObject>, b: seq<FabricObject>)
    ensures Kept(a + b) == Kept(a) + Kept(b)
  {
    if a == [] {
      assert a + b == b;
    } else {
      assert (a + b)[0] == a[0] && (a + b)[1..] == a[1..] + b;
      KeptAppend(a[1..], b);
    }
  }

  /** A canvas without guidelines is left untouched; in particular clearing twice clears nothing more. */
  lemma {:induction false} KeptNoGuidelines(objects: seq<FabricObject>)
    requires forall o :: o in objects ==> !IsGuideline(o)
    ensures Kept(objects) == objects
  {
    if objects != [] {
      KeptNoGuidelines(objects[1..]);
    }
  }

  lemma {:induction false} FilterOutGuidelines(objects: seq<FabricObject>, gone: set<FabricObject>)
    requires forall o :: o in objects ==> (o in gone <==> IsGuideline(o))
    ensures FilterOut(objects, gone) == Kept(objects)
  {
    if objects != [] {
      FilterOutGuidelines(objects[1..], gone);
    }
  }

  /**
   * `clearGuideLines`: takes every guideline off the canvas, one `remove`
   * per guideline, and resets the guideline state to the empty list
   * (returned here).
   */
  method ClearGuideLines(canvas: Canvas) returns (guidelines: seq<FabricObject>)
    modifies canvas`objects
    ensures canvas.objects == Kept(old(canvas.objects))
    ensures guidelines == []
  {
    var objects := OfType(canvas.objects, "line");
    ghost var removed: set<FabricObject> := {};
    FilterOutNothing(canvas.objects);
    var i := 0;
    while i < |objects|
      invariant 0 <= i <= |objects|
      invariant forall o :: o in removed ==> IsGuideline(o)
      invariant forall j :: 0 <= j < i && IsGuideline(objects[j]) ==> objects[j] in removed
      invariant canvas.objects == FilterOut(old(canvas.objects), removed)
    {
      var obj := objects[i];
      assert obj in objects;
      ghost var guide := IsGuideline(obj);
      if obj.id != "" && (StartsWith(obj.id, "vertical-") || StartsWith(obj.id, "horizontal-")) {
        canvas.Remove(obj);
        FilterOutTwice(old(canvas.objects), removed, {obj});
        removed := removed + {obj};
      }
      assert guide ==> obj in removed;
      i := i + 1;
    }
    FilterOutGuidelines(old(canvas.objects), removed);
    guidelines := [];
  }

  /** Once the canvas holds only non-guidelines plus the lines drawn for `fired`, no guideline for another rule exists yet. */
  lemma NotYetDrawn(objects: seq<FabricObject>, kept: seq<FabricObject>, lines: seq<FabricObject>,
                    fired: seq<Rule>, r: Rule)
    requires objects == kept + lines
    requires forall o :: o in kept ==> !IsGuideline(o)
    requires DrawnIds(lines, fired)
    requires r !in fired
    ensures !GuidelineExists(objects, GuideId(r))
  {
    GuideIdPrefix(r);
    forall i | 0 <= i < |objects| && objects[i].typeName == "line"
      ensures objects[i].id != GuideId(r)
    {
      if i < |kept| {
        assert objects[i] in kept;
      } else {
        assert lines[i - |kept|] == objects[i];
        assert fired[i - |kept|] in fired;
      }
    }
  }

  /**
   * The block every rule runs once it has fired: unless a line object with
   * the rule's id is already on the canvas, create the rule's guideline,
   * push it onto the frame's list and add it to the canvas.
   */
  method PlaceGuideline(canvas: Canvas, r: Rule, newGuidelines: seq<FabricObject>,
                        ghost kept: seq<FabricObject>, ghost fired: seq<Rule>)
    returns (lines: seq<FabricObject>, ghost line: FabricObject)
    requires canvas.objects == kept + newGuidelines
    requires forall o :: o in kept ==> !IsGuideline(o)
    requires Draws(newGuidelines, fired, canvas.width, canvas.height)
    requires r !in fired
    modifies canvas`objects
    ensures canvas.objects == kept + lines
    ensures Draws(lines, fired + [r], canvas.width, canvas.height)
    ensures lines == newGuidelines + [line] && fresh(line)
  {
    var canvasWidth := CanvasWidthOr(canvas.width);
    var canvasHeight := CanvasHeightOr(canvas.height);
    NotYetDrawn(canvas.objects, kept, newGuidelines, fired, r);
    lines := newGuidelines;
    if !GuidelineExists(canvas.objects, GuideId(r)) {
      var guideline;
      if MovesLeft(r) {
        guideline := CreateVerticalGuideline(canvas, GuidePos(r, canvasWidth, canvasHeight), GuideId(r));
      } else {
        guideline := CreateHorizontalGuideline(canvas, GuidePos(r, canvasWidth, canvasHeight), GuideId(r));
      }
      lines := lines + [guideline];
      canvas.Add(guideline);
      line := guideline;
    }
  }

  // ---------------------------------------------------------------------
  // The drag handler
  // ---------------------------------------------------------------------

  /**
   * The handler's state once the first `k` rules have been tried: `obj` sits
   * where `SnapThrough` puts it, the canvas holds the kept objects followed
   * by one guideline per rule fired so far, and `snapped` says whether any
   * rule fired.
   */
  ghost predicate Stage(canvas: Canvas, obj: FabricObject, k: nat, lines: seq<FabricObject>, snapped: bool,
                        b: Box, start: Props, kept: seq<FabricObject>)
    reads canvas, obj, lines
  {
    && k <= |Rules|
    && var o := SnapThrough(b, CanvasWidthOr(canvas.width), CanvasHeightOr(canvas.height), k);
    && obj.props == start.(left := o.left, top := o.top)
    && Draws(lines, o.fired, canvas.width, canvas.height)
    && snapped == (o.fired != [])
    && canvas.objects == kept + lines
    && obj !in lines
  }

  /**
   * One of the handler's six blocks, for rule number `k`: when the rule's
   * test `fires` holds, set the coordinate the rule moves to `target`, draw
   * the rule's guideline and note that something snapped.
   */
  method TryRule(canvas: Canvas, obj: FabricObject, k: nat, fires: bool, target: real,
                 newGuidelines: seq<FabricObject>, snapped: bool,
                 ghost b: Box, ghost start: Props, ghost kept: seq<FabricObject>)
    returns (lines: seq<FabricObject>, snapped': bool)
    requires k < |Rules|
    requires fires == Fires(Rules[k], b, CanvasWidthOr(canvas.width), CanvasHeightOr(canvas.height))
    requires target == Target(Rules[k], b, CanvasWidthOr(canvas.width), CanvasHeightOr(canvas.height))
    requires Stage(canvas, obj, k, newGuidelines, snapped, b, start, kept)
    requires forall q :: q in kept ==> !IsGuideline(q)
    modifies canvas`objects, obj
    ensures Stage(canvas, obj, k + 1, lines, snapped', b, start, kept)
    ensures forall l :: l in lines ==> l in newGuidelines || fresh(l)
  {
    ghost var cw, ch := CanvasWidthOr(canvas.width), CanvasHeightOr(canvas.height);
    ghost var o := SnapThrough(b, cw, ch, k);
    var r := Rules[k];
    assert SnapThrough(b, cw, ch, k + 1) == Try(o, r, b, cw, ch);
    lines, snapped' := newGuidelines, snapped;
    if fires {
      SnapThroughFired(b, cw, ch, k);
      if MovesLeft(r) {
        obj.props := obj.props.(left := target);
      } else {
        obj.props := obj.props.(top := target);
      }
      ghost var line;
      lines, line := PlaceGuideline(canvas, r, newGuidelines, kept, o.fired);
      snapped' := true;
    }
  }

  /** The handler's first two blocks: the rules for the canvas's left and right edges. */
  method SnapToSides(canvas: Canvas, obj: FabricObject, left: real, right: real, width: real, canvasWidth: real,
                     ghost b: Box, ghost start: Props, ghost kept: seq<FabricObject>)
    returns (newGuidelines: seq<FabricObject>, snapped: bool)
    requires canvasWidth == CanvasWidthOr(canvas.width)
    requires b.left == left && b.width == width && right == left + width
    requires Stage(canvas, obj, 0, [], false, b, start, kept)
    requires forall q :: q in kept ==> !IsGuideline(q)
    modifies canvas`objects, obj
    ensures Stage(canvas, obj, 2, newGuidelines, snapped, b, start, kept)
    ensures forall l :: l in newGuidelines ==> fresh(l)
  {
    newGuidelines, snapped := [], false;
    // Snap to left edge
    newGuidelines, snapped := TryRule(canvas, obj, 0, Abs(left) < SnappingDistance, 0.0,
      newGuidelines, snapped, b, start, kept);
    // Snap to right edge
    newGuidelines, snapped := TryRule(canvas, obj, 1, Abs(right - canvasWidth) < SnappingDistance,
      canvasWidth - width, newGuidelines, snapped, b, start, kept);
  }

  /** The handler's third and fourth blocks: the rules for the canvas's top and bottom edges. */
  method SnapToTopAndBottom(canvas: Canvas, obj: FabricObject, top: real, bottom: real, height: real,
                            canvasHeight: real, newGuidelines: seq<FabricObject>, snapped: bool,
                            ghost b: Box, ghost start: Props, ghost kept: seq<FabricObject>)
    returns (lines: seq<FabricObject>, snapped': bool)
    requires canvasHeight == CanvasHeightOr(canvas.height)
    requires b.top == top && b.height == height && bottom == top + height
    requires Stage(canvas, obj, 2, newGuidelines, snapped, b, start, kept)
    requires forall q :: q in kept ==> !IsGuideline(q)
    modifies canvas`objects, obj
    ensures Stage(canvas, obj, 4, lines, snapped', b, start, kept)
    ensures forall l :: l in lines ==> l in newGuidelines || fresh(l)
  {
    lines, snapped' := newGuidelines, snapped;
    // Snap to top edge
    lines, snapped' := TryRule(canvas, obj, 2, Abs(top) < SnappingDistance, 0.0,
      lines, snapped', b, start, kept);
    // Snap to bottom edge
    lines, snapped' := TryRule(canvas, obj, 3, Abs(bottom - canvasHeight) < SnappingDistance,
      canvasHeight - height, lines, snapped', b, start, kept);
  }

  /** The handler's last two blocks: the rules for the canvas's centre lines. */
  method SnapToCenters(canvas: Canvas, obj: FabricObject, centerX: real, centerY: real,
                       width: real, height: real, canvasWidth: real, canvasHeight: real,
                       newGuidelines: seq<FabricObject>, snapped: bool,
                       ghost b: Box, ghost start: Props, ghost kept: seq<FabricObject>)
    returns (lines: seq<FabricObject>, snapped': bool)
    requires canvasWidth == CanvasWidthOr(canvas.width) && canvasHeight == CanvasHeightOr(canvas.height)
    requires b.width == width && b.height == height
    requires centerX == b.left + width / 2.0 && centerY == b.top + height / 2.0
    requires Stage(canvas, obj, 4, newGuidelines, snapped, b, start, kept)
    requires forall q :: q in kept ==> !IsGuideline(q)
    modifies canvas`objects, obj
    ensures Stage(canvas, obj, 6, lines, snapped', b, start, kept)
    ensures forall l :: l in lines ==> l in newGuidelines || fresh(l)
  {
    lines, snapped' := newGuidelines, snapped;
    // Snap to center (horizontal)
    lines, snapped' := TryRule(canvas, obj, 4, Abs(centerX - canvasWidth / 2.0) < SnappingDistance,
      canvasWidth / 2.0 - width / 2.0, lines, snapped', b, start, kept);
    // Snap to center (vertical)
    lines, snapped' := TryRule(canvas, obj, 5, Abs(centerY - canvasHeight / 2.0) < SnappingDistance,
      canvasHeight / 2.0 - height / 2.0, lines, snapped', b, start, kept);
  }

  /**
   * `handleObjectMoving`: snaps `obj` as `Snap` decides on its pre-move box,
   * changing only its `left` and `top`, leaves the canvas holding the
   * non-guidelines it held, in order, followed by one fresh guideline per
   * rule that fired, in rule order, and returns those guidelines as the new
   * guideline state.
   */
  method HandleObjectMoving(canvas: Canvas, obj: FabricObject) returns (guidelines: seq<FabricObject>)
    modifies canvas`objects, obj
    ensures var o := Snap(EffectiveBox(old(obj.props)), CanvasWidthOr(canvas.width), CanvasHeightOr(canvas.height));
      && obj.props == old(obj.props).(left := o.left, top := o.top)
      && canvas.objects == Kept(old(canvas.objects)) + guidelines
      && Draws(guidelines, o.fired, canvas.width, canvas.height)
      && forall line :: line in guidelines ==> fresh(line)
  {
    var canvasWidth := CanvasWidthOr(canvas.width);
    var canvasHeight := CanvasHeightOr(canvas.height);

    var left := obj.props.left;
    var top := obj.props.top;
    var width := EffectiveWidth(obj.props);
    var height := EffectiveHeight(obj.props);
    var right := left + width;
    var bottom := top + height;
    var centerX := left + width / 2.0;
    var centerY := top + height / 2.0;
    ghost var b := Box(left, top, width, height);
    ghost var start := obj.props;

    guidelines := ClearGuideLines(canvas);
    ghost var kept := canvas.objects;
    assert Stage(canvas, obj, 0, [], false, b, start, kept);

    var newGuidelines, snapped := SnapToSides(canvas, obj, left, right, width, canvasWidth, b, start, kept);
    newGuidelines, snapped := SnapToTopAndBottom(canvas, obj, top, bottom, height, canvasHeight,
      newGuidelines, snapped, b, start, kept);
    newGuidelines, snapped := SnapToCenters(canvas, obj, centerX, centerY, width, height,
      canvasWidth, canvasHeight, newGuidelines, snapped, b, start, kept);

    assert Snap(b, canvasWidth, canvasHeight) == SnapThrough(b, canvasWidth, canvasHeight, 6);
    if snapped {
      guidelines := newGuidelines;
    } else {
      guidelines := [];
    }
  }
}
