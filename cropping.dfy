/**
 * The crop-frame button (app/components/Cropping.tsx): it adds a named,
 * transparent rectangle to the canvas, and while the user resizes that
 * frame it folds the scale into the size so that the outline keeps a
 * stroke width of 1.
 */
module Cropping {
  import opened Fabric
  import opened EcmaScript

  /** `Frame ${canvas.getObjects("rect").length + 1}`: one more than the number of rects already on the canvas. */
  function FrameName(objects: seq<FabricObject>): (name: string)
    ensures |name| > 6 && name[..6] == "Frame "
    ensures AllDigits(name[6..], 10) && Value(name[6..], 10) == |OfType(objects, "rect")| + 1
  {
    var n := |OfType(objects, "rect")| + 1;
    NatToStringValue(n);
    var name := "Frame " + IntToString(n);
    assert name[6..] == NatToString(n);
    name
  }

  /** The properties of every new frame apart from its name. */
  const FrameProps: Props := DefaultProps.(
    left := 100.0, top := 100.0, width := 200.0, height := 200.0,
    fill := "transparent", stroke := "#07FE3D", strokeWidth := 1.0,
    selectable := true, evented := true)

  /**
   * `addFrameToCanvas`: a new rect named after the current rect count goes
   * on top of the scene. The two resize handlers it registers are modelled
   * by `MaintainStrokeWidth`.
   */
  method AddFrameToCanvas(canvas: Canvas) returns (frame: FabricObject)
    modifies canvas`objects
    ensures fresh(frame)
    ensures frame.typeName == "rect" && frame.props == FrameProps.(name := FrameName(old(canvas.objects)))
    ensures canvas.objects == old(canvas.objects) + [frame]
  {
    var frameName := FrameName(canvas.objects);
    frame := new FabricObject("rect", "", FrameProps.(name := frameName));
    canvas.Add(frame);
  }

  /** What `maintainStrokeWidth` leaves on an object with properties `p`. */
  function NormalizeStroke(p: Props): (q: Props)
    ensures q.scaleX == 1.0 && q.scaleY == 1.0 && q.strokeWidth == 1.0
  {
    p.(width := p.width * ScaleOrOne(p.scaleX), height := p.height * ScaleOrOne(p.scaleY),
       scaleX := 1.0, scaleY := 1.0, strokeWidth := 1.0)
  }

  /** `maintainStrokeWidth(object)`: the scale is folded into the size, and the stroke width is reset to 1. */
  method MaintainStrokeWidth(obj: FabricObject)
    modifies obj
    ensures obj.props == NormalizeStroke(old(obj.props))
  {
    var scaleX := if obj.props.scaleX == 0.0 then 1.0 else obj.props.scaleX;
    var scaleY := if obj.props.scaleY == 0.0 then 1.0 else obj.props.scaleY;
    obj.props := obj.props.(
      width := obj.props.width * scaleX,
      height := obj.props.height * scaleY,
      scaleX := 1.0,
      scaleY := 1.0,
      strokeWidth := 1.0);
  }

  // ---------------------------------------------------------------------
  // Properties
  // ---------------------------------------------------------------------

  /** Only the size, the scales and the stroke width differ from before. */
  lemma NormalizeStrokeResets(p: Props)
    ensures var q := NormalizeStroke(p);
      q.(width := p.width, height := p.height, scaleX := p.scaleX, scaleY := p.scaleY, strokeWidth := p.strokeWidth) == p
  {
  }

  /** The drawn size does not change. */
  lemma NormalizeStrokeKeepsDrawnSize(p: Props)
    ensures EffectiveWidth(NormalizeStroke(p)) == EffectiveWidth(p)
    ensures EffectiveHeight(NormalizeStroke(p)) == EffectiveHeight(p)
  {
    UnscaledSize(NormalizeStroke(p));
  }

  /** Doing it twice is the same as doing it once. */
  lemma NormalizeStrokeIdempotent(p: Props)
    ensures NormalizeStroke(NormalizeStroke(p)) == NormalizeStroke(p)
  {
    var q := NormalizeStroke(p);
    assert q.width * ScaleOrOne(q.scaleX) == q.width;
    assert q.height * ScaleOrOne(q.scaleY) == q.height;
  }

  /** Adding a rect of any kind (a frame or not) moves the next frame's number up by one. */
  lemma FrameNameAfterRect(objects: seq<FabricObject>, r: FabricObject)
    requires r.typeName == "rect"
    ensures FrameName(objects + [r]) == "Frame " + IntToString(|OfType(objects, "rect")| + 2)
  {
    OfTypeCountAfterAdd(objects, r, "rect");
  }

  /** Adding any other object leaves the next frame's name as it was. */
  lemma FrameNameAfterOther(objects: seq<FabricObject>, o: FabricObject)
    requires o.typeName != "rect"
    ensures FrameName(objects + [o]) == FrameName(objects)
  {
    OfTypeCountAfterAdd(objects, o, "rect");
  }

  /** Two frames added one after the other get different names. */
  lemma ConsecutiveFrameNamesDiffer(objects: seq<FabricObject>, frame: FabricObject)
    requires frame.typeName == "rect"
    ensures FrameName(objects + [frame]) != FrameName(objects)
  {
    var k := |OfType(objects, "rect")|;
    FrameNameAfterRect(objects, frame);
    IntToStringInjective(k + 1, k + 2);
    assert ("Frame " + IntToString(k + 2))[6..] == IntToString(k + 2);
    assert ("Frame " + IntToString(k + 1))[6..] == IntToString(k + 1);
  }
}
