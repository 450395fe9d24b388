/**
 * The part of the canvas library the editor talks to, reduced to what its
 * handlers read and write: an object has a fixed type name ("rect",
 * "circle", "line", ...) and an optional string id, and a bag of properties
 * that `get`/`set` read and overwrite; the canvas holds the objects in paint
 * order. Rendering, hit-testing and transforms stay inside the library and
 * are not modelled. An absent numeric property is modelled as 0: every
 * test the editor applies (`x || d`, `x && y`) treats absent and 0 alike.
 * An absent string property is modelled as "".
 */
module Fabric {

  /** The properties of an object that the editor reads or sets. */
  datatype Props = Props(
    left: real, top: real,
    width: real, height: real,
    scaleX: real, scaleY: real,
    radius: real,
    x1: real, y1: real, x2: real, y2: real,
    fill: string, stroke: string, strokeWidth: real,
    strokeDashArray: seq<int>, opacity: real,
    name: string, styleID: string,
    selectable: bool, evented: bool, hasControls: bool)

  /** The library's defaults for the properties above. */
  const DefaultProps := Props(
    0.0, 0.0, 0.0, 0.0, 1.0, 1.0, 0.0, 0.0, 0.0, 0.0, 0.0,
    "rgb(0,0,0)", "", 1.0, [], 1.0, "", "", true, true, true)

  class FabricObject {
    const typeName: string
    /** The editor's own identifier ("" when the object has none). */
    const id: string
    var props: Props

    constructor (typeName: string, id: string, props: Props)
      ensures this.typeName == typeName && this.id == id && this.props == props
    {
      this.typeName := typeName;
      this.id := id;
      this.props := props;
    }
  }

  class Canvas {
    /** Size of the drawing surface (0 when unset). */
    var width: real
    var height: real
    /** The scene, in paint order. */
    var objects: seq<FabricObject>
    var activeObject: FabricObject?

    /** `canvas.add(o)`: puts `o` on top of the scene. */
    method Add(o: FabricObject)
      modifies this`objects
      ensures objects == old(objects) + [o]
    {
      objects := objects + [o];
    }

    /** `canvas.remove(o)`: takes `o` off the scene. */
    method Remove(o: FabricObject)
      modifies this`objects
      ensures objects == FilterOut(old(objects), {o})
      ensures o !in objects
    {
      objects := FilterOut(objects, {o});
    }
  }

  /** `canvas.getObjects(typeName)`: the objects of that type, in paint order. */
  function OfType(objects: seq<FabricObject>, typeName: string): (r: seq<FabricObject>)
    ensures |r| <= |objects|
    ensures forall o :: o in r ==> o in objects && o.typeName == typeName
    ensures forall o :: o in objects && o.typeName == typeName ==> o in r
  {
    if objects == [] then []
    else
      (if objects[0].typeName == typeName then [objects[0]] else [])
      + OfType(objects[1..], typeName)
  }

  /** Selecting by type distributes over concatenation. */
  lemma {:induction false} OfTypeAppend(a: seq<FabricObject>, b: seq<FabricObject>, typeName: string)
    ensures OfType(a + b, typeName) == OfType(a, typeName) + OfType(b, typeName)
  {
    if a != [] {
      assert (a + b)[1..] == a[1..] + b;
      OfTypeAppend(a[1..], b, typeName);
    } else {
      assert a + b == b;
    }
  }

  /** Adding one object raises the count of its type by one and leaves every other count. */
  lemma OfTypeCountAfterAdd(objects: seq<FabricObject>, o: FabricObject, typeName: string)
    ensures |OfType(objects + [o], typeName)| == |OfType(objects, typeName)| + if o.typeName == typeName then 1 else 0
  {
    OfTypeAppend(objects, [o], typeName);
    assert [o][1..] == [];
  }

  /** `objects` without the members of `gone`, the rest in the same order. */
  function FilterOut(objects: seq<FabricObject>, gone: set<FabricObject>): (r: seq<FabricObject>)
    ensures |r| <= |objects|
    ensures forall o :: o in r ==> o in objects && o !in gone
    ensures forall o :: o in objects && o !in gone ==> o in r
  {
    if objects == [] then []
    else
      (if objects[0] in gone then [] else [objects[0]])
      + FilterOut(objects[1..], gone)
  }

  /** Removing one set of objects and then another removes both at once. */
  lemma {:induction false} FilterOutTwice(objects: seq<FabricObject>, a: set<FabricObject>, b: set<FabricObject>)
    ensures FilterOut(FilterOut(objects, a), b) == FilterOut(objects, a + b)
  {
    if objects != [] {
      FilterOutTwice(objects[1..], a, b);
      var rest := FilterOut(objects[1..], a);
      if objects[0] !in a {
        assert FilterOut(objects, a) == [objects[0]] + rest;
        assert ([objects[0]] + rest)[1..] == rest;
      } else {
        assert FilterOut(objects, a) == rest;
      }
    }
  }

  lemma {:induction false} FilterOutNothing(objects: seq<FabricObject>)
    ensures FilterOut(objects, {}) == objects
  {
    if objects != [] {
      FilterOutNothing(objects[1..]);
    }
  }

  /** `scaleX || 1`: a missing or zero scale counts as 1. */
  function ScaleOrOne(scale: real): (r: real)
    ensures r != 0.0
    ensures scale != 0.0 ==> r == scale
    ensures scale == 0.0 ==> r == 1.0
  {
    if scale == 0.0 then 1.0 else scale
  }

  /** The drawn width `(width || 0) * (scaleX || 1)`. */
  function EffectiveWidth(p: Props): (w: real)
    ensures p.scaleX == 0.0 ==> w == p.width
    ensures p.width == 0.0 ==> w == 0.0
  {
    p.width * ScaleOrOne(p.scaleX)
  }

  /** The drawn height `(height || 0) * (scaleY || 1)`. */
  function EffectiveHeight(p: Props): (h: real)
    ensures p.scaleY == 0.0 ==> h == p.height
    ensures p.height == 0.0 ==> h == 0.0
  {
    p.height * ScaleOrOne(p.scaleY)
  }

  /** With scale 1 the drawn size is the size itself. */
  lemma UnscaledSize(p: Props)
    ensures p.scaleX == 1.0 ==> EffectiveWidth(p) == p.width
    ensures p.scaleY == 1.0 ==> EffectiveHeight(p) == p.height
  {
  }
}
