/**
 * The style editor (app/components/StyleEditor.tsx): a list of colour
 * swatches that the user extends with the colour picker, and that paints
 * the active object with a swatch's colour and tags it with the swatch's id.
 *
 * The state hooks `colors` and `newColor` become fields of `StyleEditor`.
 * `Date.now()` is the parameter `now`. Loading and saving the list in
 * local storage are not modelled.
 */
module StyleEditorPanel {
  import opened Wrappers
  import opened Fabric
  import opened EcmaScript

  /** `TColor`: a swatch's id and colour. */
  datatype Swatch = Swatch(id: string, color: string)

  /** `color_${Date.now()}` */
  function SwatchId(now: int): (id: string)
    ensures |id| > 6 && id[..6] == "color_"
  {
    "color_" + IntToString(now)
  }

  /** `colors.find((color) => color.id === id)`: the first swatch with that id, if any. */
  function FindSwatch(colors: seq<Swatch>, id: string): (found: Option<Swatch>)
    ensures found.Some? ==> found.value in colors && found.value.id == id
  {
    if colors == [] then None
    else if colors[0].id == id then Some(colors[0])
    else FindSwatch(colors[1..], id)
  }

  class StyleEditor {
    var colors: seq<Swatch>
    var newColor: string

    /** No swatches yet; the picker starts on red. */
    constructor ()
      ensures colors == [] && newColor == "#FF0000"
    {
      colors := [];
      newColor := "#FF0000";
    }

    /** The colour input's `onChange`. */
    method SetNewColor(value: string)
      modifies this`newColor
      ensures newColor == value
    {
      newColor := value;
    }

    /** `addColor`: one swatch with the picked colour, named after the time, goes at the end of the list. */
    method AddColor(now: int)
      modifies this`colors
      ensures colors == old(colors) + [Swatch(SwatchId(now), newColor)]
    {
      var id := SwatchId(now);
      colors := colors + [Swatch(id, newColor)];
    }
  }

  /** `applyStyle(color, id)`: the active object, if any, takes the colour as its fill and the id as its style. */
  method ApplyStyle(canvas: Canvas, color: string, id: string)
    modifies canvas.activeObject
    ensures canvas.activeObject != null ==>
      canvas.activeObject.props == old(canvas.activeObject.props).(fill := color, styleID := id)
  {
    var activeObject := canvas.activeObject;
    if activeObject != null {
      activeObject.props := activeObject.props.(fill := color);
      activeObject.props := activeObject.props.(styleID := id);
    }
  }

  // ---------------------------------------------------------------------
  // Properties
  // ---------------------------------------------------------------------

  /**
   * The lookup finds a swatch exactly when one has the id, and what it finds
   * is the first such swatch in the list.
   */
  lemma {:induction false} FindSwatchFirst(colors: seq<Swatch>, id: string)
    ensures FindSwatch(colors, id).None? <==> forall i :: 0 <= i < |colors| ==> colors[i].id != id
    ensures FindSwatch(colors, id).Some? ==>
      exists i :: 0 <= i < |colors| && colors[i] == FindSwatch(colors, id).value && colors[i].id == id &&
        forall j :: 0 <= j < i ==> colors[j].id != id
  {
    if colors != [] && colors[0].id != id {
      FindSwatchFirst(colors[1..], id);
      if FindSwatch(colors[1..], id).Some? {
        var i :| 0 <= i < |colors| - 1 && colors[1..][i] == FindSwatch(colors[1..], id).value && colors[1..][i].id == id &&
          forall j :: 0 <= j < i ==> colors[1..][j].id != id;
        assert colors[i + 1] == FindSwatch(colors, id).value;
        assert forall j :: 0 <= j < i + 1 ==> colors[j].id != id by {
          forall j | 0 <= j < i + 1
            ensures colors[j].id != id
          {
            if j > 0 {
              assert colors[j] == colors[1..][j - 1];
            }
          }
        }
      } else {
        forall i | 0 <= i < |colors|
          ensures colors[i].id != id
        {
          if i > 0 {
            assert colors[i] == colors[1..][i - 1];
          }
        }
      }
    } else if colors != [] {
      assert colors[0] == FindSwatch(colors, id).value;
    }
  }

  /**
   * Adding a swatch never changes what an id already in the list resolves
   * to; an id not yet in the list resolves to the new swatch when it has it.
   */
  lemma {:induction false} FindSwatchAfterAdd(colors: seq<Swatch>, s: Swatch, id: string)
    ensures FindSwatch(colors + [s], id) ==
      if FindSwatch(colors, id).Some? then FindSwatch(colors, id)
      else if s.id == id then Some(s)
      else None
  {
    if colors != [] {
      assert (colors + [s])[1..] == colors[1..] + [s];
      FindSwatchAfterAdd(colors[1..], s, id);
    } else {
      assert [s][1..] == [];
    }
  }

  /** Different times give different swatch ids. */
  lemma SwatchIdInjective(a: int, b: int)
    ensures SwatchId(a) == SwatchId(b) ==> a == b
  {
    if SwatchId(a) == SwatchId(b) {
      assert SwatchId(a)[6..] == IntToString(a);
      assert SwatchId(b)[6..] == IntToString(b);
      IntToStringInjective(a, b);
    }
  }

  /** No two swatches in the list share an id. */
  predicate UniqueIds(colors: seq<Swatch>)
  {
    forall i, j :: 0 <= i < j < |colors| ==> colors[i].id != colors[j].id
  }

  /**
   * When ids are unique, an object styled from a swatch of the list resolves
   * back to exactly that swatch, so its style's colour is its fill.
   */
  lemma AppliedSwatchResolves(colors: seq<Swatch>, k: int, p: Props)
    requires UniqueIds(colors)
    requires 0 <= k < |colors|
    ensures var q := p.(fill := colors[k].color, styleID := colors[k].id);
      FindSwatch(colors, q.styleID) == Some(colors[k]) && FindSwatch(colors, q.styleID).value.color == q.fill
  {
    FindSwatchFirst(colors, colors[k].id);
  }

  /** A swatch added at a time that gave no earlier swatch its id keeps the ids unique. */
  lemma AddColorKeepsIdsUnique(colors: seq<Swatch>, now: int, color: string)
    requires UniqueIds(colors)
    requires forall i :: 0 <= i < |colors| ==> colors[i].id != SwatchId(now)
    ensures UniqueIds(colors + [Swatch(SwatchId(now), color)])
  {
  }
}
