/**
 * The property panel (app/components/Settings.tsx): it shows the size and
 * colour of the selected rect or circle as editable text, and writes edits
 * back to the object.
 *
 * The component's state hooks become the fields of `Settings`; a `setX`
 * call is an assignment to field `x`. `selectedObject.set({...})` overwrites
 * properties of the selected object in place. Redrawing (`renderAll`) and
 * the subscription to the canvas's selection events are not modelled; the
 * event handlers call `HandleObjectSelection` with the event's first
 * selected object or target, and `HandleSelectionCleared` on
 * "selection:cleared".
 */
module SettingsPanel {
  import opened Fabric
  import opened EcmaScript

  // ---------------------------------------------------------------------
  // What the panel shows
  // ---------------------------------------------------------------------

  /**
   * `size && scale ? String(Math.round(size * scale)) : ""`: the rounded
   * drawn size, or "" when the size or the scale is missing or zero.
   */
  function SizeText(size: real, scale: real): (t: string)
    ensures t == "" <==> size == 0.0 || scale == 0.0
  {
    if size != 0.0 && scale != 0.0 then IntToString(MathRound(size * scale)) else ""
  }

  /** A non-empty shown text reads back as the rounded size. */
  lemma SizeTextReadsBack(size: real, scale: real)
    ensures SizeText(size, scale) != "" ==> ParseInt(SizeText(size, scale), 10) == Int(MathRound(size * scale))
  {
    if size != 0.0 && scale != 0.0 {
      ParseIntRoundTrip(MathRound(size * scale), 10);
    }
  }

  /** The width field for a rect. */
  function WidthText(p: Props): (t: string)
    ensures t == "" <==> p.width == 0.0 || p.scaleX == 0.0
  {
    SizeText(p.width, p.scaleX)
  }

  /** The height field for a rect. */
  function HeightText(p: Props): (t: string)
    ensures t == "" <==> p.height == 0.0 || p.scaleY == 0.0
  {
    SizeText(p.height, p.scaleY)
  }

  /** The diameter field for a circle: `radius * 2 * scaleX`, rounded. */
  function DiameterText(p: Props): (t: string)
    ensures t == "" <==> p.radius == 0.0 || p.scaleX == 0.0
  {
    SizeText(p.radius * 2.0, p.scaleX)
  }

  /** `object.fill || ""` */
  function ColorText(p: Props): string
  {
    p.fill
  }

  // ---------------------------------------------------------------------
  // What an edit does to the object
  // ---------------------------------------------------------------------

  /** The number an edit field yields: `parseInt(text.replace(/,/g, ""), 10)`. */
  function ParseField(text: string): (n: ParsedInt)
    ensures ',' !in text ==> n == ParseInt(text, 10)
  {
    ParseInt(StripCommas(text), 10)
  }

  /** `!isNaN(intValue) && intValue >= 0` */
  predicate Accepts(n: ParsedInt)
  {
    n.Int? && n.value >= 0
  }

  /** A width edit on an object of type `typeName`: only a rect with an accepted value changes. */
  function WidthEdit(typeName: string, p: Props, text: string): (q: Props)
    ensures q.(width := p.width, scaleX := p.scaleX) == p
    ensures q != p ==> typeName == "rect" && q.width >= 0.0 && q.scaleX == 1.0
  {
    var n := ParseField(text);
    if typeName == "rect" && Accepts(n) then p.(width := n.value as real, scaleX := 1.0) else p
  }

  /** A height edit: only a rect with an accepted value changes. */
  function HeightEdit(typeName: string, p: Props, text: string): (q: Props)
    ensures q.(height := p.height, scaleY := p.scaleY) == p
    ensures q != p ==> typeName == "rect" && q.height >= 0.0 && q.scaleY == 1.0
  {
    var n := ParseField(text);
    if typeName == "rect" && Accepts(n) then p.(height := n.value as real, scaleY := 1.0) else p
  }

  /** A diameter edit: only a circle with an accepted value changes; the radius is half the value. */
  function DiameterEdit(typeName: string, p: Props, text: string): (q: Props)
    ensures q.(radius := p.radius, scaleX := p.scaleX, scaleY := p.scaleY) == p
    ensures q != p ==> typeName == "circle" && q.radius >= 0.0 && q.scaleX == 1.0 && q.scaleY == 1.0
  {
    var n := ParseField(text);
    if typeName == "circle" && Accepts(n) then p.(radius := n.value as real / 2.0, scaleX := 1.0, scaleY := 1.0)
    else p
  }

  // ---------------------------------------------------------------------
  // The component
  // ---------------------------------------------------------------------

  class Settings {
    var selectedObject: FabricObject?
    var width: string
    var height: string
    var diameter: string
    var color: string

    /** The initial state: nothing selected, every field empty. */
    constructor ()
      ensures selectedObject == null && Cleared()
    {
      selectedObject := null;
      width, height, diameter, color := "", "", "", "";
    }

    predicate Cleared()
      reads this
    {
      width == "" && height == "" && diameter == "" && color == ""
    }

    /** `clearSettings`: empties every field and keeps the selection. */
    method ClearSettings()
      modifies this`width, this`height, this`diameter, this`color
      ensures Cleared()
    {
      width := "";
      height := "";
      color := "";
      diameter := "";
    }

    /** The "selection:cleared" handler. */
    method HandleSelectionCleared()
      modifies this
      ensures selectedObject == null && Cleared()
    {
      selectedObject := null;
      ClearSettings();
    }

    /**
     * `handleObjectSelection`: nothing, or an object that is neither a rect
     * nor a circle, clears the panel; a rect shows its width, height and
     * colour, a circle its diameter and colour, and the other fields are
     * emptied. The object itself is not changed.
     */
    method HandleObjectSelection(obj: FabricObject?)
      modifies this
      ensures obj == null || (obj.typeName != "rect" && obj.typeName != "circle") ==>
        selectedObject == null && Cleared()
      ensures obj != null && obj.typeName == "rect" ==>
        && selectedObject == obj
        && width == WidthText(obj.props) && height == HeightText(obj.props)
        && color == ColorText(obj.props) && diameter == ""
      ensures obj != null && obj.typeName == "circle" ==>
        && selectedObject == obj
        && diameter == DiameterText(obj.props) && color == ColorText(obj.props)
        && width == "" && height == ""
    {
      if obj == null || (obj.typeName != "rect" && obj.typeName != "circle") {
        selectedObject := null;
        ClearSettings();
        return;
      }

      selectedObject := obj;

      if obj.typeName == "rect" {
        width := SizeText(obj.props.width, obj.props.scaleX);
        height := SizeText(obj.props.height, obj.props.scaleY);
        color := obj.props.fill;
        diameter := "";
      } else if obj.typeName == "circle" {
        diameter := SizeText(obj.props.radius * 2.0, obj.props.scaleX);
        color := obj.props.fill;
        width := "";
        height := "";
      }
    }

    /**
     * `handleWidthChange`: the field always takes the text without commas;
     * a selected rect takes the parsed width, with its horizontal scale reset,
     * when the value is a number and not negative. Nothing else changes.
     */
    method HandleWidthChange(text: string)
      modifies this`width, selectedObject
      ensures width == StripCommas(text)
      ensures selectedObject != null ==>
        selectedObject.props == WidthEdit(selectedObject.typeName, old(selectedObject.props), text)
    {
      var value := StripCommas(text);
      var intValue := ParseInt(value, 10);
      width := value;
      if selectedObject != null && selectedObject.typeName == "rect" && intValue.Int? && intValue.value >= 0 {
        selectedObject.props := selectedObject.props.(width := intValue.value as real, scaleX := 1.0);
      }
    }

    /** `handleHeightChange`: as `HandleWidthChange`, for the height and the vertical scale. */
    method HandleHeightChange(text: string)
      modifies this`height, selectedObject
      ensures height == StripCommas(text)
      ensures selectedObject != null ==>
        selectedObject.props == HeightEdit(selectedObject.typeName, old(selectedObject.props), text)
    {
      var value := StripCommas(text);
      var intValue := ParseInt(value, 10);
      height := value;
      if selectedObject != null && selectedObject.typeName == "rect" && intValue.Int? && intValue.value >= 0 {
        selectedObject.props := selectedObject.props.(height := intValue.value as real, scaleY := 1.0);
      }
    }

    /**
     * `handleDiameterChange`: the field takes the text without commas; a
     * selected circle gets half the parsed value as its radius and both
     * scales reset to 1.
     */
    method HandleDiameterChange(text: string)
      modifies this`diameter, selectedObject
      ensures diameter == StripCommas(text)
      ensures selectedObject != null ==>
        selectedObject.props == DiameterEdit(selectedObject.typeName, old(selectedObject.props), text)
    {
      var value := StripCommas(text);
      var intValue := ParseInt(value, 10);
      diameter := value;
      if selectedObject != null && selectedObject.typeName == "circle" && intValue.Int? && intValue.value >= 0 {
        selectedObject.props := selectedObject.props.(radius := intValue.value as real / 2.0, scaleX := 1.0, scaleY := 1.0);
      }
    }

    /** `handleColorChange`: the field takes the text as is, and any selected object takes it as its fill. */
    method HandleColorChange(value: string)
      modifies this`color, selectedObject
      ensures color == value
      ensures selectedObject != null ==> selectedObject.props == old(selectedObject.props).(fill := value)
    {
      color := value;
      if selectedObject != null {
        selectedObject.props := selectedObject.props.(fill := value);
      }
    }
  }

  // ---------------------------------------------------------------------
  // Properties of the display and the edits
  // ---------------------------------------------------------------------

  /** The decimal text of a number holds no comma, so an edit reads it as that number. */
  lemma ParseFieldOfNumber(n: int)
    ensures ParseField(IntToString(n)) == Int(n)
  {
    IntToStringHasNoComma(n);
    StripCommasNoComma(IntToString(n));
    ParseIntRoundTrip(n, 10);
  }

  /** Typing the decimal text of `n` into the width field of a rect sets its width to `n` with scale 1, unless `n` is negative. */
  lemma WidthEnteredAsNumber(p: Props, n: int)
    ensures WidthEdit("rect", p, IntToString(n)) == if n >= 0 then p.(width := n as real, scaleX := 1.0) else p
  {
    ParseFieldOfNumber(n);
  }

  /** An accepted width edit makes the drawn width exactly the typed value. */
  lemma WidthEnteredIsDrawn(p: Props, n: int)
    requires n >= 0
    ensures EffectiveWidth(WidthEdit("rect", p, IntToString(n))) == n as real
  {
    WidthEnteredAsNumber(p, n);
    UnscaledSize(WidthEdit("rect", p, IntToString(n)));
  }

  /** An accepted width edit is shown back exactly as it was typed once the object is reselected (for a positive width). */
  lemma WidthEnteredThenShown(p: Props, n: int)
    requires n > 0
    ensures WidthText(WidthEdit("rect", p, IntToString(n))) == IntToString(n)
  {
    ParseFieldOfNumber(n);
    assert MathRound(n as real * 1.0) == n;
  }

  /**
   * A diameter typed for a circle is shown back unchanged when the circle
   * is selected again: the radius is half of it and the scale is 1. A
   * diameter of 0 is stored but shown as "".
   */
  lemma DiameterEnteredThenShown(p: Props, n: int)
    requires n >= 0
    ensures DiameterText(DiameterEdit("circle", p, IntToString(n))) == if n == 0 then "" else IntToString(n)
  {
    DiameterEnteredAsNumber(p, n);
    var q := DiameterEdit("circle", p, IntToString(n));
    assert q.radius * 2.0 * q.scaleX == n as real;
    assert MathRound(n as real) == n;
  }

  /** Typing the decimal text of `n` into a circle's diameter field sets its radius to `n / 2` with both scales 1, unless `n` is negative. */
  lemma DiameterEnteredAsNumber(p: Props, n: int)
    ensures DiameterEdit("circle", p, IntToString(n)) ==
      if n >= 0 then p.(radius := n as real / 2.0, scaleX := 1.0, scaleY := 1.0) else p
  {
    ParseFieldOfNumber(n);
  }

  /** Commas anywhere in the text are ignored ("1,024" reads as "1024"). */
  lemma ParseFieldIgnoresCommas(a: string, b: string)
    ensures ParseField(a + "," + b) == ParseField(a + b)
  {
    StripCommasAroundComma(a, b);
  }

  /** A run of digits followed by text that does not start with a digit reads as the digits' value ("12px" reads as 12). */
  lemma ParseFieldLeadingDigits(d: string, rest: string)
    requires d != [] && AllDigits(d, 10)
    requires rest == [] || !IsDigit(rest[0], 10)
    requires ',' !in rest
    ensures ParseField(d + rest) == Int(Value(d, 10))
  {
    var s := d + rest;
    DigitsHaveNoComma(d, rest);
    StripCommasNoComma(s);
    ParseIntLeadingDigits(d, rest, 10);
  }

  /** Edits never touch an object of the other kind, nor a rejected value. */
  lemma EditsRespectKind(typeName: string, p: Props, text: string)
    ensures typeName != "rect" ==> WidthEdit(typeName, p, text) == p && HeightEdit(typeName, p, text) == p
    ensures typeName != "circle" ==> DiameterEdit(typeName, p, text) == p
    ensures !Accepts(ParseField(text)) ==>
      WidthEdit(typeName, p, text) == p && HeightEdit(typeName, p, text) == p && DiameterEdit(typeName, p, text) == p
  {
  }

  /** A width edit and a height edit touch disjoint properties, so they commute. */
  lemma WidthHeightEditsCommute(p: Props, w: string, h: string)
    ensures WidthEdit("rect", HeightEdit("rect", p, h), w) == HeightEdit("rect", WidthEdit("rect", p, w), h)
  {
  }
}
