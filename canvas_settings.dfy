/**
 * The canvas-size panel (app/components/CanvasSettings.tsx): two number
 * fields holding the canvas width and height.
 *
 * The state hooks `canvasWidth` and `canvasHeight` become fields of the
 * class `CanvasSettings`; the effect that copies them to the Fabric canvas
 * is the method `SyncCanvas`, run after every change of either field.
 */
module CanvasSizeSettings {
  import opened Fabric
  import opened EcmaScript

  /** The number a size field yields: `parseInt(text.replace(/,/g, ""))`, with no radix. */
  function ParseSize(text: string): (n: ParsedInt)
    ensures ',' !in text ==> n == ParseInt(text, 0)
  {
    ParseInt(StripCommas(text), 0)
  }

  /** The stored size after an edit: the parsed value when `intValue > 0` (NaN compares false), else the old size. */
  function SizeAfterEdit(current: int, text: string): (size: int)
    ensures current > 0 ==> size > 0
    ensures size == current || (size > 0 && ParseSize(text) == Int(size))
  {
    var n := ParseSize(text);
    if n.Int? && n.value > 0 then n.value else current
  }

  class CanvasSettings {
    var canvasWidth: int
    var canvasHeight: int

    /** Both stored sizes are positive integers. */
    predicate Valid()
      reads this
    {
      canvasWidth > 0 && canvasHeight > 0
    }

    /** `useState(500)` for both: the panel starts at 500 by 500. */
    constructor ()
      ensures canvasWidth == 500 && canvasHeight == 500
      ensures Valid()
    {
      canvasHeight := 500;
      canvasWidth := 500;
    }

    /** `handleWidthChange`: only a positive parsed value replaces the width; the height is untouched. */
    method HandleWidthChange(text: string)
      modifies this`canvasWidth
      ensures canvasWidth == SizeAfterEdit(old(canvasWidth), text)
      ensures old(Valid()) ==> Valid()
    {
      var value := StripCommas(text);
      var intValue := ParseInt(value, 0);
      if intValue.Int? && intValue.value > 0 {
        canvasWidth := intValue.value;
      }
    }

    /** `handleHeightChange`: only a positive parsed value replaces the height; the width is untouched. */
    method HandleHeightChange(text: string)
      modifies this`canvasHeight
      ensures canvasHeight == SizeAfterEdit(old(canvasHeight), text)
      ensures old(Valid()) ==> Valid()
    {
      var value := StripCommas(text);
      var intValue := ParseInt(value, 0);
      if intValue.Int? && intValue.value > 0 {
        canvasHeight := intValue.value;
      }
    }

    /** The effect: when there is a canvas, it takes the stored width and height. */
    method SyncCanvas(canvas: Canvas?)
      modifies canvas
      ensures canvas != null ==> canvas.width == canvasWidth as real && canvas.height == canvasHeight as real
      ensures canvas != null ==> canvas.objects == old(canvas.objects) && canvas.activeObject == old(canvas.activeObject)
    {
      if canvas != null {
        canvas.width := canvasWidth as real;
        canvas.height := canvasHeight as real;
      }
    }
  }

  // ---------------------------------------------------------------------
  // Properties of an edit
  // ---------------------------------------------------------------------

  /** Entering the same text again changes nothing more. */
  lemma SizeEditIdempotent(current: int, text: string)
    ensures SizeAfterEdit(SizeAfterEdit(current, text), text) == SizeAfterEdit(current, text)
  {
  }

  /**
   * An edit that is taken overrides whatever was entered before it; an edit
   * that is not taken leaves the earlier one in place.
   */
  lemma SizeEditLastTakenWins(current: int, first: string, second: string)
    ensures var n := ParseSize(second);
      SizeAfterEdit(SizeAfterEdit(current, first), second) ==
        if n.Int? && n.value > 0 then n.value else SizeAfterEdit(current, first)
  {
  }

  /** Typing the decimal text of `n` stores `n` exactly when `n` is positive; zero and negatives leave the size. */
  lemma SizeEditOfNumber(current: int, n: int)
    ensures SizeAfterEdit(current, IntToString(n)) == if n > 0 then n else current
  {
    IntToStringHasNoComma(n);
    StripCommasNoComma(IntToString(n));
    ParseIntRoundTrip(n, 0);
  }

  /** Commas are removed before parsing, so "1,024" is read as 1024. */
  lemma SizeEditIgnoresCommas(current: int, a: string, b: string)
    ensures SizeAfterEdit(current, a + "," + b) == SizeAfterEdit(current, a + b)
  {
    StripCommasAroundComma(a, b);
  }

  /**
   * The leading decimal digits are what counts, so "12px" is read as 12;
   * the one exception of radix-less `parseInt` is "0x", which starts a
   * hexadecimal number.
   */
  lemma SizeEditLeadingDigits(current: int, d: string, rest: string)
    requires d != [] && AllDigits(d, 10)
    requires rest == [] || !IsDigit(rest[0], 10)
    requires ',' !in rest
    requires !(d == "0" && rest != [] && (rest[0] == 'x' || rest[0] == 'X'))
    ensures SizeAfterEdit(current, d + rest) == if Value(d, 10) > 0 then Value(d, 10) else current
  {
    DigitsHaveNoComma(d, rest);
    StripCommasNoComma(d + rest);
    ParseIntLeadingDigits(d, rest, 0);
  }

  /** Text without any digit where a number should start leaves the size: `parseInt` gives NaN. */
  lemma SizeEditIgnoresNonNumbers(current: int, text: string)
    requires ',' !in text
    requires text == [] || (!IsDigit(text[0], 10) && !IsWhiteSpace(text[0]) && text[0] != '-' && text[0] != '+')
    ensures SizeAfterEdit(current, text) == current
  {
    StripCommasNoComma(text);
    ParseIntNoDigits(text, 0);
  }
}
