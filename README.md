# Canvas editor core, modelled in Dafny

This project models the decision logic of a Fabric.js canvas editor written in
TypeScript and React, and proves what that logic promises. The scene is a
`Canvas` holding a sequence of `FabricObject`s. Each object carries a `Props`
record of the properties the editor reads or writes: position, size, scale,
radius, line end points, fill, stroke, name, style id and the interaction
flags. Numbers are `real` (sizes and positions) or `int` (parsed field
values). A property the library leaves unset is 0, and the "or" defaults of
the source (`x || 500`, `scaleX || 1`) are written out as functions.

The modelled parts:

- **Snap-to-guide while dragging** (`snapping.dfy`, module `SnappingHelper`).
  `handleObjectMoving` first measures the object once. It then clears the
  previous frame's guidelines and tries six rules in order: left, right, top
  and bottom edge, then the horizontal and vertical centre. Each rule uses a
  strict distance test against 10, moves the object, and draws a dashed red
  guideline unless one with that id already exists. The handler is imperative
  Dafny over the canvas's object list. It is proved against `Snap`, a pure
  decision table. Lemmas about the table state which rules fire, which rule
  wins, and where the object ends up.
- **Property panel** (`settings.dfy`, module `SettingsPanel`). A class holds
  the panel's state hooks: the selected object and the width, height,
  diameter and colour texts. Its handlers are methods. The text a field shows
  reads back through the same `parseInt` the edits use.
- **Canvas size panel** (`canvas_settings.dfy`, module `CanvasSizeSettings`).
  The panel starts at 500×500. It accepts only a positive result of
  `parseInt` without a radix, after stripping commas. Both sizes stay positive.
- **Frames and stroke normalisation** (`cropping.dfy`, module `Cropping`).
  This covers the new frame's name and properties, and `maintainStrokeWidth`.
- **Recording bookkeeping** (`video.dfy`, module `VideoRecording`). This
  covers the `MM:SS` formatter, the chunk list and the export button, the
  object flags and the timer around recording, and the fit-to-canvas scale of
  an uploaded video.
- **Style swatches** (`style_editor.dfy`, module `StyleEditorPanel`). This
  covers adding a swatch, styling the active object, and the swatch lookup by
  id.
- Shared modules:
  - `fabric.dfy` (module `Fabric`): the object and canvas model.
  - `ecmascript.dfy` (module `EcmaScript`): the ECMAScript built-ins the
    source relies on:
    - `String.prototype.replace(/,/g, "")`;
    - `parseInt`, following section 19.2.5 of ECMA-262;
    - `Number.prototype.toString` for integers;
    - `padStart`, `startsWith` and `Math.round`.
  - `wrappers.dfy`: `Option`.

## Model

| member | source | states |
|---|---|---|
| Fabric.FabricObject.constructor | app/components/snappingHelper.ts:108-116 | a new object has the given type, id and properties |
| Fabric.Canvas.Add | app/components/snappingHelper.ts:38 | `canvas.add` appends the object at the end of the scene and changes nothing else |
| Fabric.Canvas.Remove | app/components/snappingHelper.ts:143 | `canvas.remove` takes the object out; every other object stays, in order |
| Fabric.OfType | app/components/snappingHelper.ts:132 | `getObjects(type)` holds exactly the scene's objects of that type, and no others |
| Fabric.OfTypeCountAfterAdd | app/components/Cropping.tsx:7 | adding an object raises the count of its own type by one, and no other type's count |
| Fabric.FilterOut | app/components/snappingHelper.ts:141-145 | the scene after removals holds exactly the objects not removed |
| Fabric.FilterOutTwice | app/components/snappingHelper.ts:141-145 | removing in two rounds is removing the union once |
| Fabric.ScaleOrOne | app/components/snappingHelper.ts:20-21 | `scale || 1` is 1 for a zero scale and the scale itself otherwise, so it is never zero |
| Fabric.EffectiveWidth | app/components/snappingHelper.ts:20 | the drawn width `width * (scaleX || 1)` is the stored width when scaleX is unset, and 0 when the width is |
| Fabric.EffectiveHeight | app/components/snappingHelper.ts:21 | the same, for the height and scaleY |
| Fabric.UnscaledSize | app/components/snappingHelper.ts:20-21 | with scale 1 the drawn size is the stored size |
| EcmaScript.StripCommas | app/components/Settings.tsx:113 | `replace(/,/g, "")` leaves no comma, keeps the count of every other character, and leaves comma-free text as it is |
| EcmaScript.StripCommasAppend | app/components/Settings.tsx:113 | removing commas works piece by piece, so the other characters keep their order |
| EcmaScript.ParseInt | app/components/Settings.tsx:114 | `parseInt`: a given radix outside 2..36 gives NaN, and so does text that is blank after leading white space |
| EcmaScript.ParseUnsigned | app/components/CanvasSettings.tsx:24 | the digits after the sign read as a non-negative number; empty text, text whose first character is not a digit of the radix (outside radix 16), and a bare "0x" prefix give NaN |
| EcmaScript.ValueNonNegative | app/components/CanvasSettings.tsx:24 | a run of digits in any radix has a non-negative value |
| EcmaScript.IntToString | app/components/Settings.tsx:88 | `String(n)` of an integer is non-empty, starts with "-" exactly when n is negative, and is otherwise decimal digits |
| EcmaScript.StartsWith | app/components/snappingHelper.ts:142 | `startsWith` holds exactly when the prefix is no longer than the text and is its initial segment |
| EcmaScript.StripCommasAroundComma | app/components/CanvasSettings.tsx:23 | a comma anywhere in the input is ignored |
| EcmaScript.ParseIntRoundTrip | app/components/Settings.tsx:114 | `parseInt` reads back the decimal text of any integer, with radix 10 or none |
| EcmaScript.ParseIntLeadingDigits | app/components/CanvasSettings.tsx:24 | `parseInt` takes the leading decimal digits and ignores what follows ("12px" is 12) |
| EcmaScript.ParseIntNoDigits | app/components/CanvasSettings.tsx:24 | text that does not start with a digit, blank or sign parses to NaN |
| EcmaScript.ParseIntPlus | app/components/Settings.tsx:114 | a leading "+" leaves the value unchanged |
| EcmaScript.ParseIntMinus | app/components/Settings.tsx:114 | a leading "-" negates the value |
| EcmaScript.IntToStringInjective | app/components/StyleEditor.tsx:25 | different integers have different decimal texts |
| EcmaScript.PadStart | app/components/Video.tsx:34 | `padStart` fills on the left with the filler up to the target length, and never truncates |
| EcmaScript.PadStartDigits | app/components/Video.tsx:34 | zero-padding a decimal numeral keeps its value |
| EcmaScript.MathRound | app/components/Settings.tsx:88 | `Math.round(x)` is the integer within one half of x, with halves rounded up |
| SnappingHelper.SnapThroughFired | app/components/snappingHelper.ts:32-96 | after the first k blocks, exactly the rules among them that pass their test are reported, each once, in block order |
| SnappingHelper.CanvasWidthOr | app/components/snappingHelper.ts:15 | `canvas.width || 500`, used for the right edge, the centre and the horizontal guideline |
| SnappingHelper.CanvasHeightOr | app/components/snappingHelper.ts:16 | `canvas.height || 600`, used for the bottom edge, the centre and the vertical guideline |
| SnappingHelper.Fires | app/components/snappingHelper.ts:33-88 | the test `Math.abs(feature - line) < snappingDistance` of each block; `FiresStrictly` states what it admits |
| SnappingHelper.FiresStrictly | app/components/snappingHelper.ts:33-88 | a rule fires exactly when its edge or centre lies strictly within 10 of its line; at a distance of exactly 10 it does not |
| SnappingHelper.Target | app/components/snappingHelper.ts:34-89 | the left or top each block sets; `TargetOnGuide` states that it puts the feature on the line |
| SnappingHelper.Try | app/components/snappingHelper.ts:32-41 | one block applied to the outcome so far; `TryMovesOneCoordinate` states its effect |
| SnappingHelper.TryMovesOneCoordinate | app/components/snappingHelper.ts:32-41 | a block reports its rule exactly when the rule fires and otherwise leaves the outcome as it was; it moves only its own coordinate |
| SnappingHelper.SnapThrough | app/components/snappingHelper.ts:32-96 | the outcome after the first k blocks; `SnapThroughFired` and `SnapThroughLastWins` state it |
| SnappingHelper.Snap | app/components/snappingHelper.ts:18-96 | nothing is reported exactly when no rule fires, and then the position is the pre-move one |
| SnappingHelper.SnapFired | app/components/snappingHelper.ts:32-96 | a rule is reported exactly when its strict test holds on the pre-move box, and reports come in rule order |
| SnappingHelper.SnapThroughLastWins | app/components/snappingHelper.ts:33-89 | after any prefix of the blocks, each coordinate is the target of the last fired rule that moves it, or is unchanged |
| SnappingHelper.SnapLastRuleWins | app/components/snappingHelper.ts:33-89 | the final left and top come from the last fired rule that moves them, or keep the pre-move value |
| SnappingHelper.SnapPrecedence | app/components/snappingHelper.ts:18-25 | left is the centre target if that rule fires, else the right-edge target, else the left-edge target, else unchanged; top likewise with centre, bottom and top |
| SnappingHelper.LastMoving | app/components/snappingHelper.ts:33-89 | the rule found moves the requested coordinate and fired; when none is found, no fired rule moves it |
| SnappingHelper.LastMovingIsLatest | app/components/snappingHelper.ts:33-89 | no rule tried later moves the same coordinate |
| SnappingHelper.SnapNothingFires | app/components/snappingHelper.ts:30 | when no rule fires, the position is unchanged and nothing is reported |
| SnappingHelper.TargetOnGuide | app/components/snappingHelper.ts:34 | moving to a rule's target puts the rule's edge or centre exactly on its guideline |
| SnappingHelper.SnapAlignsAndStaysClose | app/components/snappingHelper.ts:3 | the winning rule's feature lies on its guideline, and a snap moves each coordinate by less than the snapping distance |
| SnappingHelper.GuideIdPrefix | app/components/snappingHelper.ts:142 | each rule's guideline id starts with "vertical-" or "horizontal-", by direction, so the next frame clears it; ids are distinct per rule |
| SnappingHelper.IsGuideline | app/components/snappingHelper.ts:142 | the test of the clearing loop: a line object whose id starts with "vertical-" or "horizontal-"; it holds only of line objects |
| SnappingHelper.VerticalGuidelineProps | app/components/snappingHelper.ts:107-117 | a line from (x, 0) to (x, canvas height or 600), red, dashed [5, 5], neither selectable nor evented |
| SnappingHelper.HorizontalGuidelineProps | app/components/snappingHelper.ts:119-129 | a line from (0, y) to (canvas width or 500, y), red, dashed [5, 5], neither selectable nor evented |
| SnappingHelper.GuidelineProps | app/components/snappingHelper.ts:107-129 | every rule's guideline is red and can be neither selected nor hit |
| SnappingHelper.CreateVerticalGuideline | app/components/snappingHelper.ts:107-117 | a new line from (x,0) to (x, canvas height or 600), red, dashed, with opacity 0.8, neither selectable nor evented, with the given id |
| SnappingHelper.CreateHorizontalGuideline | app/components/snappingHelper.ts:119-129 | a new line from (0,y) to (canvas width or 500, y), with the same style and the given id |
| SnappingHelper.GuidelineSpansCanvas | app/components/snappingHelper.ts:107-129 | a rule's guideline spans the canvas through the rule's line, vertically or horizontally, and cannot be selected or hit |
| SnappingHelper.GuidelineExists | app/components/snappingHelper.ts:131-133 | true exactly when some line object on the canvas has the id |
| SnappingHelper.Kept | app/components/snappingHelper.ts:140-146 | what clearing leaves: exactly the objects that are not guidelines |
| SnappingHelper.KeptAppend | app/components/snappingHelper.ts:140-146 | clearing works piece by piece, so the remaining objects keep their relative order |
| SnappingHelper.KeptNoGuidelines | app/components/snappingHelper.ts:140-146 | a scene without guidelines is left as it is, so clearing twice clears nothing more |
| SnappingHelper.FilterOutGuidelines | app/components/snappingHelper.ts:141-145 | removing exactly the guidelines leaves `Kept` |
| SnappingHelper.ClearGuideLines | app/components/snappingHelper.ts:135-148 | the scene becomes its non-guidelines, in original order, and the guideline state becomes empty |
| SnappingHelper.NotYetDrawn | app/components/snappingHelper.ts:35 | after clearing, no guideline with a rule's id exists until that rule draws it |
| SnappingHelper.PlaceGuideline | app/components/snappingHelper.ts:35-39 | a fired rule adds exactly one fresh guideline of its own to both the scene and the frame's list |
| SnappingHelper.TryRule | app/components/snappingHelper.ts:32-41 | one block moves the coordinate and draws the guideline exactly as the decision table's next step does |
| SnappingHelper.SnapToSides | app/components/snappingHelper.ts:32-52 | the left and right edge blocks bring the handler to the table's state after two rules |
| SnappingHelper.SnapToTopAndBottom | app/components/snappingHelper.ts:54-74 | the top and bottom edge blocks bring the handler from the state after two rules to the state after four |
| SnappingHelper.SnapToCenters | app/components/snappingHelper.ts:76-96 | the two centre blocks bring the handler to the table's final state |
| SnappingHelper.HandleObjectMoving | app/components/snappingHelper.ts:9-105 | only left and top change, to `Snap`'s outcome on the pre-move box; the scene becomes its non-guidelines followed by one fresh guideline per fired rule, in rule order, which is also the new guideline state |
| SettingsPanel.SizeTextReadsBack | app/components/Settings.tsx:86-98 | a non-empty shown size parses back to round(size × scale) |
| SettingsPanel.SizeText | app/components/Settings.tsx:88 | the shown size is "" exactly when the size or the scale is zero |
| SettingsPanel.WidthText | app/components/Settings.tsx:87-89 | a rect's width field is "" exactly when its width or scaleX is zero |
| SettingsPanel.HeightText | app/components/Settings.tsx:90-92 | a rect's height field is "" exactly when its height or scaleY is zero |
| SettingsPanel.DiameterText | app/components/Settings.tsx:96-98 | a circle's diameter field is "" exactly when its radius or scaleX is zero |
| SettingsPanel.ColorText | app/components/Settings.tsx:93 | `object.fill || ""`: the fill, or "" when it is unset |
| SettingsPanel.ParseField | app/components/Settings.tsx:113-114 | an edit parses as `parseInt(text, 10)` once commas are gone, so comma-free text parses as itself |
| SettingsPanel.Accepts | app/components/Settings.tsx:116 | `!isNaN(intValue) && intValue >= 0`; `EditsRespectKind` states that nothing else changes an object |
| SettingsPanel.WidthEdit | app/components/Settings.tsx:116-117 | only width and scaleX can change, only for a rect, and then to a width ≥ 0 with scaleX 1 |
| SettingsPanel.HeightEdit | app/components/Settings.tsx:126-127 | only height and scaleY can change, only for a rect, and then to a height ≥ 0 with scaleY 1 |
| SettingsPanel.DiameterEdit | app/components/Settings.tsx:136-137 | only radius and the scales can change, only for a circle, and then to a radius ≥ 0 with both scales 1 |
| SettingsPanel.DiameterEnteredAsNumber | app/components/Settings.tsx:136-137 | typing n into a circle's diameter sets radius n/2 and both scales 1 if n ≥ 0, and leaves the circle unchanged if n < 0 |
| SettingsPanel.Settings.constructor | app/components/Settings.tsx:25-29 | nothing selected and every field empty |
| SettingsPanel.Settings.ClearSettings | app/components/Settings.tsx:105-110 | width, height, colour and diameter become "" |
| SettingsPanel.Settings.HandleSelectionCleared | app/components/Settings.tsx:44-48 | the selection becomes null and every field "" |
| SettingsPanel.Settings.HandleObjectSelection | app/components/Settings.tsx:76-103 | an absent object, or one that is neither rect nor circle, clears the panel; a rect shows width, height and colour with the diameter ""; a circle shows diameter and colour with width and height "" |
| SettingsPanel.Settings.HandleWidthChange | app/components/Settings.tsx:112-120 | the field takes the comma-free text; a selected rect takes the parsed width with scaleX 1 when the parse is a number ≥ 0; otherwise nothing changes |
| SettingsPanel.Settings.HandleHeightChange | app/components/Settings.tsx:122-130 | the same, for the height and scaleY |
| SettingsPanel.Settings.HandleDiameterChange | app/components/Settings.tsx:132-140 | the field takes the comma-free text; a selected circle gets radius n/2 and both scales 1 when n is a number ≥ 0 |
| SettingsPanel.Settings.HandleColorChange | app/components/Settings.tsx:142-149 | the field takes the text, and any selected object takes it as its fill |
| SettingsPanel.ParseFieldOfNumber | app/components/Settings.tsx:113-114 | typing the decimal text of an integer parses to that integer |
| SettingsPanel.WidthEnteredAsNumber | app/components/Settings.tsx:116-117 | typing n into a rect's width sets width n and scaleX 1 if n ≥ 0, and leaves the rect unchanged if n < 0 |
| SettingsPanel.WidthEnteredIsDrawn | app/components/Settings.tsx:117 | after typing n ≥ 0, the rect is drawn exactly n wide |
| SettingsPanel.WidthEnteredThenShown | app/components/Settings.tsx:86-89 | after typing n > 0, reselecting the rect shows n again |
| SettingsPanel.DiameterEnteredThenShown | app/components/Settings.tsx:95-98 | after typing n ≥ 0 for a circle, reselecting it shows n again, or "" for 0 |
| SettingsPanel.ParseFieldIgnoresCommas | app/components/Settings.tsx:113 | a comma anywhere in an edit is ignored |
| SettingsPanel.ParseFieldLeadingDigits | app/components/Settings.tsx:114 | an edit reads its leading decimal digits and ignores a non-digit suffix |
| SettingsPanel.EditsRespectKind | app/components/Settings.tsx:116 | width and height edits never touch a non-rect, a diameter edit never touches a non-circle, and an unaccepted parse changes nothing |
| SettingsPanel.WidthHeightEditsCommute | app/components/Settings.tsx:112-130 | width and height edits are independent, so their order does not matter |
| CanvasSizeSettings.CanvasSettings.constructor | app/components/CanvasSettings.tsx:11-12 | the size starts at 500 × 500, which is positive |
| CanvasSizeSettings.ParseSize | app/components/CanvasSettings.tsx:23-24 | a size edit parses as `parseInt(text)` without a radix once commas are gone |
| CanvasSizeSettings.SizeAfterEdit | app/components/CanvasSettings.tsx:24-25 | a positive size stays positive, and the size either stays or becomes the positive value the text parses to |
| CanvasSizeSettings.CanvasSettings.Valid | app/components/CanvasSettings.tsx:11-12 | both stored sizes are positive; every handler keeps this |
| CanvasSizeSettings.CanvasSettings.HandleWidthChange | app/components/CanvasSettings.tsx:22-26 | the width becomes the parsed value when it is > 0, otherwise stays; positivity is kept; the height is untouched |
| CanvasSizeSettings.CanvasSettings.HandleHeightChange | app/components/CanvasSettings.tsx:28-32 | the same, for the height, with the width untouched |
| CanvasSizeSettings.CanvasSettings.SyncCanvas | app/components/CanvasSettings.tsx:14-20 | a present canvas takes the stored width and height; its objects and selection stay |
| CanvasSizeSettings.SizeEditIdempotent | app/components/CanvasSettings.tsx:22-26 | entering the same text a second time changes nothing more |
| CanvasSizeSettings.SizeEditLastTakenWins | app/components/CanvasSettings.tsx:22-26 | an edit that parses to a positive number overrides any earlier edit; one that does not leaves the earlier result |
| CanvasSizeSettings.SizeEditOfNumber | app/components/CanvasSettings.tsx:24-25 | typing an integer n sets the size to n if n > 0 and leaves it otherwise |
| CanvasSizeSettings.SizeEditIgnoresCommas | app/components/CanvasSettings.tsx:23 | commas are removed before parsing |
| CanvasSizeSettings.SizeEditLeadingDigits | app/components/CanvasSettings.tsx:24 | parsing without a radix takes the leading digits, so "12px" sets 12 |
| CanvasSizeSettings.SizeEditIgnoresNonNumbers | app/components/CanvasSettings.tsx:24-25 | text that parses to NaN leaves the size unchanged |
| Cropping.AddFrameToCanvas | app/components/Cropping.tsx:6-23 | a fresh rect named "Frame " followed by (rects on the canvas + 1), at (100,100), 200×200, transparent fill, stroke "#07FE3D" of width 1, selectable and evented, is appended to the scene |
| Cropping.FrameName | app/components/Cropping.tsx:7 | "Frame " followed by decimal digits whose value is the number of rects on the canvas plus one |
| Cropping.NormalizeStroke | app/components/Cropping.tsx:29-35 | both scales and the stroke width become 1 |
| Cropping.MaintainStrokeWidth | app/components/Cropping.tsx:25-38 | the object's properties become `NormalizeStroke` of the old ones |
| Cropping.NormalizeStrokeResets | app/components/Cropping.tsx:29-35 | only width, height, the scales and the stroke width can differ from before |
| Cropping.NormalizeStrokeKeepsDrawnSize | app/components/Cropping.tsx:26-31 | the drawn width and height do not change |
| Cropping.NormalizeStrokeIdempotent | app/components/Cropping.tsx:25-38 | normalising twice is normalising once |
| Cropping.FrameNameAfterRect | app/components/Cropping.tsx:7 | after a rect is added, the next frame's number is one higher |
| Cropping.FrameNameAfterOther | app/components/Cropping.tsx:7 | adding a non-rect does not change the next frame's name |
| Cropping.ConsecutiveFrameNamesDiffer | app/components/Cropping.tsx:7 | the frame added next never repeats the name of the frame just added |
| VideoRecording.PaddedNumber | app/components/Video.tsx:34 | a padded number part is at least two decimal digits and reads back as the number |
| VideoRecording.FormatTime | app/components/Video.tsx:31-35 | minutes and seconds, each padded to two digits, joined by ":"; `FormatTimeReadsBack` states what it shows |
| VideoRecording.FormatTimeReadsBack | app/components/Video.tsx:31-35 | the text is MM:SS: the digits before the colon are floor(s/60), and the two after it are s mod 60, which is below 60 |
| VideoRecording.FormatTimeKeepsMinuteDigits | app/components/Video.tsx:32-34 | the minutes part is the minutes' numeral, left-padded with zeros to two digits and never truncated |
| VideoRecording.FormatTimeInjective | app/components/Video.tsx:31-35 | different elapsed times show different texts |
| VideoRecording.ChunksAfterDataAppends | app/components/Video.tsx:180-184 | a chunk is appended at the end exactly when it has data; earlier chunks stay in order |
| VideoRecording.ChunksAfterDataKeepsNonEmpty | app/components/Video.tsx:181 | the list never holds an empty chunk |
| VideoRecording.ChunksAfterData | app/components/Video.tsx:180-184 | the earlier chunks stay as a prefix, and at most one chunk is added |
| VideoRecording.Joined | app/components/Video.tsx:187 | the exported bytes begin with the first chunk's bytes |
| VideoRecording.JoinedAfterData | app/components/Video.tsx:182-187 | the exported bytes grow by exactly the new chunk's bytes |
| VideoRecording.JoinedLength | app/components/Video.tsx:187 | a list of non-empty chunks yields at least one byte per chunk |
| VideoRecording.RecordingFlagsIdempotent | app/components/Video.tsx:152-155 | only the two flags change, and reapplying them changes nothing |
| VideoRecording.SetRecordingFlags | app/components/Video.tsx:152-155 | every object on the canvas takes the recording flags |
| VideoRecording.RecordingFlags | app/components/Video.tsx:152-155 | an object loses its controls, and at the start of recording it is selectable |
| VideoRecording.FitScale | app/components/Video.tsx:65 | the scale is at most cw/vw and at most ch/vh, and equals one of them |
| VideoRecording.FitScaleFits | app/components/Video.tsx:65 | the scale is min(cw/vw, ch/vh): the scaled video fits in the canvas and touches one of its sides |
| VideoRecording.LoadedVideoFits | app/components/Video.tsx:62-72 | the uploaded video is drawn inside the canvas |
| VideoRecording.Video.constructor | app/components/Video.tsx:17-28 | no chunks, not recording, time 0, no message, no video, no recorder, no timer |
| VideoRecording.Video.ExportEnabled | app/components/Video.tsx:234 | the export button is enabled exactly when some chunk is recorded |
| VideoRecording.Video.Banner | app/components/Video.tsx:211-215 | the banner text is non-empty exactly while recording |
| VideoRecording.Video.HandleDataAvailable | app/components/Video.tsx:180-184 | the chunk list is updated by `ChunksAfterData` |
| VideoRecording.Video.HandleExportVideo | app/components/Video.tsx:186-199 | the file holds the chunks' bytes in order; the list empties, and with it the export button is disabled |
| VideoRecording.Video.HandleStartRecording | app/components/Video.tsx:139-162 | without canvas capture only the message "Recording is not supported in this browser" is set; otherwise recording starts at time 0 with the timer running, and every object takes the start flags |
| VideoRecording.Video.HandleStopRecording | app/components/Video.tsx:164-178 | without a recorder nothing changes; otherwise recording and the timer stop, and every object loses its controls |
| VideoRecording.Video.Tick | app/components/Video.tsx:159-161 | the timer runs only between a start and a stop; each tick adds exactly one second, and while recording the banner text changes |
| VideoRecording.Video.HandleVideoLoaded | app/components/Video.tsx:56-78 | a fresh image of the video's size, at the origin and scaled by the fit scale, is appended to the scene, becomes the panel's video, and "Uploaded" is shown |
| StyleEditorPanel.StyleEditor.constructor | app/components/StyleEditor.tsx:12-13 | no swatches, and the picker starts on "#FF0000" |
| StyleEditorPanel.StyleEditor.SetNewColor | app/components/StyleEditor.tsx:13 | the picker takes the chosen colour |
| StyleEditorPanel.StyleEditor.AddColor | app/components/StyleEditor.tsx:24-29 | exactly one swatch {"color_" + now, picked colour} is appended; earlier swatches stay, in order |
| StyleEditorPanel.SwatchId | app/components/StyleEditor.tsx:25 | a swatch id starts with "color_" |
| StyleEditorPanel.FindSwatch | app/components/StyleEditor.tsx:42 | a swatch found is in the list and has the id asked for |
| StyleEditorPanel.ApplyStyle | app/components/StyleEditor.tsx:51-58 | an active object takes the colour as fill and the id as style id and changes nothing else; with no active object nothing changes |
| StyleEditorPanel.FindSwatchFirst | app/components/StyleEditor.tsx:42 | the lookup finds a swatch exactly when one has the id, and it finds the first such swatch |
| StyleEditorPanel.FindSwatchAfterAdd | app/components/StyleEditor.tsx:24-29 | adding a swatch never changes what an id already in the list resolves to |
| StyleEditorPanel.SwatchIdInjective | app/components/StyleEditor.tsx:25 | different timestamps give different swatch ids |
| StyleEditorPanel.AppliedSwatchResolves | app/components/StyleEditor.tsx:42-55 | with unique ids, an object styled from a swatch resolves back to that swatch, whose colour is its fill |
| StyleEditorPanel.AddColorKeepsIdsUnique | app/components/StyleEditor.tsx:25-26 | a swatch added at a new timestamp keeps the ids unique |

## Left out

- Rendering and the library's internals are not modelled. This covers `renderAll`, `setCoords`, hit-testing and Fabric's transform maths.
- Event subscription is not modelled. This covers `canvas.on`/`off` and `frame.on` in `app/components/Settings.tsx:31-74` and `app/components/Cropping.tsx:40-48`. The handlers are methods that a caller invokes. Cropping's "scaling" and "modified" handlers call `MaintainStrokeWidth`.
- The `onFramesUpdated` callback of `Cropping` is not modelled. `app/components/Cropping.tsx:50` calls it with no argument: it only tells the parent component that the frames changed.
- Numbers are `real`/`int`, not IEEE-754 doubles. `Math.round` is floor(x + 0.5). `x || d` counts only 0 as falsy, because NaN cannot arise in the model. A size the library leaves unset is 0, where JavaScript would compute with `undefined`.
- SnappingHelper.HandleObjectMoving: the `guidelines` parameter is ignored, because the source never reads it. `setGuidelines` is the method's return value.
- SnappingHelper.HandleObjectMoving: the six blocks are split into the helper methods `TryRule`, `SnapToSides`, `SnapToTopAndBottom` and `SnapToCenters`. The statements and their order are unchanged.
- Fabric.Canvas.Remove: removes every occurrence of the object. Fabric removes one, but the scene never holds the same object twice here.
- SettingsPanel.Settings.HandleObjectSelection: a round trip from shown text to edit and back is not stated for arbitrary real sizes and scales. Rounding a real product is nonlinear. The parts are proved separately: the text reads back as round(size × scale) in `SizeTextReadsBack`, and a typed integer is drawn and shown as itself in `WidthEnteredIsDrawn` and `WidthEnteredThenShown`.
- VideoRecording.Video.HandleStartRecording: `MediaRecorder`, `captureStream` and the `setInterval` scheduling are not modelled. The boolean `captureSupported` stands for capture support. The check that the canvas ref is null, at `app/components/Video.tsx:145`, is covered by it. The recorder and the timer are flags, and a tick is `Tick`.
- VideoRecording.Video.HandleExportVideo: the `Blob`, URL and download I/O are not modelled. The file is returned as the joined bytes.
- VideoRecording.Video.HandleVideoLoaded: requires a video of positive width and height. For a zero-size video, such as an audio-only file, JavaScript computes the scale at `app/components/Video.tsx:65` as `Infinity` and still adds the image at lines 67-75; reals cannot represent that scale.
- The recording time is a `nat`, since it starts at 0 and only grows by one.
- VideoRecording.FitScale: requires a video of positive size. For a zero size, JavaScript divides by zero and gets `Infinity`.
- The rest of the video upload and playback is not modelled: `handleVideoUpload` up to the "loadeddata" handler, the "error" handler, `handlePlayPauseVideo`, `handleStopVideo` and the three-second message reset. These are browser media I/O.
- The buffered-load percentage at `app/components/Video.tsx:84-92` is not modelled. It is floating-point arithmetic over the browser's buffer ranges.
- `localStorage` loading and saving in `app/components/StyleEditor.tsx:16-22` and `37-38` are not modelled.
- The fill-resync loop in `saveColors` (`app/components/StyleEditor.tsx:40-48`) is not modelled. Its guard passes a boolean to `object.get`, so what it does depends on Fabric's property lookup. Only the lookup at line 42 is modelled, as `FindSwatch`.
- `Date.now()` is the parameter `now` of `AddColor`.
