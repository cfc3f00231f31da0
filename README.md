# Garment designer placement core, in Dafny

This project models the placement core of a web application for designing garments.
In the application, a user places text and image overlays on a 3D T-shirt. The model
covers six parts of it:

- **Design board** (`DesignCanvas`, `Canvas.tsx`). This is the text mode, which an
  `activateTextMode` event turns on with a seeded draft. A click on the board, or Enter
  in the draft input, commits the draft as a placed text. Escape drops the draft. The
  board keeps the list of placed texts and a drag session that moves one text to follow
  the mouse. Board pixels become scene units through the `* 4 - 2` map.
- **Colour field** (`ColorHex`, `ColorPicker.tsx`). `normalizeHex` accepts `#rgb` and
  `#rrggbb` in any case, with or without the `#` and surrounding blanks, and returns
  lower-case `#rrggbb`. The picker's state is its local colour, the text in its input
  and whether its popover is open. It also emits `onChange` values.
- **UV analysis** (`UVAnalysis`, `ModelAnalyzer.ts`). A scene traversal visits every
  vertex of every mesh that has both a position and a UV attribute. Each vertex is
  assigned to the front (z ≥ 0) or the back. Each side's UV bounding box starts from the
  sentinel min (1, 1) and max (0, 0). The fixed table `getTShirtUVAreas` is also modelled.
- **Preview panels** (`Preview`, `TShirtPreview.tsx`):
  - the click that turns a screen point into a UV inside the side's area;
  - the aspect fit of the garment picture;
  - the placement rectangle with its quarter grid and centre crosshair;
  - the counter that waits for both pictures before drawing.
- **Decals** (`DecalClick`, `DecalObject.tsx`). These are the prop defaults and the
  plane size. A 300 ms timer tells a single press from a double press.
- **Text objects** (`TextFont`, `TextObject.tsx`). The font URL is built from the
  family name, lower-cased and with every space removed. The font size in world units
  is `fontSize / 100`.

Components that the source changes in place are classes with `modifies` clauses:
`Canvas`, `ColorPicker`, `PreviewLoader` and `DecalPointerHandler`. React's state
setters become field assignments. Event payloads, such as the mouse position, the
board rectangle, whether the click was on the input, and fresh ids, become parameters.
`Canvas`, `DecalPointerHandler` and `PreviewLoader` keep a `Valid()` invariant. For
example, text mode is on exactly when there is a style to place with. `ColorPicker`
has none, because its fields are free text until a valid colour arrives. Scenario methods (`PlaceAndDragScenario`,
`BlankDraftScenario`, `ClickScenarios`, `BothPicturesLoad`) drive event sequences
through the classes and state what results.

`Common` holds `Option`. `Ascii` holds the ASCII `trim` and `toLowerCase` used by
several files. `RealFacts` holds the few facts about real division and multiplication
that the coordinate proofs rely on.

The board maps pixels with `* 4 - 2` onto the z = 0 plane, and it has no selection,
editing or deletion of placed texts.

`Preview.GridCornerClick` shows a behaviour of the code as written. The drawn
placement rectangle covers only the middle half of a panel. The click map, however,
spreads the whole panel over the UV area. So clicking the drawn rectangle's top-left
corner yields (0.375, 0.375) rather than the area's minimum (0.25, 0.25).

## Model

| member | source | states |
|---|---|---|
| DesignCanvas.Canvas.constructor | src/components/designboard/Canvas.tsx:25-31 | starts with no texts, text mode off with no style and an empty draft, the cursor at (0, 0) and no drag; the state invariant holds |
| DesignCanvas.Canvas.ActivateTextMode | src/components/designboard/Canvas.tsx:35-39 | text mode is on with the event's style and the draft "Your Text Here"; texts, cursor and drag are unchanged |
| DesignCanvas.Canvas.KeyDown | src/components/designboard/Canvas.tsx:41-47 | Escape in text mode leaves it and clears style and draft, keeping texts, cursor and drag; any other key, or Escape outside text mode, changes nothing |
| DesignCanvas.Canvas.MouseMove | src/components/designboard/Canvas.tsx:58-76 | without a board rectangle nothing changes; otherwise the cursor becomes the board-relative point, and during a drag with a non-empty id exactly the texts with that id move to the point's scene position, all else unchanged |
| DesignCanvas.Canvas.MouseDown | src/components/designboard/Canvas.tsx:78-108 | outside text mode, on the input, without a rectangle or with an all-blank draft nothing changes; otherwise exactly one text (the draft, the mode's style, the click's scene position, the new id) is appended to the unchanged earlier texts and text mode is cleared |
| DesignCanvas.Canvas.TextInputChange | src/components/designboard/Canvas.tsx:110-112 | the draft becomes the input's value |
| DesignCanvas.Canvas.TextInputKeyDown | src/components/designboard/Canvas.tsx:114-140 | Enter with a style appends the draft at the last cursor's scene position (no blank check) and clears text mode, or does nothing without a rectangle; Escape clears text mode keeping texts; other keys change nothing |
| DesignCanvas.Canvas.TextObjectMouseDown | src/components/designboard/Canvas.tsx:142-146 | a drag of the pressed text starts |
| DesignCanvas.Canvas.MouseUp | src/components/designboard/Canvas.tsx:148-151 | any drag ends: no drag flag and no id |
| DesignCanvas.Canvas.MouseLeave | src/components/designboard/Canvas.tsx:153-156 | leaving the board ends any drag exactly as releasing does |
| DesignCanvas.ToScene | src/components/designboard/Canvas.tsx:67-68 | the `* 4 - 2` map from board pixels to the z = 0 plane (also lines 91-92 and 119-120); it is a definition, pinned down by `ToSceneRange`, `SceneRoundTrip`, `SceneRoundTripBack` and `SceneMonotone` |
| DesignCanvas.ToSceneRange | src/components/designboard/Canvas.tsx:67-68 | a board point maps into [-2, 2]² on the z = 0 plane, with left, right, top and bottom edges at -2, 2, 2, -2 |
| DesignCanvas.SceneRoundTrip | src/components/designboard/Canvas.tsx:91-92 | mapping board pixels to the scene and back with the inverse map is the identity |
| DesignCanvas.SceneRoundTripBack | src/components/designboard/Canvas.tsx:119-120 | mapping a z = 0 scene point to board pixels and back is the identity, so the map is a bijection onto that plane |
| DesignCanvas.SceneMonotone | src/components/designboard/Canvas.tsx:67-68 | moving right moves right in the scene, moving down moves down (y decreases) |
| DesignCanvas.Placed | src/components/designboard/Canvas.tsx:94-101 | the `newText` literal: the draft, the mode's style, the position and the id; a definition, whose use is stated by `Canvas.MouseDown`, `Canvas.TextInputKeyDown` and the two scenarios |
| DesignCanvas.MoveText | src/components/designboard/Canvas.tsx:70-74 | same length; texts with the dragged id get the new position and keep every other field; all other texts are unchanged |
| DesignCanvas.MoveUnknownIsNoOp | src/components/designboard/Canvas.tsx:70-74 | a drag of an id that no text has leaves the list unchanged |
| DesignCanvas.MoveOnly | src/components/designboard/Canvas.tsx:70-74 | dragging the only text moves it and keeps its other fields |
| DesignCanvas.DraftSeedNotBlank | src/components/designboard/Canvas.tsx:38 | the seeded draft is not blank, so a click can commit it |
| DesignCanvas.BottomRightCorner | src/components/designboard/Canvas.tsx:62-68 | the board's bottom-right corner, computed from client coordinates, is (2, -2, 0) in the scene |
| DesignCanvas.BlankDraftScenario | src/components/designboard/Canvas.tsx:78-140 | with a blank draft a click places nothing and text mode stays on, while Enter in the input places exactly that draft with the given id |
| DesignCanvas.PlaceAndDragScenario | src/components/designboard/Canvas.tsx:58-151 | activate, click, press the text and drag to the bottom-right corner: one text with the seeded content and its id, at (2, -2, 0) |
| Ascii.TrimEmptyIffAllSpace | src/components/designboard/Canvas.tsx:90 | `trim()` yields the empty string exactly when every character is white space |
| Ascii.Trim | src/components/layout/layoutelement/ColorPicker.tsx:12 | the result is no longer than the input and neither starts nor ends with white space |
| Ascii.TrimStart | src/components/layout/layoutelement/ColorPicker.tsx:12 | the result is a suffix of the input, everything dropped is white space, and it does not start with white space |
| Ascii.TrimEnd | src/components/layout/layoutelement/ColorPicker.tsx:12 | the result is a prefix of the input, everything dropped is white space, and it does not end with white space |
| Ascii.TrimFixesUnpadded | src/components/layout/layoutelement/ColorPicker.tsx:12 | a string that neither starts nor ends with white space is unchanged by trimming |
| Ascii.LowerChar | src/components/layout/layoutelement/ColorPicker.tsx:12 | the result is not upper-case; an upper-case letter moves down by 32 code points, anything else is kept; spaces and white space are preserved both ways |
| Ascii.ToLower | src/components/layout/layoutelement/ColorPicker.tsx:12 | same length and no upper-case character |
| Ascii.ToLowerAppend | src/components/designboard/TextObject.tsx:32 | lower-casing distributes over concatenation |
| Ascii.ToLowerFixesLower | src/components/layout/layoutelement/ColorPicker.tsx:12 | a string without upper-case letters is unchanged |
| ColorHex.NormalizeHex | src/components/layout/layoutelement/ColorPicker.tsx:10-19 | empty input is rejected; a result exists exactly when the trimmed, lower-cased input without one leading `#` is 3 or 6 hex digits; every result is canonical lower-case `#rrggbb` |
| ColorHex.Digits | src/components/layout/layoutelement/ColorPicker.tsx:12-13 | the digits to check are no longer than the input |
| ColorHex.DoubleEach | src/components/layout/layoutelement/ColorPicker.tsx:16 | twice the length, character j being input character j / 2 |
| ColorHex.NormalizeHexLongForm | src/components/layout/layoutelement/ColorPicker.tsx:14-18 | six hex digits normalise to `#` followed by those digits |
| ColorHex.NormalizeHexShorthand | src/components/layout/layoutelement/ColorPicker.tsx:15-17 | three hex digits normalise to `#` followed by each digit written twice, in order |
| ColorHex.NormalizeHexFixesCanonical | src/components/layout/layoutelement/ColorPicker.tsx:10-19 | a canonical colour normalises to itself |
| ColorHex.NormalizeHexIdempotent | src/components/layout/layoutelement/ColorPicker.tsx:10-19 | normalising an accepted colour's result gives that result again |
| ColorHex.NormalizeHexRejectsLength | src/components/layout/layoutelement/ColorPicker.tsx:14 | any digit count other than 3 or 6 is rejected |
| ColorHex.NormalizeHexRejectsSecondHash | src/components/layout/layoutelement/ColorPicker.tsx:13-14 | only one leading `#` is stripped, so `##…` is rejected |
| ColorHex.NormalizeHexExampleShorthand | src/components/layout/layoutelement/ColorPicker.tsx:10-19 | `#ABC` normalises to `#aabbcc` |
| ColorHex.NormalizeHexExamplesRejected | src/components/layout/layoutelement/ColorPicker.tsx:12-14 | `##abc`, `abcd` and `not-a-color` are rejected |
| ColorHex.ColorPicker.constructor | src/components/layout/layoutelement/ColorPicker.tsx:22-24 | the popover is closed, and local colour and input both hold the normalised prop, or the raw prop when it is not a colour |
| ColorHex.ColorPicker.SyncColor | src/components/layout/layoutelement/ColorPicker.tsx:28-36 | a valid prop sets both local colour and input to its normal form; an invalid one sets only the input, to the raw prop; nothing is emitted |
| ColorHex.ColorPicker.PickerChange | src/components/layout/layoutelement/ColorPicker.tsx:54-59 | local colour and input take the normalised (or raw) pick, and exactly that value is emitted |
| ColorHex.ColorPicker.InputChange | src/components/layout/layoutelement/ColorPicker.tsx:61-69 | the input always takes the typed text; a valid text also sets the local colour and emits it, an invalid one leaves colour and emissions unchanged |
| ColorHex.ColorPicker.InputKeyDown | src/components/layout/layoutelement/ColorPicker.tsx:71-83 | Enter with a valid input commits and emits its normal form and closes; Enter with an invalid input changes nothing; Escape only closes; other keys change nothing |
| ColorHex.ColorPicker.ToggleOpen | src/components/layout/layoutelement/ColorPicker.tsx:90 | the swatch button flips the popover |
| ColorHex.ColorPicker.DocumentMouseDown | src/components/layout/layoutelement/ColorPicker.tsx:38-52 | a press outside both the popover and the root closes an open popover; anything else leaves it as it is |
| UVAnalysis.Extend | src/utils/ModelAnalyzer.ts:43-53 | one side's four `Math.min`/`Math.max` updates for one vertex; a definition, pinned down through `Hull` |
| UVAnalysis.Hull | src/utils/ModelAnalyzer.ts:43-53 | the reference fold of `Extend` over the vertices in visiting order, which `VisitMesh` and `AnalyzeUVCoordinates` are proved against; its meaning is stated by `HullContains`, `HullIsTightest`, `HullAttained` and `HullGrows` |
| UVAnalysis.VisitMesh | src/utils/ModelAnalyzer.ts:32-55 | after a mesh's vertex loop each side's box is the hull of its old box and that side's vertices, and each count grows by that side's number of vertices |
| UVAnalysis.AnalyzeUVCoordinates | src/utils/ModelAnalyzer.ts:15-64 | each side's box is the hull, from the sentinel, of the traversal's vertices on that side, and the counts are those sides' vertex numbers |
| UVAnalysis.HullAppend | src/utils/ModelAnalyzer.ts:24-57 | visiting two vertex runs in turn reaches the box that visiting them together does |
| UVAnalysis.SidesAppend | src/utils/ModelAnalyzer.ts:40-54 | splitting vertices into sides distributes over concatenation |
| UVAnalysis.HullContains | src/utils/ModelAnalyzer.ts:43-53 | every visited vertex lies inside the reached box |
| UVAnalysis.HullGrows | src/utils/ModelAnalyzer.ts:43-53 | min components never increase and max components never decrease |
| UVAnalysis.HullIsTightest | src/utils/ModelAnalyzer.ts:43-53 | any box containing the starting box and all visited vertices contains the reached box |
| UVAnalysis.HullAttained | src/utils/ModelAnalyzer.ts:43-53 | each bound is the starting value or some visited vertex's coordinate |
| UVAnalysis.SidesPartition | src/utils/ModelAnalyzer.ts:40-54 | every vertex goes to exactly one side: front when z ≥ 0, back when z < 0 |
| UVAnalysis.EmptySideIsSentinel | src/utils/ModelAnalyzer.ts:16-19 | a front or back side without vertices is returned as the sentinel, an inverted box (min > max) |
| UVAnalysis.IncompleteMeshAddsNothing | src/utils/ModelAnalyzer.ts:25-30 | a node that is not a mesh, or lacks either attribute, adds no vertex |
| UVAnalysis.AnalysisSound | src/utils/ModelAnalyzer.ts:15-63 | the two counts add up to the visited vertices, each side's vertices lie in that side's box, and each box's min is at most (1, 1) and its max at least (0, 0) |
| UVAnalysis.GetTShirtUVAreas | src/utils/ModelAnalyzer.ts:67-78 | front and back are the same non-empty box inside the unit square, centred at (0.5, 0.5) |
| Preview.GetUVAreas | src/components/designboard/TShirtPreview.tsx:17-28 | the component's table equals the analyzer's fixed table |
| Preview.Spread | src/components/designboard/TShirtPreview.tsx:68-69 | `min + f * (max - min)`, a fraction of the way across the area; a definition, pinned down by `SpreadInside` and `SpreadMonotone` |
| Preview.ClickToUV | src/components/designboard/TShirtPreview.tsx:59-69 | the canvas-pixel scale cancels: the UV is the click's fraction of the on-screen box, spread over the area's UV box |
| Preview.ScaleCancels | src/components/designboard/TShirtPreview.tsx:60-68 | scaling by buffer / shown size and dividing by the buffer size is dividing by the shown size |
| Preview.SpreadInside | src/components/designboard/TShirtPreview.tsx:68-69 | a fraction in [0, 1] lands within [lo, hi] |
| Preview.SpreadMonotone | src/components/designboard/TShirtPreview.tsx:68-69 | a larger fraction lands no lower |
| Preview.HandleCanvasClick | src/components/designboard/TShirtPreview.tsx:55-73 | a placement exists exactly when the clicked side's canvas exists; it carries that side, and a click inside the on-screen box yields a UV inside the side's area; the UV is the click's fraction of the on-screen box, spread over the side's area |
| Preview.HiddenOtherPanelClick | src/components/designboard/TShirtPreview.tsx:55-57 | a click on the shown panel is placed even while the other, hidden panel's canvas has a 0 × 0 on-screen box, since only the clicked side's canvas is read |
| Preview.ClickInsideLandsInside | src/components/designboard/TShirtPreview.tsx:63-69 | a click inside the on-screen box yields a UV inside the area box |
| Preview.ClickEdges | src/components/designboard/TShirtPreview.tsx:63-69 | the box's top-left corner maps to the area's min and its bottom-right corner to its max |
| Preview.ClickMonotone | src/components/designboard/TShirtPreview.tsx:63-69 | the map is monotone on both axes |
| Preview.ClickRoundTrip | src/components/designboard/TShirtPreview.tsx:63-69 | clicking at the screen point computed for a UV yields that UV back, so every UV is reachable by some click |
| Preview.AspectFit | src/components/designboard/TShirtPreview.tsx:92-108 | the picture keeps its aspect ratio, fills the canvas in one dimension and fits in the other, and is centred |
| Preview.PlacementRect | src/components/designboard/TShirtPreview.tsx:112-116 | for a UV box within the unit square, the rectangle lies within the canvas |
| Preview.ScaledInside | src/components/designboard/TShirtPreview.tsx:113-116 | a span [lo, hi] of the unit interval scaled by a size lies within [0, size] |
| Preview.Crosshair | src/components/designboard/TShirtPreview.tsx:154-155 | the middle of the placement rectangle; a definition, pinned down by `CrosshairAtCanvasCentre` |
| Preview.CrosshairAtCanvasCentre | src/components/designboard/TShirtPreview.tsx:154-155 | with the fixed table the crosshair is at the canvas centre on either side |
| Preview.QuarterLines | src/components/designboard/TShirtPreview.tsx:134-141 | one grid loop yields three lines at the quarter points of the span, strictly inside it and strictly increasing |
| Preview.GridLines | src/components/designboard/TShirtPreview.tsx:133-151 | three vertical and three horizontal lines at the quarter points, strictly inside the rectangle and strictly increasing |
| Preview.GridCornerClick | src/components/designboard/TShirtPreview.tsx:63-69 | clicking the drawn placement rectangle's top-left corner yields (0.375, 0.375) |
| Preview.PreviewLoader.constructor | src/components/designboard/TShirtPreview.tsx:37 | the counter starts at 0, not loaded, nothing drawn; the invariant holds (loaded exactly when the count is at least 2, and both panels drawn exactly then) |
| Preview.PreviewLoader.ImageLoaded | src/components/designboard/TShirtPreview.tsx:39-46 | the counter grows by one; on reaching 2 the component is loaded and both panels are drawn, front then back; the invariant is kept |
| Preview.BothPicturesLoad | src/components/designboard/TShirtPreview.tsx:37-49 | after the first picture nothing is drawn; after the second both panels are drawn and the component is loaded |
| DecalClick.ResolveProps | src/components/designboard/DecalObject.tsx:21-24 | destructuring with defaults; a definition whose meaning is stated by `DefaultDecal` and `GivenProps` |
| DecalClick.PlaneSize | src/components/designboard/DecalObject.tsx:32-34 | the `PlaneGeometry(scale, scale)` size; a definition whose meaning is stated by `DefaultDecal` and `GivenProps` |
| DecalClick.DefaultDecal | src/components/designboard/DecalObject.tsx:21-34 | with no props the plane is 0.2 × 0.2 and the decal is opaque, unrotated and unselected |
| DecalClick.GivenProps | src/components/designboard/DecalObject.tsx:21-34 | props that are given override every default, and a given scale makes the plane scale × scale |
| DecalClick.DecalPointerHandler.constructor | src/components/designboard/DecalObject.tsx:43 | no timer is armed, no callback has run and nothing was stopped |
| DecalClick.DecalPointerHandler.PointerDown | src/components/designboard/DecalObject.tsx:45-58 | every press stops propagation; from idle it arms the timer with the event and calls nothing; with the timer armed it disarms it and calls the double-click callback if one was given |
| DecalClick.DecalPointerHandler.TimerFires | src/components/designboard/DecalObject.tsx:53-56 | the armed timer is cleared and the `onPointerDown` callback, if given, is called with the first press's event |
| DecalClick.ClickScenarios | src/components/designboard/DecalObject.tsx:45-58 | two quick presses give one double-click call; a press and a timer firing give one single-click call with that press |
| TextFont.RemoveSpaces | src/components/designboard/TextObject.tsx:32 | the result is no longer than the input and contains no space |
| TextFont.RemoveSpacesKeepsOthers | src/components/designboard/TextObject.tsx:32 | each non-space character occurs as often as in the input, and nothing new appears |
| TextFont.RemoveSpacesAppend | src/components/designboard/TextObject.tsx:32 | removing spaces distributes over concatenation |
| TextFont.RemoveSpacesFixesSpaceless | src/components/designboard/TextObject.tsx:32 | a string without spaces is unchanged |
| TextFont.FontSlug | src/components/designboard/TextObject.tsx:32 | the slug contains no space and no upper-case letter |
| TextFont.FontSlugKeepsNonSpaces | src/components/designboard/TextObject.tsx:32 | the slug is the family's non-space characters in order, each lower-cased |
| TextFont.FontSlugIdempotent | src/components/designboard/TextObject.tsx:32 | deriving the slug twice changes nothing |
| TextFont.FontUrl | src/components/designboard/TextObject.tsx:32 | the URL is the fixed prefix, the slug and the fixed suffix |
| TextFont.FontUrlRoundTrip | src/components/designboard/TextObject.tsx:32 | the slug can be read back out of the URL |
| TextFont.WorldFontSize | src/components/designboard/TextObject.tsx:30 | the world size times 100 is the given size |
| TextFont.WorldFontSizeLinear | src/components/designboard/TextObject.tsx:30 | the conversion is linear and 100 maps to one world unit |

## Left out

- Rendering is not modelled: the three.js scene, the text and decal meshes, camera-facing billboarding (`DecalObject.tsx` 36-41) and the board's JSX (`Canvas.tsx` 158-223). Only their inputs are modelled.
- The 2D canvas drawing in `TShirtPreview.tsx` is not modelled: clearing, strokes, fills, labels, the image objects and the redraw effect. The model keeps the numbers they are drawn at.
- `ModelScreenshot.ts`, `ImageObject.tsx`, `Object.tsx`, the pages, the navigation bar, the sidebar, the design bar and the font picker are outside the placement core.
- Fresh ids from `Math.random().toString(36)` are a parameter (`newId`), so the model does not claim they are unique.
- Timers are not modelled as time. The 300 ms timeout is the `TimerFires` event.
- DecalClick.DecalPointerHandler: `clickTimeout` is a `let` that each render recreates. The model keeps one handler per render, and does not model a re-render between two presses, which would lose the armed timer.
- Numbers are exact reals, not IEEE doubles. Rounding, `NaN` and `Infinity` are not modelled, and neither are `toFixed` nor the logged values.
- MouseDown (DesignCanvas.Canvas.MouseDown): requires a board of positive width and height (`Measurable`). A zero-size board would divide by zero in the source; this is not modelled. The same holds for MouseMove (DesignCanvas.Canvas.MouseMove) and TextInputKeyDown (DesignCanvas.Canvas.TextInputKeyDown).
- HandleCanvasClick (Preview.HandleCanvasClick): requires the clicked side's canvas, when it exists, to have a positive buffer and on-screen size, for the same reason; the other side's canvas may have any size (`HiddenOtherPanelClick`).
- AspectFit (Preview.AspectFit): requires the picture and the canvas to have positive sizes; an image that failed to decode is not modelled.
- Trim (Ascii.Trim): only ASCII blanks count as white space (space, tab, line feed, vertical tab, form feed, carriage return), not the Unicode white space that `trim()` also removes.
- ToLower (Ascii.ToLower): lower-cases only A–Z, not the rest of Unicode as `toLowerCase()` does.
- The analyzer reads x, z, u and v by index from two attributes. The model pairs them into one `Vertex` per index, and does not model attributes with different counts.
- The source's two-element `[x, y]` arrays, and the bounds it mutates in place, are records (`Vec2`, `Box`). The analyzer's loop updates local copies.
- Console logging is left out.
- React's batching of state updates and stale closures are not modelled: each handler sees the state left by the previous one.
- `stopPropagation` on a text's mouse-down is not modelled as event routing. A scenario calls the text handler instead of the board's.
- DocumentMouseDown (ColorHex.ColorPicker.DocumentMouseDown): the two `contains` checks on the popover and root refs are one boolean, `outside`. Listener registration while the popover is open is not modelled.
