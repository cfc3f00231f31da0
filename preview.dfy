/**
 * `TShirtPreview`: the two flat garment panels on which a click chooses where text goes.
 * Modelled here is the arithmetic: the UV table, the click-to-UV map, the aspect fit of
 * the garment picture, the placement rectangle with its quarter grid and crosshair, and
 * the counter that waits for both pictures before the first draw.
 */
module Preview {
  import opened Common
  import opened UVAnalysis
  import opened RealFacts

  datatype Area = Front | Back

  /** `getBoundingClientRect()`: where the canvas sits on screen, in CSS pixels. */
  datatype ClientRect = ClientRect(left: real, top: real, width: real, height: real)

  /** A canvas element: its drawing-buffer size (500 × 600 here) and its on-screen box. */
  datatype CanvasElement = CanvasElement(width: real, height: real, rect: ClientRect)

  /** What `onTextPlacement` receives. */
  datatype Placement = Placement(uv: Vec2, area: Area)

  /** A rectangle on the canvas, in canvas pixels. */
  datatype Rect = Rect(x: real, y: real, width: real, height: real)

  /** A canvas with a non-degenerate buffer and on-screen box, so the divisions of the
      click handler are defined. */
  predicate Displayed(c: CanvasElement) {
    c.width > 0.0 && c.height > 0.0 && c.rect.width > 0.0 && c.rect.height > 0.0
  }

  /** The click falls within the on-screen box, edges included. */
  predicate OnScreen(clientX: real, clientY: real, rect: ClientRect) {
    rect.left <= clientX <= rect.left + rect.width && rect.top <= clientY <= rect.top + rect.height
  }

  predicate InBox(p: Vec2, b: Box) {
    b.min.x <= p.x <= b.max.x && b.min.y <= p.y <= b.max.y
  }

  /** `getUVAreas`: the component's own copy of the UV table, identical to the analyzer's. */
  function GetUVAreas(): (r: UVBounds)
    ensures r == GetTShirtUVAreas()
  {
    UVBounds(Box(Vec2(0.25, 0.25), Vec2(0.75, 0.75)), Box(Vec2(0.25, 0.25), Vec2(0.75, 0.75)))
  }

  function AreaBounds(areas: UVBounds, area: Area): Box {
    if area == Front then areas.front else areas.back
  }

  /** The point a fraction `f` of the way from `lo` to `hi`. */
  function Spread(f: real, lo: real, hi: real): real {
    lo + f * (hi - lo)
  }

  /** A fraction within [0, 1] lands within [lo, hi]. */
  lemma SpreadInside(f: real, lo: real, hi: real)
    requires 0.0 <= f <= 1.0 && lo <= hi
    ensures lo <= Spread(f, lo, hi) <= hi
  {
    var span := hi - lo;
    FractionOfSpan(f, span);
    assert Spread(f, lo, hi) == lo + f * span;
  }

  lemma SpreadMonotone(f1: real, f2: real, lo: real, hi: real)
    requires f1 <= f2 && lo <= hi
    ensures Spread(f1, lo, hi) <= Spread(f2, lo, hi)
  {
    var span := hi - lo;
    MulMonotone(f1, f2, span);
    assert Spread(f1, lo, hi) == lo + f1 * span && Spread(f2, lo, hi) == lo + f2 * span;
  }

  /** The arithmetic of `handleCanvasClick`: screen pixels are scaled to canvas pixels and
      then spread over the area's UV box. The scale factor cancels: the UV depends only on
      where the click falls within the on-screen box. */
  function ClickToUV(clientX: real, clientY: real, canvas: CanvasElement, b: Box): (r: Vec2)
    requires Displayed(canvas)
    ensures r == Vec2(Spread((clientX - canvas.rect.left) / canvas.rect.width, b.min.x, b.max.x),
                      Spread((clientY - canvas.rect.top) / canvas.rect.height, b.min.y, b.max.y))
  {
    var scaleX := canvas.width / canvas.rect.width;
    var scaleY := canvas.height / canvas.rect.height;
    var x := (clientX - canvas.rect.left) * scaleX;
    var y := (clientY - canvas.rect.top) * scaleY;
    ScaleCancels(clientX - canvas.rect.left, canvas.width, canvas.rect.width);
    ScaleCancels(clientY - canvas.rect.top, canvas.height, canvas.rect.height);
    Vec2(b.min.x + (x / canvas.width) * (b.max.x - b.min.x),
         b.min.y + (y / canvas.height) * (b.max.y - b.min.y))
  }

  lemma ScaleCancels(d: real, size: real, shown: real)
    requires size > 0.0 && shown > 0.0
    ensures d * (size / shown) / size == d / shown
  {
    assert d * (size / shown) == d / shown * size;
    MulDivCancel(d / shown, size);
  }

  /** `handleCanvasClick`: the canvas of the clicked side is looked up; without one there
      is no placement, with one the placement carries the click's UV and the side. */
  function HandleCanvasClick(clientX: real, clientY: real, area: Area,
                             frontCanvas: Option<CanvasElement>,
                             backCanvas: Option<CanvasElement>): (r: Option<Placement>)
    requires var canvas := if area == Front then frontCanvas else backCanvas;
      canvas.Some? ==> Displayed(canvas.value)
    ensures var canvas := if area == Front then frontCanvas else backCanvas;
      r.Some? <==> canvas.Some?
    ensures r.Some? ==> r.value.area == area
    ensures var c := if area == Front then frontCanvas else backCanvas;
      var b := AreaBounds(GetUVAreas(), area);
      r.Some? ==> r.value.uv == Vec2(Spread((clientX - c.value.rect.left) / c.value.rect.width, b.min.x, b.max.x),
                                     Spread((clientY - c.value.rect.top) / c.value.rect.height, b.min.y, b.max.y))
    ensures r.Some? && OnScreen(clientX, clientY, (if area == Front then frontCanvas else backCanvas).value.rect)
      ==> InBox(r.value.uv, AreaBounds(GetUVAreas(), area))
  {
    var canvas := if area == Front then frontCanvas else backCanvas;
    if canvas.None? then None
    else
      var b := AreaBounds(GetUVAreas(), area);
      var uv := ClickToUV(clientX, clientY, canvas.value, b);
      ClickInsideLandsInside(clientX, clientY, canvas.value, b);
      Some(Placement(uv, area))
  }

  /** The panel not shown sits in a hidden container, so its on-screen box is 0 × 0; a click
      on the shown panel is still placed. */
  lemma HiddenOtherPanelClick(front: CanvasElement, clientX: real, clientY: real)
    requires Displayed(front)
    ensures var hidden := CanvasElement(500.0, 600.0, ClientRect(0.0, 0.0, 0.0, 0.0));
      var r := HandleCanvasClick(clientX, clientY, Front, Some(front), Some(hidden));
      r.Some? && r.value.area == Front
  {
  }

  /** A click inside the on-screen box yields a UV inside the area's box. */
  lemma ClickInsideLandsInside(clientX: real, clientY: real, canvas: CanvasElement, b: Box)
    requires Displayed(canvas)
    requires b.min.x <= b.max.x && b.min.y <= b.max.y
    ensures OnScreen(clientX, clientY, canvas.rect) ==> InBox(ClickToUV(clientX, clientY, canvas, b), b)
  {
    if OnScreen(clientX, clientY, canvas.rect) {
      var fx := (clientX - canvas.rect.left) / canvas.rect.width;
      var fy := (clientY - canvas.rect.top) / canvas.rect.height;
      DivInUnit(clientX - canvas.rect.left, canvas.rect.width);
      DivInUnit(clientY - canvas.rect.top, canvas.rect.height);
      SpreadInside(fx, b.min.x, b.max.x);
      SpreadInside(fy, b.min.y, b.max.y);
    }
  }

  /** The left and top edges of the on-screen box map to the area's min, the right and
      bottom edges to its max. */
  lemma ClickEdges(canvas: CanvasElement, b: Box)
    requires Displayed(canvas)
    ensures ClickToUV(canvas.rect.left, canvas.rect.top, canvas, b) == b.min
    ensures ClickToUV(canvas.rect.left + canvas.rect.width, canvas.rect.top + canvas.rect.height,
                      canvas, b) == b.max
  {
  }

  /** The map is monotone on both axes when the box is not inverted. */
  lemma ClickMonotone(x1: real, y1: real, x2: real, y2: real, canvas: CanvasElement, b: Box)
    requires Displayed(canvas)
    requires b.min.x <= b.max.x && b.min.y <= b.max.y
    requires x1 <= x2 && y1 <= y2
    ensures ClickToUV(x1, y1, canvas, b).x <= ClickToUV(x2, y2, canvas, b).x
    ensures ClickToUV(x1, y1, canvas, b).y <= ClickToUV(x2, y2, canvas, b).y
  {
    var l, t, w, h := canvas.rect.left, canvas.rect.top, canvas.rect.width, canvas.rect.height;
    DivMonotone(x1 - l, x2 - l, w);
    DivMonotone(y1 - t, y2 - t, h);
    SpreadMonotone((x1 - l) / w, (x2 - l) / w, b.min.x, b.max.x);
    SpreadMonotone((y1 - t) / h, (y2 - t) / h, b.min.y, b.max.y);
  }

  /** The screen point at which a UV inside a non-degenerate area box is produced. */
  function UVToClient(uv: Vec2, canvas: CanvasElement, b: Box): (r: (real, real))
    requires Displayed(canvas)
    requires b.min.x < b.max.x && b.min.y < b.max.y
  {
    (canvas.rect.left + (uv.x - b.min.x) / (b.max.x - b.min.x) * canvas.rect.width,
     canvas.rect.top + (uv.y - b.min.y) / (b.max.y - b.min.y) * canvas.rect.height)
  }

  /** Clicking where `UVToClient` points yields that UV back: the map is invertible. */
  lemma ClickRoundTrip(uv: Vec2, canvas: CanvasElement, b: Box)
    requires Displayed(canvas)
    requires b.min.x < b.max.x && b.min.y < b.max.y
    ensures var p := UVToClient(uv, canvas, b); ClickToUV(p.0, p.1, canvas, b) == uv
  {
    var sx, sy := b.max.x - b.min.x, b.max.y - b.min.y;
    var w, h := canvas.rect.width, canvas.rect.height;
    var fx, fy := (uv.x - b.min.x) / sx, (uv.y - b.min.y) / sy;
    var p := UVToClient(uv, canvas, b);
    assert p.0 - canvas.rect.left == fx * w;
    assert p.1 - canvas.rect.top == fy * h;
    MulDivCancel(fx, w);
    MulDivCancel(fy, h);
    DivMulCancel(uv.x - b.min.x, sx);
    DivMulCancel(uv.y - b.min.y, sy);
    assert Spread(fx, b.min.x, b.max.x) == b.min.x + fx * sx;
    assert Spread(fy, b.min.y, b.max.y) == b.min.y + fy * sy;
  }

  /** The aspect fit of `drawTShirtPreview`: the picture is scaled to the canvas width when
      it is relatively wider than the canvas, else to the canvas height, and centred. */
  method AspectFit(imageWidth: real, imageHeight: real, width: real, height: real)
    returns (renderWidth: real, renderHeight: real, offsetX: real, offsetY: real)
    requires imageWidth > 0.0 && imageHeight > 0.0 && width > 0.0 && height > 0.0
    ensures 0.0 < renderWidth <= width && 0.0 < renderHeight <= height
    ensures renderWidth == width || renderHeight == height
    ensures renderWidth * imageHeight == renderHeight * imageWidth
    ensures 2.0 * offsetX + renderWidth == width && 2.0 * offsetY + renderHeight == height
    ensures offsetX >= 0.0 && offsetY >= 0.0
  {
    var imgAspect := imageWidth / imageHeight;
    var canvasAspect := width / height;
    renderWidth := width;
    renderHeight := height;
    offsetX := 0.0;
    offsetY := 0.0;
    if imgAspect > canvasAspect {
      renderHeight := width / imgAspect;
      offsetY := (height - renderHeight) / 2.0;
    } else {
      renderWidth := height * imgAspect;
      offsetX := (width - renderWidth) / 2.0;
    }
  }

  /** The placement rectangle: the canvas scaled by the area's UV box. */
  function PlacementRect(width: real, height: real, b: Box): (r: Rect)
    ensures 0.0 <= b.min.x <= b.max.x <= 1.0 && 0.0 <= b.min.y <= b.max.y <= 1.0 &&
            width >= 0.0 && height >= 0.0 ==>
      0.0 <= r.x && r.x + r.width <= width && 0.0 <= r.y && r.y + r.height <= height &&
      r.width >= 0.0 && r.height >= 0.0
  {
    ScaledInside(width, b.min.x, b.max.x);
    ScaledInside(height, b.min.y, b.max.y);
    Rect(width * b.min.x, height * b.min.y,
         width * (b.max.x - b.min.x), height * (b.max.y - b.min.y))
  }

  lemma ScaledInside(size: real, lo: real, hi: real)
    ensures size >= 0.0 && 0.0 <= lo <= hi <= 1.0 ==>
      0.0 <= size * lo && size * lo + size * (hi - lo) <= size && size * (hi - lo) >= 0.0
  {
    if size >= 0.0 && 0.0 <= lo <= hi <= 1.0 {
      MulMonotone(0.0, lo, size);
      MulMonotone(lo, hi, size);
      MulMonotone(hi, 1.0, size);
      assert size * lo + size * (hi - lo) == size * hi;
    }
  }

  /** Where the red crosshair is drawn: the middle of the placement rectangle. */
  function Crosshair(r: Rect): (c: (real, real)) {
    (r.x + r.width / 2.0, r.y + r.height / 2.0)
  }

  /** With the 0.25–0.75 table the crosshair sits at the canvas centre, on either side. */
  lemma CrosshairAtCanvasCentre(width: real, height: real, area: Area)
    ensures Crosshair(PlacementRect(width, height, AreaBounds(GetUVAreas(), area)))
      == (width / 2.0, height / 2.0)
  {
  }

  /** The position of grid line `n` (1 to 3), `spacing` apart from `start`. */
  function GridStep(start: real, spacing: real, n: nat): real {
    start + spacing * n as real
  }

  /** One loop of `drawTShirtPreview`'s grid: for `i` from 1 to 3, a line at `start`
      plus `i` quarters of `length`. The lines cut the span into quarters, lie strictly
      inside it and increase. */
  method QuarterLines(start: real, length: real) returns (lines: seq<real>)
    ensures |lines| == 3
    ensures forall k | 0 <= k < 3 :: lines[k] == start + length * (k + 1) as real / 4.0
    ensures length > 0.0 ==> forall k | 0 <= k < 3 :: start < lines[k] < start + length
    ensures length > 0.0 ==> lines[0] < lines[1] < lines[2]
  {
    var spacing := length / 4.0;
    lines := [];
    for i := 1 to 4
      invariant |lines| == i - 1
      invariant forall k | 0 <= k < i - 1 :: lines[k] == GridStep(start, spacing, k + 1)
    {
      var line := start + spacing * i as real;
      assert line == GridStep(start, spacing, i);
      lines := lines + [line];
    }
    assert lines[0] == start + length / 4.0;
    assert lines[1] == start + length / 4.0 * 2.0;
    assert lines[2] == start + length / 4.0 * 3.0;
  }

  /** The grid of `drawTShirtPreview`: the vertical lines' x positions and the horizontal
      lines' y positions, in drawing order. */
  method GridLines(r: Rect) returns (xs: seq<real>, ys: seq<real>)
    ensures |xs| == 3 && |ys| == 3
    ensures forall i | 0 <= i < 3 :: xs[i] == r.x + r.width * (i + 1) as real / 4.0
    ensures forall i | 0 <= i < 3 :: ys[i] == r.y + r.height * (i + 1) as real / 4.0
    ensures r.width > 0.0 ==> forall i | 0 <= i < 3 :: r.x < xs[i] < r.x + r.width
    ensures r.height > 0.0 ==> forall i | 0 <= i < 3 :: r.y < ys[i] < r.y + r.height
    ensures r.width > 0.0 ==> xs[0] < xs[1] < xs[2]
    ensures r.height > 0.0 ==> ys[0] < ys[1] < ys[2]
  {
    xs := QuarterLines(r.x, r.width);
    ys := QuarterLines(r.y, r.height);
  }

  /** The drawn grid covers the middle half of the canvas, but a click is spread over the
      whole canvas: clicking the grid's top-left corner gives (0.375, 0.375), not the
      area's min (0.25, 0.25). The rectangle is drawn in buffer pixels; it is taken here in
      on-screen pixels, which is the same point on screen, since its corner is the 0.25
      fraction of either size. */
  lemma GridCornerClick(canvas: CanvasElement, area: Area)
    requires Displayed(canvas)
    ensures var b := AreaBounds(GetUVAreas(), area);
      var g := PlacementRect(canvas.rect.width, canvas.rect.height, b);
      ClickToUV(canvas.rect.left + g.x, canvas.rect.top + g.y, canvas, b) == Vec2(0.375, 0.375)
  {
    var w, h := canvas.rect.width, canvas.rect.height;
    MulDivCancel(0.25, w);
    MulDivCancel(0.25, h);
    assert canvas.rect.left + w * 0.25 - canvas.rect.left == 0.25 * w;
    assert canvas.rect.top + h * 0.25 - canvas.rect.top == 0.25 * h;
  }

  /**
   * The loading effect: each picture's `onload` bumps a counter, and the first draw of
   * both panels happens when it reaches 2. `draws` records the panels drawn.
   */
  class PreviewLoader {
    var loadedCount: nat
    var imagesLoaded: bool
    var draws: seq<Area>

    /** The component counts as loaded exactly once both pictures have arrived, and by
        then both panels have been drawn once, front first. */
    ghost predicate Valid()
      reads this
    {
      && (imagesLoaded <==> loadedCount >= 2)
      && draws == (if loadedCount >= 2 then [Front, Back] else [])
    }

    constructor ()
      ensures Valid()
      ensures loadedCount == 0 && !imagesLoaded && draws == []
    {
      loadedCount := 0;
      imagesLoaded := false;
      draws := [];
    }

    /** `checkAllLoaded`. */
    method ImageLoaded()
      requires Valid()
      modifies this
      ensures Valid()
      ensures loadedCount == old(loadedCount) + 1
      ensures imagesLoaded == (old(imagesLoaded) || loadedCount == 2)
      ensures draws == old(draws) + (if loadedCount == 2 then [Front, Back] else [])
    {
      loadedCount := loadedCount + 1;
      if loadedCount == 2 {
        imagesLoaded := true;
        draws := draws + [Front, Back];
      }
    }
  }

  /** Both pictures loading, one after the other: nothing is drawn after the first, both
      panels after the second. */
  method BothPicturesLoad() returns (afterFirst: seq<Area>, afterSecond: seq<Area>, ready: bool)
    ensures afterFirst == [] && afterSecond == [Front, Back] && ready
  {
    var loader := new PreviewLoader();
    loader.ImageLoaded();
    afterFirst := loader.draws;
    loader.ImageLoaded();
    afterSecond := loader.draws;
    ready := loader.imagesLoaded;
  }
}
