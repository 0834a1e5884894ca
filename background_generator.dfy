/** The city skyline behind the level: a row of buildings tiling the texture
    from its left edge, each painted as a filled rectangle with an outline,
    and a lattice of windows, each lit or dark by a random roll. Pixel
    colours are modelled as `Paint` labels; the sky gradient is `Sky`. */
module Background {
  import opened Options

  datatype Paint = Sky | Fill | Outline | WindowLight

  /** A building's footprint `Rect(x, 0, width, height)`: it stands on row 0. */
  datatype Building = Building(x: int, width: int, height: int)

  /** The end column (exclusive) of a building. */
  function End(b: Building): int
  {
    b.x + b.width
  }

  /** Buildings side by side from column 0, each at least `minWidth` wide. */
  ghost predicate Contiguous(bs: seq<Building>, minWidth: int)
  {
    && (|bs| > 0 ==> bs[0].x == 0)
    && (forall i :: 0 <= i < |bs| - 1 ==> bs[i + 1].x == End(bs[i]))
    && (forall i :: 0 <= i < |bs| ==> minWidth <= bs[i].width)
  }

  /** The skyline `GenerateBuildings` promises: contiguous buildings from
      column 0, widths in `[minWidth, maxWidth)` (exactly `minWidth` when that
      range is empty), heights within the texture,
      each starting inside the texture, the last reaching its right edge, and
      at least one building exactly when the texture has a column. */
  ghost predicate Skyline(bs: seq<Building>, textureWidth: int, textureHeight: int, minWidth: int, maxWidth: int)
  {
    && Contiguous(bs, minWidth)
    && (|bs| > 0 <==> textureWidth > 0)
    && (|bs| > 0 ==> End(bs[|bs| - 1]) >= textureWidth)
    && (forall i :: 0 <= i < |bs| ==>
          && (bs[i].width < maxWidth || bs[i].width == minWidth)
          && 0 <= bs[i].height <= textureHeight
          && bs[i].x < textureWidth)
  }

  /** With positive widths, an earlier building ends where or before a later one starts. */
  lemma {:induction false} ContiguousOrdered(bs: seq<Building>, minWidth: int, i: int, j: int)
    requires Contiguous(bs, minWidth) && minWidth >= 1
    requires 0 <= i < j < |bs|
    ensures End(bs[i]) <= bs[j].x
    decreases j - i
  {
    if i + 1 < j {
      ContiguousOrdered(bs, minWidth, i + 1, j);
    }
  }

  /** Every building of a contiguous row starts at a non-negative column. */
  lemma ContiguousStartsAtZeroOrLater(bs: seq<Building>, minWidth: int, i: int)
    requires Contiguous(bs, minWidth) && minWidth >= 1 && 0 <= i < |bs|
    ensures bs[i].x >= 0
  {
    if i > 0 {
      ContiguousOrdered(bs, minWidth, 0, i);
    }
  }

  /** Every column of the texture belongs to exactly one building of a skyline. */
  lemma SkylineCoversOnce(bs: seq<Building>, textureWidth: int, textureHeight: int, minWidth: int, maxWidth: int, c: int)
    requires Skyline(bs, textureWidth, textureHeight, minWidth, maxWidth) && minWidth >= 1
    requires 0 <= c < textureWidth
    ensures exists i :: 0 <= i < |bs| && bs[i].x <= c < End(bs[i])
    ensures forall i, j :: 0 <= i < |bs| && 0 <= j < |bs| && bs[i].x <= c < End(bs[i]) && bs[j].x <= c < End(bs[j]) ==> i == j
  {
    var k := 0;
    while k + 1 < |bs| && bs[k + 1].x <= c
      invariant 0 <= k < |bs| && bs[k].x <= c
    {
      k := k + 1;
    }
    assert bs[k].x <= c < End(bs[k]);
    forall i, j | 0 <= i < |bs| && 0 <= j < |bs| && bs[i].x <= c < End(bs[i]) && bs[j].x <= c < End(bs[j])
      ensures i == j
    {
      if i < j {
        ContiguousOrdered(bs, minWidth, i, j);
      } else if j < i {
        ContiguousOrdered(bs, minWidth, j, i);
      }
    }
  }

  /** The body of a building: its columns, rows `0` to `height - 1`. */
  predicate FillCell(b: Building, x: int, y: int)
  {
    b.x <= x < End(b) && 0 <= y < b.height
  }

  /** The outline passes: `outlineWidth` columns from the left edge and from
      the right edge over the building's rows, and `outlineWidth` rows down
      from the top over its columns. */
  predicate OutlineCell(b: Building, outlineWidth: int, x: int, y: int)
  {
    LeftOutlineCell(b, outlineWidth, x, y) || RightOutlineCell(b, outlineWidth, x, y) || TopOutlineCell(b, outlineWidth, x, y)
  }

  predicate LeftOutlineCell(b: Building, outlineWidth: int, x: int, y: int)
  {
    0 <= y < b.height && b.x <= x < b.x + outlineWidth
  }

  predicate RightOutlineCell(b: Building, outlineWidth: int, x: int, y: int)
  {
    0 <= y < b.height && End(b) - outlineWidth <= x < End(b) && x >= 0
  }

  predicate TopOutlineCell(b: Building, outlineWidth: int, x: int, y: int)
  {
    b.x <= x < End(b) && b.height - outlineWidth <= y < b.height && y >= 0
  }

  /** What one building paints at a pixel, if anything: the outline passes run after the fill. */
  function BuildingPaint(b: Building, outlineWidth: int, x: int, y: int): Option<Paint>
  {
    if OutlineCell(b, outlineWidth, x, y) then Some(Outline)
    else if FillCell(b, x, y) then Some(Fill)
    else None
  }

  /** A pixel after the buildings `bs` were painted in order over `base`. */
  function Scene(bs: seq<Building>, outlineWidth: int, base: Paint, x: int, y: int): Paint
  {
    if |bs| == 0 then base
    else match BuildingPaint(bs[|bs| - 1], outlineWidth, x, y)
      case Some(p) => p
      case None => Scene(bs[..|bs| - 1], outlineWidth, base, x, y)
  }

  /** A building whose outline fits inside it paints only its own columns. */
  lemma PaintStaysInColumns(b: Building, outlineWidth: int, x: int, y: int)
    requires outlineWidth <= b.width && b.x >= 0
    requires x < b.x || End(b) <= x
    ensures BuildingPaint(b, outlineWidth, x, y) == None
  {
  }

  /** In a contiguous row whose outlines fit inside the narrowest building,
      each pixel shows only what its own building paints there: neighbours
      never paint over each other. */
  lemma {:induction false} SceneOfContiguous(bs: seq<Building>, minWidth: int, outlineWidth: int, base: Paint, i: int, x: int, y: int)
    requires Contiguous(bs, minWidth) && 1 <= minWidth && outlineWidth <= minWidth
    requires 0 <= i < |bs| && bs[i].x <= x < End(bs[i])
    ensures Scene(bs, outlineWidth, base, x, y) == match BuildingPaint(bs[i], outlineWidth, x, y)
                                                   case Some(p) => p
                                                   case None => base
    decreases |bs|
  {
    var n := |bs| - 1;
    var prefix := bs[..n];
    assert Contiguous(prefix, minWidth);
    if i < n {
      ContiguousOrdered(bs, minWidth, i, n);
      ContiguousStartsAtZeroOrLater(bs, minWidth, n);
      PaintStaysInColumns(bs[n], outlineWidth, x, y);
      SceneOfContiguous(prefix, minWidth, outlineWidth, base, i, x, y);
    } else if BuildingPaint(bs[n], outlineWidth, x, y) == None {
      SceneOfUntouched(prefix, minWidth, outlineWidth, base, x, y, bs[n].x);
    }
  }

  /** Buildings of a contiguous row that all end at or before column `from`
      leave the pixels at or right of `from` as they were. */
  lemma {:induction false} SceneOfUntouched(bs: seq<Building>, minWidth: int, outlineWidth: int, base: Paint, x: int, y: int, from: int)
    requires Contiguous(bs, minWidth) && 1 <= minWidth && outlineWidth <= minWidth
    requires |bs| > 0 ==> End(bs[|bs| - 1]) <= from
    requires from <= x
    ensures Scene(bs, outlineWidth, base, x, y) == base
    decreases |bs|
  {
    if |bs| > 0 {
      var n := |bs| - 1;
      var prefix := bs[..n];
      assert Contiguous(prefix, minWidth);
      ContiguousStartsAtZeroOrLater(bs, minWidth, n);
      PaintStaysInColumns(bs[n], outlineWidth, x, y);
      if n > 0 {
        SceneOfUntouched(prefix, minWidth, outlineWidth, base, x, y, bs[n - 1].x + bs[n - 1].width);
      } else {
        SceneOfUntouched(prefix, minWidth, outlineWidth, base, x, y, from);
      }
    }
  }

  /** What a skyline pixel ends up as: inside a building's columns, its left
      and right `outlineWidth` columns and its top `outlineWidth` rows are
      outline, the rest of its body is fill, and above its roof the
      background shows through. */
  lemma SkylineFramedByOutline(bs: seq<Building>, minWidth: int, outlineWidth: int, base: Paint, i: int, x: int, y: int)
    requires Contiguous(bs, minWidth) && 1 <= minWidth && 0 <= outlineWidth <= minWidth
    requires 0 <= i < |bs| && bs[i].x <= x < End(bs[i])
    ensures 0 <= y < bs[i].height && (x < bs[i].x + outlineWidth || End(bs[i]) - outlineWidth <= x || bs[i].height - outlineWidth <= y)
            ==> Scene(bs, outlineWidth, base, x, y) == Outline
    ensures bs[i].x + outlineWidth <= x < End(bs[i]) - outlineWidth && 0 <= y < bs[i].height - outlineWidth
            ==> Scene(bs, outlineWidth, base, x, y) == Fill
    ensures (y < 0 || bs[i].height <= y) ==> Scene(bs, outlineWidth, base, x, y) == base
  {
    ContiguousStartsAtZeroOrLater(bs, minWidth, i);
    SceneOfContiguous(bs, minWidth, outlineWidth, base, i, x, y);
  }

  /** The window lattice settings. */
  datatype WindowLayout = WindowLayout(
    width: int,
    height: int,
    spacingX: int,
    spacingY: int,
    marginTop: int,
    marginBottom: int,
    marginLeft: int,
    marginRight: int)

  /** The margin box of a building: windows start at or after `StartX`/`StartY`
      and end before `EndX`/`EndY`. */
  function StartX(b: Building, w: WindowLayout): int { b.x + w.marginLeft }
  function EndX(b: Building, w: WindowLayout): int { End(b) - w.marginRight }
  function StartY(b: Building, w: WindowLayout): int { w.marginBottom }
  function EndY(b: Building, w: WindowLayout): int { b.height - w.marginTop }

  /** The skip test: a margin box narrower or shorter than one window. */
  predicate Skipped(b: Building, w: WindowLayout)
  {
    EndX(b, w) - StartX(b, w) < w.width || EndY(b, w) - StartY(b, w) < w.height
  }

  /** `v` lies on the lattice through `start` with step `spacing`. */
  predicate OnLattice(start: int, spacing: int, v: int)
    requires spacing >= 1
  {
    v >= start && (v - start) % spacing == 0
  }

  /** A window origin the loops visit for building `b`, before the light roll. */
  predicate Slot(b: Building, w: WindowLayout, wx: int, wy: int)
    requires w.spacingX >= 1 && w.spacingY >= 1
  {
    && !Skipped(b, w)
    && OnLattice(StartX(b, w), w.spacingX, wx) && wx + w.width < EndX(b, w)
    && OnLattice(StartY(b, w), w.spacingY, wy) && wy + w.height < EndY(b, w)
  }

  /** The pixels of the window whose lower-left corner is `(wx, wy)`. */
  predicate WindowCell(w: WindowLayout, wx: int, wy: int, x: int, y: int)
  {
    wx <= x < wx + w.width && wy <= y < wy + w.height
  }

  /** The skip test is implied by the loop guards: any origin that fits in
      the margin box belongs to a building that is not skipped. */
  lemma SkipTestRedundant(b: Building, w: WindowLayout, wx: int, wy: int)
    requires w.spacingX >= 1 && w.spacingY >= 1
    requires OnLattice(StartX(b, w), w.spacingX, wx) && wx + w.width < EndX(b, w)
    requires OnLattice(StartY(b, w), w.spacingY, wy) && wy + w.height < EndY(b, w)
    ensures Slot(b, w, wx, wy)
  {
  }

  /** Every window of a slot lies strictly inside its building's margin box. */
  lemma WindowInsideBuilding(b: Building, w: WindowLayout, wx: int, wy: int, x: int, y: int)
    requires w.spacingX >= 1 && w.spacingY >= 1
    requires w.marginLeft >= 0 && w.marginRight >= 0 && w.marginBottom >= 0 && w.marginTop >= 0
    requires Slot(b, w, wx, wy) && WindowCell(w, wx, wy, x, y)
    ensures b.x <= x < End(b) && 0 <= y < b.height
  {
  }

  lemma MulMonotone(s: int, a: int, b: int)
    requires s >= 0 && a <= b
    ensures s * a <= s * b
  {
    assert s * b - s * a == s * (b - a);
  }

  /** One step along the lattice stays on it. */
  lemma LatticeStep(start: int, spacing: int, v: int)
    requires spacing >= 1 && OnLattice(start, spacing, v)
    ensures OnLattice(start, spacing, v + spacing)
  {
    var d := v - start;
    var q := d / spacing;
    assert d == spacing * q;
    var q2 := (d + spacing) / spacing;
    var r2 := (d + spacing) % spacing;
    assert d + spacing == spacing * q2 + r2;
    assert spacing * (q2 - q - 1) == r2 by {
      assert spacing * (q2 - q - 1) == spacing * q2 - spacing * q - spacing;
    }
    if q2 - q - 1 >= 1 {
      MulMonotone(spacing, 1, q2 - q - 1);
    } else if q2 - q - 1 < 0 {
      MulMonotone(spacing, q2 - q - 1, -1);
    }
  }

  /** Two lattice points in increasing order are at least one step apart. */
  lemma LatticeGap(start: int, spacing: int, u: int, v: int)
    requires spacing >= 1 && OnLattice(start, spacing, u) && OnLattice(start, spacing, v) && u < v
    ensures u + spacing <= v
  {
    var qu := (u - start) / spacing;
    var qv := (v - start) / spacing;
    assert u == start + spacing * qu;
    assert v == start + spacing * qv;
    if qv <= qu {
      MulMonotone(spacing, qv, qu);
    }
    MulMonotone(spacing, qu + 1, qv);
    assert spacing * (qu + 1) == spacing * qu + spacing;
  }

  /** Some window among the lit origins covers pixel `(x, y)`. */
  ghost predicate Lit(lit: set<(int, int)>, w: WindowLayout, x: int, y: int)
  {
    exists o :: o in lit && WindowCell(w, o.0, o.1, x, y)
  }

  lemma LitUnion(a: set<(int, int)>, b: set<(int, int)>, w: WindowLayout, x: int, y: int)
    ensures Lit(a + b, w, x, y) <==> Lit(a, w, x, y) || Lit(b, w, x, y)
  {
    if Lit(a + b, w, x, y) {
      var o :| o in a + b && WindowCell(w, o.0, o.1, x, y);
      assert o in a || o in b;
    }
  }

  /** A lit pixel always lies on the body of some building: windows never
      spill into the sky. */
  lemma WindowsOnBuildings(bs: seq<Building>, w: WindowLayout, lit: set<(int, int)>, x: int, y: int)
    requires w.spacingX >= 1 && w.spacingY >= 1
    requires w.marginLeft >= 0 && w.marginRight >= 0 && w.marginBottom >= 0 && w.marginTop >= 0
    requires forall o :: o in lit ==> exists i :: 0 <= i < |bs| && Slot(bs[i], w, o.0, o.1)
    requires Lit(lit, w, x, y)
    ensures exists i :: 0 <= i < |bs| && bs[i].x <= x < End(bs[i]) && 0 <= y < bs[i].height
  {
    var o :| o in lit && WindowCell(w, o.0, o.1, x, y);
    var i :| 0 <= i < |bs| && Slot(bs[i], w, o.0, o.1);
    WindowInsideBuilding(bs[i], w, o.0, o.1, x, y);
  }

  class BackgroundGenerator {
    var textureWidth: int
    var textureHeight: int
    var isNightTime: bool

    var minBuildingWidth: int
    var maxBuildingWidth: int
    var buildingOutlineWidth: int

    var drawWindows: bool
    var windowWidth: int
    var windowHeight: int
    var windowSpacingX: int
    var windowSpacingY: int
    var windowMarginTop: int
    var windowMarginBottom: int
    var windowMarginLeft: int
    var windowMarginRight: int
    var windowLightChanceNight: real
    var windowLightChanceDay: real

    var backgroundTexture: array2?<Paint>

    /** The serialized defaults. */
    constructor ()
      ensures textureWidth == 5760 && textureHeight == 1920 && isNightTime
      ensures minBuildingWidth == 80 && maxBuildingWidth == 170 && buildingOutlineWidth == 2
      ensures drawWindows && Windows() == WindowLayout(8, 12, 20, 30, 50, 50, 35, 35)
      ensures windowLightChanceNight == 0.4 && windowLightChanceDay == 1.0
      ensures backgroundTexture == null
    {
      textureWidth, textureHeight, isNightTime := 5760, 1920, true;
      minBuildingWidth, maxBuildingWidth, buildingOutlineWidth := 80, 170, 2;
      drawWindows := true;
      windowWidth, windowHeight, windowSpacingX, windowSpacingY := 8, 12, 20, 30;
      windowMarginTop, windowMarginBottom, windowMarginLeft, windowMarginRight := 50, 50, 35, 35;
      windowLightChanceNight, windowLightChanceDay := 0.4, 1.0;
      backgroundTexture := null;
    }

    function Windows(): WindowLayout
      reads this`windowWidth, this`windowHeight, this`windowSpacingX, this`windowSpacingY
      reads this`windowMarginTop, this`windowMarginBottom, this`windowMarginLeft, this`windowMarginRight
    {
      WindowLayout(windowWidth, windowHeight, windowSpacingX, windowSpacingY,
                   windowMarginTop, windowMarginBottom, windowMarginLeft, windowMarginRight)
    }

    /** The window settings the window loops rely on: a positive step (so the
        lattice loops end) and non-negative margins (so every pixel written
        has non-negative coordinates). */
    predicate WindowsConfigured()
      reads this`windowSpacingX, this`windowSpacingY
      reads this`windowMarginTop, this`windowMarginBottom, this`windowMarginLeft, this`windowMarginRight
    {
      && windowSpacingX >= 1 && windowSpacingY >= 1
      && windowMarginTop >= 0 && windowMarginBottom >= 0 && windowMarginLeft >= 0 && windowMarginRight >= 0
    }

    /** The chance that a window is lit: night or day. */
    function LightChance(): real
      reads this`isNightTime, this`windowLightChanceNight, this`windowLightChanceDay
    {
      if isNightTime then windowLightChanceNight else windowLightChanceDay
    }

    /** The texture exists and has the configured size. */
    predicate TextureReady()
      reads this`backgroundTexture, this`textureWidth, this`textureHeight
    {
      backgroundTexture != null
      && backgroundTexture.Length0 == textureWidth && backgroundTexture.Length1 == textureHeight
    }

    /** Buildings left to right until the texture's width is covered; each
        width is drawn in `[minBuildingWidth, maxBuildingWidth)`, or is
        `minBuildingWidth` when that range is empty, and each height within the texture's height (the noise-based height is an
        arbitrary choice here). */
    method GenerateBuildings() returns (buildings: seq<Building>)
      requires 1 <= minBuildingWidth && textureHeight >= 0
      ensures Skyline(buildings, textureWidth, textureHeight, minBuildingWidth, maxBuildingWidth)
    {
      buildings := [];
      var currentX := 0;
      while currentX < textureWidth
        invariant Contiguous(buildings, minBuildingWidth)
        invariant |buildings| == 0 ==> currentX == 0
        invariant |buildings| > 0 ==> End(buildings[|buildings| - 1]) == currentX
        invariant forall i :: 0 <= i < |buildings| ==>
          && (buildings[i].width < maxBuildingWidth || buildings[i].width == minBuildingWidth)
          && 0 <= buildings[i].height <= textureHeight
          && buildings[i].x < textureWidth
        decreases textureWidth - currentX
      {
        var width := minBuildingWidth;
        if minBuildingWidth < maxBuildingWidth {
          width :| minBuildingWidth <= width < maxBuildingWidth;
        }
        var height :| 0 <= height <= textureHeight;
        buildings := buildings + [Building(currentX, width, height)];
        currentX := currentX + width;
      }
    }

    /** The fill pass of one building, clipped to the texture. */
    method FillBuilding(b: Building)
      requires TextureReady() && b.x >= 0
      modifies backgroundTexture
      ensures forall x, y :: 0 <= x < textureWidth && 0 <= y < textureHeight ==>
        backgroundTexture[x, y] == if FillCell(b, x, y) then Fill else old(backgroundTexture[x, y])
    {
      var texture := backgroundTexture;
      var x := b.x;
      while x < b.x + b.width && x < textureWidth
        invariant b.x <= x
        invariant forall i, j :: 0 <= i < textureWidth && 0 <= j < textureHeight ==>
          texture[i, j] == if FillCell(b, i, j) && i < x then Fill else old(texture[i, j])
        decreases textureWidth - x
      {
        var y := 0;
        while y < b.height && y < textureHeight
          invariant 0 <= y
          invariant forall i, j :: 0 <= i < textureWidth && 0 <= j < textureHeight ==>
            texture[i, j] == if FillCell(b, i, j) && (i < x || (i == x && j < y)) then Fill else old(texture[i, j])
          decreases textureHeight - y
        {
          texture[x, y] := Fill;
          y := y + 1;
        }
        x := x + 1;
      }
    }

    /** The left outline pass: `buildingOutlineWidth` columns from the left edge. */
    method OutlineLeft(b: Building)
      requires TextureReady() && b.x >= 0
      modifies backgroundTexture
      ensures forall x, y :: 0 <= x < textureWidth && 0 <= y < textureHeight ==>
        backgroundTexture[x, y] == if LeftOutlineCell(b, buildingOutlineWidth, x, y) then Outline else old(backgroundTexture[x, y])
    {
      var texture := backgroundTexture;
      var y := 0;
      while y < b.height && y < textureHeight
        invariant 0 <= y
        invariant forall i, j :: 0 <= i < textureWidth && 0 <= j < textureHeight ==>
          texture[i, j] == if LeftOutlineCell(b, buildingOutlineWidth, i, j) && j < y then Outline else old(texture[i, j])
        decreases textureHeight - y
      {
        var w := 0;
        while w < buildingOutlineWidth
          invariant 0 <= w || buildingOutlineWidth <= 0
          invariant forall i, j :: 0 <= i < textureWidth && 0 <= j < textureHeight ==>
            texture[i, j] == if LeftOutlineCell(b, buildingOutlineWidth, i, j) && (j < y || (j == y && i < b.x + w))
                             then Outline else old(texture[i, j])
          decreases buildingOutlineWidth - w
        {
          var x := b.x + w;
          if x < textureWidth {
            texture[x, y] := Outline;
          }
          w := w + 1;
        }
        y := y + 1;
      }
    }

    /** The right outline pass: `buildingOutlineWidth` columns from the right edge. */
    method OutlineRight(b: Building)
      requires TextureReady()
      modifies backgroundTexture
      ensures forall x, y :: 0 <= x < textureWidth && 0 <= y < textureHeight ==>
        backgroundTexture[x, y] == if RightOutlineCell(b, buildingOutlineWidth, x, y) then Outline else old(backgroundTexture[x, y])
    {
      var texture := backgroundTexture;
      var y := 0;
      while y < b.height && y < textureHeight
        invariant 0 <= y
        invariant forall i, j :: 0 <= i < textureWidth && 0 <= j < textureHeight ==>
          texture[i, j] == if RightOutlineCell(b, buildingOutlineWidth, i, j) && j < y then Outline else old(texture[i, j])
        decreases textureHeight - y
      {
        var w := 0;
        while w < buildingOutlineWidth
          invariant 0 <= w || buildingOutlineWidth <= 0
          invariant forall i, j :: 0 <= i < textureWidth && 0 <= j < textureHeight ==>
            texture[i, j] == if RightOutlineCell(b, buildingOutlineWidth, i, j) && (j < y || (j == y && i > End(b) - 1 - w))
                             then Outline else old(texture[i, j])
          decreases buildingOutlineWidth - w
        {
          var x := End(b) - w - 1;
          if x >= 0 && x < textureWidth {
            texture[x, y] := Outline;
          }
          w := w + 1;
        }
        y := y + 1;
      }
    }

    /** The top outline pass: `buildingOutlineWidth` rows down from the roof. */
    method OutlineTop(b: Building)
      requires TextureReady() && b.x >= 0
      modifies backgroundTexture
      ensures forall x, y :: 0 <= x < textureWidth && 0 <= y < textureHeight ==>
        backgroundTexture[x, y] == if TopOutlineCell(b, buildingOutlineWidth, x, y) then Outline else old(backgroundTexture[x, y])
    {
      var texture := backgroundTexture;
      var x := b.x;
      while x < End(b) && x < textureWidth
        invariant b.x <= x
        invariant forall i, j :: 0 <= i < textureWidth && 0 <= j < textureHeight ==>
          texture[i, j] == if TopOutlineCell(b, buildingOutlineWidth, i, j) && i < x then Outline else old(texture[i, j])
        decreases textureWidth - x
      {
        var w := 0;
        while w < buildingOutlineWidth
          invariant 0 <= w || buildingOutlineWidth <= 0
          invariant forall i, j :: 0 <= i < textureWidth && 0 <= j < textureHeight ==>
            texture[i, j] == if TopOutlineCell(b, buildingOutlineWidth, i, j) && (i < x || (i == x && j > b.height - 1 - w))
                             then Outline else old(texture[i, j])
          decreases buildingOutlineWidth - w
        {
          var y := b.height - w - 1;
          if y >= 0 && y < textureHeight {
            texture[x, y] := Outline;
          }
          w := w + 1;
        }
        x := x + 1;
      }
    }

    /** One building: the fill pass, then the left, right and top outline passes. */
    method DrawBuilding(b: Building)
      requires TextureReady() && b.x >= 0
      modifies backgroundTexture
      ensures forall x, y :: 0 <= x < textureWidth && 0 <= y < textureHeight ==>
        backgroundTexture[x, y] == match BuildingPaint(b, buildingOutlineWidth, x, y)
                                   case Some(p) => p
                                   case None => old(backgroundTexture[x, y])
    {
      FillBuilding(b);
      OutlineLeft(b);
      OutlineRight(b);
      OutlineTop(b);
    }

    /** The buildings painted in order, later ones over earlier ones. */
    method DrawBuildings(buildings: seq<Building>)
      requires TextureReady()
      requires forall i :: 0 <= i < |buildings| ==> buildings[i].x >= 0
      modifies backgroundTexture
      ensures forall x, y :: 0 <= x < textureWidth && 0 <= y < textureHeight ==>
        backgroundTexture[x, y] == Scene(buildings, buildingOutlineWidth, old(backgroundTexture[x, y]), x, y)
    {
      var i := 0;
      while i < |buildings|
        invariant 0 <= i <= |buildings|
        invariant forall x, y :: 0 <= x < textureWidth && 0 <= y < textureHeight ==>
          backgroundTexture[x, y] == Scene(buildings[..i], buildingOutlineWidth, old(backgroundTexture[x, y]), x, y)
      {
        DrawBuilding(buildings[i]);
        assert buildings[..i + 1][..i] == buildings[..i];
        i := i + 1;
      }
      assert buildings[..i] == buildings;
    }

    /** One lit window, clipped at the texture's right and top edges. */
    method PaintWindow(wx: int, wy: int)
      requires TextureReady() && wx >= 0 && wy >= 0
      modifies backgroundTexture
      ensures forall x, y :: 0 <= x < textureWidth && 0 <= y < textureHeight ==>
        backgroundTexture[x, y] == if WindowCell(Windows(), wx, wy, x, y) then WindowLight else old(backgroundTexture[x, y])
    {
      var texture := backgroundTexture;
      var dx := 0;
      while dx < windowWidth
        invariant 0 <= dx || windowWidth <= 0
        invariant forall i, j :: 0 <= i < textureWidth && 0 <= j < textureHeight ==>
          texture[i, j] == if WindowCell(Windows(), wx, wy, i, j) && i < wx + dx then WindowLight else old(texture[i, j])
        decreases windowWidth - dx
      {
        var dy := 0;
        while dy < windowHeight
          invariant 0 <= dy || windowHeight <= 0
          invariant forall i, j :: 0 <= i < textureWidth && 0 <= j < textureHeight ==>
            texture[i, j] == if WindowCell(Windows(), wx, wy, i, j) && (i < wx + dx || (i == wx + dx && j < wy + dy))
                             then WindowLight else old(texture[i, j])
          decreases windowHeight - dy
        {
          var pixelX := wx + dx;
          var pixelY := wy + dy;
          if pixelX < textureWidth && pixelY < textureHeight {
            texture[pixelX, pixelY] := WindowLight;
          }
          dy := dy + 1;
        }
        dx := dx + 1;
      }
    }

    /** The windows of one building: every slot of the lattice in its margin
        box is visited and lit unless its roll exceeds `lightChance`. `lit`
        records the origins that were lit. */
    method DrawBuildingWindows(b: Building, lightChance: real) returns (ghost lit: set<(int, int)>)
      requires TextureReady() && WindowsConfigured() && b.x >= 0
      modifies backgroundTexture
      ensures forall o :: o in lit ==> Slot(b, Windows(), o.0, o.1)
      ensures lightChance >= 1.0 ==> forall u, v :: Slot(b, Windows(), u, v) ==> (u, v) in lit
      ensures forall x, y :: 0 <= x < textureWidth && 0 <= y < textureHeight ==>
        backgroundTexture[x, y] == if Lit(lit, Windows(), x, y) then WindowLight else old(backgroundTexture[x, y])
    {
      var w := Windows();
      lit := {};
      var startX := b.x + windowMarginLeft;
      var endX := b.x + b.width - windowMarginRight;
      var startY := windowMarginBottom;
      var endY := b.height - windowMarginTop;
      if endX - startX < windowWidth || endY - startY < windowHeight {
        assert forall u, v :: !Slot(b, w, u, v);
        return;
      }
      var wx := startX;
      while wx + windowWidth < endX
        invariant OnLattice(startX, windowSpacingX, wx)
        invariant forall o :: o in lit ==> Slot(b, w, o.0, o.1)
        invariant lightChance >= 1.0 ==> forall u, v :: Slot(b, w, u, v) && u < wx ==> (u, v) in lit
        invariant forall x, y :: 0 <= x < textureWidth && 0 <= y < textureHeight ==>
          backgroundTexture[x, y] == if Lit(lit, w, x, y) then WindowLight else old(backgroundTexture[x, y])
        decreases endX - windowWidth - wx + windowSpacingX
      {
        ghost var before := lit;
        ghost var column := DrawColumn(b, lightChance, wx);
        lit := lit + column;
        forall x, y | 0 <= x < textureWidth && 0 <= y < textureHeight
          ensures backgroundTexture[x, y] == if Lit(lit, w, x, y) then WindowLight else old(backgroundTexture[x, y])
        {
          LitUnion(before, column, w, x, y);
        }
        forall u, v | lightChance >= 1.0 && Slot(b, w, u, v) && u < wx + windowSpacingX
          ensures (u, v) in lit
        {
          if wx < u {
            LatticeGap(startX, windowSpacingX, wx, u);
          }
        }
        LatticeStep(startX, windowSpacingX, wx);
        wx := wx + windowSpacingX;
      }
    }

    /** One column of windows at `wx`, bottom to top; `column` records the
        origins lit in it. */
    method DrawColumn(b: Building, lightChance: real, wx: int) returns (ghost column: set<(int, int)>)
      requires TextureReady() && WindowsConfigured() && b.x >= 0
      requires !Skipped(b, Windows())
      requires OnLattice(StartX(b, Windows()), windowSpacingX, wx) && wx + windowWidth < EndX(b, Windows())
      modifies backgroundTexture
      ensures forall o :: o in column ==> o.0 == wx && Slot(b, Windows(), o.0, o.1)
      ensures lightChance >= 1.0 ==> forall v :: Slot(b, Windows(), wx, v) ==> (wx, v) in column
      ensures forall x, y :: 0 <= x < textureWidth && 0 <= y < textureHeight ==>
        backgroundTexture[x, y] == if Lit(column, Windows(), x, y) then WindowLight else old(backgroundTexture[x, y])
    {
      var w := Windows();
      column := {};
      var startY := windowMarginBottom;
      var endY := b.height - windowMarginTop;
      var wy := startY;
      while wy + windowHeight < endY
        invariant OnLattice(startY, windowSpacingY, wy)
        invariant forall o :: o in column ==> o.0 == wx && Slot(b, w, o.0, o.1)
        invariant lightChance >= 1.0 ==> forall v :: Slot(b, w, wx, v) && v < wy ==> (wx, v) in column
        invariant forall x, y :: 0 <= x < textureWidth && 0 <= y < textureHeight ==>
          backgroundTexture[x, y] == if Lit(column, w, x, y) then WindowLight else old(backgroundTexture[x, y])
        decreases endY - windowHeight - wy + windowSpacingY
      {
        var roll: real :| 0.0 <= roll <= 1.0;
        if roll <= lightChance {
          ghost var before := column;
          PaintWindow(wx, wy);
          column := column + {(wx, wy)};
          forall x, y | 0 <= x < textureWidth && 0 <= y < textureHeight
            ensures backgroundTexture[x, y] == if Lit(column, w, x, y) then WindowLight else old(backgroundTexture[x, y])
          {
            LitUnion(before, {(wx, wy)}, w, x, y);
          }
        }
        forall v | lightChance >= 1.0 && Slot(b, w, wx, v) && v < wy + windowSpacingY
          ensures (wx, v) in column
        {
          if wy < v {
            LatticeGap(startY, windowSpacingY, wy, v);
          }
        }
        LatticeStep(startY, windowSpacingY, wy);
        wy := wy + windowSpacingY;
      }
    }

    /** The windows of every building, with the night or day light chance. */
    method DrawWindows(buildings: seq<Building>) returns (ghost lit: set<(int, int)>)
      requires TextureReady() && WindowsConfigured()
      requires forall i :: 0 <= i < |buildings| ==> buildings[i].x >= 0
      modifies backgroundTexture
      ensures forall o :: o in lit ==> exists i :: 0 <= i < |buildings| && Slot(buildings[i], Windows(), o.0, o.1)
      ensures LightChance() >= 1.0 ==>
        forall i, u, v :: 0 <= i < |buildings| && Slot(buildings[i], Windows(), u, v) ==> (u, v) in lit
      ensures forall x, y :: 0 <= x < textureWidth && 0 <= y < textureHeight ==>
        backgroundTexture[x, y] == if Lit(lit, Windows(), x, y) then WindowLight else old(backgroundTexture[x, y])
    {
      var w := Windows();
      var lightChance := if isNightTime then windowLightChanceNight else windowLightChanceDay;
      lit := {};
      var i := 0;
      while i < |buildings|
        invariant 0 <= i <= |buildings|
        invariant forall o :: o in lit ==> exists k :: 0 <= k < i && Slot(buildings[k], w, o.0, o.1)
        invariant lightChance >= 1.0 ==>
          forall k, u, v :: 0 <= k < i && Slot(buildings[k], w, u, v) ==> (u, v) in lit
        invariant forall x, y :: 0 <= x < textureWidth && 0 <= y < textureHeight ==>
          backgroundTexture[x, y] == if Lit(lit, w, x, y) then WindowLight else old(backgroundTexture[x, y])
      {
        ghost var before := lit;
        ghost var own := DrawBuildingWindows(buildings[i], lightChance);
        lit := lit + own;
        forall x, y | 0 <= x < textureWidth && 0 <= y < textureHeight
          ensures backgroundTexture[x, y] == if Lit(lit, w, x, y) then WindowLight else old(backgroundTexture[x, y])
        {
          LitUnion(before, own, w, x, y);
        }
        i := i + 1;
      }
    }

    /** A fresh texture: the sky (a uniform `Sky` here), the buildings, and
        then, when enabled, the windows. */
    method GenerateBackground() returns (buildings: seq<Building>, ghost lit: set<(int, int)>)
      requires textureWidth >= 0 && textureHeight >= 0
      requires 1 <= minBuildingWidth
      requires drawWindows ==> WindowsConfigured()
      modifies this`backgroundTexture
      ensures TextureReady() && fresh(backgroundTexture)
      ensures Skyline(buildings, textureWidth, textureHeight, minBuildingWidth, maxBuildingWidth)
      ensures !drawWindows ==> lit == {}
      ensures forall o :: o in lit ==> exists i :: 0 <= i < |buildings| && Slot(buildings[i], Windows(), o.0, o.1)
      ensures drawWindows && LightChance() >= 1.0 ==>
        forall i, u, v :: 0 <= i < |buildings| && Slot(buildings[i], Windows(), u, v) ==> (u, v) in lit
      ensures forall x, y :: 0 <= x < textureWidth && 0 <= y < textureHeight ==>
        backgroundTexture[x, y] == if Lit(lit, Windows(), x, y) then WindowLight
                                   else Scene(buildings, buildingOutlineWidth, Sky, x, y)
    {
      backgroundTexture := new Paint[textureWidth, textureHeight]((_, _) => Sky);
      buildings := GenerateBuildings();
      assert forall i :: 0 <= i < |buildings| ==> buildings[i].x >= 0 by {
        forall i | 0 <= i < |buildings| ensures buildings[i].x >= 0 {
          ContiguousStartsAtZeroOrLater(buildings, minBuildingWidth, i);
        }
      }
      DrawBuildings(buildings);
      if drawWindows {
        lit := DrawWindows(buildings);
      } else {
        lit := {};
      }
    }
  }
}
