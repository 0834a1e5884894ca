/** The pixel-art skater: a layout of head, body, waist and legs on a
    `width` x `height` grid, a spec drawn from the grammar, drawing routines
    that paint the grid layer by layer, and one tile per painted cell, with
    the columns mirrored. */
module Character {
  import opened Options
  import opened CharacterGrammar

  const HeadWidth: int := 8
  const HeadHeight: int := 7
  /** Row of the head's lowest line; rows grow upwards. */
  const HeadStartY: int := 14

  /** C#'s integer division, which truncates toward zero (Dafny's `/` is Euclidean). */
  function CsDiv(a: int, b: int): int
    requires b > 0
  {
    if a >= 0 then a / b else -((-a) / b)
  }

  function Max(a: int, b: int): int
  {
    if a >= b then a else b
  }

  /** The rows and columns `InitLayout` fixes. */
  datatype Layout = Layout(
    headStartX: int,
    headStartY: int,
    headEndY: int,
    bodyStartY: int,
    bodyEndY: int,
    waistY: int)

  /** The layout for a grid `width` columns wide: a centred head `HeadHeight`
      rows tall, a two-row neck below it, the body overlapping the head's
      bottom row, and the waist right below the body. */
  function LayoutFor(width: int): (l: Layout)
    ensures l.headEndY - l.headStartY + 1 == HeadHeight
    ensures -1 <= (width - (l.headStartX + HeadWidth)) - l.headStartX <= 1
    ensures l.bodyEndY == l.headStartY
    ensures l.bodyStartY < l.headStartY - 2 && l.bodyEndY - l.bodyStartY == 4
    ensures l.waistY == l.bodyStartY - 1 && l.waistY == 9
  {
    var headStartY := HeadStartY;
    var neckBottomY := headStartY - 2;
    var bodyStartY := neckBottomY - 2;
    Layout(CsDiv(width - HeadWidth, 2), headStartY, headStartY + HeadHeight - 1,
           bodyStartY, bodyStartY + 4, bodyStartY - 1)
  }

  /** Body geometry. */
  function BaseWidth(body: BodyType): int
  {
    match body
    case Slim => 6
    case Normal => 8
    case Big => 10
  }

  function BodyWidth(body: BodyType): int
  {
    Max(BaseWidth(body), HeadWidth)
  }

  function BodyStartX(body: BodyType, l: Layout): int
  {
    l.headStartX + CsDiv(HeadWidth - BodyWidth(body), 2)
  }

  /** The hands hang at the body's outermost columns. */
  function LeftHand(body: BodyType, l: Layout): int
  {
    BodyStartX(body, l)
  }

  function RightHand(body: BodyType, l: Layout): int
  {
    BodyStartX(body, l) + BodyWidth(body) - 1
  }

  /** Half the width of the lower clothes, around the centre column. */
  function HalfWidth(body: BodyType): int
  {
    match body
    case Slim => 2
    case Normal => 3
    case Big => 4
  }

  /** Lowest row the lower clothes may reach: four rows below the waist, clamped at 0. */
  function BottomY(waistY: int): int
  {
    Max(waistY - 4, 0)
  }

  /** Lowest row of the lower clothes in the centre column. */
  function LegsBottom(lower: LowerClothesType, waistY: int): (r: int)
    ensures r >= 0
    ensures waistY >= 0 ==> waistY - 4 <= r <= waistY
    ensures lower == Shorts && waistY >= 2 ==> r == waistY - 2
  {
    if lower == Shorts then Max(BottomY(waistY), waistY - 2) else BottomY(waistY)
  }

  function EyeRow(l: Layout): int
  {
    l.headStartY + HeadHeight / 2 + 1
  }

  // The cells each drawing routine paints, before clipping to the grid.

  /** The head rectangle without its two top corners. */
  predicate HeadCell(l: Layout, x: int, y: int)
  {
    && l.headStartX <= x < l.headStartX + HeadWidth
    && l.headStartY <= y <= l.headEndY
    && !(y == l.headEndY && (x == l.headStartX || x == l.headStartX + HeadWidth - 1))
  }

  /** Three columns around the centre, on the two rows under the head. */
  predicate NeckCell(width: int, l: Layout, x: int, y: int)
  {
    width / 2 - 1 <= x <= width / 2 + 1 && l.headStartY - 2 <= y <= l.headStartY - 1
  }

  predicate HairCell(hair: HairType, l: Layout, x: int, y: int)
  {
    && l.headStartX <= x < l.headStartX + HeadWidth
    && l.headEndY - 1 <= y <= l.headEndY + 2
    && match hair
       case Short => y == l.headEndY || y == l.headEndY + 1
       case Long =>
         (l.headEndY <= y <= l.headEndY + 2)
         || ((x == l.headStartX || x == l.headStartX + HeadWidth - 1) && l.headEndY - 2 <= y <= l.headEndY)
       case Fringe => y == l.headEndY - 1 && l.headStartX + 1 < x < l.headStartX + HeadWidth - 2
       case Bald => false
  }

  predicate EyeCell(l: Layout, x: int, y: int)
  {
    y == EyeRow(l) && (x == l.headStartX + 2 || x == l.headStartX + HeadWidth - 3)
  }

  predicate MouthCell(width: int, l: Layout, x: int, y: int)
  {
    y == EyeRow(l) - 2 && width / 2 - 1 <= x <= width / 2
  }

  predicate UpperCell(body: BodyType, l: Layout, x: int, y: int)
  {
    && BodyStartX(body, l) <= x < BodyStartX(body, l) + BodyWidth(body)
    && l.bodyStartY <= y <= l.bodyEndY
  }

  /** One column inside each hand, from the body's first row to its second-to-last. */
  predicate ArmShadowCell(leftHand: int, rightHand: int, l: Layout, x: int, y: int)
  {
    (x == leftHand + 1 || x == rightHand - 1) && l.bodyStartY <= y <= l.bodyEndY - 1
  }

  predicate LowerCell(lower: LowerClothesType, body: BodyType, width: int, waistY: int, x: int, y: int)
  {
    var centerX := width / 2;
    var halfWidth := HalfWidth(body);
    var dist := if x >= centerX then x - centerX else centerX - x;
    && centerX - halfWidth <= x <= centerX + halfWidth
    && BottomY(waistY) <= y <= waistY
    && match lower
       case Pants => true
       case Shorts => !(y < waistY - 2)
       case Skirt => !(y < waistY - 1 && dist > halfWidth + (waistY - y))
  }

  /** The centre column from the legs' bottom row up to just below the waist. */
  predicate CentreShadowCell(width: int, legsBottom: int, waistY: int, x: int, y: int)
  {
    legsBottom >= 0 && x == width / 2 && legsBottom <= y <= waistY - 1
  }

  predicate HandCell(leftHand: int, rightHand: int, l: Layout, x: int, y: int)
  {
    y == l.bodyStartY - 1 && (x == leftHand || x == rightHand)
  }

  /** The nine-cell deck on the row right below the legs' bottom. */
  predicate DeckCell(width: int, legsBottom: int, x: int, y: int)
  {
    legsBottom >= 0 && y == legsBottom - 1 && width / 2 - 4 <= x <= width / 2 + 4
  }

  /** Two wheel legs, two rows tall, under the deck. */
  predicate LegCell(width: int, legsBottom: int, x: int, y: int)
  {
    legsBottom >= 0 && (x == width / 2 - 2 || x == width / 2 + 2) && legsBottom - 3 <= y <= legsBottom - 2
  }

  /** The cells of drawing pass `k` (1 to 9, in the order `DrawCharacter` runs them). */
  predicate StageCell(spec: CharacterSpec, width: int, k: nat, x: int, y: int)
  {
    var l := LayoutFor(width);
    var legsBottom := LegsBottom(spec.lowerClothesType, l.waistY);
    var left := LeftHand(spec.bodyType, l);
    var right := RightHand(spec.bodyType, l);
    if k == 1 then HeadCell(l, x, y) || NeckCell(width, l, x, y)
    else if k == 2 then HairCell(spec.hairType, l, x, y)
    else if k == 3 then EyeCell(l, x, y) || MouthCell(width, l, x, y)
    else if k == 4 then UpperCell(spec.bodyType, l, x, y)
    else if k == 5 then ArmShadowCell(left, right, l, x, y)
    else if k == 6 then LowerCell(spec.lowerClothesType, spec.bodyType, width, l.waistY, x, y)
    else if k == 7 then CentreShadowCell(width, legsBottom, l.waistY, x, y)
    else if k == 8 then HandCell(left, right, l, x, y)
    else if k == 9 then DeckCell(width, legsBottom, x, y) || LegCell(width, legsBottom, x, y)
    else false
  }

  /** The colour drawing pass `k` paints at a cell of its own. */
  function StageColour(spec: CharacterSpec, width: int, k: nat, x: int, y: int): Colour
  {
    var l := LayoutFor(width);
    var legsBottom := LegsBottom(spec.lowerClothesType, l.waistY);
    if k == 1 || k == 8 then spec.skinColor
    else if k == 2 then spec.hairColor
    else if k == 3 then (if MouthCell(width, l, x, y) then MouthTone else Iris(spec.eyeColor))
    else if k == 4 then spec.clothesMainColor
    else if k == 5 then Shade(spec.clothesMainColor)
    else if k == 6 then spec.clothesSecondaryColor
    else if k == 7 then Shade(spec.clothesSecondaryColor)
    else if LegCell(width, legsBottom, x, y) then LegTone
    else DeckTone
  }

  /** The grid after the first `k` drawing passes: a later pass paints over an earlier one. */
  function Stage(spec: CharacterSpec, width: int, k: nat, x: int, y: int): Option<Colour>
  {
    if k == 0 then None
    else if StageCell(spec, width, k, x, y) then Some(StageColour(spec, width, k, x, y))
    else Stage(spec, width, k - 1, x, y)
  }

  /** The finished character. */
  function Picture(spec: CharacterSpec, width: int, x: int, y: int): Option<Colour>
  {
    Stage(spec, width, 9, x, y)
  }

  /** In the centre column the lower clothes are exactly the rows from the
      legs' bottom up to the waist. */
  lemma LowerCentreColumn(lower: LowerClothesType, body: BodyType, width: int, waistY: int, y: int)
    ensures LowerCell(lower, body, width, waistY, width / 2, y) <==> LegsBottom(lower, waistY) <= y <= waistY
  {
  }

  /** The skirt's flare test never fires inside the clothes' column range, so a
      skirt paints exactly the cells of a pair of pants; shorts paint the same
      cells minus the rows more than two below the waist. */
  lemma SkirtAndShortsCells(body: BodyType, width: int, waistY: int, x: int, y: int)
    ensures LowerCell(Skirt, body, width, waistY, x, y) == LowerCell(Pants, body, width, waistY, x, y)
    ensures LowerCell(Shorts, body, width, waistY, x, y) <==> LowerCell(Pants, body, width, waistY, x, y) && y >= waistY - 2
  {
  }

  /** Two specs whose drawing passes agree on a cell up to pass `k` agree on the grid there. */
  lemma {:induction false} StagesAgree(a: CharacterSpec, b: CharacterSpec, width: int, k: nat, x: int, y: int)
    requires forall j: nat :: 1 <= j <= k ==> StageCell(a, width, j, x, y) == StageCell(b, width, j, x, y)
    requires forall j: nat :: 1 <= j <= k && StageCell(a, width, j, x, y) ==> StageColour(a, width, j, x, y) == StageColour(b, width, j, x, y)
    ensures Stage(a, width, k, x, y) == Stage(b, width, k, x, y)
  {
    if k > 0 {
      StagesAgree(a, b, width, k - 1, x, y);
    }
  }

  /** A character in a skirt is drawn exactly like the same character in pants. */
  lemma SkirtPictureIsPants(spec: CharacterSpec, width: int, x: int, y: int)
    ensures Picture(spec.(lowerClothesType := Skirt), width, x, y) == Picture(spec.(lowerClothesType := Pants), width, x, y)
  {
    var l := LayoutFor(width);
    SkirtAndShortsCells(spec.bodyType, width, l.waistY, x, y);
    StagesAgree(spec.(lowerClothesType := Skirt), spec.(lowerClothesType := Pants), width, 9, x, y);
  }

  /** The upper clothes type chosen by the grammar never changes the picture. */
  lemma UpperClothesTypeUnused(spec: CharacterSpec, u: UpperClothesType, width: int, x: int, y: int)
    ensures Picture(spec.(upperClothesType := u), width, x, y) == Picture(spec, width, x, y)
  {
    StagesAgree(spec.(upperClothesType := u), spec, width, 9, x, y);
  }

  /** The neck is always painted over by the shirt: every neck cell ends up in
      the main clothes colour. */
  lemma NeckHiddenByShirt(spec: CharacterSpec, width: int, x: int, y: int)
    requires width >= 0
    requires NeckCell(width, LayoutFor(width), x, y)
    ensures Picture(spec, width, x, y) == Some(spec.clothesMainColor)
  {
    var l := LayoutFor(width);
    assert UpperCell(spec.bodyType, l, x, y);
    assert !ArmShadowCell(LeftHand(spec.bodyType, l), RightHand(spec.bodyType, l), l, x, y);
    assert Stage(spec, width, 9, x, y) == Stage(spec, width, 8, x, y);
    assert Stage(spec, width, 8, x, y) == Stage(spec, width, 7, x, y);
    assert Stage(spec, width, 7, x, y) == Stage(spec, width, 6, x, y);
    assert Stage(spec, width, 6, x, y) == Stage(spec, width, 5, x, y);
    assert Stage(spec, width, 5, x, y) == Stage(spec, width, 4, x, y);
  }

  /** With the default 12 x 16 grid the head's top rows fall outside the grid:
      no hair, eye or mouth cell is inside it. */
  lemma DefaultGridHidesFace(hair: HairType, x: int, y: int)
    requires 0 <= x < 12 && 0 <= y < 16
    ensures !HairCell(hair, LayoutFor(12), x, y)
    ensures !EyeCell(LayoutFor(12), x, y) && !MouthCell(12, LayoutFor(12), x, y)
  {
  }

  /** A tile: the mirrored column, the row and the colour of one painted cell. */
  datatype Tile = Tile(column: int, row: int, colour: Colour)

  /** `CreateTile`'s column: cell column `x` seen in a mirror. */
  function Mirror(width: int, x: int): int
  {
    width - 1 - x
  }

  /** Mirroring maps the grid's columns onto themselves and undoes itself. */
  lemma MirrorInvolution(width: int, x: int)
    ensures Mirror(width, Mirror(width, x)) == x
    ensures 0 <= x < width <==> 0 <= Mirror(width, x) < width
  {
  }

  /** The tiles of column `x`, rows `0` to `rows - 1`, bottom to top. */
  function ColumnTiles(spec: CharacterSpec, width: int, x: int, rows: nat): seq<Tile>
  {
    if rows == 0 then []
    else ColumnTiles(spec, width, x, rows - 1)
         + match Picture(spec, width, x, rows - 1)
           case Some(c) => [Tile(Mirror(width, x), rows - 1, c)]
           case None => []
  }

  /** The tiles of columns `0` to `columns - 1`, column by column. */
  function Tiles(spec: CharacterSpec, width: int, height: nat, columns: nat): seq<Tile>
  {
    if columns == 0 then []
    else Tiles(spec, width, height, columns - 1) + ColumnTiles(spec, width, columns - 1, height)
  }

  lemma {:induction false} ColumnTilesSound(spec: CharacterSpec, width: int, x: int, rows: nat)
    ensures forall t :: t in ColumnTiles(spec, width, x, rows) ==>
      t.column == Mirror(width, x) && 0 <= t.row < rows && Picture(spec, width, x, t.row) == Some(t.colour)
  {
    if rows > 0 {
      ColumnTilesSound(spec, width, x, rows - 1);
    }
  }

  /** Every tile sits at the mirror image of a grid cell and carries that cell's colour. */
  lemma {:induction false} TilesSound(spec: CharacterSpec, width: int, height: nat, columns: nat)
    ensures forall t :: t in Tiles(spec, width, height, columns) ==>
      && 0 <= Mirror(width, t.column) < columns && 0 <= t.row < height
      && Picture(spec, width, Mirror(width, t.column), t.row) == Some(t.colour)
  {
    if columns > 0 {
      TilesSound(spec, width, height, columns - 1);
      ColumnTilesSound(spec, width, columns - 1, height);
      var prefix := Tiles(spec, width, height, columns - 1);
      var column := ColumnTiles(spec, width, columns - 1, height);
      forall t: Tile | t in prefix + column
        ensures 0 <= Mirror(width, t.column) < columns && 0 <= t.row < height
        ensures Picture(spec, width, Mirror(width, t.column), t.row) == Some(t.colour)
      {
        if t in column {
          MirrorInvolution(width, columns - 1);
        }
      }
    }
  }

  lemma {:induction false} ColumnTilesComplete(spec: CharacterSpec, width: int, x: int, rows: nat, y: int)
    requires 0 <= y < rows && Picture(spec, width, x, y).Some?
    ensures Tile(Mirror(width, x), y, Picture(spec, width, x, y).value) in ColumnTiles(spec, width, x, rows)
  {
    if y < rows - 1 {
      ColumnTilesComplete(spec, width, x, rows - 1, y);
    }
  }

  /** Every painted cell inside the grid has its tile. */
  lemma {:induction false} TilesComplete(spec: CharacterSpec, width: int, height: nat, columns: nat, x: int, y: int)
    requires 0 <= x < columns && 0 <= y < height && Picture(spec, width, x, y).Some?
    ensures Tile(Mirror(width, x), y, Picture(spec, width, x, y).value) in Tiles(spec, width, height, columns)
  {
    if x < columns - 1 {
      TilesComplete(spec, width, height, columns - 1, x, y);
    } else {
      ColumnTilesComplete(spec, width, x, height, y);
    }
  }

  lemma {:induction false} ColumnTilesDistinct(spec: CharacterSpec, width: int, x: int, rows: nat)
    ensures forall i, j :: 0 <= i < j < |ColumnTiles(spec, width, x, rows)| ==>
      ColumnTiles(spec, width, x, rows)[i].row < ColumnTiles(spec, width, x, rows)[j].row
  {
    if rows > 0 {
      ColumnTilesDistinct(spec, width, x, rows - 1);
      ColumnTilesSound(spec, width, x, rows - 1);
      var prefix := ColumnTiles(spec, width, x, rows - 1);
      assert forall i :: 0 <= i < |prefix| ==> prefix[i] in prefix;
    }
  }

  /** No two tiles share a position, so each cell yields at most one tile. */
  lemma {:induction false} TilesDistinct(spec: CharacterSpec, width: int, height: nat, columns: nat)
    ensures forall i, j :: 0 <= i < j < |Tiles(spec, width, height, columns)| ==>
      (Tiles(spec, width, height, columns)[i].column, Tiles(spec, width, height, columns)[i].row)
      != (Tiles(spec, width, height, columns)[j].column, Tiles(spec, width, height, columns)[j].row)
  {
    if columns > 0 {
      var prefix := Tiles(spec, width, height, columns - 1);
      var column := ColumnTiles(spec, width, columns - 1, height);
      TilesDistinct(spec, width, height, columns - 1);
      TilesSound(spec, width, height, columns - 1);
      ColumnTilesSound(spec, width, columns - 1, height);
      ColumnTilesDistinct(spec, width, columns - 1, height);
      var all := prefix + column;
      forall i, j | 0 <= i < j < |all|
        ensures (all[i].column, all[i].row) != (all[j].column, all[j].row)
      {
        if j >= |prefix| && i < |prefix| {
          assert all[i] in prefix;
          assert all[j] in column;
        } else if i >= |prefix| {
          assert all[i] == column[i - |prefix|] && all[j] == column[j - |prefix|];
        } else {
          assert all[i] == prefix[i] && all[j] == prefix[j];
        }
      }
    }
  }

  /** The spec built from the generator's random draws: `paletteDraw`,
      `bodyDraw`, `upperDraw`, `lowerDraw`, `eyeDraw` and `secondaryDraw` in
      `[0, 3)`, `hairColourDraw` in `[0, 4)` and the hair roll `r1` in `[0, 1]`.
      Hair is short below 0.6, long below 0.85 and a fringe otherwise, so no
      character is ever bald. */
  function GenerateSpec(paletteDraw: int, bodyDraw: int, r1: real, hairColourDraw: int,
                        upperDraw: int, lowerDraw: int, eyeDraw: int, secondaryDraw: int): (spec: CharacterSpec)
    requires 0 <= paletteDraw < 3 && 0 <= bodyDraw < 3 && 0 <= upperDraw < 3
    requires 0 <= lowerDraw < 3 && 0 <= eyeDraw < 3 && 0 <= secondaryDraw < 3
    requires 0 <= hairColourDraw < 4 && 0.0 <= r1 <= 1.0
    ensures WellFormed(spec)
    ensures PaletteOrdinal(spec.skinPalette) == paletteDraw && BodyOrdinal(spec.bodyType) == bodyDraw
    ensures UpperOrdinal(spec.upperClothesType) == upperDraw && LowerOrdinal(spec.lowerClothesType) == lowerDraw
    ensures EyeOrdinal(spec.eyeColor) == eyeDraw
    ensures spec.hairColor == HairShade(hairColourDraw) && spec.clothesSecondaryColor == SecondaryCloth(secondaryDraw)
    ensures spec.hairType != Bald
    ensures spec.hairType == Short <==> r1 < 0.6
    ensures spec.hairType == Long <==> 0.6 <= r1 < 0.85
    ensures spec.hairType == Fringe <==> 0.85 <= r1
  {
    var palette := SkinPaletteOf(paletteDraw);
    var hair := if r1 < 0.6 then Short else if r1 < 0.85 then Long else Fringe;
    CharacterSpec(
      palette,
      BodyTypeOf(bodyDraw),
      hair,
      UpperClothesOf(upperDraw),
      LowerClothesOf(lowerDraw),
      EyeColorOf(eyeDraw),
      SkinTone(palette),
      HairShade(hairColourDraw),
      MainCloth,
      SecondaryCloth(secondaryDraw))
  }

  /** The passes before the lower clothes never use the secondary colour. */
  lemma {:induction false} EarlyStagesLackSecondary(spec: CharacterSpec, width: int, k: nat, x: int, y: int)
    requires WellFormed(spec) && k <= 5
    ensures Stage(spec, width, k, x, y) != Some(spec.clothesSecondaryColor)
  {
    if k > 0 {
      EarlyStagesLackSecondary(spec, width, k - 1, x, y);
    }
  }

  class CharacterGenerator {
    var width: int
    var height: int

    var headStartX: int
    var headStartY: int
    var headEndY: int
    var bodyStartY: int
    var bodyEndY: int
    var waistY: int
    var legsBottomY: int
    var leftHandCenterX: int
    var rightHandCenterX: int

    /** The layout fields as one value. */
    function CurrentLayout(): Layout
      reads this`headStartX, this`headStartY, this`headEndY
      reads this`bodyStartY, this`bodyEndY, this`waistY
    {
      Layout(headStartX, headStartY, headEndY, bodyStartY, bodyEndY, waistY)
    }

    /** The field initialisers: a 12 x 16 grid. */
    constructor ()
      ensures width == 12 && height == 16
    {
      width, height := 12, 16;
    }

    method InitLayout()
      modifies this`headStartX, this`headStartY, this`headEndY
      modifies this`bodyStartY, this`bodyEndY, this`waistY
      ensures CurrentLayout() == LayoutFor(width)
    {
      headStartX := CsDiv(width - HeadWidth, 2);
      headStartY := HeadStartY;
      headEndY := headStartY + HeadHeight - 1;
      var neckBottomY := headStartY - 2;
      bodyStartY := neckBottomY - 2;
      bodyEndY := bodyStartY + 4;
      waistY := bodyStartY - 1;
    }

    /** Some row of the centre column inside the grid holds the secondary
        colour once the lower clothes are painted. */
    ghost predicate ScanStopsAt(grid: array2<Option<Colour>>, spec: CharacterSpec)
      requires grid.Length0 == width && width >= 1
      reads this`width, this`height, this`waistY, grid
    {
      exists r :: BottomY(waistY) <= r <= waistY && 0 <= r < height && r < grid.Length1 &&
        (LowerCell(spec.lowerClothesType, spec.bodyType, width, waistY, width / 2, r)
         || grid[width / 2, r] == Some(spec.clothesSecondaryColor))
    }

    /** The bounds test every draw routine applies before writing a cell; the
        tile of an in-bounds cell lands in a mirrored column of the grid too. */
    predicate InBounds(x: int, y: int)
      reads this`width, this`height
      ensures InBounds(x, y) ==> 0 <= Mirror(width, x) < width
    {
      x >= 0 && x < width && y >= 0 && y < height
    }

    method DrawHeadAndNeck(grid: array2<Option<Colour>>, spec: CharacterSpec)
      requires grid.Length0 == width && grid.Length1 == height
      requires CurrentLayout() == LayoutFor(width)
      modifies grid
      ensures forall x, y :: 0 <= x < width && 0 <= y < height ==>
        grid[x, y] == if HeadCell(CurrentLayout(), x, y) || NeckCell(width, CurrentLayout(), x, y)
                      then Some(spec.skinColor) else old(grid[x, y])
    {
      for x := headStartX to headStartX + HeadWidth
        invariant forall i, j :: 0 <= i < width && 0 <= j < height ==>
          grid[i, j] == if HeadCell(CurrentLayout(), i, j) && i < x then Some(spec.skinColor) else old(grid[i, j])
      {
        for y := headStartY to headEndY + 1
          invariant forall i, j :: 0 <= i < width && 0 <= j < height ==>
            grid[i, j] == if HeadCell(CurrentLayout(), i, j) && (i < x || (i == x && j < y))
                          then Some(spec.skinColor) else old(grid[i, j])
        {
          var topCorner := y == headEndY && (x == headStartX || x == headStartX + HeadWidth - 1);
          if !topCorner && InBounds(x, y) {
            grid[x, y] := Some(spec.skinColor);
          }
        }
      }

      var neckWidth := 2;
      var neckCenterX := width / 2;
      var neckFirstY := headStartY - 1;
      for i := 0 to 2
        invariant forall a, b :: 0 <= a < width && 0 <= b < height ==>
          grid[a, b] == if HeadCell(CurrentLayout(), a, b) || (NeckCell(width, CurrentLayout(), a, b) && b > neckFirstY - i)
                        then Some(spec.skinColor) else old(grid[a, b])
      {
        var ny := neckFirstY - i;
        for x := neckCenterX - neckWidth / 2 to neckCenterX + neckWidth / 2 + 1
          invariant forall a, b :: 0 <= a < width && 0 <= b < height ==>
            grid[a, b] == if HeadCell(CurrentLayout(), a, b)
                             || (NeckCell(width, CurrentLayout(), a, b) && (b > ny || (b == ny && a < x)))
                          then Some(spec.skinColor) else old(grid[a, b])
        {
          if InBounds(x, ny) {
            grid[x, ny] := Some(spec.skinColor);
          }
        }
      }
    }

    method DrawHair(grid: array2<Option<Colour>>, spec: CharacterSpec)
      requires grid.Length0 == width && grid.Length1 == height
      requires CurrentLayout() == LayoutFor(width)
      modifies grid
      ensures forall x, y :: 0 <= x < width && 0 <= y < height ==>
        grid[x, y] == if HairCell(spec.hairType, CurrentLayout(), x, y) then Some(spec.hairColor) else old(grid[x, y])
    {
      var topExtra := 2;
      for x := headStartX to headStartX + HeadWidth
        invariant forall i, j :: 0 <= i < width && 0 <= j < height ==>
          grid[i, j] == if HairCell(spec.hairType, CurrentLayout(), i, j) && i < x then Some(spec.hairColor) else old(grid[i, j])
      {
        for y := headEndY - 1 to headEndY + topExtra + 1
          invariant forall i, j :: 0 <= i < width && 0 <= j < height ==>
            grid[i, j] == if HairCell(spec.hairType, CurrentLayout(), i, j) && (i < x || (i == x && j < y))
                          then Some(spec.hairColor) else old(grid[i, j])
        {
          if InBounds(x, y) {
            var draw := false;
            match spec.hairType {
              case Short =>
                if y == headEndY || y == headEndY + 1 {
                  draw := true;
                }
              case Long =>
                if y >= headEndY && y <= headEndY + topExtra {
                  draw := true;
                } else if (x == headStartX || x == headStartX + HeadWidth - 1) && y >= headEndY - 2 && y <= headEndY {
                  draw := true;
                }
              case Fringe =>
                if y == headEndY - 1 && x > headStartX + 1 && x < headStartX + HeadWidth - 2 {
                  draw := true;
                }
              case Bald =>
            }
            if draw {
              grid[x, y] := Some(spec.hairColor);
            }
          }
        }
      }
    }

    /** Two eyes on the eye row and a two-cell mouth two rows below. */
    method DrawEyes(grid: array2<Option<Colour>>, spec: CharacterSpec)
      requires grid.Length0 == width && grid.Length1 == height
      requires CurrentLayout() == LayoutFor(width)
      modifies grid
      ensures forall x, y :: 0 <= x < width && 0 <= y < height ==>
        grid[x, y] == if MouthCell(width, CurrentLayout(), x, y) then Some(MouthTone)
                      else if EyeCell(CurrentLayout(), x, y) then Some(Iris(spec.eyeColor))
                      else old(grid[x, y])
    {
      var eyeY := headStartY + HeadHeight / 2 + 1;
      var leftEyeX := headStartX + 2;
      var rightEyeX := headStartX + HeadWidth - 3;
      var eyeColour := Iris(spec.eyeColor);
      if InBounds(leftEyeX, eyeY) {
        grid[leftEyeX, eyeY] := Some(eyeColour);
      }
      if InBounds(rightEyeX, eyeY) {
        grid[rightEyeX, eyeY] := Some(eyeColour);
      }

      var mouthY := eyeY - 2;
      var mouthCenterX := width / 2 - 1;
      for x := mouthCenterX to mouthCenterX + 2
        invariant forall i, j :: 0 <= i < width && 0 <= j < height ==>
          grid[i, j] == if MouthCell(width, CurrentLayout(), i, j) && i < x then Some(MouthTone)
                        else if EyeCell(CurrentLayout(), i, j) then Some(Iris(spec.eyeColor))
                        else old(grid[i, j])
      {
        if InBounds(x, mouthY) {
          grid[x, mouthY] := Some(MouthTone);
        }
      }
    }

    /** The torso, as wide as the body type or the head, whichever is wider;
        records the hand columns at its outer edges. */
    method DrawUpperClothes(grid: array2<Option<Colour>>, spec: CharacterSpec)
      requires grid.Length0 == width && grid.Length1 == height
      requires CurrentLayout() == LayoutFor(width)
      modifies grid, this`leftHandCenterX, this`rightHandCenterX
      ensures forall x, y :: 0 <= x < width && 0 <= y < height ==>
        grid[x, y] == if UpperCell(spec.bodyType, CurrentLayout(), x, y) then Some(spec.clothesMainColor) else old(grid[x, y])
      ensures leftHandCenterX == LeftHand(spec.bodyType, CurrentLayout())
      ensures rightHandCenterX == RightHand(spec.bodyType, CurrentLayout())
    {
      var baseWidth := match spec.bodyType
        case Slim => 6
        case Normal => 8
        case Big => 10;
      var bodyWidth := Max(baseWidth, HeadWidth);
      var bodyStartX := headStartX + CsDiv(HeadWidth - bodyWidth, 2);
      for x := bodyStartX to bodyStartX + bodyWidth
        invariant forall i, j :: 0 <= i < width && 0 <= j < height ==>
          grid[i, j] == if UpperCell(spec.bodyType, CurrentLayout(), i, j) && i < x then Some(spec.clothesMainColor) else old(grid[i, j])
      {
        for y := bodyStartY to bodyEndY + 1
          invariant forall i, j :: 0 <= i < width && 0 <= j < height ==>
            grid[i, j] == if UpperCell(spec.bodyType, CurrentLayout(), i, j) && (i < x || (i == x && j < y))
                          then Some(spec.clothesMainColor) else old(grid[i, j])
        {
          if InBounds(x, y) {
            grid[x, y] := Some(spec.clothesMainColor);
          }
        }
      }
      leftHandCenterX := bodyStartX;
      rightHandCenterX := bodyStartX + bodyWidth - 1;
    }

    /** A darker column just inside each hand column, along the body. */
    method DrawArmShadows(grid: array2<Option<Colour>>, spec: CharacterSpec)
      requires grid.Length0 == width && grid.Length1 == height
      requires CurrentLayout() == LayoutFor(width)
      modifies grid
      ensures forall x, y :: 0 <= x < width && 0 <= y < height ==>
        grid[x, y] == if ArmShadowCell(leftHandCenterX, rightHandCenterX, CurrentLayout(), x, y)
                      then Some(Shade(spec.clothesMainColor)) else old(grid[x, y])
    {
      var shadowColour := Shade(spec.clothesMainColor);
      var leftX := leftHandCenterX + 1;
      var rightX := rightHandCenterX - 1;
      for y := bodyStartY to bodyEndY
        invariant forall i, j :: 0 <= i < width && 0 <= j < height ==>
          grid[i, j] == if ArmShadowCell(leftHandCenterX, rightHandCenterX, CurrentLayout(), i, j) && j < y
                        then Some(shadowColour) else old(grid[i, j])
      {
        if InBounds(leftX, y) {
          grid[leftX, y] := Some(shadowColour);
        }
        if InBounds(rightX, y) {
          grid[rightX, y] := Some(shadowColour);
        }
      }
    }

    /** Trousers, shorts or a skirt around the centre column, from the waist
        down to `BottomY`; then the lowest row of the centre column holding the
        secondary colour becomes `legsBottomY` (or `BottomY` when there is
        none). The scan reads the grid without a bounds test, so it needs the
        centre column to exist and the scan to stop inside the grid: either
        the whole range fits, or some row inside the grid holds the secondary
        colour once the clothes are painted. */
    method DrawLowerClothes(grid: array2<Option<Colour>>, spec: CharacterSpec)
      requires grid.Length0 == width && grid.Length1 == height
      requires CurrentLayout() == LayoutFor(width)
      requires width >= 1
      requires height > waistY || ScanStopsAt(grid, spec)
      modifies grid, this`legsBottomY
      ensures forall x, y :: 0 <= x < width && 0 <= y < height ==>
        grid[x, y] == if LowerCell(spec.lowerClothesType, spec.bodyType, width, waistY, x, y)
                      then Some(spec.clothesSecondaryColor) else old(grid[x, y])
      ensures BottomY(waistY) <= legsBottomY <= waistY
      ensures forall y :: BottomY(waistY) <= y < legsBottomY ==> y < height && grid[width / 2, y] != Some(spec.clothesSecondaryColor)
      ensures || (legsBottomY < height && grid[width / 2, legsBottomY] == Some(spec.clothesSecondaryColor))
              || (legsBottomY == BottomY(waistY) && forall y :: BottomY(waistY) <= y <= waistY ==>
                    y < height && grid[width / 2, y] != Some(spec.clothesSecondaryColor))
      ensures (forall y :: BottomY(waistY) <= y <= waistY && y < height ==> old(grid[width / 2, y]) != Some(spec.clothesSecondaryColor))
              ==> legsBottomY == LegsBottom(spec.lowerClothesType, waistY)
    {
      PaintLowerClothes(grid, spec);
      var centerX := width / 2;
      var topY := waistY;
      var bottomY := waistY - 4;
      if bottomY < 0 {
        bottomY := 0;
      }
      var secondary := Some(spec.clothesSecondaryColor);

      assert height > topY || exists r :: bottomY <= r <= topY && r < height && grid[centerX, r] == secondary by {
        if height <= topY {
          var r :| BottomY(waistY) <= r <= waistY && 0 <= r < height && r < grid.Length1 &&
            (LowerCell(spec.lowerClothesType, spec.bodyType, width, waistY, width / 2, r)
             || old(grid[width / 2, r]) == secondary);
          assert grid[centerX, r] == secondary;
        }
      }

      legsBottomY := -1;
      var y := bottomY;
      while y <= topY
        invariant bottomY <= y <= topY + 1
        invariant forall j :: bottomY <= j < y ==> j < height && grid[centerX, j] != secondary
        invariant height > topY || exists r :: y <= r <= topY && r < height && grid[centerX, r] == secondary
      {
        if grid[centerX, y] == secondary {
          legsBottomY := y;
          break;
        }
        y := y + 1;
      }
      if legsBottomY == -1 {
        legsBottomY := bottomY;
      }

      if forall j :: bottomY <= j <= topY && j < height ==> old(grid[centerX, j]) != secondary {
        var legs := LegsBottom(spec.lowerClothesType, waistY);
        LowerCentreColumn(spec.lowerClothesType, spec.bodyType, width, waistY, legs);
        LowerCentreColumn(spec.lowerClothesType, spec.bodyType, width, waistY, legsBottomY);
      }
    }

    /** The painting loops of `DrawLowerClothes`: the lower-clothes cells of
        the clothes type, clipped to the grid, take the secondary colour. */
    method PaintLowerClothes(grid: array2<Option<Colour>>, spec: CharacterSpec)
      requires grid.Length0 == width && grid.Length1 == height
      requires CurrentLayout() == LayoutFor(width)
      modifies grid
      ensures forall x, y :: 0 <= x < width && 0 <= y < height ==>
        grid[x, y] == if LowerCell(spec.lowerClothesType, spec.bodyType, width, waistY, x, y)
                      then Some(spec.clothesSecondaryColor) else old(grid[x, y])
    {
      var centerX := width / 2;
      var topY := waistY;
      var bottomY := waistY - 4;
      if bottomY < 0 {
        bottomY := 0;
      }
      var halfWidth := match spec.bodyType
        case Slim => 2
        case Normal => 3
        case Big => 4;
      var secondary := Some(spec.clothesSecondaryColor);

      for x := centerX - halfWidth to centerX + halfWidth + 1
        invariant forall i, j :: 0 <= i < width && 0 <= j < height ==>
          grid[i, j] == if LowerCell(spec.lowerClothesType, spec.bodyType, width, waistY, i, j) && i < x
                        then secondary else old(grid[i, j])
      {
        for y := bottomY to topY + 1
          invariant forall i, j :: 0 <= i < width && 0 <= j < height ==>
            grid[i, j] == if LowerCell(spec.lowerClothesType, spec.bodyType, width, waistY, i, j) && (i < x || (i == x && j < y))
                          then secondary else old(grid[i, j])
        {
          if InBounds(x, y) {
            var draw := true;
            match spec.lowerClothesType {
              case Pants =>
                draw := true;
              case Shorts =>
                if y < topY - 2 {
                  draw := false;
                }
              case Skirt =>
                if y < topY - 1 {
                  var extra := topY - y;
                  var dist := if x >= centerX then x - centerX else centerX - x;
                  if dist > halfWidth + extra {
                    draw := false;
                  }
                }
            }
            if draw {
              grid[x, y] := secondary;
            }
          }
        }
      }
    }

    /** A darker centre column from the legs' bottom up to just below the waist. */
    method DrawCenterLowerShadow(grid: array2<Option<Colour>>, spec: CharacterSpec)
      requires grid.Length0 == width && grid.Length1 == height
      modifies grid
      ensures forall x, y :: 0 <= x < width && 0 <= y < height ==>
        grid[x, y] == if CentreShadowCell(width, legsBottomY, waistY, x, y)
                      then Some(Shade(spec.clothesSecondaryColor)) else old(grid[x, y])
    {
      var shadowColour := Shade(spec.clothesSecondaryColor);
      var centerX := width / 2;
      if legsBottomY < 0 {
        return;
      }
      var startY := legsBottomY;
      var endY := waistY - 1;
      var y := startY;
      while y <= endY
        invariant startY <= y
        invariant forall i, j :: 0 <= i < width && 0 <= j < height ==>
          grid[i, j] == if CentreShadowCell(width, legsBottomY, waistY, i, j) && j < y
                        then Some(shadowColour) else old(grid[i, j])
        decreases endY - y
      {
        if InBounds(centerX, y) {
          grid[centerX, y] := Some(shadowColour);
        }
        y := y + 1;
      }
    }

    /** One skin-coloured cell under each hand column, on the row below the
        body (each hand is one column wide and one row tall). */
    method DrawHands(grid: array2<Option<Colour>>, spec: CharacterSpec)
      requires grid.Length0 == width && grid.Length1 == height
      requires CurrentLayout() == LayoutFor(width)
      modifies grid
      ensures forall x, y :: 0 <= x < width && 0 <= y < height ==>
        grid[x, y] == if HandCell(leftHandCenterX, rightHandCenterX, CurrentLayout(), x, y)
                      then Some(spec.skinColor) else old(grid[x, y])
    {
      var handHeight := 1;
      var yStart := bodyStartY - handHeight;
      if InBounds(leftHandCenterX, yStart) {
        grid[leftHandCenterX, yStart] := Some(spec.skinColor);
      }
      if InBounds(rightHandCenterX, yStart) {
        grid[rightHandCenterX, yStart] := Some(spec.skinColor);
      }
    }

    /** A nine-cell deck right below the legs and two wheel legs under it. */
    method DrawSkate(grid: array2<Option<Colour>>)
      requires grid.Length0 == width && grid.Length1 == height
      modifies grid
      ensures forall x, y :: 0 <= x < width && 0 <= y < height ==>
        grid[x, y] == if LegCell(width, legsBottomY, x, y) then Some(LegTone)
                      else if DeckCell(width, legsBottomY, x, y) then Some(DeckTone)
                      else old(grid[x, y])
    {
      if legsBottomY < 0 {
        return;
      }
      var centerX := width / 2;
      var deckY := legsBottomY - 1;
      var deckHalfWidth := 4;
      for x := centerX - deckHalfWidth to centerX + deckHalfWidth + 1
        invariant forall i, j :: 0 <= i < width && 0 <= j < height ==>
          grid[i, j] == if DeckCell(width, legsBottomY, i, j) && i < x then Some(DeckTone) else old(grid[i, j])
      {
        if InBounds(x, deckY) {
          grid[x, deckY] := Some(DeckTone);
        }
      }

      var legHeight := 2;
      var legOffset := 2;
      var leftLegX := centerX - legOffset;
      var rightLegX := centerX + legOffset;
      for y := deckY downto deckY - legHeight
        invariant forall i, j :: 0 <= i < width && 0 <= j < height ==>
          grid[i, j] == if LegCell(width, legsBottomY, i, j) && j >= y then Some(LegTone)
                        else if DeckCell(width, legsBottomY, i, j) then Some(DeckTone)
                        else old(grid[i, j])
      {
        if InBounds(leftLegX, y) {
          grid[leftLegX, y] := Some(LegTone);
        }
        if InBounds(rightLegX, y) {
          grid[rightLegX, y] := Some(LegTone);
        }
      }
    }

    /** Runs the nine drawing passes on an empty grid, then emits the tiles. */
    method DrawCharacter(spec: CharacterSpec) returns (tiles: seq<Tile>)
      requires CurrentLayout() == LayoutFor(width) && WellFormed(spec)
      requires width >= 1 && height > LegsBottom(spec.lowerClothesType, waistY)
      modifies this`leftHandCenterX, this`rightHandCenterX, this`legsBottomY
      ensures tiles == Tiles(spec, width, height, width)
      ensures leftHandCenterX == LeftHand(spec.bodyType, CurrentLayout())
      ensures rightHandCenterX == RightHand(spec.bodyType, CurrentLayout())
      ensures legsBottomY == LegsBottom(spec.lowerClothesType, waistY)
    {
      var grid := new Option<Colour>[width, height]((_, _) => None);
      assert forall x, y :: 0 <= x < width && 0 <= y < height ==> grid[x, y] == Stage(spec, width, 0, x, y);
      DrawUpperBody(grid, spec);
      DrawLowerBody(grid, spec);
      tiles := CollectTiles(grid, spec);
    }

    /** The first five passes of `DrawCharacter`: head and neck, hair, eyes
        and mouth, upper clothes, arm shadows. */
    method DrawUpperBody(grid: array2<Option<Colour>>, spec: CharacterSpec)
      requires grid.Length0 == width && grid.Length1 == height
      requires CurrentLayout() == LayoutFor(width)
      requires forall x, y :: 0 <= x < width && 0 <= y < height ==> grid[x, y] == Stage(spec, width, 0, x, y)
      modifies grid, this`leftHandCenterX, this`rightHandCenterX
      ensures forall x, y :: 0 <= x < width && 0 <= y < height ==> grid[x, y] == Stage(spec, width, 5, x, y)
      ensures leftHandCenterX == LeftHand(spec.bodyType, CurrentLayout())
      ensures rightHandCenterX == RightHand(spec.bodyType, CurrentLayout())
    {
      DrawHeadAndNeck(grid, spec);
      assert forall x, y :: 0 <= x < width && 0 <= y < height ==> grid[x, y] == Stage(spec, width, 1, x, y);
      DrawHair(grid, spec);
      assert forall x, y :: 0 <= x < width && 0 <= y < height ==> grid[x, y] == Stage(spec, width, 2, x, y);
      DrawEyes(grid, spec);
      assert forall x, y :: 0 <= x < width && 0 <= y < height ==> grid[x, y] == Stage(spec, width, 3, x, y);
      DrawUpperClothes(grid, spec);
      assert forall x, y :: 0 <= x < width && 0 <= y < height ==> grid[x, y] == Stage(spec, width, 4, x, y);
      DrawArmShadows(grid, spec);
    }

    /** The last four passes of `DrawCharacter`: lower clothes (which fix
        `legsBottomY`), centre shadow, hands, skateboard. */
    method DrawLowerBody(grid: array2<Option<Colour>>, spec: CharacterSpec)
      requires grid.Length0 == width && grid.Length1 == height
      requires CurrentLayout() == LayoutFor(width) && WellFormed(spec)
      requires width >= 1 && height > LegsBottom(spec.lowerClothesType, waistY)
      requires leftHandCenterX == LeftHand(spec.bodyType, CurrentLayout())
      requires rightHandCenterX == RightHand(spec.bodyType, CurrentLayout())
      requires forall x, y :: 0 <= x < width && 0 <= y < height ==> grid[x, y] == Stage(spec, width, 5, x, y)
      modifies grid, this`legsBottomY
      ensures forall x, y :: 0 <= x < width && 0 <= y < height ==> grid[x, y] == Picture(spec, width, x, y)
      ensures legsBottomY == LegsBottom(spec.lowerClothesType, waistY)
    {
      var legs := LegsBottom(spec.lowerClothesType, waistY);
      assert ScanStopsAt(grid, spec) by {
        LowerCentreColumn(spec.lowerClothesType, spec.bodyType, width, waistY, legs);
      }
      forall y | BottomY(waistY) <= y <= waistY && y < height
        ensures grid[width / 2, y] != Some(spec.clothesSecondaryColor)
      {
        EarlyStagesLackSecondary(spec, width, 5, width / 2, y);
      }
      DrawLowerClothes(grid, spec);
      assert forall x, y :: 0 <= x < width && 0 <= y < height ==> grid[x, y] == Stage(spec, width, 6, x, y);
      DrawCenterLowerShadow(grid, spec);
      assert forall x, y :: 0 <= x < width && 0 <= y < height ==> grid[x, y] == Stage(spec, width, 7, x, y);
      DrawHands(grid, spec);
      assert forall x, y :: 0 <= x < width && 0 <= y < height ==> grid[x, y] == Stage(spec, width, 8, x, y);
      DrawSkate(grid);
    }

    /** One tile per painted cell, column by column and bottom to top within
        a column, each at the mirrored column. */
    method CollectTiles(grid: array2<Option<Colour>>, spec: CharacterSpec) returns (tiles: seq<Tile>)
      requires grid.Length0 == width && grid.Length1 == height
      requires forall x, y :: 0 <= x < width && 0 <= y < height ==> grid[x, y] == Picture(spec, width, x, y)
      ensures tiles == Tiles(spec, width, grid.Length1, grid.Length0)
    {
      tiles := [];
      for x := 0 to grid.Length0
        invariant tiles == Tiles(spec, width, grid.Length1, x)
      {
        for y := 0 to grid.Length1
          invariant tiles == Tiles(spec, width, grid.Length1, x) + ColumnTiles(spec, width, x, y)
        {
          if grid[x, y].Some? {
            tiles := tiles + [Tile(Mirror(width, x), y, grid[x, y].value)];
          }
        }
      }
    }

    /** A fresh layout, a spec from the given draws, and its tiles. */
    method GenerateNewCharacter(paletteDraw: int, bodyDraw: int, r1: real, hairColourDraw: int,
                                upperDraw: int, lowerDraw: int, eyeDraw: int, secondaryDraw: int)
      returns (spec: CharacterSpec, tiles: seq<Tile>)
      requires 0 <= paletteDraw < 3 && 0 <= bodyDraw < 3 && 0 <= upperDraw < 3
      requires 0 <= lowerDraw < 3 && 0 <= eyeDraw < 3 && 0 <= secondaryDraw < 3
      requires 0 <= hairColourDraw < 4 && 0.0 <= r1 <= 1.0
      requires width >= 1 && height > LegsBottom(LowerClothesOf(lowerDraw), LayoutFor(width).waistY)
      modifies this`headStartX, this`headStartY, this`headEndY
      modifies this`bodyStartY, this`bodyEndY, this`waistY
      modifies this`leftHandCenterX, this`rightHandCenterX, this`legsBottomY
      ensures spec == GenerateSpec(paletteDraw, bodyDraw, r1, hairColourDraw, upperDraw, lowerDraw, eyeDraw, secondaryDraw)
      ensures CurrentLayout() == LayoutFor(width)
      ensures tiles == Tiles(spec, width, height, width)
    {
      InitLayout();
      spec := GenerateSpec(paletteDraw, bodyDraw, r1, hairColourDraw, upperDraw, lowerDraw, eyeDraw, secondaryDraw);
      tiles := DrawCharacter(spec);
    }
  }
}
