/** The vocabulary of a procedurally generated pixel-art skater: the body,
    hair, clothes, skin and eye variants, and the record that gathers one
    character's choices. Colours are modelled as labels naming where each
    colour comes from, not as RGB values. */
module CharacterGrammar {

  datatype BodyType = Slim | Normal | Big
  datatype HairType = Short | Long | Fringe | Bald
  datatype UpperClothesType = Shirt | LongSleeve | Straps
  datatype LowerClothesType = Pants | Shorts | Skirt
  datatype SkinPalette = Palette1 | Palette2 | Palette3
  datatype EyeColor = Green | Blue | Brown

  /** The colours a character tile can take. `Shade(c)` is `c` darkened by
      the shadow factor; the hair and secondary clothes colours are indexed
      by the entry of their palette table. */
  datatype Colour =
    | SkinTone(palette: SkinPalette)
    | HairShade(hairIndex: nat)
    | MainCloth
    | SecondaryCloth(secondaryIndex: nat)
    | Iris(eye: EyeColor)
    | MouthTone
    | DeckTone
    | LegTone
    | Shade(base: Colour)

  /** One character's choices, as the generator records them. */
  datatype CharacterSpec = CharacterSpec(
    skinPalette: SkinPalette,
    bodyType: BodyType,
    hairType: HairType,
    upperClothesType: UpperClothesType,
    lowerClothesType: LowerClothesType,
    eyeColor: EyeColor,
    skinColor: Colour,
    hairColor: Colour,
    clothesMainColor: Colour,
    clothesSecondaryColor: Colour)

  /** Declaration positions of the three-variant enums. */
  function BodyOrdinal(b: BodyType): int
  {
    match b
    case Slim => 0
    case Normal => 1
    case Big => 2
  }

  function UpperOrdinal(u: UpperClothesType): int
  {
    match u
    case Shirt => 0
    case LongSleeve => 1
    case Straps => 2
  }

  function LowerOrdinal(l: LowerClothesType): int
  {
    match l
    case Pants => 0
    case Shorts => 1
    case Skirt => 2
  }

  function PaletteOrdinal(p: SkinPalette): int
  {
    match p
    case Palette1 => 0
    case Palette2 => 1
    case Palette3 => 2
  }

  function EyeOrdinal(e: EyeColor): int
  {
    match e
    case Green => 0
    case Blue => 1
    case Brown => 2
  }

  /** The enum casts `(BodyType)i` and friends for a draw `i` in `[0, 3)`:
      the variant declared at position `i`. */
  function BodyTypeOf(i: int): (b: BodyType)
    requires 0 <= i < 3
    ensures BodyOrdinal(b) == i
  {
    if i == 0 then Slim else if i == 1 then Normal else Big
  }

  function UpperClothesOf(i: int): (u: UpperClothesType)
    requires 0 <= i < 3
    ensures UpperOrdinal(u) == i
  {
    if i == 0 then Shirt else if i == 1 then LongSleeve else Straps
  }

  function LowerClothesOf(i: int): (l: LowerClothesType)
    requires 0 <= i < 3
    ensures LowerOrdinal(l) == i
  {
    if i == 0 then Pants else if i == 1 then Shorts else Skirt
  }

  function SkinPaletteOf(i: int): (p: SkinPalette)
    requires 0 <= i < 3
    ensures PaletteOrdinal(p) == i
  {
    if i == 0 then Palette1 else if i == 1 then Palette2 else Palette3
  }

  function EyeColorOf(i: int): (e: EyeColor)
    requires 0 <= i < 3
    ensures EyeOrdinal(e) == i
  {
    if i == 0 then Green else if i == 1 then Blue else Brown
  }

  /** Every variant is reached by exactly one draw: the casts invert the ordinals. */
  lemma CastsInvertOrdinals(b: BodyType, u: UpperClothesType, l: LowerClothesType, p: SkinPalette, e: EyeColor)
    ensures 0 <= BodyOrdinal(b) < 3 && BodyTypeOf(BodyOrdinal(b)) == b
    ensures 0 <= UpperOrdinal(u) < 3 && UpperClothesOf(UpperOrdinal(u)) == u
    ensures 0 <= LowerOrdinal(l) < 3 && LowerClothesOf(LowerOrdinal(l)) == l
    ensures 0 <= PaletteOrdinal(p) < 3 && SkinPaletteOf(PaletteOrdinal(p)) == p
    ensures 0 <= EyeOrdinal(e) < 3 && EyeColorOf(EyeOrdinal(e)) == e
  {
  }

  /** The colours of a spec agree with its palette and tables: the skin colour
      is the palette's, the hair colour one of the four hair entries, the
      secondary colour one of the three secondary entries. */
  ghost predicate WellFormed(spec: CharacterSpec)
  {
    && spec.skinColor == SkinTone(spec.skinPalette)
    && spec.hairColor.HairShade? && spec.hairColor.hairIndex < 4
    && spec.clothesMainColor == MainCloth
    && spec.clothesSecondaryColor.SecondaryCloth? && spec.clothesSecondaryColor.secondaryIndex < 3
  }
}
