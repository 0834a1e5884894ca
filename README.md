# Procedural skater game: music, character and skyline generators

This project models the procedural-generation core of a small 2D skateboarding game written for Unity in C#, and proves properties of it in Dafny. It covers three generators.

- **Music** (module `Markov`, `markov_chain.dfy`; module `ProceduralMusic`, `procedural_music.dfy`).
  - A first-order Markov chain over MIDI note numbers. `Train` appends each observed successor to a dictionary of lists. `Next` picks a successor at random, or repeats a note that has no entry. `Generate` walks the chain.
  - The music manager trains one melody chain and one bass chain on fixed patterns and generates a 200-note melody and a 100-note bass line.
  - On every beat, the manager switches the bass, drum and melody layers on at their start times. It plays the next melody note, the next bass note on even beats, and a kick or snare plus a hi-hat.
  - The random index is a `:|` choice. The engine clock is the parameter `now`. The audio clips are the `Sound` events a beat returns. The fade-ins are the `Layer` events `CheckLayerActivation` returns.
- **Character** (module `CharacterGrammar`, `character_grammar.dfy`; module `Character`, `character_generator.dfy`).
  - The enums and the `CharacterSpec` record.
  - The spec generator, with its random draws as parameters.
  - The pixel-grid painter `CharacterGenerator`, a class whose draw routines write an `array2<Option<Colour>>` in place. Each routine's new grid is stated cell by cell against a declarative picture (`StageCell`/`Stage`/`Picture`).
  - The mirrored tiles that `DrawCharacter` emits (`Tiles`).
  - Colours are labels that name their source (`SkinTone(palette)`, `HairShade(i)`, `MainCloth`, `SecondaryCloth(i)`, `Shade(c)`, ...), not RGB values.
- **Background** (module `Background`, `background_generator.dfy`).
  - The skyline generator: buildings laid left to right until the texture's width is covered.
  - Each building is filled, then outlined on the left, right and top. Lit windows are laid on a lattice inside each building's margin box.
  - The texture is an `array2<Paint>` written in place.

Proved, among other things:

- **Chain training.** Training appends exactly the observed followers of each note, in order (`TrainedPrefixContents`). Every adjacent pair of a training sequence becomes a recorded transition. Training never loses a key or an entry.
- **Chain walks.** A walk that follows the chain stays inside the set of notes it was trained on. So every generated melody note is in the C-major set {60, 62, 64, 65, 67, 69, 72} and every bass note in {48, 53, 55}. Each generated line is a walk of its trained chain (a 60 is never followed by another 60, for instance), and both facts are a scheduler invariant that each beat preserves.
- **Layers.** A layer never switches off. The fade-ins of a beat are exactly the layers that switch on then.
- **Character drawing.**
  - `DrawCharacter` emits exactly one tile per painted cell: sound, complete and without duplicates. Each tile sits in its mirrored column with the colour of the final picture.
  - The legs' bottom row found by the centre-column scan is `LegsBottom`.
  - The skirt draws exactly the pants cells, because its widening test can never fire inside the loop's columns (`SkirtPictureIsPants`).
  - The upper-clothes type is never used by the painter.
  - The neck is always covered by the shirt.
  - With the code's default 12×16 grid, no hair, eye or mouth cell falls inside the grid (the scene may configure a taller one).
- **Skyline.** The buildings are contiguous and cover every column exactly once. When the outline width is at most the minimum building width (2 and 80 by default), each pixel shows only what its own building paints: outline in the left, right and top bands, fill inside, and the background above the roof. A narrower building's left outline is clipped only at the texture's edge, so it would spill into its neighbour's columns. Lit windows always lie on a building. In daytime (light chance 1) every lattice slot is lit.

## Model

| member | source | states |
|---|---|---|
| Markov.TrainedPrefixContents | Assets/Music/MarkovChain.cs:8-20 | after training on the first n pairs, each note's list is its old list followed by exactly the notes that followed it in the sequence, in order |
| Markov.TrainedPrefixKeys | Assets/Music/MarkovChain.cs:12-16 | a note is a key after training iff it was a key before or it starts one of the recorded pairs |
| Markov.FollowersInHasPair | Assets/Music/MarkovChain.cs:10-18 | the successor of every recorded position is among the recorded followers of its note |
| Markov.TrainedRecordsEveryPair | Assets/Music/MarkovChain.cs:8-20 | after Train(s), every adjacent pair s[i], s[i+1] is a transition |
| Markov.TrainedOnlyAppends | Assets/Music/MarkovChain.cs:8-20 | training never removes a key, and each old list survives as a prefix of the new one |
| Markov.TrainedPrefixKeepsNonEmpty | Assets/Music/MarkovChain.cs:12-17 | training never leaves an empty successor list, so Next always has an index to draw |
| Markov.TrainedPrefixWithin | Assets/Music/MarkovChain.cs:8-20 | training on notes of a set keeps every successor list within that set |
| Markov.WalkStaysWithin | Assets/Music/MarkovChain.cs:22-42 | a walk whose steps follow the chain stays within a set that is closed under the chain's successors |
| Markov.MarkovChain.constructor | Assets/Music/MarkovChain.cs:5 | a new chain has an empty transition dictionary |
| Markov.MarkovChain.Train | Assets/Music/MarkovChain.cs:8-20 | the dictionary becomes Trained(old dictionary, sequence); sequences of length 0 or 1 change nothing |
| Markov.MarkovChain.Next | Assets/Music/MarkovChain.cs:22-29 | the result is one of the recorded successors, or the note itself when it has no entry |
| Markov.MarkovChain.Generate | Assets/Music/MarkovChain.cs:31-42 | a fresh array of the requested length starting at the start note, each element a Step from the previous one |
| ProceduralMusic.MelodyTransitionsWithinScale | Assets/Music/ProceduralMusicManager.cs:81-100 | the melody chain trained on the three patterns only ever leads to notes of the C-major set |
| ProceduralMusic.BassTransitionsWithinNotes | Assets/Music/ProceduralMusicManager.cs:102-104 | the bass chain only ever leads to 48, 53 or 55 |
| ProceduralMusic.GeneratedWithin | Assets/Music/ProceduralMusicManager.cs:53-54 | a generated sequence that starts in a closed note set stays in it throughout |
| ProceduralMusic.MelodyNoteLength | Assets/Music/ProceduralMusicManager.cs:159 | a melody note lasts 0.5 exactly when its cursor is a multiple of four, and 0.3 otherwise |
| ProceduralMusic.LongNotesKeepRhythm | Assets/Music/ProceduralMusicManager.cs:159-163 | the cursor wraps at 200, a multiple of four, so every fourth note stays long across the wrap |
| ProceduralMusic.DrumHits | Assets/Music/ProceduralMusicManager.cs:177-188 | a beat with drums has two hits: a kick on even beats or a snare on odd ones, then a hi-hat |
| ProceduralMusic.ProceduralMusicManager.constructor | Assets/Music/ProceduralMusicManager.cs:7-41 | the serialized defaults (140 bpm; bass, drums and melody at 5, 10 and 15 seconds); cursors and beat count zero; all layers off |
| ProceduralMusic.ProceduralMusicManager.TrainMarkovChains | Assets/Music/ProceduralMusicManager.cs:81-105 | two distinct fresh chains whose transitions are those of the melody patterns and of the bass pattern |
| ProceduralMusic.ProceduralMusicManager.Start | Assets/Music/ProceduralMusicManager.cs:43-58 | beat interval 60/bpm, start and first beat at now; fresh 200- and 100-note sequences starting at 60 and 48, each a walk of its chain (every consecutive pair a Step of MelodyTransitions or BassTransitions), whose notes all lie in their scales; two distinct fresh chains holding the melody and bass transitions |
| ProceduralMusic.ProceduralMusicManager.StartClock | Assets/Music/ProceduralMusicManager.cs:46-48 | beat interval 60/bpm, start time and next beat time equal to the clock reading |
| ProceduralMusic.ProceduralMusicManager.GenerateSequences | Assets/Music/ProceduralMusicManager.cs:53-54 | the generated melody and bass start at 60 and 48, are walks of the chains (each consecutive pair a Step), have lengths 200 and 100, and lie in their scales |
| ProceduralMusic.ProceduralMusicManager.GenerateMelody | Assets/Music/ProceduralMusicManager.cs:53 | a fresh 200-note melody line starting at 60, each consecutive pair a Step of the melody chain, every note in the C-major set |
| ProceduralMusic.ProceduralMusicManager.GenerateBass | Assets/Music/ProceduralMusicManager.cs:54 | a fresh 100-note bass line starting at 48, each consecutive pair a Step of the bass chain, every note among 48, 53 and 55 |
| ProceduralMusic.ProceduralMusicManager.CheckLayerActivation | Assets/Music/ProceduralMusicManager.cs:131-150 | each layer is on iff it was on or the elapsed time reached its start time; the fade-ins returned are exactly the layers switched on now, in bass, drums, melody order |
| ProceduralMusic.ProceduralMusicManager.PlayBeat | Assets/Music/ProceduralMusicManager.cs:152-189 | the sounds of the beat (melody note with 0.5 or 0.3 duration, bass note with 0.8 on even beats, drum hits); each cursor advances modulo its sequence length only when its voice plays; every note played is in its scale |
| ProceduralMusic.ProceduralMusicManager.PlayMelody | Assets/Music/ProceduralMusicManager.cs:154-164 | while the melody is active, the note under the cursor with its 0.5 or 0.3 duration, and the cursor advances modulo 200; otherwise nothing plays and nothing changes |
| ProceduralMusic.ProceduralMusicManager.PlayBass | Assets/Music/ProceduralMusicManager.cs:167-173 | on even beats while the bass is active, the note under the cursor with duration 0.8, and the cursor advances modulo 100; otherwise nothing plays and nothing changes |
| ProceduralMusic.ProceduralMusicManager.Beat | Assets/Music/ProceduralMusicManager.cs:116-129 | one beat keeps the invariant, advances the beat count by one and the next beat time by one interval; each layer is on iff it was on or now - start reached its start time, and the fade-ins are exactly the layers switched on; the sounds are the melody note, the bass note on even beats and the drum hits of the old beat count, and each cursor advances modulo its length only when its voice plays |
| CharacterGrammar.BodyTypeOf | Assets/Character/CharacterGenerator.cs:85 | the cast of a draw in [0, 3) is the body type declared at that position |
| CharacterGrammar.UpperClothesOf | Assets/Character/CharacterGenerator.cs:103 | the cast of a draw in [0, 3) is the upper-clothes type declared at that position |
| CharacterGrammar.LowerClothesOf | Assets/Character/CharacterGenerator.cs:105 | the cast of a draw in [0, 3) is the lower-clothes type declared at that position |
| CharacterGrammar.SkinPaletteOf | Assets/Character/CharacterGenerator.cs:70 | the cast of a draw in [0, 3) is the palette declared at that position |
| CharacterGrammar.EyeColorOf | Assets/Character/CharacterGenerator.cs:107 | the cast of a draw in [0, 3) is the eye colour declared at that position |
| CharacterGrammar.CastsInvertOrdinals | Assets/Character/CharacterGrammar.cs:3-44 | every variant of each three-valued enum is reached by exactly one draw |
| Character.LayoutFor | Assets/Character/CharacterGenerator.cs:30-42 | the head is 7 rows tall and horizontally centred to within one column; the body spans 5 rows (bodyStartY to bodyEndY inclusive), ends where the head starts and starts below the neck; the waist is row 9 |
| Character.LegsBottom | Assets/Character/CharacterGenerator.cs:318-374 | the legs' bottom row is never negative and lies between waist-4 and the waist; for shorts it is waist-2 |
| Character.LowerCentreColumn | Assets/Character/CharacterGenerator.cs:316-360 | the lower clothes cover the centre column exactly from LegsBottom up to the waist |
| Character.SkirtAndShortsCells | Assets/Character/CharacterGenerator.cs:336-355 | skirt cells are the pants cells; shorts cells are the pants cells from waist-2 up |
| Character.StagesAgree | Assets/Character/CharacterGenerator.cs:125-138 | two specs whose passes paint the same cells with the same colours produce the same grid |
| Character.SkirtPictureIsPants | Assets/Character/CharacterGenerator.cs:345-352 | a skirt and pants give identical pictures: the widening test never fires inside the loop's columns |
| Character.UpperClothesTypeUnused | Assets/Character/CharacterGenerator.cs:282-307 | changing the upper-clothes type never changes the picture |
| Character.NeckHiddenByShirt | Assets/Character/CharacterGenerator.cs:185-194 | every neck cell ends up in the main clothes colour: the shirt is drawn over the neck |
| Character.DefaultGridHidesFace | Assets/Character/CharacterGenerator.cs:6-7 | on the default 12×16 grid no hair, eye or mouth cell lies inside the grid |
| Character.MirrorInvolution | Assets/Character/CharacterGenerator.cs:157 | mirroring a column twice gives it back, and mirroring keeps a column inside the grid |
| Character.ColumnTilesSound | Assets/Character/CharacterGenerator.cs:144-148 | every tile emitted for a column lies in that column's mirror, in the grid, with the picture's colour |
| Character.TilesSound | Assets/Character/CharacterGenerator.cs:141-150 | every tile emitted lies at the mirror of a painted grid cell and carries that cell's colour |
| Character.ColumnTilesComplete | Assets/Character/CharacterGenerator.cs:144-148 | every painted cell of a column yields its tile |
| Character.TilesComplete | Assets/Character/CharacterGenerator.cs:141-150 | every painted cell of the grid yields its mirrored tile |
| Character.ColumnTilesDistinct | Assets/Character/CharacterGenerator.cs:144-148 | no two tiles of a column share a position |
| Character.TilesDistinct | Assets/Character/CharacterGenerator.cs:141-150 | no two tiles of the character share a position |
| Character.GenerateSpec | Assets/Character/CharacterGenerator.cs:66-124 | the spec is well formed; each enum is the draw's variant; hair is Short iff r1 < 0.6, Long iff 0.6 <= r1 < 0.85, Fringe otherwise, never Bald; hair and secondary colours are the drawn entries |
| Character.EarlyStagesLackSecondary | Assets/Character/CharacterGenerator.cs:129-133 | no cell painted before the lower clothes carries the secondary colour, so the legs scan sees only the lower clothes |
| Character.CharacterGenerator.constructor | Assets/Character/CharacterGenerator.cs:6-7 | the default grid is 12 wide and 16 tall |
| Character.CharacterGenerator.InBounds | Assets/Character/CharacterGenerator.cs:495-498 | the bounds test of the draw routines; an in-bounds cell's mirrored column, where its tile goes, is inside the grid too |
| Character.CharacterGenerator.InitLayout | Assets/Character/CharacterGenerator.cs:30-42 | the layout fields become LayoutFor(width) |
| Character.CharacterGenerator.DrawHeadAndNeck | Assets/Character/CharacterGenerator.cs:169-195 | the head rectangle without its two top corners and the two neck rows are skin, clipped to the grid; other cells unchanged |
| Character.CharacterGenerator.DrawHair | Assets/Character/CharacterGenerator.cs:200-242 | the hair cells of the hair type are painted in the hair colour, clipped to the grid; other cells unchanged |
| Character.CharacterGenerator.DrawEyes | Assets/Character/CharacterGenerator.cs:247-276 | the eye and mouth cells are painted in the eye and mouth colours; other cells unchanged |
| Character.CharacterGenerator.DrawUpperClothes | Assets/Character/CharacterGenerator.cs:282-307 | the body rectangle of the body type is painted in the main colour; the hand centres are its first and last columns |
| Character.CharacterGenerator.DrawArmShadows | Assets/Character/CharacterGenerator.cs:405-429 | the arm-shadow cells beside the body are shaded main colour; other cells unchanged |
| Character.CharacterGenerator.DrawLowerClothes | Assets/Character/CharacterGenerator.cs:316-375 | the lower-clothes cells are painted in the secondary colour; legsBottomY is the first centre-column row from the bottom row that holds it (else the bottom row), and equals LegsBottom when no earlier pass used that colour there |
| Character.CharacterGenerator.PaintLowerClothes | Assets/Character/CharacterGenerator.cs:318-359 | exactly the lower-clothes cells of the clothes type inside the grid take the secondary colour; other cells unchanged |
| Character.CharacterGenerator.DrawCenterLowerShadow | Assets/Character/CharacterGenerator.cs:430-452 | the centre shadow cells between the legs are shaded secondary colour; other cells unchanged |
| Character.CharacterGenerator.DrawHands | Assets/Character/CharacterGenerator.cs:380-404 | the hand cells at the two hand centres are skin; other cells unchanged |
| Character.CharacterGenerator.DrawSkate | Assets/Character/CharacterGenerator.cs:453-485 | the deck and leg cells under the legs are painted; other cells unchanged |
| Character.CharacterGenerator.DrawCharacter | Assets/Character/CharacterGenerator.cs:125-151 | the tiles emitted are exactly Tiles of the final picture; hand centres and legs' bottom row as specified |
| Character.CharacterGenerator.DrawUpperBody | Assets/Character/CharacterGenerator.cs:129-133 | after the first five passes the grid is the stage-5 picture |
| Character.CharacterGenerator.DrawLowerBody | Assets/Character/CharacterGenerator.cs:135-138 | after the last four passes the grid is the final picture and legsBottomY is LegsBottom |
| Character.CharacterGenerator.CollectTiles | Assets/Character/CharacterGenerator.cs:141-150 | the tiles are those of the painted cells, column by column, each at its mirrored column |
| Character.CharacterGenerator.GenerateNewCharacter | Assets/Character/CharacterGenerator.cs:54-64 | the layout is reset, the spec is GenerateSpec of the draws, and the tiles are those of its picture |
| Background.ContiguousOrdered | Assets/Background/BackgroundGenerator.cs:98-112 | in a contiguous row, a later building starts at or after an earlier one's end |
| Background.ContiguousStartsAtZeroOrLater | Assets/Background/BackgroundGenerator.cs:98-112 | every building of the row starts at a non-negative column |
| Background.SkylineCoversOnce | Assets/Background/BackgroundGenerator.cs:94-115 | every column of the texture lies in exactly one building |
| Background.PaintStaysInColumns | Assets/Background/BackgroundGenerator.cs:125-164 | a building whose outline fits inside it paints only its own columns |
| Background.SceneOfContiguous | Assets/Background/BackgroundGenerator.cs:117-166 | in a contiguous row whose outline width is at most the minimum building width, a pixel shows what its own building paints there, or the background |
| Background.SceneOfUntouched | Assets/Background/BackgroundGenerator.cs:117-166 | buildings that end before a column leave that column as it was |
| Background.SkylineFramedByOutline | Assets/Background/BackgroundGenerator.cs:125-164 | when the outline width is at most the minimum building width, inside a building the left, right and top bands are outline, the rest fill, and above the roof the background |
| Background.SkipTestRedundant | Assets/Background/BackgroundGenerator.cs:180-185 | an origin admitted by the loop guards always belongs to a building that passed the skip test |
| Background.WindowInsideBuilding | Assets/Background/BackgroundGenerator.cs:173-201 | every pixel of a window slot lies within its building's columns and below its roof |
| Background.LatticeGap | Assets/Background/BackgroundGenerator.cs:183-185 | two visited origins of a loop are at least one spacing apart |
| Background.WindowsOnBuildings | Assets/Background/BackgroundGenerator.cs:168-206 | a lit pixel always lies on some building |
| Background.BackgroundGenerator.constructor | Assets/Background/BackgroundGenerator.cs:12-54 | the serialized defaults: a 5760×1920 night texture; widths 80-170; outline 2; 8×12 windows, spacing 20/30, margins 50/50/35/35; light chance 0.4 at night, 1.0 by day |
| Background.BackgroundGenerator.GenerateBuildings | Assets/Background/BackgroundGenerator.cs:94-115 | a skyline: contiguous from column 0, each width in [min, max) or exactly min when that range is empty, each height within the texture, each start inside it, and the last end at or past the texture's width |
| Background.BackgroundGenerator.FillBuilding | Assets/Background/BackgroundGenerator.cs:125-131 | the building's body, clipped to the texture, becomes fill; other pixels unchanged |
| Background.BackgroundGenerator.OutlineLeft | Assets/Background/BackgroundGenerator.cs:134-142 | the left outline band becomes outline; other pixels unchanged |
| Background.BackgroundGenerator.OutlineRight | Assets/Background/BackgroundGenerator.cs:145-153 | the right outline band becomes outline; other pixels unchanged |
| Background.BackgroundGenerator.OutlineTop | Assets/Background/BackgroundGenerator.cs:156-164 | the top outline band becomes outline; other pixels unchanged |
| Background.BackgroundGenerator.DrawBuilding | Assets/Background/BackgroundGenerator.cs:122-165 | each pixel becomes what the building paints there (outline over fill), or stays |
| Background.BackgroundGenerator.DrawBuildings | Assets/Background/BackgroundGenerator.cs:117-166 | each pixel becomes the Scene of the buildings painted in order over its old value |
| Background.BackgroundGenerator.PaintWindow | Assets/Background/BackgroundGenerator.cs:190-201 | the window's pixels, clipped to the texture, are lit; other pixels unchanged |
| Background.BackgroundGenerator.DrawBuildingWindows | Assets/Background/BackgroundGenerator.cs:173-204 | lit origins are slots of the building; with a light chance of 1 every slot is lit; exactly the pixels under lit windows change |
| Background.BackgroundGenerator.DrawColumn | Assets/Background/BackgroundGenerator.cs:185-203 | the lit origins of one column are its slots; with a light chance of 1 all of them are lit; exactly their pixels change |
| Background.BackgroundGenerator.DrawWindows | Assets/Background/BackgroundGenerator.cs:168-206 | lit origins are slots of some building; in daytime every slot is lit; exactly the pixels under lit windows become window light |
| Background.BackgroundGenerator.GenerateBackground | Assets/Background/BackgroundGenerator.cs:63-76 | a fresh texture of the configured size holding a skyline: lit window pixels over the buildings' Scene over the sky; no windows when they are disabled |

## Left out

- The terrain and obstacle generator (`LevelGenerator`), the sine-wave synthesizer (`SimpleSynthesizer`), the player controller and the camera follower are not part of this model.
- Unity plumbing is not modelled: scene objects, audio sources and fade-in coroutines, `Instantiate`, `SpriteRenderer`, `Texture2D.Apply` and `RawImage`.
- The beat loop's waiting is not modelled: `Beat` is one pass of the loop, taken once the clock reading has reached the next beat time.
- Random draws are arbitrary choices (`:|`) or parameters. Their distributions are not modelled.
- Colours are labels. RGB values, the darkening factor, the sky gradient and its noise are not modelled.
- `DrawSky` is replaced by a uniform `Sky` background. Building heights, which come from Perlin noise and a lerp over float percentages, are arbitrary integers in [0, textureHeight].
- Floating-point rounding is not modelled: times, bpm and probabilities are exact reals, and the thresholds 0.6f and 0.85f are read as 0.6 and 0.85.
- Tile positions are modelled as mirrored grid columns and rows. The float world offsets and `tileSize` are not modelled.
- ProceduralMusic.ProceduralMusicManager.Beat: the 32-bit `beatCount` is unbounded, so its wrap-around after 2^31 beats is not modelled.
- Markov.MarkovChain.Generate: requires a length of at least 1. The source would fail writing element 0 of an empty array.
- ProceduralMusic.ProceduralMusicManager.Start: requires bpm > 0. The inspector range is 60-180.
- Character.CharacterGenerator.DrawCharacter: requires a well-formed spec (as GenerateSpec produces) and a grid tall enough to hold the legs' bottom row. These let the scan be stated as LegsBottom.
- Character.CharacterGenerator.DrawLowerClothes: requires a grid taller than the waist, or a centre column whose scan stops inside the grid. The source would index past the grid otherwise.
- Character.GenerateSpec: the main clothes colour is a random grey blend. It is the single label `MainCloth`, assumed distinct from the skin, hair and secondary colours.
- Background.BackgroundGenerator.GenerateBuildings: requires 1 <= minBuildingWidth and textureHeight >= 0. With a smaller minimum the source's loop may not advance. When maxBuildingWidth <= minBuildingWidth every width is modelled as the minimum; for maxBuildingWidth < minBuildingWidth, Unity's integer `Random.Range` would instead draw from the reversed range, which is not modelled.
- Background.BackgroundGenerator.DrawWindows: requires positive window spacings and non-negative margins. A zero spacing loops forever in the source. A negative margin lets the source write at negative coordinates, which the texture wraps or clamps.
- Background.BackgroundGenerator.DrawBuildings: requires buildings that start at a non-negative column, as GenerateBuildings produces. Negative coordinates are wrapped or clamped by the texture, which is not modelled.
