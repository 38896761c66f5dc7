/** The move-type and move-split icons shown beside the move list, and the
    type-effectiveness symbol written next to them. */
module TypeSprite {
  import opened Sprites

  const TAG_MOVE_TYPES: int := 30002
  const TAG_SPLIT_ICONS: int := 30004
  const TYPE_ICON_X: int := 203
  const SPLIT_ICON_X: int := 227

  /** `LoadCompressedPalette(gMoveTypes_Pal, 0x1d0, 0x60)`: the offset counts
      colours, the size counts bytes; object palettes start at colour 0x100
      and hold sixteen two-byte colours each. */
  const TYPE_PAL_OFFSET: int := 0x1d0
  const TYPE_PAL_SIZE: int := 0x60
  const OBJ_PAL_START: int := 0x100

  /** Whether object palette `n` is one that the type-icon palette load
      overwrites. */
  predicate IsTypePaletteSlot(n: int)
  {
    (TYPE_PAL_OFFSET - OBJ_PAL_START) / 16 <= n < (TYPE_PAL_OFFSET + TYPE_PAL_SIZE / 2 - OBJ_PAL_START) / 16
  }

  /** `sMoveTypeToOamPaletteNum`, indexed by type in declaration order
      NORMAL, FIGHTING, FLYING, POISON, GROUND, ROCK, BUG, GHOST, STEEL,
      MYSTERY, FIRE, WATER, GRASS, ELECTRIC, PSYCHIC, ICE, DRAGON, DARK, FAIRY. */
  const MOVE_TYPE_TO_OAM_PALETTE_NUM: seq<int> :=
    [13, 13, 14, 14, 13, 13, 15, 14, 13, 15, 13, 14, 15, 13, 14, 14, 15, 13, 14]

  /** Every type's icon uses one of the three palettes loaded with the icons. */
  function OamPaletteNum(moveType: int): (n: int)
    requires 0 <= moveType < |MOVE_TYPE_TO_OAM_PALETTE_NUM|
    ensures n == 13 || n == 14 || n == 15
    ensures IsTypePaletteSlot(n)
  {
    MOVE_TYPE_TO_OAM_PALETTE_NUM[moveType]
  }

  /** `sTypeSprite`: the two sprite handles and the double-battle flag. */
  datatype TypeState = TypeState(typeSprite: int, splitSprite: int, doubleActive: bool)

  /** CreateTypeIconSprite.  A handle whose tiles are gone is stale and is
      dropped; with no handle the sheet is loaded and a sprite created (the
      palette goes straight to palette RAM, with no tag).  Then the palette
      number and animation of whatever the handle names are set. */
  function CreateTypeIcon(t: TypeState, g: Gfx, moveType: int): (r: (TypeState, Gfx))
    requires 0 <= moveType < |MOVE_TYPE_TO_OAM_PALETTE_NUM|
    ensures TAG_MOVE_TYPES in r.1.tiles && r.1.palettes == g.palettes
    ensures r.0 == t.(typeSprite := r.0.typeSprite)
    ensures g.sprites.Keys <= r.1.sprites.Keys
    ensures InTable(g) ==> InTable(r.1)
  {
    var handle := if TAG_MOVE_TYPES !in g.tiles then MAX_SPRITES else t.typeSprite;
    var (g1, id) :=
      if handle == MAX_SPRITES then Create(LoadSheet(g, TAG_MOVE_TYPES), NewSprite(TypeIcon, TYPE_ICON_X))
      else (g, handle);
    (t.(typeSprite := id), SetAnim(SetPaletteNum(g1, id, OamPaletteNum(moveType)), id, moveType))
  }

  /** DestroyTypeIconSprite. */
  function DestroyTypeIcon(t: TypeState, g: Gfx): (r: (TypeState, Gfx))
    ensures r.0 == t.(typeSprite := MAX_SPRITES)
    ensures r.1.sprites.Keys <= g.sprites.Keys && r.1.tiles <= g.tiles
    ensures InTable(g) ==> InTable(r.1)
  {
    if t.typeSprite != MAX_SPRITES then
      (t.(typeSprite := MAX_SPRITES),
       Destroy(FreePalette(FreeTiles(g, TAG_MOVE_TYPES), TAG_MOVE_TYPES), t.typeSprite))
    else (t, g)
  }

  /** CreateMoveSplitSprite: as CreateTypeIcon, with a tagged palette. */
  function CreateSplitIcon(t: TypeState, g: Gfx, splitType: int): (r: (TypeState, Gfx))
    ensures TAG_SPLIT_ICONS in r.1.tiles
    ensures r.0 == t.(splitSprite := r.0.splitSprite)
    ensures g.sprites.Keys <= r.1.sprites.Keys
    ensures InTable(g) ==> InTable(r.1)
  {
    var handle := if TAG_SPLIT_ICONS !in g.tiles then MAX_SPRITES else t.splitSprite;
    var (g1, id) :=
      if handle == MAX_SPRITES then
        Create(LoadPalette(LoadSheet(g, TAG_SPLIT_ICONS), TAG_SPLIT_ICONS), NewSprite(SplitIcon, SPLIT_ICON_X))
      else (g, handle);
    (t.(splitSprite := id), SetAnim(g1, id, splitType))
  }

  /** DestroyMoveSplitSprite. */
  function DestroySplitIcon(t: TypeState, g: Gfx): (r: (TypeState, Gfx))
    ensures r.0 == t.(splitSprite := MAX_SPRITES)
    ensures r.1.sprites.Keys <= g.sprites.Keys && r.1.tiles <= g.tiles
    ensures InTable(g) ==> InTable(r.1)
  {
    if t.splitSprite != MAX_SPRITES then
      (t.(splitSprite := MAX_SPRITES),
       Destroy(FreePalette(FreeTiles(g, TAG_SPLIT_ICONS), TAG_SPLIT_ICONS), t.splitSprite))
    else (t, g)
  }

  /** TypeInfoDestroySprites. */
  function DestroyIcons(t: TypeState, g: Gfx): (r: (TypeState, Gfx))
    ensures r.0 == TypeState(MAX_SPRITES, MAX_SPRITES, false)
    ensures r.1.sprites.Keys <= g.sprites.Keys && r.1.tiles <= g.tiles
    ensures InTable(g) ==> InTable(r.1)
  {
    var (t1, g1) := DestroyTypeIcon(t.(doubleActive := false), g);
    DestroySplitIcon(t1, g1)
  }

  // ---------------------------------------------------------------------
  // Type-effectiveness points and symbol

  const MOVE_NONE: int := 0
  const TYPE_GROUND: int := 4
  const ABILITY_WONDER_GUARD: int := 25
  const ABILITY_LEVITATE: int := 26
  const SPLIT_STATUS: int := 2

  const TYPE_x0: int := 0
  const TYPE_x0_25: int := 5
  const TYPE_x0_50: int := 10
  const TYPE_x1: int := 20
  const TYPE_x2: int := 40
  const TYPE_x4: int := 80

  /** The multipliers the type chart holds for one attacking and one
      defending type. */
  datatype Modifier = NoEffect | NotVeryEffective | Neutral | SuperEffective

  /** `UQ_4_12_TO_INT(GetTypeModifier(..) * 2) * 5`: twice the multiplier,
      times five. */
  function Factor(m: Modifier): int
  {
    match m
    case NoEffect => 0
    case NotVeryEffective => 5
    case Neutral => 10
    case SuperEffective => 20
  }

  /** The multiplier in quarters, as a reference for the points. */
  function Quarters(m: Modifier): int
  {
    match m
    case NoEffect => 0
    case NotVeryEffective => 2
    case Neutral => 4
    case SuperEffective => 8
  }

  /** `gBattleMoves[move]` and `gBaseStats[species]`, the fields read here. */
  datatype MoveStats = MoveStats(power: int, moveType: int, split: int)
  datatype SpeciesStats = SpeciesStats(type1: int, type2: int, ability: int)

  predicate IsPoints(p: int)
  {
    p == TYPE_x0 || p == TYPE_x0_25 || p == TYPE_x0_50 || p == TYPE_x1 || p == TYPE_x2 || p == TYPE_x4
  }

  /** GetTypeEffectivenessPoints; `chart` is GetTypeModifier. */
  function GetTypeEffectivenessPoints(move: int, data: MoveStats, target: SpeciesStats,
                                      chart: (int, int) -> Modifier): (r: int)
    ensures IsPoints(r)
    ensures move == MOVE_NONE || move == 0xFFFF || data.power == 0 ==> r == 0
    ensures target.ability == ABILITY_LEVITATE && data.moveType == TYPE_GROUND ==> r == 0
  {
    if move == MOVE_NONE || move == 0xFFFF || data.power == 0 then 0
    else if target.ability == ABILITY_LEVITATE && data.moveType == TYPE_GROUND then 0
    else
      var e1 := Factor(chart(data.moveType, target.type1));
      var e2 := Factor(chart(data.moveType, target.type2));
      var p1 := e1 * TYPE_x1 / 10;
      var p2 := if target.type2 != target.type1 then e2 * p1 / 10 else p1;
      if target.ability == ABILITY_WONDER_GUARD && e1 != 20 && e2 != 20 then 0 else p2
  }

  /** Without an ability override the points are 20 times the product of the
      multipliers, the second type counted only when it differs. */
  lemma PointsMatchTypeChart(move: int, data: MoveStats, target: SpeciesStats, chart: (int, int) -> Modifier)
    requires move != MOVE_NONE && move != 0xFFFF && data.power != 0
    requires !(target.ability == ABILITY_LEVITATE && data.moveType == TYPE_GROUND)
    requires target.ability != ABILITY_WONDER_GUARD
    ensures var q1 := Quarters(chart(data.moveType, target.type1));
            var q2 := Quarters(chart(data.moveType, target.type2));
            GetTypeEffectivenessPoints(move, data, target, chart)
              == if target.type2 != target.type1 then 20 * q1 * q2 / 16 else 20 * q1 / 4
  {
    var m1, m2 := chart(data.moveType, target.type1), chart(data.moveType, target.type2);
    match m1
    case NoEffect =>
    case NotVeryEffective =>
      match m2 {
        case NoEffect =>
        case NotVeryEffective =>
        case Neutral =>
        case SuperEffective =>
      }
    case Neutral =>
    case SuperEffective =>
      match m2 {
        case NoEffect =>
        case NotVeryEffective =>
        case Neutral =>
        case SuperEffective =>
      }
  }

  /** Wonder Guard: a non-zero result needs a super-effective factor on one
      of the two types; with one, the points are those of a target without
      the ability. */
  lemma WonderGuardRule(move: int, data: MoveStats, target: SpeciesStats, chart: (int, int) -> Modifier)
    requires target.ability == ABILITY_WONDER_GUARD
    ensures var super := chart(data.moveType, target.type1) == SuperEffective
                         || chart(data.moveType, target.type2) == SuperEffective;
            && (!super ==> GetTypeEffectivenessPoints(move, data, target, chart) == 0)
            && (super ==> GetTypeEffectivenessPoints(move, data, target, chart)
                          == GetTypeEffectivenessPoints(move, data, target.(ability := 0), chart))
    ensures chart(data.moveType, target.type1) == SuperEffective
            && chart(data.moveType, target.type2) == NotVeryEffective
            && target.type1 != target.type2
            && move != MOVE_NONE && move != 0xFFFF && data.power != 0
            ==> GetTypeEffectivenessPoints(move, data, target, chart) == TYPE_x1
  {
  }

  /** When both types are the same the factor is applied once. */
  lemma SameTypeCountedOnce(move: int, data: MoveStats, target: SpeciesStats, chart: (int, int) -> Modifier)
    requires move != MOVE_NONE && move != 0xFFFF && data.power != 0
    requires !(target.ability == ABILITY_LEVITATE && data.moveType == TYPE_GROUND)
    requires target.ability != ABILITY_WONDER_GUARD
    requires target.type2 == target.type1
    ensures GetTypeEffectivenessPoints(move, data, target, chart)
            == 2 * Factor(chart(data.moveType, target.type1))
  {
  }

  datatype Glyph = BigMultX | DownArrow | UpArrow | Char(c: char)

  /** The symbol of a points value: what the effect switch writes. */
  function Symbol(p: int): seq<Glyph>
    requires IsPoints(p)
  {
    WriteEffect([], p)
  }

  /** Different multipliers are written differently. */
  lemma SymbolInjective(p: int, q: int)
    requires IsPoints(p) && IsPoints(q)
    requires Symbol(p) == Symbol(q)
    ensures p == q
  {
  }

  /** The `switch` of CopyStringMoveEffect on the u8 points: a known value
      writes a symbol of one or two glyphs whatever `dest` held, any other
      value leaves `dest` as it was. */
  function WriteEffect(dest: seq<Glyph>, typePower: int): (r: seq<Glyph>)
    ensures IsPoints(typePower) ==> 1 <= |r| <= 2
    ensures !IsPoints(typePower) ==> r == dest
  {
    match typePower
    case 0 => [BigMultX]
    case 5 => [DownArrow, DownArrow]
    case 10 => [DownArrow]
    case 20 => [Char('=')]
    case 40 => [UpArrow]
    case 80 => [UpArrow, UpArrow]
    case _ => dest
  }

  /** A known points value writes its symbol whatever the buffer held. */
  lemma WriteEffectIgnoresBuffer(dest: seq<Glyph>, p: int)
    requires IsPoints(p)
    ensures WriteEffect(dest, p) == Symbol(p)
  {
  }

  /** CopyStringMoveEffect. */
  function CopyStringMoveEffect(dest: seq<Glyph>, move: int, data: MoveStats, target: SpeciesStats,
                                chart: (int, int) -> Modifier): (r: seq<Glyph>)
    ensures data.split == SPLIT_STATUS ==> r == [Char('=')]
    ensures data.split != SPLIT_STATUS ==>
              r == Symbol(GetTypeEffectivenessPoints(move, data, target, chart))
  {
    if data.split == SPLIT_STATUS then [Char('=')]
    else WriteEffect(dest, GetTypeEffectivenessPoints(move, data, target, chart) % 256)
  }

  /** ShowMoveTypeEffect: the text put on window 10.  In a double battle with
      no target chosen yet it is the empty string. */
  function ShowMoveTypeEffect(dest: seq<Glyph>, isDouble: bool, doubleActive: bool, move: int,
                              data: MoveStats, target: SpeciesStats, chart: (int, int) -> Modifier): (r: seq<Glyph>)
    ensures isDouble && !doubleActive ==> r == []
    ensures !(isDouble && !doubleActive) ==> r == CopyStringMoveEffect(dest, move, data, target, chart)
  {
    if isDouble && !doubleActive then []
    else CopyStringMoveEffect(dest, move, data, target, chart)
  }

  /** A Ground move against Levitate shows the immune symbol whatever the
      type chart says. */
  lemma LevitateShowsImmune(dest: seq<Glyph>, isDouble: bool, doubleActive: bool, move: int,
                            data: MoveStats, target: SpeciesStats, chart: (int, int) -> Modifier)
    requires !(isDouble && !doubleActive) && data.split != SPLIT_STATUS
    requires target.ability == ABILITY_LEVITATE && data.moveType == TYPE_GROUND
    ensures ShowMoveTypeEffect(dest, isDouble, doubleActive, move, data, target, chart) == [BigMultX]
  {
  }

  // ---------------------------------------------------------------------
  // Lemmas about the icon bookkeeping

  /** Destroying frees the icon's tags and sprite and empties the handle;
      with an empty handle it frees nothing; a second destroy changes nothing. */
  lemma DestroyTypeIconEffect(t: TypeState, g: Gfx)
    ensures var (t1, g1) := DestroyTypeIcon(t, g);
            && t1 == t.(typeSprite := MAX_SPRITES)
            && (t.typeSprite == MAX_SPRITES ==> g1 == g)
            && (t.typeSprite != MAX_SPRITES ==>
                  g1.tiles == g.tiles - {TAG_MOVE_TYPES} && g1.palettes == g.palettes - {TAG_MOVE_TYPES}
                  && g1.sprites == g.sprites - {t.typeSprite})
            && DestroyTypeIcon(t1, g1) == (t1, g1)
  {
  }

  lemma DestroySplitIconEffect(t: TypeState, g: Gfx)
    ensures var (t1, g1) := DestroySplitIcon(t, g);
            && t1 == t.(splitSprite := MAX_SPRITES)
            && (t.splitSprite == MAX_SPRITES ==> g1 == g)
            && (t.splitSprite != MAX_SPRITES ==>
                  g1.tiles == g.tiles - {TAG_SPLIT_ICONS} && g1.palettes == g.palettes - {TAG_SPLIT_ICONS}
                  && g1.sprites == g.sprites - {t.splitSprite})
            && DestroySplitIcon(t1, g1) == (t1, g1)
  {
  }

  /** TypeInfoDestroySprites leaves no icon and clears the double flag, and
      doing it twice is doing it once. */
  lemma DestroyIconsEmpties(t: TypeState, g: Gfx)
    ensures var (t1, g1) := DestroyIcons(t, g);
            && t1 == TypeState(MAX_SPRITES, MAX_SPRITES, false)
            && (t.typeSprite != MAX_SPRITES ==> t.typeSprite !in g1.sprites)
            && (t.splitSprite != MAX_SPRITES ==> t.splitSprite !in g1.sprites)
            && DestroyIcons(t1, g1) == (t1, g1)
  {
  }

  /** With stale tiles or no handle, the sheet is loaded and a new sprite is
      created at the lowest free id, showing the requested type. */
  lemma CreateTypeIconLoads(t: TypeState, g: Gfx, moveType: int)
    requires 0 <= moveType < |MOVE_TYPE_TO_OAM_PALETTE_NUM|
    requires InTable(g)
    requires TAG_MOVE_TYPES !in g.tiles || t.typeSprite == MAX_SPRITES
    ensures var (t1, g1) := CreateTypeIcon(t, g, moveType);
            var id := LowestFreeId(g.sprites, 0);
            && t1 == t.(typeSprite := id)
            && g1.tiles == g.tiles + {TAG_MOVE_TYPES} && g1.palettes == g.palettes
            && (id != MAX_SPRITES ==>
                  g1.sprites == g.sprites[id := Sprite(TypeIcon, TYPE_ICON_X, false, OamPaletteNum(moveType), moveType)])
            && (id == MAX_SPRITES ==> g1.sprites == g.sprites)
  {
  }

  /** A live handle whose tiles are resident is reused: nothing is loaded or
      created, only the palette number and animation change. */
  lemma CreateTypeIconReuses(t: TypeState, g: Gfx, moveType: int)
    requires 0 <= moveType < |MOVE_TYPE_TO_OAM_PALETTE_NUM|
    requires InTable(g)
    requires TAG_MOVE_TYPES in g.tiles && t.typeSprite in g.sprites
    ensures var (t1, g1) := CreateTypeIcon(t, g, moveType);
            && t1 == t && g1.tiles == g.tiles && g1.palettes == g.palettes
            && g1.sprites == g.sprites[t.typeSprite :=
                 g.sprites[t.typeSprite].(paletteNum := OamPaletteNum(moveType), anim := moveType)]
  {
  }

  lemma CreateSplitIconLoads(t: TypeState, g: Gfx, splitType: int)
    requires InTable(g)
    requires TAG_SPLIT_ICONS !in g.tiles || t.splitSprite == MAX_SPRITES
    ensures var (t1, g1) := CreateSplitIcon(t, g, splitType);
            var id := LowestFreeId(g.sprites, 0);
            && t1 == t.(splitSprite := id)
            && g1.tiles == g.tiles + {TAG_SPLIT_ICONS} && g1.palettes == g.palettes + {TAG_SPLIT_ICONS}
            && (id != MAX_SPRITES ==>
                  g1.sprites == g.sprites[id := Sprite(SplitIcon, SPLIT_ICON_X, false, 0, splitType)])
            && (id == MAX_SPRITES ==> g1.sprites == g.sprites)
  {
  }

  lemma CreateSplitIconReuses(t: TypeState, g: Gfx, splitType: int)
    requires InTable(g)
    requires TAG_SPLIT_ICONS in g.tiles && t.splitSprite in g.sprites
    ensures var (t1, g1) := CreateSplitIcon(t, g, splitType);
            && t1 == t && g1.tiles == g.tiles && g1.palettes == g.palettes
            && g1.sprites == g.sprites[t.splitSprite := g.sprites[t.splitSprite].(anim := splitType)]
  {
  }

  // ---------------------------------------------------------------------
  // `sTypeSprite`, updated in place

  class TypeInfo {
    const eng: Engine
    var typeSprite: int
    var splitSprite: int
    var doubleActive: bool

    /** The zero-initialised state at start-up. */
    constructor (eng: Engine)
      ensures this.eng == eng && State() == TypeState(0, 0, false)
    {
      this.eng := eng;
      typeSprite, splitSprite, doubleActive := 0, 0, false;
    }

    function State(): TypeState
      reads this
    {
      TypeState(typeSprite, splitSprite, doubleActive)
    }

    method CreateTypeIconSprite(moveType: int)
      requires 0 <= moveType < |MOVE_TYPE_TO_OAM_PALETTE_NUM|
      requires eng.Valid()
      modifies this, eng
      ensures eng.Valid()
      ensures (State(), eng.State()) == CreateTypeIcon(old(State()), old(eng.State()), moveType)
    {
      if TAG_MOVE_TYPES !in eng.tiles {
        typeSprite := MAX_SPRITES;
      }
      if typeSprite == MAX_SPRITES {
        eng.LoadSpriteSheet(TAG_MOVE_TYPES);
        typeSprite := eng.CreateSprite(NewSprite(TypeIcon, TYPE_ICON_X));
      }
      eng.WritePaletteNum(typeSprite, OamPaletteNum(moveType));
      eng.StartSpriteAnim(typeSprite, moveType);
    }

    method DestroyTypeIconSprite()
      requires eng.Valid()
      modifies this, eng
      ensures eng.Valid()
      ensures (State(), eng.State()) == DestroyTypeIcon(old(State()), old(eng.State()))
    {
      if typeSprite != MAX_SPRITES {
        eng.FreeSpriteTilesByTag(TAG_MOVE_TYPES);
        eng.FreeSpritePaletteByTag(TAG_MOVE_TYPES);
        eng.DestroySprite(typeSprite);
        typeSprite := MAX_SPRITES;
      }
    }

    method CreateMoveSplitSprite(splitType: int)
      requires eng.Valid()
      modifies this, eng
      ensures eng.Valid()
      ensures (State(), eng.State()) == CreateSplitIcon(old(State()), old(eng.State()), splitType)
    {
      if TAG_SPLIT_ICONS !in eng.tiles {
        splitSprite := MAX_SPRITES;
      }
      if splitSprite == MAX_SPRITES {
        eng.LoadSpriteSheet(TAG_SPLIT_ICONS);
        eng.LoadSpritePalette(TAG_SPLIT_ICONS);
        splitSprite := eng.CreateSprite(NewSprite(SplitIcon, SPLIT_ICON_X));
      }
      eng.StartSpriteAnim(splitSprite, splitType);
    }

    method DestroyMoveSplitSprite()
      requires eng.Valid()
      modifies this, eng
      ensures eng.Valid()
      ensures (State(), eng.State()) == DestroySplitIcon(old(State()), old(eng.State()))
    {
      if splitSprite != MAX_SPRITES {
        eng.FreeSpriteTilesByTag(TAG_SPLIT_ICONS);
        eng.FreeSpritePaletteByTag(TAG_SPLIT_ICONS);
        eng.DestroySprite(splitSprite);
        splitSprite := MAX_SPRITES;
      }
    }

    method TypeInfoDestroySprites()
      requires eng.Valid()
      modifies this, eng
      ensures eng.Valid()
      ensures (State(), eng.State()) == DestroyIcons(old(State()), old(eng.State()))
    {
      doubleActive := false;
      DestroyTypeIconSprite();
      DestroyMoveSplitSprite();
    }

    /** TypeInfoDisplaySprites; returns the text put on window 10.  `dest`
        is what the shared display buffer held before. */
    method TypeInfoDisplaySprites(dest: seq<Glyph>, isDouble: bool, move: int, data: MoveStats,
                                  target: SpeciesStats, chart: (int, int) -> Modifier)
      returns (shown: seq<Glyph>)
      requires 0 <= data.moveType < |MOVE_TYPE_TO_OAM_PALETTE_NUM|
      requires eng.Valid()
      modifies this, eng
      ensures eng.Valid()
      ensures var (t1, g1) := CreateTypeIcon(old(State()), old(eng.State()), data.moveType);
              (State(), eng.State()) == CreateSplitIcon(t1, g1, data.split)
      ensures shown == ShowMoveTypeEffect(dest, isDouble, doubleActive, move, data, target, chart)
    {
      CreateTypeIconSprite(data.moveType);
      CreateMoveSplitSprite(data.split);
      shown := ShowMoveTypeEffect(dest, isDouble, doubleActive, move, data, target, chart);
    }

    /** TypeInfoUpdateDouble. */
    method TypeInfoUpdateDouble(active: bool, dest: seq<Glyph>, isDouble: bool, move: int,
                                data: MoveStats, target: SpeciesStats, chart: (int, int) -> Modifier)
      returns (shown: seq<Glyph>)
      modifies this
      ensures State() == old(State()).(doubleActive := active)
      ensures shown == ShowMoveTypeEffect(dest, isDouble, active, move, data, target, chart)
    {
      doubleActive := active;
      shown := ShowMoveTypeEffect(dest, isDouble, doubleActive, move, data, target, chart);
    }
  }
}
