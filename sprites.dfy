/** The part of the sprite engine that the battle-menu overlays drive: the
    table of live sprites, the set of resident tile-sheet tags and the set of
    resident palette tags.  Sprite creation, destruction and tag loading are
    engine services; only their effect on these three collections is kept. */
module Sprites {

  /** Size of the sprite table.  `CreateSprite` returns it when the table is
      full, and the overlays use it as the "no sprite" handle. */
  const MAX_SPRITES: int := 64

  /** The two button-prompt sprites of the move-info popup. */
  datatype Role = InfoIcon | PromptWindow

  /** The template a sprite was created from; it fixes the sprite's per-frame
      callback. */
  datatype Kind = Prompt(role: Role) | TypeIcon | SplitIcon

  /** The fields of a sprite that the overlays read or write: x, the
      `data[1]` hide flag, the OAM palette number and the animation number. */
  datatype Sprite = Sprite(kind: Kind, x: int, hide: bool, paletteNum: int, anim: int)

  /** Live sprites by id, resident tile-sheet tags, resident palette tags. */
  datatype Gfx = Gfx(sprites: map<int, Sprite>, tiles: set<int>, palettes: set<int>)

  /** Every live sprite sits at a real table entry, never at MAX_SPRITES. */
  predicate InTable(g: Gfx)
  {
    forall id :: id in g.sprites ==> 0 <= id < MAX_SPRITES
  }

  /** A freshly created sprite: its data words and animation start at zero. */
  function NewSprite(kind: Kind, x: int): Sprite
  {
    Sprite(kind, x, false, 0, 0)
  }

  /** The first free entry of the table at or after `from`, or MAX_SPRITES
      when every entry from there on is in use. */
  function LowestFreeId(sprites: map<int, Sprite>, from: nat): (id: int)
    ensures id == MAX_SPRITES || (from <= id < MAX_SPRITES && id !in sprites)
    ensures forall j :: from <= j < id && j < MAX_SPRITES ==> j in sprites
    decreases MAX_SPRITES - from
  {
    if from >= MAX_SPRITES then MAX_SPRITES
    else if from !in sprites then from
    else LowestFreeId(sprites, from + 1)
  }

  /** CreateSprite: takes the lowest free id; a full table yields MAX_SPRITES
      and changes nothing. */
  function Create(g: Gfx, s: Sprite): (Gfx, int)
  {
    var id := LowestFreeId(g.sprites, 0);
    (if id == MAX_SPRITES then g else g.(sprites := g.sprites[id := s]), id)
  }

  function Destroy(g: Gfx, id: int): Gfx
  {
    g.(sprites := g.sprites - {id})
  }

  /** Writes to an entry that is not live (a destroyed entry, or the dummy
      entry at MAX_SPRITES) are overwritten before that entry is used again,
      so they have no lasting effect. */
  function SetHide(g: Gfx, id: int, flag: bool): Gfx
  {
    if id in g.sprites then g.(sprites := g.sprites[id := g.sprites[id].(hide := flag)]) else g
  }

  function SetX(g: Gfx, id: int, x: int): Gfx
  {
    if id in g.sprites then g.(sprites := g.sprites[id := g.sprites[id].(x := x)]) else g
  }

  function SetPaletteNum(g: Gfx, id: int, n: int): Gfx
  {
    if id in g.sprites then g.(sprites := g.sprites[id := g.sprites[id].(paletteNum := n)]) else g
  }

  function SetAnim(g: Gfx, id: int, n: int): Gfx
  {
    if id in g.sprites then g.(sprites := g.sprites[id := g.sprites[id].(anim := n)]) else g
  }

  function LoadSheet(g: Gfx, tag: int): Gfx { g.(tiles := g.tiles + {tag}) }
  function FreeTiles(g: Gfx, tag: int): Gfx { g.(tiles := g.tiles - {tag}) }
  function LoadPalette(g: Gfx, tag: int): Gfx { g.(palettes := g.palettes + {tag}) }
  function FreePalette(g: Gfx, tag: int): Gfx { g.(palettes := g.palettes - {tag}) }

  /** The engine's global tables (`gSprites` and the tile and palette tag
      tables), updated in place by the services below. */
  class Engine {
    var sprites: map<int, Sprite>
    var tiles: set<int>
    var palettes: set<int>

    constructor ()
      ensures Valid() && State() == Gfx(map[], {}, {})
    {
      sprites, tiles, palettes := map[], {}, {};
    }

    function State(): Gfx
      reads this
    {
      Gfx(sprites, tiles, palettes)
    }

    /** Every live sprite sits at a real table entry. */
    predicate Valid()
      reads this
    {
      InTable(State())
    }

    method CreateSprite(s: Sprite) returns (id: int)
      requires Valid()
      modifies this
      ensures Valid()
      ensures (State(), id) == Create(old(State()), s)
    {
      id := LowestFreeId(sprites, 0);
      if id != MAX_SPRITES {
        sprites := sprites[id := s];
      }
    }

    method DestroySprite(id: int)
      requires Valid()
      modifies this
      ensures Valid()
      ensures State() == Destroy(old(State()), id)
    {
      sprites := sprites - {id};
    }

    method WriteHide(id: int, flag: bool)
      requires Valid()
      modifies this
      ensures Valid()
      ensures State() == SetHide(old(State()), id, flag)
    {
      if id in sprites {
        sprites := sprites[id := sprites[id].(hide := flag)];
      }
    }

    method WriteX(id: int, x: int)
      requires Valid()
      modifies this
      ensures Valid()
      ensures State() == SetX(old(State()), id, x)
    {
      if id in sprites {
        sprites := sprites[id := sprites[id].(x := x)];
      }
    }

    method WritePaletteNum(id: int, n: int)
      requires Valid()
      modifies this
      ensures Valid()
      ensures State() == SetPaletteNum(old(State()), id, n)
    {
      if id in sprites {
        sprites := sprites[id := sprites[id].(paletteNum := n)];
      }
    }

    method StartSpriteAnim(id: int, n: int)
      requires Valid()
      modifies this
      ensures Valid()
      ensures State() == SetAnim(old(State()), id, n)
    {
      if id in sprites {
        sprites := sprites[id := sprites[id].(anim := n)];
      }
    }

    method LoadSpriteSheet(tag: int)
      requires Valid()
      modifies this
      ensures Valid()
      ensures State() == LoadSheet(old(State()), tag)
    {
      tiles := tiles + {tag};
    }

    method FreeSpriteTilesByTag(tag: int)
      requires Valid()
      modifies this
      ensures Valid()
      ensures State() == FreeTiles(old(State()), tag)
    {
      tiles := tiles - {tag};
    }

    method LoadSpritePalette(tag: int)
      requires Valid()
      modifies this
      ensures Valid()
      ensures State() == LoadPalette(old(State()), tag)
    {
      palettes := palettes + {tag};
    }

    method FreeSpritePaletteByTag(tag: int)
      requires Valid()
      modifies this
      ensures Valid()
      ensures State() == FreePalette(old(State()), tag)
    {
      palettes := palettes - {tag};
    }
  }
}
