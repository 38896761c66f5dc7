/** The move-info popup of the battle move menu: the two button-prompt
    sprites (an info icon and an "L+A" window) that slide in from the left
    edge and slide back out, the inactive/active input mode that opens the
    popup, and the power / accuracy / speed-order / damage-range panel. */
module MoveInfo {
  import opened Sprites
  import opened TypeSprite

  const ABILITY_POP_UP_TAG: int := 0xD723
  const TAG_BIS_BUTTONS: int := 0xD722
  const TAG_INFO_ICON: int := 30020

  const PROMPT_X_F: int := 10
  const PROMPT_X_0: int := -10
  const PROMPT_WIN_X_F: int := PROMPT_X_F + 4
  const PROMPT_WIN_X_0: int := PROMPT_X_0 + 5

  /** Where a prompt sprite rests when shown, and where it is destroyed. */
  function ShownX(role: Role): int
  {
    if role == InfoIcon then PROMPT_X_F else PROMPT_WIN_X_F
  }

  function RetractedX(role: Role): int
  {
    if role == InfoIcon then PROMPT_X_0 else PROMPT_WIN_X_0
  }

  function SheetTag(role: Role): int
  {
    if role == InfoIcon then TAG_INFO_ICON else TAG_BIS_BUTTONS
  }

  // ---------------------------------------------------------------------
  // One frame of a prompt sprite

  datatype Tick = Moved(x: int) | Destroyed

  /** SpriteCB_BattleInfoSystem_InfoIcon and _ButtonPromptWin on a sprite at
      `x`: one pixel toward the shown or retracted coordinate; a hiding
      sprite that reaches the retracted coordinate is destroyed. */
  function Step(role: Role, x: int, hiding: bool): (t: Tick)
    ensures t.Moved? ==> x - 1 <= t.x <= x + 1
    ensures t == Destroyed ==> hiding
    ensures t.Moved? && hiding ==> t.x <= x
    ensures !hiding ==> t.Moved? && x <= t.x
  {
    if hiding then
      var x1 := if x != RetractedX(role) then x - 1 else x;
      if x1 == RetractedX(role) then Destroyed else Moved(x1)
    else Moved(if x != ShownX(role) then x + 1 else x)
  }

  /** `n` frames with the hide flag held fixed. */
  function Advance(role: Role, x: int, hiding: bool, n: nat): Tick
    decreases n
  {
    if n == 0 then Moved(x)
    else match Step(role, x, hiding)
      case Destroyed => Destroyed
      case Moved(x1) => Advance(role, x1, hiding, n - 1)
  }

  /** A sprite on its track stays on it: a shown sprite climbs by one until
      the shown coordinate and stays there; a hiding one falls by one and is
      destroyed on the frame it reaches the retracted coordinate. */
  lemma StepStaysOnTrack(role: Role, x: int, hiding: bool)
    requires RetractedX(role) <= x <= ShownX(role)
    ensures !hiding ==> Step(role, x, hiding) == Moved(if x < ShownX(role) then x + 1 else x)
    ensures hiding ==> Step(role, x, hiding) == (if x <= RetractedX(role) + 1 then Destroyed else Moved(x - 1))
    ensures Step(role, x, hiding).Moved? ==> RetractedX(role) <= Step(role, x, hiding).x <= ShownX(role)
  {
  }

  function RetractFrames(role: Role, x: int): int
  {
    if x - RetractedX(role) > 1 then x - RetractedX(role) else 1
  }

  /** A hiding sprite at or right of its retracted coordinate lives exactly
      max(1, x - retracted) frames, moving one pixel per frame until then. */
  lemma {:induction false} RetractTime(role: Role, x: int, n: nat)
    requires RetractedX(role) <= x
    ensures n < RetractFrames(role, x) ==> Advance(role, x, true, n) == Moved(x - n)
    ensures n >= RetractFrames(role, x) ==> Advance(role, x, true, n) == Destroyed
    decreases n
  {
    if n > 0 && x > RetractedX(role) + 1 {
      RetractTime(role, x - 1, n - 1);
    }
  }

  /** A shown sprite at or left of its shown coordinate reaches it after
      (shown - x) frames and then stays. */
  lemma {:induction false} ExtendTime(role: Role, x: int, n: nat)
    requires x <= ShownX(role)
    ensures Advance(role, x, false, n) == Moved(if x + n < ShownX(role) then x + n else ShownX(role))
    decreases n
  {
    if n > 0 {
      ExtendTime(role, if x < ShownX(role) then x + 1 else x, n - 1);
    }
  }

  /** From fully shown, the window is destroyed after 19 frames and the icon
      after 20: for one frame the window is gone while the icon is alive at
      one pixel from its retracted coordinate. */
  lemma RetractionGap()
    ensures Advance(PromptWindow, PROMPT_WIN_X_F, true, 18).Moved?
    ensures Advance(PromptWindow, PROMPT_WIN_X_F, true, 19) == Destroyed
    ensures Advance(InfoIcon, PROMPT_X_F, true, 19) == Moved(PROMPT_X_0 + 1)
    ensures Advance(InfoIcon, PROMPT_X_F, true, 20) == Destroyed
  {
    RetractTime(PromptWindow, PROMPT_WIN_X_F, 18);
    RetractTime(PromptWindow, PROMPT_WIN_X_F, 19);
    RetractTime(InfoIcon, PROMPT_X_F, 19);
    RetractTime(InfoIcon, PROMPT_X_F, 20);
  }

  // ---------------------------------------------------------------------
  // The menu state

  datatype Field = Dashes | Number(n: int)
  datatype Speed = Tie | First | Second
  datatype CalcLine = DamageRange(speed: Speed, lo: int, hi: int) | SpeedOnly(speed: Speed)

  /** What the move panel shows: windows 7 (power), 9 (accuracy), 10 (speed
      and damage) and the description window (the move's description). */
  datatype Panel = Blank | MoveData(power: Field, accuracy: Field, estimate: CalcLine, move: int)

  /** `sBattleMenuState`, the window counter and the battlers whose sprite
      has the "shown as move target" callback. */
  datatype Menu = Menu(loaded: bool, active: bool, selectedDoubleMon: bool,
                       slot0: int, slot1: int, window: int, windowsHeld: int,
                       highlighted: set<int>, panel: Panel)

  datatype World = World(menu: Menu, types: TypeState, gfx: Gfx)

  /** DestroyBattleInfoSystem_ButtonPromptGfx and _ButtonPromptWinGfx: free
      the sheet and the shared palette, destroy the sprite, empty the slot;
      the window's also clears `loaded`. */
  function DestroyPromptGfx(w: World, role: Role, id: int): (w1: World)
    ensures id !in w1.gfx.sprites && w1.gfx.sprites.Keys <= w.gfx.sprites.Keys
    ensures SheetTag(role) !in w1.gfx.tiles && ABILITY_POP_UP_TAG !in w1.gfx.palettes
    ensures role == InfoIcon ==> w1.menu.slot0 == MAX_SPRITES && w1.menu.loaded == w.menu.loaded
    ensures role == PromptWindow ==> w1.menu.slot1 == MAX_SPRITES && !w1.menu.loaded
    ensures w1.types == w.types && w1.menu.active == w.menu.active
    ensures InTable(w.gfx) ==> InTable(w1.gfx)
  {
    var g := Destroy(FreePalette(FreeTiles(w.gfx, SheetTag(role)), ABILITY_POP_UP_TAG), id);
    if role == PromptWindow then w.(gfx := g, menu := w.menu.(loaded := false, slot1 := MAX_SPRITES))
    else w.(gfx := g, menu := w.menu.(slot0 := MAX_SPRITES))
  }

  /** The per-frame callback of sprite `id`; sprites of other templates have
      the dummy callback. */
  function Callback(w: World, id: int): (w1: World)
    requires id in w.gfx.sprites
    ensures w1.types == w.types && w1.menu.active == w.menu.active
    ensures w1.menu.selectedDoubleMon == w.menu.selectedDoubleMon && w1.menu.windowsHeld == w.menu.windowsHeld
    ensures w1.gfx.tiles <= w.gfx.tiles && w1.gfx.palettes <= w.gfx.palettes
    ensures w1.gfx.sprites.Keys <= w.gfx.sprites.Keys
    ensures InTable(w.gfx) ==> InTable(w1.gfx)
  {
    var s := w.gfx.sprites[id];
    match s.kind
    case Prompt(role) =>
      (match Step(role, s.x, s.hide)
       case Moved(x) => w.(gfx := SetX(w.gfx, id, x))
       case Destroyed => DestroyPromptGfx(w, role, id))
    case _ => w
  }

  function SetHideIfLive(g: Gfx, slot: int, flag: bool): Gfx
  {
    if slot != MAX_SPRITES then SetHide(g, slot, flag) else g
  }

  /** TryHideOrRestoreBattleInfoSystem_ButtonPrompt: case 0 hides, case 1
      restores, and nothing happens at all while slot 0 is empty. */
  function HideOrRestore(w: World, caseId: int): (w1: World)
    ensures w1.menu == w.menu && w1.types == w.types
    ensures w1.gfx.tiles == w.gfx.tiles && w1.gfx.palettes == w.gfx.palettes
    ensures w1.gfx.sprites.Keys == w.gfx.sprites.Keys
    ensures InTable(w.gfx) ==> InTable(w1.gfx)
  {
    if w.menu.slot0 == MAX_SPRITES then w
    else if caseId == 0 then
      w.(gfx := SetHideIfLive(SetHideIfLive(w.gfx, w.menu.slot0, true), w.menu.slot1, true))
    else if caseId == 1 then
      w.(gfx := SetHideIfLive(SetHideIfLive(w.gfx, w.menu.slot0, false), w.menu.slot1, false))
    else w
  }

  function Hide(w: World): (w1: World)
    ensures w1.menu == w.menu && w1.types == w.types && w1.gfx.sprites.Keys == w.gfx.sprites.Keys
    ensures InTable(w.gfx) ==> InTable(w1.gfx)
  {
    HideOrRestore(w, 0)
  }

  /** The icon half of TryAddBattleInfoSystem_ButtonPromptItemSprites: load
      the icon sheet when not resident; an empty slot 0 gets a new icon at its
      retracted coordinate, whose hide flag is then cleared. */
  function AddIcon(g: Gfx, slot0: int): (r: (Gfx, int))
    ensures TAG_INFO_ICON in r.0.tiles && r.0.tiles == g.tiles + {TAG_INFO_ICON}
    ensures r.0.palettes == g.palettes && g.sprites.Keys <= r.0.sprites.Keys
    ensures InTable(g) ==> InTable(r.0)
  {
    var g1 := if TAG_INFO_ICON !in g.tiles then LoadSheet(g, TAG_INFO_ICON) else g;
    if slot0 == MAX_SPRITES then
      var (g2, id) := Create(g1, NewSprite(Prompt(InfoIcon), PROMPT_X_0));
      (SetHide(g2, id, false), id)
    else (g1, slot0)
  }

  /** The window half: the same with the window sheet and slot 1, except that
      the hide flag cleared afterwards is that of the sprite in slot 0. */
  function AddWindow(g: Gfx, slot0: int, slot1: int): (r: (Gfx, int))
    ensures TAG_BIS_BUTTONS in r.0.tiles && r.0.tiles == g.tiles + {TAG_BIS_BUTTONS}
    ensures r.0.palettes == g.palettes && g.sprites.Keys <= r.0.sprites.Keys
    ensures InTable(g) ==> InTable(r.0)
  {
    var g1 := if TAG_BIS_BUTTONS !in g.tiles then LoadSheet(g, TAG_BIS_BUTTONS) else g;
    if slot1 == MAX_SPRITES then
      var (g2, id) := Create(g1, NewSprite(Prompt(PromptWindow), PROMPT_WIN_X_0));
      (SetHide(g2, slot0, false), id)
    else (g1, slot1)
  }

  /** TryAddBattleInfoSystem_ButtonPromptItemSprites: load the shared
      palette, then the icon, then the window. */
  function AddPromptSprites(w: World): (w1: World)
    ensures TAG_INFO_ICON in w1.gfx.tiles && TAG_BIS_BUTTONS in w1.gfx.tiles
    ensures ABILITY_POP_UP_TAG in w1.gfx.palettes
    ensures w.gfx.sprites.Keys <= w1.gfx.sprites.Keys
    ensures w1.menu == w.menu.(slot0 := w1.menu.slot0, slot1 := w1.menu.slot1) && w1.types == w.types
    ensures InTable(w.gfx) ==> InTable(w1.gfx)
  {
    var g1 := LoadPalette(w.gfx, ABILITY_POP_UP_TAG);
    var r2 := AddIcon(g1, w.menu.slot0);
    var r4 := AddWindow(r2.0, r2.1, w.menu.slot1);
    w.(gfx := r4.0, menu := w.menu.(slot0 := r2.1, slot1 := r4.1))
  }

  /** TryRestoreBattleInfoSystem_ButtonPrompt. */
  function Restore(w: World): (w1: World)
    ensures w1.menu.loaded && w1.types == w.types
    ensures w1.menu.active == w.menu.active && w1.menu.selectedDoubleMon == w.menu.selectedDoubleMon
    ensures w1.menu.windowsHeld == w.menu.windowsHeld && w1.menu.highlighted == w.menu.highlighted
    ensures w.gfx.sprites.Keys <= w1.gfx.sprites.Keys
    ensures InTable(w.gfx) ==> InTable(w1.gfx)
  {
    if !w.menu.loaded then
      AddPromptSprites(w.(menu := w.menu.(loaded := true, slot0 := MAX_SPRITES, slot1 := MAX_SPRITES)))
    else HideOrRestore(w, 1)
  }

  // ---------------------------------------------------------------------
  // Lemmas about the prompt lifecycle

  /** A callback that destroys its sprite frees the sprite's sheet and the
      shared palette, removes the sprite and empties its slot, and touches
      nothing else. */
  lemma CallbackDestroyFrees(w: World, id: int)
    requires id in w.gfx.sprites && w.gfx.sprites[id].kind.Prompt?
    requires Step(w.gfx.sprites[id].kind.role, w.gfx.sprites[id].x, w.gfx.sprites[id].hide) == Destroyed
    ensures var role := w.gfx.sprites[id].kind.role;
            var w1 := Callback(w, id);
            && w1.gfx.sprites == w.gfx.sprites - {id}
            && w1.gfx.tiles == w.gfx.tiles - {SheetTag(role)}
            && w1.gfx.palettes == w.gfx.palettes - {ABILITY_POP_UP_TAG}
            && w1.types == w.types
            && (role == InfoIcon ==> w1.menu == w.menu.(slot0 := MAX_SPRITES))
            && (role == PromptWindow ==> w1.menu == w.menu.(loaded := false, slot1 := MAX_SPRITES))
  {
  }

  /** A callback that does not destroy its sprite moves only that sprite. */
  lemma CallbackMovesOnly(w: World, id: int)
    requires id in w.gfx.sprites && w.gfx.sprites[id].kind.Prompt?
    requires Step(w.gfx.sprites[id].kind.role, w.gfx.sprites[id].x, w.gfx.sprites[id].hide).Moved?
    ensures var x := Step(w.gfx.sprites[id].kind.role, w.gfx.sprites[id].x, w.gfx.sprites[id].hide).x;
            Callback(w, id) == w.(gfx := w.gfx.(sprites := w.gfx.sprites[id := w.gfx.sprites[id].(x := x)]))
  {
  }

  /** The window's destruction is the only frame event that clears `loaded`
      or empties slot 1. */
  lemma OnlyWindowClearsLoaded(w: World, id: int)
    requires id in w.gfx.sprites
    requires w.menu.loaded && w.menu.slot1 != MAX_SPRITES
    ensures var s := w.gfx.sprites[id];
            var windowDies := s.kind == Prompt(PromptWindow) && Step(PromptWindow, s.x, s.hide) == Destroyed;
            && (!Callback(w, id).menu.loaded <==> windowDies)
            && (Callback(w, id).menu.slot1 == MAX_SPRITES <==> windowDies)
  {
  }

  /** Hide and restore set the flag of each sprite named by a non-empty slot
      and change nothing else; with slot 0 empty they do nothing, even when
      slot 1 names a live sprite. */
  lemma HideOrRestoreEffect(w: World, caseId: int)
    requires caseId == 0 || caseId == 1
    ensures var w1 := HideOrRestore(w, caseId);
            && w1.menu == w.menu && w1.types == w.types
            && w1.gfx.tiles == w.gfx.tiles && w1.gfx.palettes == w.gfx.palettes
            && w1.gfx.sprites.Keys == w.gfx.sprites.Keys
            && (w.menu.slot0 == MAX_SPRITES ==> w1 == w)
            && (w.menu.slot0 != MAX_SPRITES ==>
                  forall id :: id in w.gfx.sprites ==>
                    w1.gfx.sprites[id] ==
                      if id == w.menu.slot0 || (id == w.menu.slot1 && w.menu.slot1 != MAX_SPRITES)
                      then w.gfx.sprites[id].(hide := caseId == 0)
                      else w.gfx.sprites[id])
  {
  }

  /** Adding the icon to an empty slot 0 puts a shown icon at the lowest
      free entry, if any, and makes the icon sheet resident. */
  lemma AddIconToEmptySlot(g: Gfx)
    requires InTable(g)
    ensures var (g1, id) := AddIcon(g, MAX_SPRITES);
            && id == LowestFreeId(g.sprites, 0)
            && g1.tiles == g.tiles + {TAG_INFO_ICON} && g1.palettes == g.palettes
            && g1.sprites == if id == MAX_SPRITES then g.sprites
                             else g.sprites[id := NewSprite(Prompt(InfoIcon), PROMPT_X_0)]
  {
    var (g1, id) := AddIcon(g, MAX_SPRITES);
    if id != MAX_SPRITES {
      var icon := NewSprite(Prompt(InfoIcon), PROMPT_X_0);
      assert g.sprites[id := icon][id := icon.(hide := false)] == g.sprites[id := icon];
    }
  }

  /** Adding the window to an empty slot 1 puts it at the lowest free entry,
      if any; clearing slot 0's flag changes nothing when slot 0 is empty or
      names a shown sprite. */
  lemma AddWindowToEmptySlot(g: Gfx, slot0: int)
    requires InTable(g)
    requires slot0 == MAX_SPRITES || (slot0 in g.sprites && !g.sprites[slot0].hide)
    ensures var (g1, id) := AddWindow(g, slot0, MAX_SPRITES);
            && id == LowestFreeId(g.sprites, 0)
            && g1.tiles == g.tiles + {TAG_BIS_BUTTONS} && g1.palettes == g.palettes
            && g1.sprites == if id == MAX_SPRITES then g.sprites
                             else g.sprites[id := NewSprite(Prompt(PromptWindow), PROMPT_WIN_X_0)]
  {
    var (g1, id) := AddWindow(g, slot0, MAX_SPRITES);
    if slot0 != MAX_SPRITES {
      var win := NewSprite(Prompt(PromptWindow), PROMPT_WIN_X_0);
      var m := if id == MAX_SPRITES then g.sprites else g.sprites[id := win];
      assert m[slot0 := m[slot0].(hide := false)] == m;
    }
  }

  /** Line 153 of the window half clears the hide flag of the sprite in
      slot 0, not of the window just created: a hidden icon in slot 0 is
      shown afterwards, and the new window is shown as created. */
  lemma AddWindowShowsSlot0Sprite(g: Gfx, s0: int)
    requires InTable(g) && s0 in g.sprites && g.sprites[s0].hide
    ensures var (g1, id) := AddWindow(g, s0, MAX_SPRITES);
            && s0 in g1.sprites && !g1.sprites[s0].hide
            && g1.sprites[s0] == g.sprites[s0].(hide := false)
            && (id != MAX_SPRITES ==> id != s0 && id in g1.sprites && !g1.sprites[id].hide)
  {
  }

  /** Restore before the prompt is loaded: it marks the prompt loaded, forgets
      whatever the slots named, loads the missing sheets and the palette, and
      creates the icon and then the window at their retracted coordinates
      in the lowest free entries; a full table leaves a slot empty. */
  lemma RestoreWhenUnloaded(w: World)
    requires InTable(w.gfx) && !w.menu.loaded
    ensures var i0 := LowestFreeId(w.gfx.sprites, 0);
            var m0 := if i0 == MAX_SPRITES then w.gfx.sprites
                      else w.gfx.sprites[i0 := NewSprite(Prompt(InfoIcon), PROMPT_X_0)];
            var i1 := LowestFreeId(m0, 0);
            var w1 := Restore(w);
            && w1.menu == w.menu.(loaded := true, slot0 := i0, slot1 := i1)
            && w1.types == w.types
            && w1.gfx.tiles == w.gfx.tiles + {TAG_INFO_ICON, TAG_BIS_BUTTONS}
            && w1.gfx.palettes == w.gfx.palettes + {ABILITY_POP_UP_TAG}
            && w1.gfx.sprites == if i1 == MAX_SPRITES then m0
                                 else m0[i1 := NewSprite(Prompt(PromptWindow), PROMPT_WIN_X_0)]
  {
    var g0 := LoadPalette(w.gfx, ABILITY_POP_UP_TAG);
    AddIconToEmptySlot(g0);
    var (g2, s0) := AddIcon(g0, MAX_SPRITES);
    AddWindowToEmptySlot(g2, s0);
  }

  /** Restore once loaded only clears hide flags. */
  lemma RestoreWhenLoaded(w: World)
    requires w.menu.loaded
    ensures Restore(w) == HideOrRestore(w, 1)
    ensures Restore(w).menu == w.menu && Restore(w).gfx.tiles == w.gfx.tiles
    ensures Restore(w).gfx.sprites.Keys == w.gfx.sprites.Keys
  {
  }

  /** After a restore the sprites in the slots are not hiding, unless slot
      0 is empty, in which case restore does nothing and a window in slot 1
      keeps its flag. */
  predicate SlotsShown(w: World)
  {
    w.menu.slot0 != MAX_SPRITES ==>
      && (w.menu.slot0 in w.gfx.sprites ==> !w.gfx.sprites[w.menu.slot0].hide)
      && (w.menu.slot1 != MAX_SPRITES && w.menu.slot1 in w.gfx.sprites ==> !w.gfx.sprites[w.menu.slot1].hide)
  }

  lemma RestoreShows(w: World)
    requires InTable(w.gfx)
    ensures Restore(w).menu.loaded
    ensures SlotsShown(Restore(w))
  {
    if !w.menu.loaded {
      RestoreWhenUnloaded(w);
      var i0 := LowestFreeId(w.gfx.sprites, 0);
      var m0 := if i0 == MAX_SPRITES then w.gfx.sprites
                else w.gfx.sprites[i0 := NewSprite(Prompt(InfoIcon), PROMPT_X_0)];
      var i1 := LowestFreeId(m0, 0);
      var w1 := Restore(w);
      assert w1.menu.slot0 == i0 && w1.menu.slot1 == i1;
      if i0 != MAX_SPRITES {
        assert i0 in m0 && i1 != i0;
        assert w1.gfx.sprites[i0] == NewSprite(Prompt(InfoIcon), PROMPT_X_0);
      }
      if i1 != MAX_SPRITES {
        assert w1.gfx.sprites[i1] == NewSprite(Prompt(PromptWindow), PROMPT_WIN_X_0);
      }
    }
  }

  /** Flags already clear are left as they are. */
  lemma RestoreOfShownIsIdentity(w: World)
    requires SlotsShown(w)
    ensures HideOrRestore(w, 1) == w
  {
    if w.menu.slot0 != MAX_SPRITES {
      var g1 := SetHideIfLive(w.gfx, w.menu.slot0, false);
      assert g1 == w.gfx by {
        if w.menu.slot0 in w.gfx.sprites {
          assert w.gfx.sprites[w.menu.slot0 := w.gfx.sprites[w.menu.slot0].(hide := false)] == w.gfx.sprites;
        }
      }
      if w.menu.slot1 != MAX_SPRITES && w.menu.slot1 in w.gfx.sprites {
        assert w.gfx.sprites[w.menu.slot1 := w.gfx.sprites[w.menu.slot1].(hide := false)] == w.gfx.sprites;
      }
    }
  }

  /** The last hide-or-restore wins. */
  lemma HideThenRestore(w: World)
    ensures HideOrRestore(HideOrRestore(w, 0), 1) == HideOrRestore(w, 1)
  {
    if w.menu.slot0 != MAX_SPRITES {
      var a := HideOrRestore(HideOrRestore(w, 0), 1).gfx.sprites;
      var b := HideOrRestore(w, 1).gfx.sprites;
      assert a.Keys == b.Keys;
      forall id | id in a
        ensures a[id] == b[id]
      {
      }
    }
  }

  /** restore, hide, restore ends where a single restore does. */
  lemma RestoreHideRestore(w: World)
    requires InTable(w.gfx)
    ensures Restore(Hide(Restore(w))) == Restore(w)
  {
    var w1 := Restore(w);
    RestoreShows(w);
    HideThenRestore(w1);
    RestoreOfShownIsIdentity(w1);
  }

  /** Restore is idempotent. */
  lemma RestoreIdempotent(w: World)
    requires InTable(w.gfx)
    ensures Restore(Restore(w)) == Restore(w)
  {
    RestoreShows(w);
    RestoreOfShownIsIdentity(Restore(w));
  }

  /** With slot 0 empty the prompt ignores hide and, once loaded, restore. */
  lemma EmptySlot0Stuck(w: World)
    requires w.menu.loaded && w.menu.slot0 == MAX_SPRITES
    ensures Hide(w) == w && Restore(w) == w
  {
  }

  /** A restore in the frame between the window's and the icon's destruction
      (the window is gone, the old icon `a` still lives one pixel from its
      retracted coordinate) creates a second icon.  The old icon's last
      frame then frees the icon sheet and empties slot 0, so the new icon
      is alive but in no slot, and the prompt can no longer be hidden. */
  lemma RestoreInGapOrphansIcon(w: World, a: int)
    requires InTable(w.gfx)
    requires !w.menu.loaded && w.menu.slot0 == a && w.menu.slot1 == MAX_SPRITES
    requires a in w.gfx.sprites
    requires w.gfx.sprites[a] == w.gfx.sprites[a].(kind := Prompt(InfoIcon), x := PROMPT_X_0 + 1, hide := true)
    requires TAG_INFO_ICON in w.gfx.tiles
    requires LowestFreeId(w.gfx.sprites, 0) != MAX_SPRITES
    ensures var w1 := Restore(w);
            var n := w1.menu.slot0;
            && n != a && a in w1.gfx.sprites && w1.gfx.sprites[a] == w.gfx.sprites[a]
            && n in w1.gfx.sprites && w1.gfx.sprites[n] == NewSprite(Prompt(InfoIcon), PROMPT_X_0)
            && var w2 := Callback(w1, a);
               && w2.menu.loaded && w2.menu.slot0 == MAX_SPRITES
               && n in w2.gfx.sprites && w2.gfx.sprites[n].kind == Prompt(InfoIcon)
               && TAG_INFO_ICON !in w2.gfx.tiles
               && Hide(w2) == w2 && Restore(w2) == w2
  {
    RestoreWhenUnloaded(w);
    var w1 := Restore(w);
    assert w1.gfx.sprites[a] == w.gfx.sprites[a];
    CallbackDestroyFrees(w1, a);
  }

  // ---------------------------------------------------------------------
  // Damage estimate and panel

  const U32_RANGE: int := 0x1_0000_0000
  const U16_RANGE: int := 0x1_0000

  type u32 = x: int | 0 <= x < U32_RANGE
  type u16 = x: int | 0 <= x < U16_RANGE

  /** `dmg * 1000 / maxHP` in u32 arithmetic. */
  function MaxPermille(dmg: u32, maxHP: u16): (p: int)
    requires maxHP > 0
    ensures 0 <= p < U32_RANGE
  {
    (dmg * 1000 % U32_RANGE) / maxHP
  }

  /** `(dmg * 86 / 100) * 1000 / maxHP` in u32 arithmetic. */
  function MinPermille(dmg: u32, maxHP: u16): (p: int)
    requires maxHP > 0
    ensures 0 <= p < U32_RANGE
  {
    var minDmg := (dmg * 86 % U32_RANGE) / 100;
    (minDmg * 1000 % U32_RANGE) / maxHP
  }

  datatype PotentialDamage = PotentialDamage(min: int, max: int, speed: Speed)

  /** CalcPotentialDamage: the speed order of attacker against target, and
      the damage range in thousandths of the target's maximum HP, narrowed
      to u16. */
  function CalcPotentialDamage(dmg: u32, atkSpeed: u32, defSpeed: u32, maxHP: u16): (r: PotentialDamage)
    requires maxHP > 0
    ensures r.speed == First <==> atkSpeed > defSpeed
    ensures r.speed == Second <==> atkSpeed < defSpeed
    ensures r.speed == Tie <==> atkSpeed == defSpeed
    ensures 0 <= r.min < U16_RANGE && 0 <= r.max < U16_RANGE
  {
    var speed := if atkSpeed > defSpeed then First else if atkSpeed < defSpeed then Second else Tie;
    PotentialDamage(MinPermille(dmg, maxHP) % U16_RANGE, MaxPermille(dmg, maxHP) % U16_RANGE, speed)
  }

  lemma DivMonotone(a: int, b: int, c: int)
    requires 0 <= a <= b && 0 < c
    ensures a / c <= b / c
  {
    MulCancel(c, a / c, b / c + 1);
  }

  lemma NarrowOrdered(lo: int, hi: int)
    requires 0 <= lo <= hi < U16_RANGE
    ensures lo % U16_RANGE <= hi % U16_RANGE
    ensures (lo % U16_RANGE) / 10 <= (hi % U16_RANGE) / 10
  {
    SmallMod(lo, U16_RANGE);
    SmallMod(hi, U16_RANGE);
    DivMonotone(lo, hi, 10);
  }

  lemma MulCancel(c: int, x: int, y: int)
    requires 0 < c && c * x < c * y
    ensures x < y
  {
  }

  /** Without u32 wrap-around the bounds are the intended per-mille values:
      the damage, and 86% of it, in thousandths of the maximum HP. */
  lemma PermilleWithoutWrap(dmg: u32, maxHP: u16)
    requires maxHP > 0 && dmg * 1000 < U32_RANGE
    ensures MaxPermille(dmg, maxHP) == dmg * 1000 / maxHP
    ensures MinPermille(dmg, maxHP) == (dmg * 86 / 100) * 1000 / maxHP
  {
    var big := dmg * 1000;
    SmallMod(big, U32_RANGE);
    var scaled := dmg * 86;
    MulMono(86, 1000, dmg);
    SmallMod(scaled, U32_RANGE);
    var minDmg := scaled / 100;
    MinDamageAtMostDamage(dmg);
    MulMono(minDmg, dmg, 1000);
    SmallMod(minDmg * 1000, U32_RANGE);
  }

  lemma SmallMod(x: int, m: int)
    requires 0 <= x < m
    ensures x % m == x
  {
  }

  lemma MulMono(x: int, y: int, k: nat)
    requires x <= y
    ensures x * k <= y * k
  {
  }

  lemma MinDamageAtMostDamage(dmg: nat)
    ensures dmg * 86 / 100 <= dmg
  {
    MulMono(86, 100, dmg);
    DivMonotone(dmg * 86, dmg * 100, 100);
  }

  /** Without u32 wrap-around the minimum does not exceed the maximum. */
  lemma DamageBoundsOrdered(dmg: u32, maxHP: u16)
    requires maxHP > 0 && dmg * 1000 < U32_RANGE
    ensures MinPermille(dmg, maxHP) <= MaxPermille(dmg, maxHP)
  {
    PermilleWithoutWrap(dmg, maxHP);
    var minDmg := dmg * 86 / 100;
    MinDamageAtMostDamage(dmg);
    MulMono(minDmg, dmg, 1000);
    DivMonotone(minDmg * 1000, dmg * 1000, maxHP);
  }

  /** When the maximum fits in u16 the narrowed range is ordered too. */
  lemma NarrowedRangeOrdered(dmg: u32, atkSpeed: u32, defSpeed: u32, maxHP: u16)
    requires maxHP > 0 && dmg * 1000 < U32_RANGE && MaxPermille(dmg, maxHP) < U16_RANGE
    ensures var r := CalcPotentialDamage(dmg, atkSpeed, defSpeed, maxHP);
            r.min <= r.max && r.min / 10 <= r.max / 10
  {
    var lo, hi := MinPermille(dmg, maxHP), MaxPermille(dmg, maxHP);
    var r := CalcPotentialDamage(dmg, atkSpeed, defSpeed, maxHP);
    assert r.min == lo % U16_RANGE && r.max == hi % U16_RANGE;
    DamageBoundsOrdered(dmg, maxHP);
    NarrowOrdered(lo, hi);
  }

  /** With one maximum HP a damage of 66 overflows u16: the stored bounds
      are 56000 and 464, i.e. 5600 and 46 after the division by ten. */
  lemma NarrowingCanInvert()
    ensures CalcPotentialDamage(66, 0, 0, 1).min == 56000
    ensures CalcPotentialDamage(66, 0, 0, 1).max == 464
  {
  }

  const B_POSITION_OPPONENT_LEFT: int := 1
  const B_POSITION_OPPONENT_RIGHT: int := 3

  /** GetShowPokemon.  The source passes a position constant to
      GetBattlerPosition, which maps a battler to its position: `positions`
      is that map (gBattlerPositions). */
  function GetShowPokemon(isDouble: bool, selectedDoubleMon: bool, positions: seq<int>): (b: int)
    requires |positions| == 4
    ensures !isDouble ==> b == positions[B_POSITION_OPPONENT_LEFT]
    ensures positions == [0, 1, 2, 3] ==>
              b == if isDouble && selectedDoubleMon then B_POSITION_OPPONENT_RIGHT else B_POSITION_OPPONENT_LEFT
  {
    if !isDouble then positions[B_POSITION_OPPONENT_LEFT]
    else if selectedDoubleMon then positions[B_POSITION_OPPONENT_RIGHT]
    else positions[B_POSITION_OPPONENT_LEFT]
  }

  /** A battler as the damage estimate sees it. */
  datatype Target = Target(damage: u32, speed: u32, maxHP: u16)

  /** The selected move (`gBattleMoves` entry and id), the attacker's speed,
      each battler's estimate inputs, and gBattlerPositions. */
  datatype MoveContext = MoveContext(move: int, power: int, accuracy: int, isStatus: bool,
                                     attackerSpeed: u32, battlers: seq<Target>, positions: seq<int>)

  predicate ValidContext(c: MoveContext)
  {
    && |c.battlers| == 4 && |c.positions| == 4
    && (forall i :: 0 <= i < 4 ==> 0 <= c.positions[i] < 4)
    && (forall i :: 0 <= i < 4 ==> c.battlers[i].maxHP > 0)
  }

  function NumberOrDashes(v: int): (f: Field)
    ensures f == Dashes <==> v == 0
    ensures f.Number? ==> f.n == v
  {
    if v != 0 then Number(v) else Dashes
  }

  /** The fields MoveSelectionDisplayMoveData chooses: power and accuracy,
      or "---" when zero; the speed text with the range in whole percent for
      damaging moves, the speed text alone for status moves. */
  function MovePanel(c: MoveContext, d: PotentialDamage): (p: Panel)
    ensures p.MoveData? && p.move == c.move
    ensures p.power == NumberOrDashes(c.power) && p.accuracy == NumberOrDashes(c.accuracy)
    ensures p.estimate.speed == d.speed
    ensures p.estimate.SpeedOnly? <==> c.isStatus
    ensures p.estimate.DamageRange? ==> p.estimate.lo == d.min / 10 && p.estimate.hi == d.max / 10
  {
    var estimate := if !c.isStatus then DamageRange(d.speed, d.min / 10, d.max / 10) else SpeedOnly(d.speed);
    MoveData(NumberOrDashes(c.power), NumberOrDashes(c.accuracy), estimate, c.move)
  }

  /** The battler the popup is about. */
  function ShownBattler(w: World, isDouble: bool, c: MoveContext): (b: int)
    requires ValidContext(c)
    ensures 0 <= b < 4
  {
    GetShowPokemon(isDouble, w.menu.selectedDoubleMon, c.positions)
  }

  /** MoveSelectionDisplayMoveData: fills the panel for the shown battler;
      a description window is allocated only while inactive. */
  function DisplayMoveData(w: World, c: MoveContext, isDouble: bool, newWindow: int): (w1: World)
    requires ValidContext(c)
    ensures w1.gfx == w.gfx && w1.types == w.types
    ensures w1.menu.panel.MoveData? && w1.menu.panel.move == c.move
    ensures w1.menu == w.menu.(panel := w1.menu.panel, window := w1.menu.window, windowsHeld := w1.menu.windowsHeld)
  {
    var t := c.battlers[ShownBattler(w, isDouble, c)];
    var d := CalcPotentialDamage(t.damage, c.attackerSpeed, t.speed, t.maxHP);
    var m := w.menu.(panel := MovePanel(c, d));
    w.(menu := if !w.menu.active then m.(window := newWindow, windowsHeld := m.windowsHeld + 1) else m)
  }

  /** Displaying fills the panel for the battler the popup is about and
      allocates a window only while inactive; the prompt, the icons and
      the mode are untouched. */
  lemma DisplayAllocatesOnlyWhenInactive(w: World, c: MoveContext, isDouble: bool, newWindow: int)
    requires ValidContext(c)
    ensures var w1 := DisplayMoveData(w, c, isDouble, newWindow);
            var t := c.battlers[ShownBattler(w, isDouble, c)];
            && w1.gfx == w.gfx && w1.types == w.types
            && w1.menu.active == w.menu.active && w1.menu.loaded == w.menu.loaded
            && w1.menu.selectedDoubleMon == w.menu.selectedDoubleMon
            && w1.menu.panel == MovePanel(c, CalcPotentialDamage(t.damage, c.attackerSpeed, t.speed, t.maxHP))
            && w1.menu.windowsHeld == w.menu.windowsHeld + (if w.menu.active then 0 else 1)
            && w1.menu.window == (if w.menu.active then w.menu.window else newWindow)
  {
  }

  /** Sets battler `b`'s sprite callback to SpriteCb_ShowAsMoveTarget or
      SpriteCb_HideAsMoveTarget. */
  function SetTargetHighlight(w: World, b: int, shown: bool): World
  {
    w.(menu := w.menu.(highlighted := if shown then w.menu.highlighted + {b} else w.menu.highlighted - {b}))
  }

  // ---------------------------------------------------------------------
  // Input

  /** A and B newly pressed, L held, left or right newly pressed. */
  datatype Keys = Keys(aNew: bool, bNew: bool, lHeld: bool, leftRightNew: bool)

  datatype InputResult = Continue | Break | Refresh

  /** HandleInputMoveInfo. */
  function HandleInput(w: World, keys: Keys, isDouble: bool, c: MoveContext, newWindow: int): (r: (World, InputResult))
    requires ValidContext(c)
    ensures r.1 == Break ==> r.0.menu.active
    ensures r.1 != Break ==> !r.0.menu.active
    ensures InTable(w.gfx) ==> InTable(r.0.gfx)
  {
    if w.menu.active && (keys.aNew || keys.bNew) then
      var w1 := Restore(w.(menu := w.menu.(active := false)));
      var w2 := w1.(menu := w1.menu.(windowsHeld := w1.menu.windowsHeld - 1));
      (if isDouble then SetTargetHighlight(w2, ShownBattler(w2, isDouble, c), false) else w2, Refresh)
    else
      var w1 :=
        if w.menu.active then
          if isDouble && keys.leftRightNew then
            var a := SetTargetHighlight(w, ShownBattler(w, isDouble, c), false);
            var b := a.(menu := a.menu.(selectedDoubleMon := !a.menu.selectedDoubleMon));
            DisplayMoveData(SetTargetHighlight(b, ShownBattler(b, isDouble, c), true), c, isDouble, newWindow)
          else w
        else
          var a := Restore(w);
          var b :=
            if keys.aNew && keys.lHeld then
              var d := Hide(DisplayMoveData(a, c, isDouble, newWindow));
              var e := d.(menu := d.menu.(active := true));
              var (t1, g1) := DestroyIcons(e.types, e.gfx);
              var f := e.(types := t1, gfx := g1);
              if isDouble then SetTargetHighlight(f, ShownBattler(f, isDouble, c), true) else f
            else a;
          if keys.aNew || keys.bNew then Hide(b) else b;
      (w1, if w1.menu.active then Break else Continue)
  }

  /** While active, A or B closes the popup: REFRESH, inactive, the window
      released, the prompt restored and, in a double battle, the shown
      battler no longer highlighted. */
  lemma ConfirmCloses(w: World, keys: Keys, isDouble: bool, c: MoveContext, newWindow: int)
    requires ValidContext(c) && w.menu.active && (keys.aNew || keys.bNew)
    ensures var (w1, r) := HandleInput(w, keys, isDouble, c, newWindow);
            && r == Refresh && !w1.menu.active && w1.menu.loaded
            && w1.gfx == Restore(w.(menu := w.menu.(active := false))).gfx
            && (isDouble ==> ShownBattler(w, isDouble, c) !in w1.menu.highlighted)
            && w1.menu.windowsHeld == w.menu.windowsHeld - 1
            && w1.menu.selectedDoubleMon == w.menu.selectedDoubleMon
            && w1.types == w.types
  {
  }

  /** While active without A or B, left/right flips the shown battler only
      in a double battle, moving the highlight to the new battler and
      showing its panel; the result is BREAK and no window is allocated. */
  lemma SwitchOnlyInDouble(w: World, keys: Keys, isDouble: bool, c: MoveContext, newWindow: int)
    requires ValidContext(c) && w.menu.active && !keys.aNew && !keys.bNew
    ensures var (w1, r) := HandleInput(w, keys, isDouble, c, newWindow);
            && r == Break && w1.menu.active
            && w1.menu.selectedDoubleMon == (w.menu.selectedDoubleMon != (isDouble && keys.leftRightNew))
            && w1.menu.windowsHeld == w.menu.windowsHeld
            && w1.gfx == w.gfx && w1.types == w.types
            && (!(isDouble && keys.leftRightNew) ==> w1 == w)
            && var oldB := GetShowPokemon(true, w.menu.selectedDoubleMon, c.positions);
               var newB := GetShowPokemon(true, !w.menu.selectedDoubleMon, c.positions);
               var t := c.battlers[newB];
               (isDouble && keys.leftRightNew ==>
                  && w1.menu.panel == MovePanel(c, CalcPotentialDamage(t.damage, c.attackerSpeed, t.speed, t.maxHP))
                  && w1.menu.highlighted == (w.menu.highlighted - {oldB}) + {newB}
                  && w1.menu.window == w.menu.window)
  {
  }

  /** While inactive, the popup opens exactly on A newly pressed with L held;
      only then is a window allocated, the panel filled for the shown
      battler, that battler highlighted and the type icons destroyed. */
  lemma OpenNeedsLAndA(w: World, keys: Keys, isDouble: bool, c: MoveContext, newWindow: int)
    requires ValidContext(c) && !w.menu.active
    ensures var (w1, r) := HandleInput(w, keys, isDouble, c, newWindow);
            var opens := keys.aNew && keys.lHeld;
            && (w1.menu.active <==> opens)
            && r == (if opens then Break else Continue)
            && w1.menu.windowsHeld == w.menu.windowsHeld + (if opens then 1 else 0)
            && w1.menu.loaded
            && (opens ==> w1.types == TypeState(MAX_SPRITES, MAX_SPRITES, false))
            && (!opens ==> w1.types == w.types)
            && (var t := c.battlers[ShownBattler(w, isDouble, c)];
                opens ==>
                  && w1.menu.panel == MovePanel(c, CalcPotentialDamage(t.damage, c.attackerSpeed, t.speed, t.maxHP))
                  && w1.menu.window == newWindow
                  && (isDouble ==> ShownBattler(w, isDouble, c) in w1.menu.highlighted))
            && (!opens ==> w1 == (if keys.aNew || keys.bNew then Hide(Restore(w)) else Restore(w)))
            && ((keys.aNew || keys.bNew) && w1.menu.slot0 != MAX_SPRITES ==>
                  (w1.menu.slot0 in w1.gfx.sprites ==> w1.gfx.sprites[w1.menu.slot0].hide)
                  && (w1.menu.slot1 != MAX_SPRITES && w1.menu.slot1 in w1.gfx.sprites ==>
                        w1.gfx.sprites[w1.menu.slot1].hide))
  {
  }

  /** The result is REFRESH on closing, otherwise BREAK iff active. */
  lemma ResultTracksActive(w: World, keys: Keys, isDouble: bool, c: MoveContext, newWindow: int)
    requires ValidContext(c)
    ensures var (w1, r) := HandleInput(w, keys, isDouble, c, newWindow);
            && (r == Refresh <==> w.menu.active && (keys.aNew || keys.bNew))
            && (r != Refresh ==> (r == Break <==> w1.menu.active))
  {
  }

  /** Exactly one description window is held while active and none while
      inactive. */
  lemma WindowHeldIffActive(w: World, keys: Keys, isDouble: bool, c: MoveContext, newWindow: int)
    requires ValidContext(c)
    requires w.menu.windowsHeld == if w.menu.active then 1 else 0
    ensures var (w1, r) := HandleInput(w, keys, isDouble, c, newWindow);
            w1.menu.windowsHeld == if w1.menu.active then 1 else 0
  {
    if w.menu.active {
      if keys.aNew || keys.bNew {
        ConfirmCloses(w, keys, isDouble, c, newWindow);
      } else {
        SwitchOnlyInDouble(w, keys, isDouble, c, newWindow);
      }
    } else {
      OpenNeedsLAndA(w, keys, isDouble, c, newWindow);
    }
  }

  /** Input handling never clears `loaded`. */
  lemma InputKeepsLoaded(w: World, keys: Keys, isDouble: bool, c: MoveContext, newWindow: int)
    requires ValidContext(c) && w.menu.loaded
    ensures HandleInput(w, keys, isDouble, c, newWindow).0.menu.loaded
  {
  }

  // ---------------------------------------------------------------------
  // `sBattleMenuState`, updated in place

  class BattleMenu {
    const eng: Engine
    const types: TypeInfo
    const buttonPromptSprites: array<int>
    var loaded: bool
    var active: bool
    var selectedDoubleMon: bool
    var window: int
    var windowsHeld: int
    var highlighted: set<int>
    var panel: Panel

    ghost predicate Valid()
      reads eng
    {
      buttonPromptSprites.Length == 2 && types.eng == eng && eng.Valid()
    }

    /** The zero-initialised state at start-up: both slots hold 0, not
        MAX_SPRITES, until the first restore. */
    constructor (eng: Engine, types: TypeInfo)
      requires types.eng == eng && eng.Valid()
      ensures Valid() && fresh(buttonPromptSprites)
      ensures Snapshot() == World(Menu(false, false, false, 0, 0, 0, 0, {}, Blank), types.State(), eng.State())
    {
      this.eng := eng;
      this.types := types;
      buttonPromptSprites := new int[2](_ => 0);
      loaded, active, selectedDoubleMon := false, false, false;
      window, windowsHeld, highlighted, panel := 0, 0, {}, Blank;
    }

    function Snapshot(): World
      reads this, buttonPromptSprites, types, eng
      requires Valid()
    {
      World(Menu(loaded, active, selectedDoubleMon, buttonPromptSprites[0], buttonPromptSprites[1],
                 window, windowsHeld, highlighted, panel),
            types.State(), eng.State())
    }

    method TryAddButtonPromptItemSprites()
      requires Valid()
      modifies buttonPromptSprites, eng
      ensures Valid()
      ensures Snapshot() == AddPromptSprites(old(Snapshot()))
    {
      eng.LoadSpritePalette(ABILITY_POP_UP_TAG);
      if TAG_INFO_ICON !in eng.tiles {
        eng.LoadSpriteSheet(TAG_INFO_ICON);
      }
      if buttonPromptSprites[0] == MAX_SPRITES {
        var id := eng.CreateSprite(NewSprite(Prompt(InfoIcon), PROMPT_X_0));
        buttonPromptSprites[0] := id;
        eng.WriteHide(buttonPromptSprites[0], false);
      }
      if TAG_BIS_BUTTONS !in eng.tiles {
        eng.LoadSpriteSheet(TAG_BIS_BUTTONS);
      }
      if buttonPromptSprites[1] == MAX_SPRITES {
        var id := eng.CreateSprite(NewSprite(Prompt(PromptWindow), PROMPT_WIN_X_0));
        buttonPromptSprites[1] := id;
        eng.WriteHide(buttonPromptSprites[0], false);
      }
    }

    method DestroyButtonPromptWinGfx(id: int)
      requires Valid()
      modifies this, buttonPromptSprites, eng
      ensures Valid()
      ensures Snapshot() == DestroyPromptGfx(old(Snapshot()), PromptWindow, id)
    {
      eng.FreeSpriteTilesByTag(TAG_BIS_BUTTONS);
      eng.FreeSpritePaletteByTag(ABILITY_POP_UP_TAG);
      eng.DestroySprite(id);
      loaded := false;
      buttonPromptSprites[1] := MAX_SPRITES;
    }

    method DestroyButtonPromptGfx(id: int)
      requires Valid()
      modifies buttonPromptSprites, eng
      ensures Valid()
      ensures Snapshot() == DestroyPromptGfx(old(Snapshot()), InfoIcon, id)
    {
      eng.FreeSpriteTilesByTag(TAG_INFO_ICON);
      eng.FreeSpritePaletteByTag(ABILITY_POP_UP_TAG);
      eng.DestroySprite(id);
      buttonPromptSprites[0] := MAX_SPRITES;
    }

    method ButtonPromptWinCallback(id: int)
      requires Valid() && id in eng.sprites && eng.sprites[id].kind == Prompt(PromptWindow)
      modifies this, buttonPromptSprites, eng
      ensures Valid()
      ensures Snapshot() == Callback(old(Snapshot()), id)
    {
      if eng.sprites[id].hide {
        if eng.sprites[id].x != PROMPT_WIN_X_0 {
          eng.WriteX(id, eng.sprites[id].x - 1);
        }
        if eng.sprites[id].x == PROMPT_WIN_X_0 {
          DestroyButtonPromptWinGfx(id);
        }
      } else if eng.sprites[id].x != PROMPT_WIN_X_F {
        eng.WriteX(id, eng.sprites[id].x + 1);
      }
    }

    method InfoIconCallback(id: int)
      requires Valid() && id in eng.sprites && eng.sprites[id].kind == Prompt(InfoIcon)
      modifies buttonPromptSprites, eng
      ensures Valid()
      ensures Snapshot() == Callback(old(Snapshot()), id)
    {
      if eng.sprites[id].hide {
        if eng.sprites[id].x != PROMPT_X_0 {
          eng.WriteX(id, eng.sprites[id].x - 1);
        }
        if eng.sprites[id].x == PROMPT_X_0 {
          DestroyButtonPromptGfx(id);
        }
      } else if eng.sprites[id].x != PROMPT_X_F {
        eng.WriteX(id, eng.sprites[id].x + 1);
      }
    }

    method TryHideOrRestore(caseId: int)
      requires Valid()
      modifies eng
      ensures Valid()
      ensures Snapshot() == HideOrRestore(old(Snapshot()), caseId)
    {
      if buttonPromptSprites[0] == MAX_SPRITES {
        return;
      }
      if caseId == 0 {
        if buttonPromptSprites[0] != MAX_SPRITES {
          eng.WriteHide(buttonPromptSprites[0], true);
        }
        if buttonPromptSprites[1] != MAX_SPRITES {
          eng.WriteHide(buttonPromptSprites[1], true);
        }
      } else if caseId == 1 {
        if buttonPromptSprites[0] != MAX_SPRITES {
          eng.WriteHide(buttonPromptSprites[0], false);
        }
        if buttonPromptSprites[1] != MAX_SPRITES {
          eng.WriteHide(buttonPromptSprites[1], false);
        }
      }
    }

    method TryHide()
      requires Valid()
      modifies eng
      ensures Valid()
      ensures Snapshot() == Hide(old(Snapshot()))
    {
      TryHideOrRestore(0);
    }

    method TryRestore()
      requires Valid()
      modifies this, buttonPromptSprites, eng
      ensures Valid()
      ensures Snapshot() == Restore(old(Snapshot()))
    {
      if !loaded {
        loaded := true;
        buttonPromptSprites[0] := MAX_SPRITES;
        buttonPromptSprites[1] := MAX_SPRITES;
        TryAddButtonPromptItemSprites();
      } else {
        TryHideOrRestore(1);
      }
    }

    method MoveSelectionDisplayMoveData(c: MoveContext, isDouble: bool, newWindow: int)
      requires Valid() && ValidContext(c)
      modifies this
      ensures Valid()
      ensures Snapshot() == DisplayMoveData(old(Snapshot()), c, isDouble, newWindow)
    {
      var t := c.battlers[GetShowPokemon(isDouble, selectedDoubleMon, c.positions)];
      var d := CalcPotentialDamage(t.damage, c.attackerSpeed, t.speed, t.maxHP);
      panel := MovePanel(c, d);
      if !active {
        window := newWindow;
        windowsHeld := windowsHeld + 1;
      }
    }

    method SetMoveTargetCallback(b: int, shown: bool)
      requires Valid()
      modifies this
      ensures Valid()
      ensures Snapshot() == SetTargetHighlight(old(Snapshot()), b, shown)
    {
      highlighted := if shown then highlighted + {b} else highlighted - {b};
    }

    method RemoveWindow()
      requires Valid()
      modifies this
      ensures Valid()
      ensures Snapshot() == old(Snapshot()).(menu := old(Snapshot()).menu.(windowsHeld := old(windowsHeld) - 1))
    {
      windowsHeld := windowsHeld - 1;
    }

    method HandleInputMoveInfo(keys: Keys, isDouble: bool, c: MoveContext, newWindow: int)
      returns (r: InputResult)
      requires Valid() && ValidContext(c)
      modifies this, buttonPromptSprites, eng, types
      ensures Valid()
      ensures (Snapshot(), r) == HandleInput(old(Snapshot()), keys, isDouble, c, newWindow)
    {
      if active {
        if keys.aNew || keys.bNew {
          active := false;
          TryRestore();
          RemoveWindow();
          if isDouble {
            SetMoveTargetCallback(GetShowPokemon(isDouble, selectedDoubleMon, c.positions), false);
          }
          return Refresh;
        }
        if isDouble && keys.leftRightNew {
          SetMoveTargetCallback(GetShowPokemon(isDouble, selectedDoubleMon, c.positions), false);
          selectedDoubleMon := !selectedDoubleMon;
          SetMoveTargetCallback(GetShowPokemon(isDouble, selectedDoubleMon, c.positions), true);
          MoveSelectionDisplayMoveData(c, isDouble, newWindow);
        }
      } else {
        TryRestore();
        if keys.aNew && keys.lHeld {
          MoveSelectionDisplayMoveData(c, isDouble, newWindow);
          TryHide();
          active := true;
          types.TypeInfoDestroySprites();
          if isDouble {
            SetMoveTargetCallback(GetShowPokemon(isDouble, selectedDoubleMon, c.positions), true);
          }
        }
        if keys.aNew || keys.bNew {
          TryHide();
        }
      }
      r := if active then Break else Continue;
    }
  }
}
