# Battle move-menu overlays

This project models two overlays of the battle move-selection menu in a
pokeemerald-based game.

- **The move-info popup** (`src/battle_interface.move_info.c`):
  - Two button-prompt sprites slide in from the left edge of the screen and back out: an info icon and an "L+A" window.
  - An inactive/active input mode opens the popup with L+A and closes it with A or B.
  - The popup panel shows the move's power, its accuracy, the speed order against the shown opponent, and the estimated damage range in percent of that opponent's maximum HP.
- **The type overlay** (`src/battle_interface.type_sprite.c`):
  - A move-type icon and a move-split icon, created on demand and destroyed together.
  - The type-effectiveness symbol written beside them.

Files:

- `sprites.dfy` (module `Sprites`): the part of the sprite engine the overlays drive.
  - Engine state: a table of live sprites by id, the set of resident tile-sheet tags and the set of resident palette tags.
  - `CreateSprite` takes the lowest free id below `MAX_SPRITES` (64) and returns `MAX_SPRITES` when the table is full.
  - Class `Engine` holds these tables and changes them in place. Each of its services is proved equal to a pure function on a `Gfx` value.
  - `Engine.Valid()` says every live sprite has an id below `MAX_SPRITES`. The constructor establishes it and every service keeps it; `BattleMenu.Valid()` includes it, so every menu method keeps it too.
- `type_sprite.dfy` (module `TypeSprite`): `sTypeSprite` as class `TypeInfo`, plus the pure specifications of its operations.
  - The icon-palette table.
  - `GetTypeEffectivenessPoints` and the symbol choice of `CopyStringMoveEffect`.
  - The early exit of `ShowMoveTypeEffect`.
- `move_info.dfy` (module `MoveInfo`): `sBattleMenuState` as class `BattleMenu`, plus a pure `World` specification (menu record, type-icon record, engine state).
  - The per-frame sprite callbacks, hide and restore.
  - `GetShowPokemon`, `CalcPotentialDamage` and the field choice of `MoveSelectionDisplayMoveData`.
  - `HandleInputMoveInfo`.

Every method of the two classes promises that its new state equals a pure function of its old state. The properties are lemmas about those functions.

Behaviours of the code as written that the model keeps and proves:

- **Line 153 clears the wrong flag.** After creating the window (`src/battle_interface.move_info.c:153`), the source clears the hide flag of the sprite in slot 0, not slot 1. `AddWindow` does the same, and `AddWindowShowsSlot0Sprite` proves that a hidden sprite in slot 0 is shown afterwards. The slip has no visible effect at its only caller: the restore there has just emptied both slots, created the icon shown, and the window is created shown as well.
- **The two prompt sprites retract over different distances** (`RetractionGap`). Both move one pixel per frame, but the window travels 19 pixels (14 to -5) and the icon 20 (10 to -10). From fully shown, the window is destroyed after 19 frames and the icon after 20.
- **A restore in that one-frame gap orphans an icon** (`RestoreInGapOrphansIcon`).
  - The restore empties both slots and creates a second icon.
  - The old icon's last frame then frees the icon sheet and empties slot 0.
  - The new icon is left alive but in no slot, and from then on hide and restore do nothing.
- **The damage bounds wrap.** `CalcPotentialDamage` computes in u32 and narrows to u16. The bounds are ordered when nothing wraps (`DamageBoundsOrdered`, `NarrowedRangeOrdered`). After narrowing, the minimum can exceed the maximum: a damage of 66 against 1 maximum HP gives 56000 and 464 (`NarrowingCanInvert`).
- **The menu starts zero-initialised.** `sBattleMenuState` starts with both slots at 0, not at `MAX_SPRITES`, until the first restore.

## Model

| member | source | states |
|---|---|---|
| MoveInfo.StepStaysOnTrack | src/battle_interface.move_info.c:174-206 | a shown prompt sprite moves one pixel right per frame until its shown x (10 for the icon, 14 for the window) and stays there; a hiding one moves one pixel left and is destroyed on the frame it reaches its retracted x (-10 or -5); starting on the track it stays on it |
| MoveInfo.RetractTime | src/battle_interface.move_info.c:174-206 | a hiding sprite at x at or right of its retracted coordinate X0 lives exactly max(1, x - X0) frames, at x - n after n frames until then |
| MoveInfo.ExtendTime | src/battle_interface.move_info.c:174-206 | a shown sprite at x reaches its shown coordinate after (shown - x) frames, one pixel per frame, and stays there |
| MoveInfo.RetractionGap | src/battle_interface.move_info.c:114-119 | from fully shown the window is destroyed at frame 19 and the icon at frame 20, one pixel from its retracted coordinate in between |
| MoveInfo.CallbackDestroyFrees | src/battle_interface.move_info.c:157-172 | a destroying frame frees the sprite's sheet tag and the shared palette tag, removes the sprite and empties its slot; only the window's also clears `loaded` |
| MoveInfo.CallbackMovesOnly | src/battle_interface.move_info.c:174-206 | a non-destroying frame changes only that sprite's x |
| MoveInfo.OnlyWindowClearsLoaded | src/battle_interface.move_info.c:157-164 | a frame clears `loaded` or empties slot 1 exactly when it is the window's destroying frame |
| MoveInfo.HideOrRestoreEffect | src/battle_interface.move_info.c:208-228 | hide/restore sets the flag of each sprite named by a non-empty slot and changes nothing else; with slot 0 empty it changes nothing, even when slot 1 is live |
| MoveInfo.AddIconToEmptySlot | src/battle_interface.move_info.c:128-141 | an empty slot 0 gets a shown icon at x -10 at the lowest free id, and the icon sheet becomes resident |
| MoveInfo.AddWindowToEmptySlot | src/battle_interface.move_info.c:143-154 | an empty slot 1 gets the window at x -5 at the lowest free id; when slot 0 is empty or already shown nothing else changes |
| MoveInfo.AddWindowShowsSlot0Sprite | src/battle_interface.move_info.c:143-154 | the flag cleared after creating the window is slot 0's: a hidden sprite there is shown afterwards, and the new window, at another id, is shown as created |
| MoveInfo.RestoreWhenUnloaded | src/battle_interface.move_info.c:124-155 | before loading, restore sets `loaded`, forgets both slots, makes the two sheets and the palette resident, and creates the icon then the window in the lowest free ids |
| MoveInfo.RestoreWhenLoaded | src/battle_interface.move_info.c:235-247 | once loaded, restore only clears hide flags: menu, tags and live ids are unchanged |
| MoveInfo.RestoreShows | src/battle_interface.move_info.c:124-155 | after a restore `loaded` is set and, unless slot 0 is empty, the sprites in both slots are not hiding |
| MoveInfo.RestoreOfShownIsIdentity | src/battle_interface.move_info.c:218-223 | restoring sprites that are already shown changes nothing |
| MoveInfo.HideThenRestore | src/battle_interface.move_info.c:208-228 | a hide followed by a restore equals the restore alone |
| MoveInfo.RestoreHideRestore | src/battle_interface.move_info.c:208-247 | restore, hide, restore ends in the same state as one restore |
| MoveInfo.RestoreIdempotent | src/battle_interface.move_info.c:235-247 | a second restore changes nothing |
| MoveInfo.EmptySlot0Stuck | src/battle_interface.move_info.c:210-211 | once loaded with slot 0 empty, hide and restore do nothing |
| MoveInfo.RestoreInGapOrphansIcon | src/battle_interface.move_info.c:157-172 | a restore after the window is gone but before the old icon's last frame creates a second icon; that frame then frees the icon sheet and empties slot 0, leaving the new icon alive in no slot, with hide and restore inert |
| MoveInfo.MaxPermille | src/battle_interface.move_info.c:295 | the u32 maximum is within u32 |
| MoveInfo.MinPermille | src/battle_interface.move_info.c:290-294 | the u32 minimum is within u32 |
| MoveInfo.CalcPotentialDamage | src/battle_interface.move_info.c:271-299 | FIRST iff attacker speed > defender speed, SECOND iff <, TIE iff equal; both bounds fit in u16 |
| MoveInfo.PermilleWithoutWrap | src/battle_interface.move_info.c:290-295 | without u32 wrap the bounds are (dmg*86/100)*1000/maxHP and dmg*1000/maxHP |
| MoveInfo.DamageBoundsOrdered | src/battle_interface.move_info.c:290-295 | without u32 wrap the minimum does not exceed the maximum |
| MoveInfo.NarrowedRangeOrdered | src/battle_interface.move_info.c:290-297 | when the maximum also fits in u16 the stored and the displayed (divided by 10) bounds are ordered |
| MoveInfo.NarrowingCanInvert | src/battle_interface.move_info.c:265-297 | damage 66 against maximum HP 1 stores minimum 56000 and maximum 464 |
| MoveInfo.GetShowPokemon | src/battle_interface.move_info.c:250-257 | a single battle always shows the left opponent; with the standard position table a double battle shows the right opponent exactly when it is selected |
| MoveInfo.NumberOrDashes | src/battle_interface.move_info.c:333-346 | "---" exactly for a zero value, the value itself otherwise |
| MoveInfo.MovePanel | src/battle_interface.move_info.c:324-373 | power and accuracy are numbers or "---"; the speed text is the computed order; the range (min/10, max/10) is shown exactly for non-status moves |
| MoveInfo.ShownBattler | src/battle_interface.move_info.c:250-257 | the battler the popup is about is one of the four |
| MoveInfo.DisplayAllocatesOnlyWhenInactive | src/battle_interface.move_info.c:324-398 | displaying fills the panel for the shown battler and allocates a new window exactly when inactive; sprites, icons and mode are unchanged |
| MoveInfo.ConfirmCloses | src/battle_interface.move_info.c:410-419 | while active, A or B returns REFRESH, clears `active`, releases the window, restores the prompt (the sprite state is exactly that of a restore) and, in a double battle, removes the shown battler's highlight |
| MoveInfo.SwitchOnlyInDouble | src/battle_interface.move_info.c:420-426 | while active without A or B, the selected opponent flips exactly on left/right in a double battle, the highlight moves from the old shown battler to the new one, the panel is re-rendered for the new battler in the same window, and the result is BREAK; otherwise nothing changes |
| MoveInfo.OpenNeedsLAndA | src/battle_interface.move_info.c:428-444 | while inactive, the popup opens exactly on A newly pressed with L held; only then is a window allocated, the panel filled for the shown battler into that window, that battler highlighted in a double battle, and the type icons destroyed; the prompt is loaded afterwards; when it does not open the new state is a restore, followed by a hide on A or B; on A or B the slotted prompt sprites end hidden |
| MoveInfo.ResultTracksActive | src/battle_interface.move_info.c:446-454 | REFRESH exactly on closing; otherwise BREAK exactly when active afterwards |
| MoveInfo.WindowHeldIffActive | src/battle_interface.move_info.c:408-455 | one window held while active and none while inactive is preserved by every input |
| MoveInfo.InputKeepsLoaded | src/battle_interface.move_info.c:408-455 | input handling never clears `loaded` |
| MoveInfo.Step | src/battle_interface.move_info.c:174-206 | one frame moves a prompt sprite by at most one pixel: a shown sprite is never destroyed and never moves left, a hiding one never moves right, and only a hiding one is destroyed |
| MoveInfo.DestroyPromptGfx | src/battle_interface.move_info.c:157-172 | the sprite is gone, its sheet tag and the shared palette tag are no longer resident, its slot is empty; only the window's clears `loaded`; no other sprite is added and the icons and the mode are unchanged |
| MoveInfo.Callback | src/battle_interface.move_info.c:174-206 | a frame never adds a sprite or a tag, leaves the type icons, the mode, the selected opponent and the window count unchanged, and keeps every live sprite in the table |
| MoveInfo.HideOrRestore | src/battle_interface.move_info.c:208-228 | hide/restore changes no menu field, no tag, no type icon and no set of live ids |
| MoveInfo.Hide | src/battle_interface.move_info.c:230-233 | hiding changes no menu field, no type icon and no set of live ids |
| MoveInfo.AddIcon | src/battle_interface.move_info.c:128-141 | the icon sheet becomes resident and nothing else is loaded; no sprite is removed |
| MoveInfo.AddWindow | src/battle_interface.move_info.c:143-154 | the window sheet becomes resident and nothing else is loaded; no sprite is removed |
| MoveInfo.AddPromptSprites | src/battle_interface.move_info.c:124-155 | afterwards both sheets and the shared palette are resident, no sprite is removed, and only the two slots of the menu change |
| MoveInfo.Restore | src/battle_interface.move_info.c:235-247 | afterwards `loaded` is set; mode, selected opponent, window count, highlights and type icons are unchanged; no sprite is removed |
| MoveInfo.DisplayMoveData | src/battle_interface.move_info.c:324-398 | the panel shows the given move; sprites, tags, type icons and every menu field other than the panel and the window are unchanged |
| MoveInfo.HandleInput | src/battle_interface.move_info.c:408-455 | BREAK exactly when the popup is active afterwards; every live sprite stays in the table |
| MoveInfo.BattleMenu.constructor | src/battle_interface.move_info.c:27-33 | the menu record starts zeroed, both slots at 0 |
| MoveInfo.BattleMenu.TryAddButtonPromptItemSprites | src/battle_interface.move_info.c:124-155 | the new state is the lazy creation of the two prompt sprites |
| MoveInfo.BattleMenu.DestroyButtonPromptWinGfx | src/battle_interface.move_info.c:157-164 | frees the window's tags and sprite, clears `loaded`, empties slot 1 |
| MoveInfo.BattleMenu.DestroyButtonPromptGfx | src/battle_interface.move_info.c:166-172 | frees the icon's tags and sprite, empties slot 0 |
| MoveInfo.BattleMenu.ButtonPromptWinCallback | src/battle_interface.move_info.c:174-189 | one frame of the window, as the frame function specifies |
| MoveInfo.BattleMenu.InfoIconCallback | src/battle_interface.move_info.c:191-206 | one frame of the icon, as the frame function specifies |
| MoveInfo.BattleMenu.TryHideOrRestore | src/battle_interface.move_info.c:208-228 | the new state is hide/restore of the old |
| MoveInfo.BattleMenu.TryHide | src/battle_interface.move_info.c:230-233 | the new state is hide of the old |
| MoveInfo.BattleMenu.TryRestore | src/battle_interface.move_info.c:235-247 | the new state is restore of the old |
| MoveInfo.BattleMenu.MoveSelectionDisplayMoveData | src/battle_interface.move_info.c:324-398 | the new panel and window count are the display function of the old state |
| MoveInfo.BattleMenu.SetMoveTargetCallback | src/battle_interface.move_info.c:417-418 | adds or removes one battler from the highlighted set |
| MoveInfo.BattleMenu.RemoveWindow | src/battle_interface.move_info.c:416 | releases the description window |
| MoveInfo.BattleMenu.HandleInputMoveInfo | src/battle_interface.move_info.c:408-455 | the new state and the result are the input function of the old state |
| TypeSprite.OamPaletteNum | src/battle_interface.type_sprite.c:30-50 | every type's icon palette is 13, 14 or 15, the object palettes the type-icon palette load writes |
| TypeSprite.GetTypeEffectivenessPoints | src/battle_interface.type_sprite.c:156-188 | the points are one of 0, 5, 10, 20, 40, 80; 0 for MOVE_NONE, 0xFFFF and zero-power moves, and for Ground moves against Levitate |
| TypeSprite.PointsMatchTypeChart | src/battle_interface.type_sprite.c:156-188 | for a damaging move with neither a Ground move against Levitate nor Wonder Guard, the points are 20 times the product of the two multipliers, the second counted only when the types differ |
| TypeSprite.WonderGuardRule | src/battle_interface.type_sprite.c:183-185 | against Wonder Guard the points are 0 unless one factor is super effective, and with one they are those of the same target without the ability; super effective on one type and resisted on the other gives 20 |
| TypeSprite.SameTypeCountedOnce | src/battle_interface.type_sprite.c:176-181 | for a damaging move with neither a Ground move against Levitate nor Wonder Guard, when both types are equal the factor is applied once |
| TypeSprite.SymbolInjective | src/battle_interface.type_sprite.c:190-195 | the six points values have six different symbols |
| TypeSprite.WriteEffect | src/battle_interface.type_sprite.c:205-226 | a points value among the six writes a symbol of one or two glyphs; any other value leaves the buffer as it was |
| TypeSprite.WriteEffectIgnoresBuffer | src/battle_interface.type_sprite.c:205-226 | what a points value among the six writes does not depend on the buffer's old contents |
| TypeSprite.CopyStringMoveEffect | src/battle_interface.type_sprite.c:197-227 | status moves write "=" whatever the types; other moves write the symbol of their points |
| TypeSprite.ShowMoveTypeEffect | src/battle_interface.type_sprite.c:229-265 | in a double battle with no target chosen the text is empty; otherwise it is the move-effect symbol |
| TypeSprite.LevitateShowsImmune | src/battle_interface.type_sprite.c:168-171 | a damaging Ground move against Levitate shows the immune symbol whatever the type chart says |
| TypeSprite.DestroyTypeIconEffect | src/battle_interface.type_sprite.c:74-83 | destroy empties the handle; with a live handle it frees the icon's tags and sprite, with an empty one nothing; a second destroy changes nothing |
| TypeSprite.DestroySplitIconEffect | src/battle_interface.type_sprite.c:138-147 | the same for the split icon |
| TypeSprite.DestroyIconsEmpties | src/battle_interface.type_sprite.c:280-285 | both handles end empty, the double flag cleared, both old sprites gone; doing it twice is doing it once |
| TypeSprite.CreateTypeIconLoads | src/battle_interface.type_sprite.c:54-72 | with stale tiles or no handle the sheet is loaded and a new sprite created at the lowest free id with the type's palette and animation |
| TypeSprite.CreateTypeIconReuses | src/battle_interface.type_sprite.c:54-72 | a live handle with resident tiles is kept: nothing loaded or created, only palette number and animation change |
| TypeSprite.CreateSplitIconLoads | src/battle_interface.type_sprite.c:120-136 | with stale tiles or no handle the sheet and the palette are loaded and a new sprite created with the split's animation |
| TypeSprite.CreateSplitIconReuses | src/battle_interface.type_sprite.c:120-136 | a live handle with resident tiles is kept; only the animation changes |
| TypeSprite.CreateTypeIcon | src/battle_interface.type_sprite.c:54-72 | the type sheet is resident afterwards, no palette tag is loaded, no sprite is removed, and only the type-icon handle changes |
| TypeSprite.DestroyTypeIcon | src/battle_interface.type_sprite.c:74-83 | the handle ends empty, the other handles are kept, and no sprite or sheet is added |
| TypeSprite.CreateSplitIcon | src/battle_interface.type_sprite.c:120-136 | the split sheet is resident afterwards, no sprite is removed, and only the split-icon handle changes |
| TypeSprite.DestroySplitIcon | src/battle_interface.type_sprite.c:138-147 | the handle ends empty, the other handles are kept, and no sprite or sheet is added |
| TypeSprite.DestroyIcons | src/battle_interface.type_sprite.c:280-285 | both handles end empty and the double flag cleared; no sprite or sheet is added |
| TypeSprite.TypeInfo.constructor | src/battle_interface.type_sprite.c:22-27 | the record starts zeroed |
| TypeSprite.TypeInfo.CreateTypeIconSprite | src/battle_interface.type_sprite.c:54-72 | the new state is the type-icon creation of the old |
| TypeSprite.TypeInfo.DestroyTypeIconSprite | src/battle_interface.type_sprite.c:74-83 | the new state is the type-icon destruction of the old |
| TypeSprite.TypeInfo.CreateMoveSplitSprite | src/battle_interface.type_sprite.c:120-136 | the new state is the split-icon creation of the old |
| TypeSprite.TypeInfo.DestroyMoveSplitSprite | src/battle_interface.type_sprite.c:138-147 | the new state is the split-icon destruction of the old |
| TypeSprite.TypeInfo.TypeInfoDestroySprites | src/battle_interface.type_sprite.c:280-285 | the new state is both destructions with the double flag cleared |
| TypeSprite.TypeInfo.TypeInfoDisplaySprites | src/battle_interface.type_sprite.c:267-278 | creates the type icon then the split icon, and returns the move-effect text |
| TypeSprite.TypeInfo.TypeInfoUpdateDouble | src/battle_interface.type_sprite.c:287-290 | sets the double flag and returns the move-effect text under it |

## Left out

- The sprite engine is reduced to a table of live sprites and two sets of resident tags.
  - `CreateSprite` is modelled as taking the lowest free id. Its real allocation order and the sprite's other fields (y, subpriority, OAM priority, matrices) are not modelled.
  - Loading a tag is idempotent set insertion. A second `LoadSpriteSheet` of a resident tag, which the real engine may register twice, is not modelled.
  - Writes to a sprite id that is not live, including the dummy entry at `MAX_SPRITES`, have no modelled effect.
- Palette RAM is not modelled.
  - `LoadCompressedPalette(gMoveTypes_Pal, 0x1d0, 0x60)` writes object palettes 13 to 15 without a tag. So `FreeSpritePaletteByTag(TAG_MOVE_TYPES)` removes nothing from the palette-tag set.
  - The palette load itself is out of scope. The model states only which palette numbers the icons use.
- Text rendering is reduced to which field or symbol is chosen.
  - Left out: the strings "Pow:", " Ac:", "1st", "2nd", " Eq" and the format string.
  - Left out: the three-digit formatting of `ConvertIntToDecimalStringN`, `BattlePutTextOnWindow` and the description text printer.
  - Window ids are parameters, and `AddWindow`/`RemoveWindow` are counted in `windowsHeld`.
- Battle formulas and data tables are inputs, not modelled.
  - `CalculateMoveDamage` and `GetBattlerTotalSpeedStat` are inputs in `MoveContext`.
  - `GetTypeModifier` and `UQ_4_12_TO_INT` are a `chart` function returning one of four multipliers.
  - The fields of `gBattleMoves` and `gBaseStats` are inputs in `MoveStats` and `SpeciesStats`.
- `ShowMoveTypeEffect`: the target species lookup (`GetMonData`, `gMultiUsePlayerCursor`) is not modelled. The species' types and ability are a parameter; only the early exit and the text choice are modelled.
- `GetShowPokemon`: `gBattlerPositions` is a parameter (`positions`). `GetBattlerPosition` is applied literally to the position constants, as the source does.
- Battler highlight: the `SpriteCb_ShowAsMoveTarget`/`SpriteCb_HideAsMoveTarget` callbacks are modelled only as a set of highlighted battlers.
- Inputs: `JOY_NEW`/`JOY_HELD` and `IsDoubleBattle` are parameters.
- Frame timing: each frame calls each callback once, in some order chosen by the engine. The model gives one callback per call and leaves the order between sprites to the caller.
- Sprite coordinates: `sprite->x` is an s16 in the engine, and the model uses unbounded integers. The two differ only far off the prompt tracks, and `StepStaysOnTrack` shows that a sprite starting on its track never leaves it.
- Constants: the type, ability and move-split constants (`TYPE_GROUND` 4, `ABILITY_LEVITATE` 26, `ABILITY_WONDER_GUARD` 25, `SPLIT_STATUS` 2) come from headers that are not part of this model. Their values are taken from the upstream project.
