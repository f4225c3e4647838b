# Cheats mod core: a verified model

This project models the four state holders of a client-side game modification.

- **Keybinding registry** (`Input`). It maps action identifiers to key codes and descriptions, seeded with five defaults.
- **Entity culling controller** (`Culling`). Once per tick it hides the loaded entities that a distance threshold or a per-category flag selects. It records their identifiers and counts, and un-hides them when culling is switched off.
- **Configuration menu** (`Gui`). A draggable panel lists categories of toggles in insertion order. It has a content-height formula, first-match click dispatch and inertial scrolling.
- **Entity highlight renderer** (`Highlight`). It chooses which entities to outline each frame. It also computes the partial-tick render position and the health-bar colour and fill width.

The game host's entities are objects of class `Entities.Entity`. Each has an identifier, a category, its distance to the local player this tick and dead/living flags, plus three mutable flags the cheats write. A loaded world is `Option<seq<Entity>>`, where `None` means no world. The local player is an `Entity?`. Keyboard state, the mouse pointer and the partial-tick fraction are parameters. Coordinates, distances and fractions are `real`.

Each class keeps an invariant `Valid()`, and each method states the whole new state through a view (`Settings()`, `State()`). The loops are proved against specification functions. Recursive ones:
- `CulledIds` and `CulledCount` for the culling tick;
- `DrawList` for the highlight frame;
- `SectionsHeight` for the menu layout.

Click dispatch is proved against the predicate `IsFirstHit`, which is built on `MissesBefore`.

Lemmas state what those functions mean.

The culling tick counts every listed entity as processed, the local player included: `ECTCheat.java` increments the counter at line 57 before it skips the local player at line 60. So `processed == |entities|`, and `Culling.CullingScenario` processes 4 entities for the local player plus three others.

## Model

| member | source | states |
|---|---|---|
| Input.DefaultBindings | src/main/java/com/cheats/input/KeyBindings.java:26-33 | the defaults bind exactly toggle_fly, toggle_speed, toggle_noclip, toggle_godmode and open_menu, and both maps have the same five keys |
| Input.DefaultCodesDistinct | src/main/java/com/cheats/input/KeyBindings.java:20-24 | no two default actions share a key code, and none of the codes is the -1 sentinel |
| Input.KeyBindings.constructor | src/main/java/com/cheats/input/KeyBindings.java:26-33 | start-up registers exactly the default codes and descriptions, with equal key sets |
| Input.KeyBindings.RegisterKeyBinding | src/main/java/com/cheats/input/KeyBindings.java:42-45 | insert or overwrite: afterwards the id is registered with the new code and description and every other id is unchanged; both maps keep the same keys |
| Input.KeyBindings.UpdateKeyBinding | src/main/java/com/cheats/input/KeyBindings.java:54-60 | returns true iff the id was registered; when true only that id's code changes and its description is kept; when false nothing changes |
| Input.KeyBindings.GetKeyCode | src/main/java/com/cheats/input/KeyBindings.java:68-70 | the bound code for a registered id, -1 otherwise |
| Input.KeyBindings.GetDescription | src/main/java/com/cheats/input/KeyBindings.java:78-80 | the description for a registered id, "" otherwise |
| Input.KeyBindings.IsKeyPressed | src/main/java/com/cheats/input/KeyBindings.java:88-94 | false when the code is -1; otherwise true iff the bound key is among the held keys |
| Input.KeyBindings.IsKeyJustPressed | src/main/java/com/cheats/input/KeyBindings.java:102-108 | false when the code is -1; otherwise true iff the event key is the bound key and the event is a key-down |
| Input.KeyBindings.IsKeyBindingRegistered | src/main/java/com/cheats/input/KeyBindings.java:116-118 | true iff the id has a code |
| Input.KeyBindings.RemoveKeyBinding | src/main/java/com/cheats/input/KeyBindings.java:126-133 | returns true iff the id was registered; afterwards it is unregistered and answers -1 and "", and other ids are unchanged |
| Input.KeyBindings.ResetToDefaults | src/main/java/com/cheats/input/KeyBindings.java:138-147 | from any state, the result is exactly the start-up registry, so a reset is idempotent |
| Input.KeyBindings.GetAllKeyBindings | src/main/java/com/cheats/input/KeyBindings.java:154-156 | the copy has the registered ids as keys and agrees with GetKeyCode on each |
| Input.KeyBindings.GetAllDescriptions | src/main/java/com/cheats/input/KeyBindings.java:163-165 | the copy has the registered ids as keys and agrees with GetDescription on each |
| Entities.Lookup | src/main/java/com/cheats/cheats/ECTCheat.java:146-149 | a found entity is loaded and has the id; nothing is found only when no loaded entity has the id |
| Culling.ShouldCullEntity | src/main/java/com/cheats/cheats/ECTCheat.java:78-104 | never culls with global culling off; always culls strictly beyond the threshold; at or within it, the entity's category flag decides (no flag for other kinds) |
| Culling.CullingMonotoneInDistance | src/main/java/com/cheats/cheats/ECTCheat.java:85-88 | an entity culled at some distance is culled at every greater distance |
| Culling.CulledIdsExactly | src/main/java/com/cheats/cheats/ECTCheat.java:56-69 | an id is recorded by a tick iff some listed entity other than the local player with that id is selected by the rule |
| Culling.CulledBounds | src/main/java/com/cheats/cheats/ECTCheat.java:51-69 | distinct recorded ids ≤ culled count ≤ processed count |
| Culling.SelfNeverCulled | src/main/java/com/cheats/cheats/ECTCheat.java:59-62 | the local player's id is never recorded when no other entity shares it |
| Culling.ECTCheat.constructor | src/main/java/com/cheats/cheats/ECTCheat.java:27-41 | all flags off, threshold 64, empty set, zero counters |
| Culling.ECTCheat.Update | src/main/java/com/cheats/cheats/ECTCheat.java:46-72 | with no world or no local player, nothing changes; otherwise processed equals the number of listed entities, the set and culled count are rebuilt from the rule, every culled entity ends invisible and ignoring item data (living ones without no-clip), every other entity is untouched, and culled ≤ processed |
| Culling.ECTCheat.ApplyEntityCulling | src/main/java/com/cheats/cheats/ECTCheat.java:109-122 | sets invisible and ignore-item-data, and clears no-clip of a living entity only |
| Culling.ECTCheat.RemoveEntityCulling | src/main/java/com/cheats/cheats/ECTCheat.java:127-135 | clears invisible and ignore-item-data, and clears no-clip of a living entity only |
| Culling.ECTCheat.ToggleGlobalCulling | src/main/java/com/cheats/cheats/ECTCheat.java:140-152 | flips the global flag; on the switch off every recorded id that still resolves un-hides that entity and other entities are untouched; the set is not cleared; switching on touches no entity (corrected for a missing world, see Findings) |
| Culling.ECTCheat.TogglePlayerCulling | src/main/java/com/cheats/cheats/ECTCheat.java:157-159 | negates the player flag only |
| Culling.ECTCheat.ToggleMobCulling | src/main/java/com/cheats/cheats/ECTCheat.java:164-166 | negates the mob flag only |
| Culling.ECTCheat.ToggleAnimalCulling | src/main/java/com/cheats/cheats/ECTCheat.java:171-173 | negates the animal flag only |
| Culling.ECTCheat.ToggleItemCulling | src/main/java/com/cheats/cheats/ECTCheat.java:178-180 | negates the item flag only |
| Culling.ECTCheat.ToggleArmorStandCulling | src/main/java/com/cheats/cheats/ECTCheat.java:185-187 | negates the armour-stand flag only |
| Culling.ECTCheat.CullAllEntities | src/main/java/com/cheats/cheats/ECTCheat.java:192-199 | all five category flags and the global flag on; threshold, set and counters kept |
| Culling.ECTCheat.RestoreAllEntities | src/main/java/com/cheats/cheats/ECTCheat.java:204-217 | all six flags off; with a world, every loaded entity is un-hidden; set and counters kept |
| Culling.ECTCheat.SetGlobalCullingEnabled | src/main/java/com/cheats/cheats/ECTCheat.java:233-235 | writes the global flag only |
| Culling.ECTCheat.SetCullPlayers | src/main/java/com/cheats/cheats/ECTCheat.java:241-243 | writes the player flag only |
| Culling.ECTCheat.SetCullMobs | src/main/java/com/cheats/cheats/ECTCheat.java:249-251 | writes the mob flag only |
| Culling.ECTCheat.SetCullAnimals | src/main/java/com/cheats/cheats/ECTCheat.java:257-259 | writes the animal flag only |
| Culling.ECTCheat.SetCullItems | src/main/java/com/cheats/cheats/ECTCheat.java:265-267 | writes the item flag only |
| Culling.ECTCheat.SetCullArmorStands | src/main/java/com/cheats/cheats/ECTCheat.java:273-275 | writes the armour-stand flag only |
| Culling.ECTCheat.SetCullingDistance | src/main/java/com/cheats/cheats/ECTCheat.java:281-283 | stores the clamped threshold only, so the threshold stays ≥ 10 |
| Culling.ClampCullingDistance | src/main/java/com/cheats/cheats/ECTCheat.java:281-283 | max(d, 10): at least 10, equal to d or 10, and d itself when d ≥ 10 |
| Culling.ECTCheat.ToggleGlobalCullingAsWritten | src/main/java/com/cheats/cheats/ECTCheat.java:140-152 | the restore loop as written: it ends in a null-world dereference iff it switches culling off with no world loaded and at least one recorded id, and then only the flag has flipped; otherwise it leaves exactly the state `ToggleGlobalCulling` promises |
| Culling.ToggleOffWithoutWorldAsWritten | src/main/java/com/cheats/cheats/ECTCheat.java:140-152 | a tick in a world records id 7 and a tick without a world keeps it; switching off as written then dereferences the missing world, while the corrected toggle completes and keeps the id recorded |
| Culling.CullingScenario | src/main/java/com/cheats/cheats/ECTCheat.java:46-72 | a tick over the local player, a near mob, a far animal and a near player with animal culling on records exactly the animal, processes 4 and culls 1 |
| Highlight.ShouldRenderEntity | src/main/java/com/cheats/cheats/ESPCheat.java:82-91 | drawn iff (player and players on) or (mob and mobs on) or (animal and animals on) |
| Highlight.DrawListExactly | src/main/java/com/cheats/cheats/ESPCheat.java:56-76 | the frame's list is no longer than the entity list, and an entity is in it iff it is listed, not the local player, not dead, living, of an enabled category and within the render distance |
| Highlight.SelectEntities | src/main/java/com/cheats/cheats/ESPCheat.java:56-76 | the filtering loop returns the frame's list, which holds exactly the drawable listed entities |
| Highlight.ESPCheat.RenderESP | src/main/java/com/cheats/cheats/ESPCheat.java:50-77 | nothing is drawn when disabled or with no world or local player; otherwise exactly the drawable loaded entities, in list order |
| Highlight.RenderPosition | src/main/java/com/cheats/cheats/ESPCheat.java:143-149 | at t = 0 the last-tick position minus the viewer, at t = 1 the current position minus the viewer |
| Highlight.LerpShift | src/main/java/com/cheats/cheats/ESPCheat.java:145-147 | interpolating between two shifted points gives the interpolated point shifted by the same amount |
| Highlight.RenderPositionTranslationInvariant | src/main/java/com/cheats/cheats/ESPCheat.java:143-149 | moving entity and viewer by the same displacement leaves the render position unchanged |
| Highlight.HealthColour | src/main/java/com/cheats/cheats/ESPCheat.java:218-219 | for a fraction in [0, 1] both components lie in [0, 1] and one of them is full; (1, 0) at 0, (1, 1) at 0.5, (0, 1) at 1 |
| Highlight.HealthColourMonotone | src/main/java/com/cheats/cheats/ESPCheat.java:218-219 | more health never means more red or less green |
| Highlight.HealthBarGeometry | src/main/java/com/cheats/cheats/ESPCheat.java:209-221 | the background spans the entity width from -width/2 - 0.5; for a fraction in [0, 1] the fill lies between 0 and the background width, empty at 0 and full at 1 |
| Highlight.FillWithinBackground | src/main/java/com/cheats/cheats/ESPCheat.java:221 | a width scaled by a fraction in [0, 1] lies between 0 and the width |
| Highlight.ClampRenderDistance | src/main/java/com/cheats/cheats/ESPCheat.java:302-304 | min(d, 128): at most 128, equal to d or 128, and d itself when d ≤ 128 |
| Highlight.ClampLineWidth | src/main/java/com/cheats/cheats/ESPCheat.java:310-312 | max(w, 0.5): at least 0.5, equal to w or 0.5, and w itself when w ≥ 0.5 |
| Highlight.ESPCheat.constructor | src/main/java/com/cheats/cheats/ESPCheat.java:40-45 | disabled, all three categories on, distance 128, line width 2 |
| Highlight.ESPCheat.SetEnabled | src/main/java/com/cheats/cheats/ESPCheat.java:266-268 | writes the enabled flag only |
| Highlight.ESPCheat.Toggle | src/main/java/com/cheats/cheats/ESPCheat.java:270-272 | negates the enabled flag only |
| Highlight.ToggleTwice | src/main/java/com/cheats/cheats/ESPCheat.java:270-272 | two toggles restore every setting |
| Highlight.ESPCheat.SetRenderPlayers | src/main/java/com/cheats/cheats/ESPCheat.java:278-280 | writes the player flag only |
| Highlight.ESPCheat.SetRenderMobs | src/main/java/com/cheats/cheats/ESPCheat.java:286-288 | writes the mob flag only |
| Highlight.ESPCheat.SetRenderAnimals | src/main/java/com/cheats/cheats/ESPCheat.java:294-296 | writes the animal flag only |
| Highlight.ESPCheat.SetRenderDistance | src/main/java/com/cheats/cheats/ESPCheat.java:302-304 | stores the clamped distance only, so it stays ≤ 128 |
| Highlight.ESPCheat.SetLineWidth | src/main/java/com/cheats/cheats/ESPCheat.java:310-312 | stores the clamped width only, so it stays ≥ 0.5 |
| Gui.Flip | src/main/java/com/cheats/gui/CheatMenu.java:93-98 | the toggle's state is negated and its bound action, if any, runs exactly once more |
| Gui.NewCategory | src/main/java/com/cheats/gui/CheatMenu.java:61-66 | a fresh section has the given name and colour, starts expanded with no toggles, and is one header (20) high |
| Gui.SectionHeight | src/main/java/com/cheats/gui/CheatMenu.java:72-78 | 20 + 18·(number of toggles) when expanded, 20 when collapsed |
| Gui.SectionsHeight | src/main/java/com/cheats/gui/CheatMenu.java:161-166 | each section with its padding takes at least 25 |
| Gui.SectionsHeightUpdate | src/main/java/com/cheats/gui/CheatMenu.java:161-166 | replacing one section changes the total by the difference of the two section heights |
| Gui.SectionsHeightAppend | src/main/java/com/cheats/gui/CheatMenu.java:161-166 | appending a section adds its height plus 5 |
| Gui.IndexOf | src/main/java/com/cheats/gui/CheatMenu.java:465-467 | the position of the first section with the name, or none when no section has it |
| Gui.IndexOfDistinct | src/main/java/com/cheats/gui/CheatMenu.java:465-467 | with distinct names, looking up a section's name finds that section |
| Gui.Put | src/main/java/com/cheats/gui/CheatMenu.java:452-455 | ordered-map insertion: an existing name is replaced in place, a new one appended; the new section is found under its name; other sections are untouched; names stay distinct |
| Gui.PutContentHeight | src/main/java/com/cheats/gui/CheatMenu.java:452-455 | a new name adds the section height plus 5 to the content height; a replacement adds the difference of the two section heights |
| Gui.FindCategory | src/main/java/com/cheats/gui/CheatMenu.java:465-467 | a found section is in the menu and has the name; nothing is found only when no section has it |
| Gui.ToggleExpanded | src/main/java/com/cheats/gui/CheatMenu.java:196-199 | only section k's expansion flips; the content height moves by 18 per toggle of that section, down when collapsing and up when expanding; names stay distinct |
| Gui.FlipToggle | src/main/java/com/cheats/gui/CheatMenu.java:209-213 | exactly toggle i of section k flips, every other toggle and section is unchanged, and the content height is unchanged |
| Gui.AddToggle | src/main/java/com/cheats/gui/CheatMenu.java:457-463 | the toggle is appended to section k only; the content height grows by 18 if that section is expanded |
| Gui.InitialMenuContents | src/main/java/com/cheats/gui/CheatMenu.java:112-154 | six sections Movement, Combat, Utility, Render, World, Player with 4, 3, 4, 3, 2, 2 toggles, distinct names, all expanded, every toggle off |
| Gui.InitialSectionOffsets | src/main/java/com/cheats/gui/CheatMenu.java:112-166 | the default content height is 499 (the sixth section starts 413 below the content top) |
| Gui.FirstHitUnique | src/main/java/com/cheats/gui/CheatMenu.java:189-219 | a click has at most one first hit: it lands on at most one row |
| Gui.MissesBelowSection | src/main/java/com/cheats/gui/CheatMenu.java:189-219 | a click below a section's bottom edge misses its header and all its rows |
| Gui.MissesAbove | src/main/java/com/cheats/gui/CheatMenu.java:189-219 | a click below the first n sections misses all of them |
| Gui.FindContentHit | src/main/java/com/cheats/gui/CheatMenu.java:189-219 | the walk returns the first header or toggle row, top to bottom, that the click lands on, or no hit when it misses all; toggle rows of collapsed sections and non-left clicks on rows are never hit |
| Gui.ClippedRowClickAsWritten | src/main/java/com/cheats/gui/CheatMenu.java:189-219 | as written, in the default menu at (20, 20) a click at (120, 500), below the window, hits the second toggle of the sixth section |
| Gui.InCloseButton | src/main/java/com/cheats/gui/CheatMenu.java:360-365 | the 16-square at (x + 230, y + 3); it shares with the title bar only the column x + 230 |
| Gui.InTitleBar | src/main/java/com/cheats/gui/CheatMenu.java:370-373 | [x, x + 230] × [y, y + 25]; it meets the visible content only along its bottom edge y + 25 |
| Gui.InWindow | src/main/java/com/cheats/gui/CheatMenu.java:378-381 | [x, x + 250] × [y, y + 400]; it contains the close button, the title bar and the visible content |
| Gui.ClampVelocity | src/main/java/com/cheats/gui/CheatMenu.java:251-253 | max(-20, min(20, v)): within [-20, 20], and v itself when already within |
| Gui.MaxScroll | src/main/java/com/cheats/gui/CheatMenu.java:269 | max(0, contentHeight - 400) |
| Gui.ClampScroll | src/main/java/com/cheats/gui/CheatMenu.java:269-270 | within [0, max(0, contentHeight - 400)], and the offset itself when already within |
| Gui.CheatMenu.constructor | src/main/java/com/cheats/gui/CheatMenu.java:102-107 | a visible menu at (20, 20), not dragging, not scrolling, holding the six default sections, with content height 499 |
| Gui.CheatMenu.InitializeCategories | src/main/java/com/cheats/gui/CheatMenu.java:112-156 | the default sections with distinct names and a content height of 499 that matches them |
| Gui.CheatMenu.CalculateContentHeight | src/main/java/com/cheats/gui/CheatMenu.java:161-166 | the content height becomes 25 plus each section's height and padding |
| Gui.CheatMenu.HandleMouseClick | src/main/java/com/cheats/gui/CheatMenu.java:171-220 | hidden: nothing; left click on the close button: only hides; left click on the title bar: only starts a drag at pointer minus origin; otherwise, within the visible content, the first hit row: a header flips expansion on a left click (content height recomputed), a toggle row flips that toggle only; a section changes only for a click inside the visible content (corrected, see Findings) |
| Gui.CheatMenu.ClickContent | src/main/java/com/cheats/gui/CheatMenu.java:189-219 | the first row hit takes the click: a header flips its section's expansion on a left click only, a toggle row flips that toggle, no hit changes nothing; the content height keeps matching the sections |
| Gui.CheatMenu.HandleMouseDrag | src/main/java/com/cheats/gui/CheatMenu.java:225-230 | while dragging a visible menu the window moves to pointer minus offset; otherwise nothing changes |
| Gui.CheatMenu.HandleMouseRelease | src/main/java/com/cheats/gui/CheatMenu.java:235-239 | a left release ends the drag; other buttons change nothing |
| Gui.CheatMenu.HandleScroll | src/main/java/com/cheats/gui/CheatMenu.java:244-255 | a visible menu under the pointer adds 15 × amount to the velocity, clamped to [-20, 20]; otherwise nothing changes |
| Gui.CheatMenu.HandleScrollAsWritten | src/main/java/com/cheats/gui/CheatMenu.java:244-255 | with the placeholder pointer at the origin, the whole new state: a visible window that covers the origin takes the clamped velocity update, and any other menu is unchanged, so input is lost whenever the window lies right of or below the origin |
| Gui.CheatMenu.UpdateScrolling | src/main/java/com/cheats/gui/CheatMenu.java:260-271 | the offset ends in [0, max(0, contentHeight - 400)]; a velocity above 0.1 in magnitude moves the offset and decays by 0.85, a smaller one becomes 0; the velocity's magnitude never grows |
| Gui.CheatMenu.Render | src/main/java/com/cheats/gui/CheatMenu.java:276-279 | a hidden menu does nothing; a visible one takes exactly one scrolling step: the offset ends in [0, max(0, contentHeight - 400)], a velocity above 0.1 in magnitude moves the offset and decays by 0.85, a smaller one becomes 0, and nothing else changes |
| Gui.CheatMenu.SetVisible | src/main/java/com/cheats/gui/CheatMenu.java:444-446 | writes visibility only |
| Gui.CheatMenu.SetWindowPosition | src/main/java/com/cheats/gui/CheatMenu.java:469-472 | writes the window origin only |
| Gui.CheatMenu.AddCategory | src/main/java/com/cheats/gui/CheatMenu.java:452-455 | puts a fresh expanded empty section under the name and recomputes the content height, which grows by 25 for a new name |
| Gui.CheatMenu.AddToggleToCategory | src/main/java/com/cheats/gui/CheatMenu.java:457-463 | an unknown name changes nothing; otherwise the toggle is appended to that section and the content height grows by 18 if the section is expanded |
| Gui.CheatMenu.GetCategory | src/main/java/com/cheats/gui/CheatMenu.java:465-467 | a found section is in the menu and has the name; nothing is found only when no section has it |

## Left out

- All drawing is out: the GL calls and boxes, outlines, the name label, the per-category outline colour, and the menu's rectangles, text, close-button glyph and scissor clipping. These are foreign graphics calls with no checkable result. `Render` models only the scrolling step of a frame.
- Host objects are parameters. The world's entity list, the distance query and class-based category dispatch become an entity record and a category enum. The lookup by id becomes `Entities.Lookup`, a first match over the loaded list. Each entity's distance is fixed for a tick.
- Keyboard access is a parameter. The held keys and this tick's key event are passed to `IsKeyPressed` and `IsKeyJustPressed`. The default key codes use the keyboard library's values, and only their distinctness matters.
- `getKeyName` and `printAllBindings` are out: they are a library name lookup and console output.
- Toggle actions are abstract. The bound actions only print to the console, so a toggle records whether it has an action and how many times it has run.
- The pointer for wheel input is a parameter of `HandleScroll`. The source's placeholders always report (0, 0); `HandleScrollAsWritten` models that.
- IEEE `float`/`double` rounding is out. Positions, velocities, distances and fractions are exact reals, so the 0.85 decay and the colour formula are not bit-exact. NaN and infinities are not modelled.
- The health fraction (health divided by maximum health) is an input to `HealthColour` and `HealthBarGeometry`. A zero maximum health is not modelled.
- `getCullingStats` is out: it is formatted text built from the counters, which the model exposes directly.
- The field getters (`isEnabled`, `getRenderDistance`, `getWindowX`, `isVisible`, …) are field reads in the model.
- Hash iteration order is out. Both keybinding maps are Dafny maps. The culled set is a set and is restored in any order.
- `CATEGORY_COLORS` is left out. No code reads this table, and its "Movement" entry has only two components.
- Aliasing is out. Menu sections and toggles are values inside the menu's sequence. Outside code that holds a `CategorySection` returned by `getCategory` and mutates it is not modelled.
- Entities listed twice in one world are counted twice by the culling tick, as the source does. `SelfNeverCulled` assumes no other entity shares the local player's id.

## Findings

| source | as written | input that shows it | evidently intended | confidence | as-written member | corrected member |
|---|---|---|---|---|---|---|
| src/main/java/com/cheats/cheats/ECTCheat.java:140-152 | switching global culling off looks every recorded id up in `MC.world` without checking that a world is loaded | a tick in a world records an id; the world is left, so later ticks return early and keep the id; switching culling off then dereferences the null world | skip the restore pass when no world is loaded, as `restoreAllEntities` does at line 212 | not executed | Culling.ECTCheat.ToggleGlobalCullingAsWritten | Culling.ECTCheat.ToggleGlobalCulling |
| src/main/java/com/cheats/gui/CheatMenu.java:189-219 | header and toggle rows are hit wherever they lie, including below the window's bottom edge, outside the clip rectangle that the render pass requests at lines 295-296 (the clipping call itself is a graphics placeholder) | default menu at (20, 20), left click at (120, 500), 80 below the window: the second toggle of "Player" flips | only rows inside the requested clip rectangle (below the title bar, inside the window) take clicks | not executed | Gui.ClippedRowClickAsWritten | Gui.CheatMenu.HandleMouseClick |
| src/main/java/com/cheats/gui/CheatMenu.java:244-255 | the pointer position for wheel input comes from placeholders that always report (0, 0) | default menu at (20, 20): every wheel event is ignored | use the real pointer position | not executed | Gui.CheatMenu.HandleScrollAsWritten | Gui.CheatMenu.HandleScroll |
