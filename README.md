# RetroQuest runtime, modelled in Dafny

RetroQuest is a small browser adventure written in TypeScript.  Its runtime
is a handful of cooperating objects:

- an event bus that hands out subscription ids and dispatches by event name;
- animation clips with a looping clock, and two controllers that choose the active clip;
- a fixed-timestep game loop;
- a scene graph of nodes stepped children-first and drawn parent-first;
- a camera that follows the hero;
- a stack of held arrow keys;
- the hero's grid-step movement rule;
- sprite sheets cut into a frame map;
- an inventory row;
- a mutable 2D vector;
- two copies of the grid helpers.

This project models each of these as Dafny code of the same shape, one module
per source file, and proves what the code promises about it.

Objects whose fields the source updates become classes with `modifies`
clauses. Loops stay loops, with invariants; each such method is proved
against a specification function. The overridable hooks (`step`,
`drawImage`, event callbacks, `update`/`render`) are not run. The operations
that call them return the calls they make, in order: subscription ids for
`emit`, node ids for `stepEntry`, node ids with absolute coordinates for
`draw`, and `Update`/`Render` for the loop.

Host services are parameters:

- `performance.now()` and the id `requestAnimationFrame` returns;
- key codes;
- whether an image has loaded and whether a canvas context exists;
- whether `moveTowards` reports the hero as arrived;
- the order `Object.keys` lists a table in.

Pixel coordinates are integers and times are real numbers.

| module | file |
|---|---|
| `Options`, `Seqs` | shared: `Option`, and a generic `Filter` with its lemmas |
| `Geometry` | `vector2.dfy` — src/core/Vector2.ts |
| `Grid`, `HelperGrid` | `grid.dfy` — src/utils/grid.ts, src/helpers/grid.ts |
| `EventBus` | `event.dfy` — src/core/Event.ts |
| `Clips` | `clip.dfy` — src/systems/animation/AnimationFramePattern.ts, src/core/AnimationConfig.ts |
| `ClipControl`, `LegacyAnimations` | `animation_system.dfy` — src/systems/animation/AnimationSystem.ts, src/systems/Animations.ts |
| `Loop` | `game_loop.dfy` — src/systems/GameLoop.ts |
| `Scene` | `game_object.dfy` — src/systems/GameObject.ts |
| `Cameras` | `camera.dfy` — src/systems/Camera.ts |
| `Input` | `input.dfy` — src/systems/InputSystem.ts |
| `SpriteSheet`, `LegacySprites` | `sprites.dfy` — src/entities/Sprites.ts, src/Sprites.ts |
| `Heroes` | `hero.dfy` — src/entities/Hero/Hero.ts |
| `Inventories` | `inventory.dfy` — src/entities/inventory/Inventory.ts |

The two animation controllers differ in `play`:

- `AnimationSystem.play` ignores a key that names no clip of its own.
- `Animations.play` assigns `activeKey` before it looks the key up. A key that names no clip therefore throws, and the active key has already been overwritten. `LegacyAnimations.Animations.Play` returns `false` for that case, with `activeKey` set to the key.

Clip lookup is by own key only; names inherited from `Object.prototype` are not modelled (see "## Left out").

Camera, Hero and Inventory extend GameObject in the source; this is
modelled by composition: each holds its scene node (`node`) or its own
position. The Hero's `addChild(shadow)`/`addChild(body)` receive Sprites, and
`Sprite` (src/entities/Sprites.ts:16) does not extend GameObject, so the Hero
keeps them in its own `children` list.

## Model

| member | source | states |
|---|---|---|
| Geometry.Vector2.constructor | src/core/Vector2.ts:5-8 | both components default to 0 |
| Geometry.Vector2.Set | src/core/Vector2.ts:10-14 | overwrites both components and returns the receiver |
| Geometry.Vector2.Add | src/core/Vector2.ts:16-20 | adds componentwise into the receiver; the argument is unchanged unless it is the receiver |
| Geometry.Vector2.Subtract | src/core/Vector2.ts:22-26 | subtracts componentwise from the receiver; the argument is unchanged unless it is the receiver |
| Geometry.Vector2.Clone | src/core/Vector2.ts:28-30 | a fresh object with equal components |
| Geometry.AddThenSubtract | src/core/Vector2.ts:16-26 | `add(v)` then `subtract(v)` with `v` another object restores the receiver and leaves `v` alone |
| Geometry.AddSelfThenSubtractSelf | src/core/Vector2.ts:16-26 | with the receiver as argument, the round trip leaves (0, 0): the aliasing case |
| Geometry.CloneIsIndependent | src/core/Vector2.ts:28-30 | mutating a clone leaves the original unchanged |
| Grid.GridCells | src/utils/grid.ts:8-10 | the pixel position of tile n is a multiple of 16 from which n is recovered (`px % 16 == 0`, `px / 16 == n`) |
| Grid.Key | src/utils/grid.ts:20 | the template string `${x},${y}`: the JavaScript decimal text of x, a comma, the text of y; the comma at index `|text(x)|` is the only one in the key |
| Grid.IsSpaceFree | src/utils/grid.ts:19-22 | the space (x, y) is free (`true`) exactly when no key in `walls` names the cell (x, y), and blocked (`false`) when its key is stored there |
| Grid.GridCellsAdditive | src/utils/grid.ts:8-10 | `gridCells(0) == 0` and `gridCells(a+b) == gridCells(a) + gridCells(b)` |
| Grid.NatText | src/utils/grid.ts:20 | the decimal text of a number is a non-empty string of digits, one digit exactly for numbers below 10 |
| Grid.NatTextInjective | src/utils/grid.ts:20 | different numbers have different decimal texts |
| Grid.IntTextInjective | src/utils/grid.ts:20 | different integers (with sign) have different texts |
| Grid.KeyInjective | src/utils/grid.ts:20 | the key `${x},${y}` determines x and y |
| Grid.IsSpaceFreeMeansNotAWall | src/utils/grid.ts:19-22 | with walls given as cells, a space is free exactly when it is not a wall cell |
| HelperGrid.GridCells | src/helpers/grid.ts:1-3 | the helper copy's pixel position equals the utils copy's `gridCells` on every tile |
| HelperGrid.IsSpaceFree | src/helpers/grid.ts:5-10 | free (`true`) exactly when the utils copy says so, that is when no key `${x},${y}` of `walls` names the cell; blocked (`false`) otherwise |
| HelperGrid.GridCellsAdditive | src/helpers/grid.ts:1-3 | the helper copy maps 0 to 0 and is additive |
| HelperGrid.AgreesWithUtilsGrid | src/helpers/grid.ts:1-10 | both copies of `gridCells` and `isSpaceFree` agree on every input |
| EventBus.Events.constructor | src/core/Event.ts:6-14 | no subscriptions and the counter at 0 |
| EventBus.Events.On | src/core/Event.ts:38-47 | bumps the counter by one and returns the new value, appends exactly one record and keeps the old ones; the new id exceeds every stored id |
| EventBus.Events.Emit | src/core/Event.ts:22-28 | the dispatched ids are those of the records whose event name matches, in list order |
| EventBus.Events.Off | src/core/Event.ts:54-56 | the list becomes the filter dropping that id; only `callbacks` may change, so the counter is untouched |
| EventBus.Events.Unsubscribe | src/core/Event.ts:63-67 | the list becomes the filter dropping that caller; the counter is untouched |
| EventBus.EmitAfterOn | src/core/Event.ts:22-28 | a registration appends to the dispatch list of its own event and of no other |
| EventBus.DispatchInRegistrationOrder | src/core/Event.ts:22-28 | with ids issued by `on`, dispatched ids strictly increase |
| EventBus.EmitSelectsByName | src/core/Event.ts:24 | a record is dispatched to exactly when it is stored and its name matches |
| EventBus.OffRemovesAtMostOne | src/core/Event.ts:54-56 | with unique ids `off` removes one record when the id is present, and an absent id changes nothing |
| EventBus.UnsubscribeRemovesAllAndOnly | src/core/Event.ts:63-67 | a record survives exactly when its caller differs |
| EventBus.UnsubscribeIdempotent | src/core/Event.ts:63-67 | unsubscribing twice equals unsubscribing once |
| EventBus.UnsubscribeAbsentCaller | src/core/Event.ts:63-67 | a caller with no records leaves the list unchanged |
| Clips.LastAtOrBefore | src/systems/animation/AnimationFramePattern.ts:25-35 | the found keyframe is at or before the time and every later one is after it; none exactly when all are after it |
| Clips.AnimationFramePattern.constructor | src/systems/animation/AnimationFramePattern.ts:14-19 | the clock starts at 0 and the duration defaults to 500 |
| Clips.AnimationFramePattern.Frame | src/systems/animation/AnimationFramePattern.ts:25-36 | the backward scan returns the frame of the last keyframe at or before the clock, and fails (None) when the clock is before all of them; nothing changes |
| Clips.AnimationFramePattern.Step | src/systems/animation/AnimationFramePattern.ts:44-50 | the clock advances by delta and resets to 0 when it reaches the duration; for non-negative delta it stays in [0, duration) |
| Clips.AdvancedStaysInRange | src/systems/animation/AnimationFramePattern.ts:44-50 | a non-negative step keeps the clock in [0, duration) |
| Clips.AdvancedDiscardsExcess | src/systems/animation/AnimationFramePattern.ts:47-49 | the reset is to exactly 0, not a remainder |
| Clips.FrameDefinedFromZero | src/systems/animation/AnimationFramePattern.ts:25-35 | a clip with a keyframe at 0 always has a frame for non-negative times |
| Clips.ThreeKeyframeExample | src/systems/animation/AnimationFramePattern.ts:25-50 | keyframes at 0, 100 and 200 over 300 ms show A, B, C at 0, 150, 250, and A again after a step of 350 |
| ClipControl.AnimationSystem.constructor | src/systems/animation/AnimationSystem.ts:13-17 | the first listed clip is active, none when there are no clips |
| ClipControl.AnimationSystem.Frame | src/systems/animation/AnimationSystem.ts:23-28 | the active clip's frame, 0 when no truthy key names a clip |
| ClipControl.AnimationSystem.Play | src/systems/animation/AnimationSystem.ts:37-47 | the same key is a no-op without rewinding; an unknown key changes nothing; a new key becomes active, its clip starts at `startAtTime`, and no other clip's clock changes |
| ClipControl.AnimationSystem.Step | src/systems/animation/AnimationSystem.ts:54-58 | only the active clip advances; with none active nothing changes |
| LegacyAnimations.Animations.constructor | src/systems/Animations.ts:7-11 | the first listed clip is active, none when there are no clips |
| LegacyAnimations.Animations.Frame | src/systems/Animations.ts:13-18 | the active clip's frame, 0 when no truthy key names a clip |
| LegacyAnimations.Animations.Play | src/systems/Animations.ts:20-27 | the same key changes nothing; any other key becomes active before the lookup; a known key's clip starts at `startAtTime` and the others keep their clocks; an unknown key throws (`false`) with clocks unchanged |
| LegacyAnimations.Animations.Step | src/systems/Animations.ts:29-33 | only the active clip advances; with none active nothing changes |
| Loop.Drain | src/systems/GameLoop.ts:53-56 | the drain takes k whole steps out of the accumulator A and leaves less than one step: `A == k*timeStep + rest` |
| Loop.DrainUnique | src/systems/GameLoop.ts:53-56 | that split is the only one that stops the `while` loop |
| Loop.OneStepPerFrame | src/systems/GameLoop.ts:53-56 | exactly one step of elapsed time runs exactly one update and empties the accumulator |
| Loop.GameLoop.constructor | src/systems/GameLoop.ts:5-13 | stopped, nothing scheduled, both times 0 |
| Loop.GameLoop.Start | src/systems/GameLoop.ts:23-29 | a stopped loop starts at `now` and schedules; a running loop is left unchanged |
| Loop.GameLoop.Stop | src/systems/GameLoop.ts:34-40 | cancels the pending request, clears the flag and keeps the accumulator and the last time |
| Loop.GameLoop.MainLoop | src/systems/GameLoop.ts:45-61 | stopped: no calls, no change; running: k `update(timeStep)` calls then one `render`, the accumulator left at the drain's remainder, `lastFrameTime == timestamp`, and the next request scheduled |
| Loop.RenderOnceAfterUpdates | src/systems/GameLoop.ts:53-58 | `render` is the last call and the only one that is not an update |
| Loop.SteadyRate | src/systems/GameLoop.ts:23-61 | callbacks exactly one step apart each run one update and one render |
| Scene.GameObject.constructor | src/systems/GameObject.ts:10-20 | position and draw offset default to (0, 0), no children |
| Scene.GameObject.StepEntry | src/systems/GameObject.ts:22-28 | the hook trace is every child's trace in list order followed by the node's own step |
| Scene.GameObject.Draw | src/systems/GameObject.ts:34-41 | the node draws first at parent + position + drawOffset, then each child from that point; the parent origin defaults to (0, 0) |
| Scene.GameObject.AddChild | src/systems/GameObject.ts:45-47 | appends, duplicates allowed; adding a node that does not reach this one keeps the tree acyclic |
| Scene.GameObject.RemoveChild | src/systems/GameObject.ts:49-51 | the children become the filter dropping that node; the tree stays valid |
| Scene.StepOrderEndsWithSelf | src/systems/GameObject.ts:22-28 | the node's own step is the last hook call of its subtree |
| Scene.DrawOrderTranslates | src/systems/GameObject.ts:34-41 | moving the parent origin moves every draw call of the subtree by the same amount |
| Scene.ChildrenDrawOrderTranslates | src/systems/GameObject.ts:40 | the same for the children's part of the draw |
| Scene.TraversalsVisitSameNodes | src/systems/GameObject.ts:22-41 | `stepEntry` and `draw` call the hooks of the same nodes, equally often |
| Scene.ChildrenVisitSameNodes | src/systems/GameObject.ts:24-40 | the same for the children's part of both traversals |
| Scene.RemoveChildKeepsOthers | src/systems/GameObject.ts:49-51 | every occurrence of the node is removed, every other child stays, and a non-child leaves the list unchanged |
| Cameras.FollowPosition | src/systems/Camera.ts:15-24 | camera position plus hero position is (152, 82) |
| Cameras.HeroCentred | src/systems/Camera.ts:15-24 | through the camera, the centre of the hero's 16-pixel sprite is at the centre of the 320x180 canvas |
| Cameras.FollowCancelsMoves | src/systems/Camera.ts:21-24 | a hero move of (dx, dy) moves the camera by (-dx, -dy) |
| Cameras.FollowInjective | src/systems/Camera.ts:21-24 | the camera position determines the hero position |
| Cameras.FollowExample | src/systems/Camera.ts:15-24 | a hero at (112, 80) puts the camera at (40, 2) |
| Cameras.Camera.constructor | src/systems/Camera.ts:10-14 | a childless node at (0, 0) and exactly one new HERO_POSITION subscription whose caller is the camera |
| Cameras.Camera.OnHeroPosition | src/systems/Camera.ts:14-25 | the handler sets the position from the formula and may change nothing else |
| Input.DirectionOfCode | src/systems/InputSystem.ts:23-63 | ArrowUp/KeyW, ArrowDown/KeyS, ArrowLeft/KeyA and ArrowRight/KeyD, both directions of each; any other code gives none |
| Input.IndexOf | src/systems/InputSystem.ts:72 | -1 exactly when absent, otherwise the first position |
| Input.InputSystem.constructor | src/systems/InputSystem.ts:10 | nothing is held |
| Input.InputSystem.Direction | src/systems/InputSystem.ts:19-21 | the head of the list, undefined exactly when the list is empty |
| Input.InputSystem.OnArrowPressed | src/systems/InputSystem.ts:65-69 | prepends a direction not held, leaves a held one; keeps the list duplicate-free |
| Input.InputSystem.OnArrowReleased | src/systems/InputSystem.ts:71-76 | splices out the direction and returns the removed one-element list, undefined when not held |
| Input.InputSystem.OnKeyDown | src/systems/InputSystem.ts:23-42 | presses the mapped direction; other codes change nothing |
| Input.InputSystem.OnKeyUp | src/systems/InputSystem.ts:44-63 | releases the mapped direction; other codes change nothing |
| Input.PressedMakesMostRecent | src/systems/InputSystem.ts:65-69 | a new direction becomes the head; a held one leaves the list unchanged |
| Input.PressedKeepsWellFormed | src/systems/InputSystem.ts:65-69 | pressing keeps the list free of duplicates and of non-directions |
| Input.ReleasedKeepsWellFormed | src/systems/InputSystem.ts:71-76 | releasing keeps the list free of duplicates and of non-directions |
| Input.ReleaseNotHeld | src/systems/InputSystem.ts:71-76 | releasing a direction not held is a no-op |
| Input.ReleasedIsFilter | src/systems/InputSystem.ts:71-76 | on a duplicate-free list a release is the order-preserving filter that drops the direction |
| Input.ReleasedRemovesExactly | src/systems/InputSystem.ts:71-76 | after a release exactly the other directions remain held |
| Input.PressThenRelease | src/systems/InputSystem.ts:65-76 | pressing a fresh direction and releasing it restores the list |
| Input.AtMostFourHeld | src/systems/InputSystem.ts:23-69 | a well-formed list holds at most four directions |
| Input.ArrowExample | src/systems/InputSystem.ts:19-76 | holding Up and pressing Left makes Left current, and releasing Left brings Up back |
| Heroes.Offset | src/entities/Hero/Hero.ts:82-98 | DOWN, UP, LEFT and RIGHT give offsets (0,16), (0,-16), (-16,0) and (16,0); anything else gives none |
| Heroes.OneCellAway | src/entities/Hero/Hero.ts:82-98 | a direction moves exactly one cell along exactly one axis |
| Heroes.OppositeStepsCancel | src/entities/Hero/Hero.ts:86-97 | a step and the opposite step return to the start |
| Heroes.StepKeepsGrid | src/entities/Hero/Hero.ts:82-98 | from a grid-aligned cell the candidate is grid-aligned |
| Heroes.ClipKeysOfDirections | src/entities/Hero/Hero.ts:43-123 | every walk and stand clip the rule plays is one of the eight built |
| Heroes.NewPatterns | src/entities/Hero/Hero.ts:43-50 | eight pairwise distinct fresh patterns at time 0, the i-th over the i-th clip configuration |
| Heroes.ClipTableDistinct | src/entities/Hero/Hero.ts:42-51 | distinct patterns give distinct values in the controller's table: no two clip names share a clock |
| Heroes.NewController | src/entities/Hero/Hero.ts:42-51 | the body controller holds exactly the eight clip names, each bound to its own fresh pattern at time 0 over the matching clip configuration, no two names sharing a pattern, and walkDown (the first key) starts active |
| Heroes.Hero.constructor | src/entities/Hero/Hero.ts:27-62 | the shadow 32x32 at (-8,-19); the body 32x32, 3x8 frames at (-8,-21) whose controller binds each of the eight clip names to its own fresh pattern at time 0 over that clip's configuration; children [shadow, body]; facing DOWN; the destination a fresh copy of the position |
| Heroes.Hero.Step | src/entities/Hero/Hero.ts:64-74 | the move rule runs only when arrived with an input; the body sprite steps every time |
| Heroes.Hero.TryMove | src/entities/Hero/Hero.ts:76-107 | no direction: the stand clip of the facing direction plays and nothing moves; a direction: its walk clip plays, the hero faces it, and the destination becomes the neighbouring cell exactly when that cell is free; the played clip restarts at 0 unless it was already active and every other clip keeps its clock; a free, grid-aligned destination stays so |
| Heroes.Hero.StepTowards | src/entities/Hero/Hero.ts:82-106 | with a direction: the hero faces it, its walk clip plays with the clock effects of `play`, and the destination becomes the neighbouring cell exactly when that cell is free; a free, grid-aligned destination stays so |
| Heroes.Hero.MoveIfFree | src/entities/Hero/Hero.ts:102-106 | the destination becomes the proposed cell when `isSpaceFree` holds for it and is otherwise unchanged |
| Heroes.Hero.ProposeStep | src/entities/Hero/Hero.ts:83-98 | the proposed cell is the neighbouring cell of the destination in that direction (the destination itself for any other string), and exactly the walk clip of a direction is played |
| Heroes.Hero.PlayWalkAnimation | src/entities/Hero/Hero.ts:86-97 | the walk clip of the direction becomes active; it restarts at 0 unless already active; no other clip's clock changes |
| Heroes.Hero.PlayStandAnimation | src/entities/Hero/Hero.ts:109-124 | the stand clip matching the facing direction becomes active, restarting at 0 unless it already was, and no other clip's clock changes; any other facing plays nothing and changes no clock |
| SpriteSheet.FrameMapCell | src/entities/Sprites.ts:52-59 | key `v*hFrames + h` maps to `(frameSize.x*h, frameSize.y*v)` |
| SpriteSheet.FrameMapKeys | src/entities/Sprites.ts:49-62 | the keys are exactly 0 .. hFrames*vFrames - 1 |
| SpriteSheet.FrameMapSize | src/entities/Sprites.ts:49-62 | the map has exactly hFrames*vFrames entries |
| SpriteSheet.FrameMapInjective | src/entities/Sprites.ts:52-59 | with cells of positive size, different frames start at different corners |
| SpriteSheet.SingleCell | src/Sprites.ts:43-56 | a one-by-one sheet maps only 0, to (0, 0) |
| SpriteSheet.Sprite.constructor | src/entities/Sprites.ts:27-47 | defaults 16x16, one by one, frame 0, scale (1, 1), position (0, 0), an empty controller; the map is built |
| SpriteSheet.Sprite.BuildFrameMap | src/entities/Sprites.ts:49-62 | the nested loops add exactly the frame map of the sheet, and a rebuild keeps it |
| SpriteSheet.Sprite.Step | src/entities/Sprites.ts:64-71 | the controller steps, then `frame` becomes the controller's frame (unchanged when the lookup throws) |
| SpriteSheet.Sprite.DrawImage | src/entities/Sprites.ts:73-101 | nothing is drawn before the image loads; the source is the cell of `frame` (the origin for an unmapped frame), sized `frameSize`; the destination is (x, y), sized `frameSize*scale` |
| SpriteSheet.DrawnCellOfFrame | src/entities/Sprites.ts:52-85 | drawing frame `v*hFrames + h` cuts the cell in column h of row v |
| LegacySprites.Sprites.constructor | src/Sprites.ts:23-41 | defaults 16x16, frame 0, scale (1, 1), position (0, 0); the map is built |
| LegacySprites.Sprites.BuildFrameMap | src/Sprites.ts:43-56 | the nested loops add exactly the frame map of the sheet |
| LegacySprites.OneCellSheet | src/Sprites.ts:23-56 | a sheet built as one by one holds the single entry 0 -> (0, 0) |
| Inventories.Layout | src/entities/inventory/Inventory.ts:79-85 | one sprite per item, in item order, the item at index i at (12*i, 0) |
| Inventories.Inventory.constructor | src/entities/inventory/Inventory.ts:23-47 | items with ids -1 and -2, counter 0, at (0, 1); one HERO_PICKS_UP_ITEM subscription with the inventory as caller; rendered |
| Inventories.Inventory.RenderInventory | src/entities/inventory/Inventory.ts:79-85 | the loop creates exactly the layout of the items |
| Inventories.Inventory.AddItem | src/entities/inventory/Inventory.ts:54-61 | bumps the counter, appends one item with the new id, which no held item has; earlier items unchanged; re-rendered |
| Inventories.Inventory.RemoveFromInventory | src/entities/inventory/Inventory.ts:68-71 | the items become the filter dropping that id; ids stay distinct; re-rendered |
| Inventories.Inventory.OnHeroPicksUpItem | src/entities/inventory/Inventory.ts:37-39 | each pick-up event adds exactly one rod |
| Inventories.FilterKeepsDistinct | src/entities/inventory/Inventory.ts:68-69 | removal keeps ids distinct and keeps only items that were there |
| Inventories.LayoutAfterAdd | src/entities/inventory/Inventory.ts:79-85 | after an add the earlier sprites keep their positions and the new one ends the row |
| Inventories.RemoveDropsExactly | src/entities/inventory/Inventory.ts:68-69 | exactly the items with that id are dropped; an absent id changes nothing |
| Inventories.TwoPickUps | src/entities/inventory/Inventory.ts:23-61 | two pick-ups after construction give ids 1 and 2 and a fourth sprite at (36, 0) |

## Left out

- Image loading (src/core/Resources.ts, src/core/Resources/*, ImageResource): browser I/O. A resource is a name, and `isLoaded` is a parameter of `DrawImage`.
- src/main.ts (canvas lookup, timers, drawing): DOM glue.
- src/utils/moveTowards.ts: square roots and float normalisation. Whether the hero has arrived is a parameter of `Hero.Step`, and the hero's own position is not moved.
- src/entities/rod/Rod.ts: it depends on float rounding and a `destroy` method that src/systems/GameObject.ts does not define.
- `requestAnimationFrame`, `cancelAnimationFrame`, `performance.now`, `document.addEventListener`, `ctx.drawImage` and `console` calls: host APIs. Their inputs and results are parameters and return values.
- The callbacks themselves: callbacks, `update`/`render` and the `step`/`drawImage` hooks are named, not run. Event payloads are not modelled.
- Handlers that change the bus while `emit` runs are not modelled; `Emit` iterates over the list as it was when the call began.
- src/systems/FrameIndexPattern, heroAnimation, levels/level1 and src/systems/Input are not part of this model:
  - the older controller's clips are modelled by AnimationFramePattern;
  - the hero's clip configurations and the walls are constructor parameters;
  - the hero uses the direction names of InputSystem.
- `Object.keys` order: the caller supplies the key order (`keys`). JavaScript's integer-key-first ordering is not modelled.
- `Inventory.renderInventory`'s `child.destroy()`: neither GameObject nor Sprite defines `destroy`. A render replaces the previous sprites with the new layout.
- Inheritance from GameObject (Camera, Hero, Inventory): modelled by composition. The inventory's sprites and the hero's sprites are not scene-node children. In the source they are children, and `Sprite` (src/entities/Sprites.ts:16) defines neither `stepEntry` nor `draw`; so `GameObject.stepEntry` (src/systems/GameObject.ts:24) and `GameObject.draw` (src/systems/GameObject.ts:40) throw a `TypeError` on the first Sprite child of a Hero or of a rendered Inventory, before `Hero.step` runs. The model keeps the sprites outside the scene node instead, so its traversals do not throw.
- Positions of scene nodes, frame sizes and frame-map entries are values (`Vec`), not shared Vector2 objects. No code in the program mutates them through a second reference. The hero's destination, which is mutated, stays a Vector2.
- IEEE-754 numbers: times are reals and pixels are integers. `${x}` is modelled as the decimal text of an integer, so non-integral coordinates are not covered.
- The `!this.animations` guard in `Sprite.step` is not modelled, because the constructor always supplies a controller.
- `moveTowards`'s effect on `distance`, and the hero's `input` field, are not modelled.
- ClipControl.AnimationSystem.Play: keys are own properties of the clip table; an inherited name of `Object.prototype` such as `"toString"` is treated as unknown and ignored, whereas `this.patterns[key]` finds it, so the source would set `activeKey` to it and write `currentTime` onto that function. The call sites pass clip names only.
- ClipControl.AnimationSystem.Frame and ClipControl.AnimationSystem.Step: for such an inherited active key the source's `frame` is `undefined` and `step` throws; the model treats the key as naming no clip (frame 0, nothing advances).
- LegacyAnimations.Animations.Play: for an inherited name the source does not throw, but the model returns `false` as for any key that names no own clip. LegacyAnimations.Animations.Frame and LegacyAnimations.Animations.Step treat such a key like ClipControl's do.
- Heroes.Hero.Step: states the body sprite's new frame and the move rule's effect, but not the clip clocks the body's step advances. Those are stated by `Sprite.Step`.
- Node labels: the `id` of a scene node is a label a caller chooses for each node so that the traces of `StepEntry` and `Draw` can name it; the source has no such field, and two nodes may share a label, so a trace entry is not an object identity.
- Scene.GameObject.AddChild: validity (acyclicity) is kept only when the added node is valid and does not reach this one. The source does not check this, and on a cycle its traversals recurse until the stack overflows (`RangeError`).
