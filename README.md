# Legionaire — a verified model of the game's core

Legionaire is a browser prototype of a Roman tactics game. Its core is:

- a 12 × 12 board of units;
- a container component that owns the game state (roster, selected action, experience, turn, mission progress, the combat flags);
- a combat service and its copy inside the combat-resolver dialog;
- a movement-range calculator;
- a pseudo-3D combat view with a free camera, a pinhole projection and a painter's-algorithm draw list;
- a handful of panels that classify units by colour band.

This project models that core in Dafny and proves what each part promises.

| Dafny module | file | models |
|---|---|---|
| `Wrappers`, `Text` | `wrappers.dfy`, `text.dfy` | `Option`, ASCII `toLowerCase`, capitalisation, `${n}` rendering of a number |
| `Units` | `units.dfy` | the unit record, `find`, the selected unit, JavaScript's `h / m > t` with a zero divisor, percentages |
| `MovementService` | `movement_service.dfy` | `calculateMovableTiles`, as an imperative double loop |
| `CombatService` | `combat_service.dfy` | `calculateCombatOutcome`, `findAttackableTargets` |
| `App` | `app.dfy` | the state container: class `Game`, one method per handler, one function per `prev.map(...)` |
| `CombatResolver` | `combat_resolver.dfy` | the dialog's inline rules and its two-phase resolve / timer cycle (class `Resolver`) |
| `CombatView` | `combat_view.dfy` | camera, keys, projection, soldier seeding, draw list (class `View`), painter decisions |
| `GameBoard` | `game_board.dfy` | cell-click routing, the board's health bar |
| `UnitRoster`, `CommandPanel`, `GameHUD`, `ActionWheel` | `unit_roster.dfy`, `command_panel.dfy`, `game_hud.dfy`, `action_wheel.dfy` | colour bands, counters, button states, offered actions |

`Math.random()` values are parameters of type `Draw`, a real in [0, 1), one per call, in the order the source draws them. `Math.cos` and `Math.sin` of the camera angles are passed in as a `Trig` value. Positions and ratios are exact reals. Integers are unbounded; every number the source keeps is a small integer.

Behaviour of the code worth knowing, which the model keeps:

- The combat view does not itself damage a soldier on "attack". Its buttons only call the container's `handleCombatAction`, which lowers the roster defender's health by 15 (`App.Game.CombatAction`).
- The view seeds its two soldiers once, in the `useState` initialiser at mount. They are not re-seeded each time the view is activated (`CombatView.View.constructor`). The container mounts the view while no combat is running, with both snapshots `null`, so in the running app the fallbacks apply.
- The frame loop keeps the key set and the camera of the render that activated it, so held keys do not move the camera and the canvas keeps drawing the activation camera (see Findings).
- The health fills are not clamped. A unit above its maximum overflows its bar (`CombatView.HealthBarFill`, `Units.Percentage`).
- The `||` fallbacks treat a health of 0 as missing, so a fallen unit is seeded at 100 (`CombatView.FallenUnitSeedsAtFullHealth`).
- A board click on an occupied cell always selects there, so the Pila-toss branch cannot be reached by a click (see Findings).

## Model

| member | source | states |
|---|---|---|
| `Text.ToLower` | src/components/GameHUD.tsx:30 | same length; each character ASCII-lower-cased, everything else kept |
| `Text.ToLowerIdempotent` | src/components/GameHUD.tsx:30 | lower-casing twice equals lower-casing once |
| `Text.Capitalised` | src/components/UnitRoster.tsx:106 | same length; only the first character is upper-cased, the rest kept |
| `Text.CapitalisedLowersBack` | src/components/CommandPanel.tsx:87 | the capitalised type label lower-cases back to the lower-cased type |
| `Text.NatToString` | src/services/CombatService.ts:34 | the rendering of a damage number is one or more decimal digits, one digit exactly below 10 |
| `Text.NatToStringRoundTrip` | src/services/CombatService.ts:53 | reading the rendered digits back gives the number |
| `Units.Find` | src/App.tsx:100 | nothing exactly when no element satisfies the test; else an element that does, with none before it |
| `Units.SelectedUnit` | src/App.tsx:100 | the first selected unit; none exactly when no unit is selected |
| `Units.QuotientAbove` | src/components/UnitRoster.tsx:35-38 | JavaScript's `h / m > t`: for a positive divisor `h > t·m`, for a negative one `h < t·m`, for a zero divisor true exactly when `h > 0` (+Infinity; NaN and −Infinity fail) |
| `Units.QuotientAtLeast` | src/components/GameHUD.tsx:40-43 | JavaScript's `h / m >= t`: for a positive divisor `h ≥ t·m`, for a negative one `h ≤ t·m`, for a zero divisor true exactly when `h > 0` |
| `Units.Percentage` | src/components/UnitRoster.tsx:121 | `p * m == 100 * h`; within [0, 100] for 0 ≤ h ≤ m; 100 exactly at h == m; above 100 beyond the maximum |
| `MovementService.CalculateMovableTiles` | src/services/MovementService.ts:6-30 | every listed tile is on the board and within range; every such tile is listed; strictly ordered by (x, y), hence no duplicates; empty for a negative range; the start is listed when it is on the board |
| `CombatService.Scaled` | src/services/CombatService.ts:31 | `Math.floor(Math.random() * n)` lies in [0, n) |
| `CombatService.FloorDiv10` | src/services/CombatService.ts:44 | the floor quotient by 10: `q*10 <= n < q*10 + 10` |
| `CombatService.Strength` | src/services/CombatService.ts:44-45 | `max(1, 8 + floor((morale-50)/10))`: the raw value whenever it is at least 1, else 1; at least 8 at morale 50 or more |
| `CombatService.StrengthMonotone` | src/services/CombatService.ts:44-45 | more morale never gives less strength |
| `CombatService.Roll` | src/services/CombatService.ts:46-47 | a roll lies between 1 and 20 above the strength |
| `CombatService.CalculateCombatOutcome` | src/services/CombatService.ts:21-78 | two log lines; Pila toss: 20–29 damage to the defender, morale +5/−15; melee won: 5–19 to the defender, +5/−10; melee lost: 3–12 to the attacker, −5/+3 |
| `CombatService.ExactlyOneSideHurt` | src/services/CombatService.ts:36-72 | in every branch exactly one side takes damage, and it is positive |
| `CombatService.TieGoesToDefender` | src/services/CombatService.ts:49 | equal dice and morale never win the melee: ties go to the defender |
| `CombatService.FindAttackableTargets` | src/services/CombatService.ts:79-94 | exactly the units of the other faction within Manhattan range, each as often as in the input, in input order |
| `CombatService.NoFriendlyTargets` | src/services/CombatService.ts:87 | a target never has the attacker's id and never shares its faction |
| `App.CapAt` | src/App.tsx:138 | `Math.min(max, x)`: never above the cap, `x` when it fits |
| `App.ToggleSelection` | src/App.tsx:102-107 | only `isSelected` changes; a unit ends selected exactly when it has the id and was not selected |
| `App.ToggleSelectionAtMostOne` | src/App.tsx:102-107 | with distinct ids at most one unit is selected afterwards |
| `App.ToggleSelectionTwice` | src/App.tsx:102-107 | selecting twice keeps only the original selection of that id and clears all others |
| `App.SelectAllUnits` | src/App.tsx:109-114 | every unit selected, nothing else changed |
| `App.SelectAllShowsFirst` | src/App.tsx:100-114 | after Select All the shown unit is the roster's first; none only for an empty roster |
| `App.MoveUnitTo` | src/App.tsx:116-121 | only the units with that id move, and only their position changes |
| `App.MoveUnitToLastWins` | src/App.tsx:116-121 | two moves of the same unit amount to the second one |
| `App.MoveKeepsUnitsBounded` | src/App.tsx:116-121 | moving keeps every health and morale bound |
| `App.WithId` | src/App.tsx:125 | the first unit with the id; none exactly when no unit has it |
| `App.FirstNearby` | src/App.tsx:126-130 | the first other unit within one step in both axes; none exactly when there is none |
| `App.Encounter` | src/App.tsx:124-136 | a combat always carries both snapshots |
| `App.EncounterFinds` | src/App.tsx:124-136 | a combat starts exactly when the moved unit exists and another unit is adjacent; attacker and defender are the first such units |
| `App.FriendlyEncounter` | src/App.tsx:126-134 | faction is not checked: two Roman units side by side start a combat |
| `App.RaiseSelectedMorale` | src/App.tsx:150-154 | selected units gain 5 morale capped at 100; the others are unchanged |
| `App.RaiseMoraleWithoutSelection` | src/App.tsx:149-155 | with no unit selected the map is the identity, so the guard changes nothing |
| `App.MoraleStep` | src/App.tsx:165 | the random morale step is +1 or −1 |
| `App.EndTurnUnits` | src/App.tsx:163-167 | `Math.max(20, Math.min(100, m ± 1))`: the stepped morale when it lies in [20, 100], 100 above, 20 below; every unit deselected, nothing else changed |
| `App.TakeHit` | src/App.tsx:183-191 | health `h − damage`, or 0 when that is negative; morale `m + change`, or 100 above, 0 below; nothing else changed |
| `App.ApplyCombatResult` | src/App.tsx:179-195 | attacker's units take the attacker's share (tested first), defender's units the defender's share, all others unchanged |
| `App.StrikeDefender` | src/App.tsx:219-229 | only the defender's units lose 15 health, floored at 0 |
| `App.ToggleAction` | src/App.tsx:142-144 | the action is cleared exactly when it was already selected, otherwise it becomes selected |
| `App.Game.Selected` | src/App.tsx:100 | none exactly when no unit is selected |
| `App.Game.constructor` | src/App.tsx:21-98 | the six-unit roster `InitialRoster` (ids distinct, four Roman then two `enemy` ids, none selected), 180/250 XP, turn 1, progress 25, no combat, and the invariant holds |
| `App.Game.UnitSelect` | src/App.tsx:102-107 | the roster becomes `ToggleSelection`, at most one unit is selected afterwards, the invariant (distinct ids included) kept |
| `App.Game.SelectAll` | src/App.tsx:109-114 | the roster becomes `SelectAllUnits`, the invariant kept |
| `App.Game.MoveUnit` | src/App.tsx:116-140 | roster moved, action cleared, XP +5 capped, combat opened with the encounter exactly when there is one, the invariant kept |
| `App.Game.ActionSelect` | src/App.tsx:142-144 | the selected action toggles |
| `App.Game.FormationSelect` | src/App.tsx:146-156 | selected units gain morale when a unit is selected; otherwise nothing changes |
| `App.Game.EndTurn` | src/App.tsx:158-170 | turn +1, progress +5 capped at 100, the roster becomes `EndTurnUnits` (morale stepped and clamped into [20, 100], all deselected), action cleared, the invariant kept |
| `App.Game.CombatComplete` | src/App.tsx:176-202 | the roster becomes `ApplyCombatResult`, each combatant via `TakeHit` (health floored at 0, morale clamped into [0, 100]); XP +15 capped, resolver closed and combat view opened |
| `App.Game.CombatCancel` | src/App.tsx:204-207 | resolver closed, snapshots cleared |
| `App.Game.ExitCombatView` | src/App.tsx:209-212 | combat view closed, snapshots cleared |
| `App.Game.CombatAction` | src/App.tsx:214-230 | only "attack" changes the roster, by striking the defender |
| `CombatResolver.ResolveOutcome` | src/components/CombatResolver.tsx:33-67 | two log lines, never a draw; victory exactly for a Pila toss or a won melee; damage and morale ranges per branch |
| `CombatResolver.AgreesWithService` | src/components/CombatResolver.tsx:38-66 | the dialog's copy yields the service's numbers and log for the same draws |
| `CombatResolver.Resolver.constructor` | src/components/CombatResolver.tsx:26-27 | not resolving, empty log, nothing delivered |
| `CombatResolver.Resolver.Resolve` | src/components/CombatResolver.tsx:33-68 | resolving, the computed log shown, the computed result pending |
| `CombatResolver.Resolver.TimerFires` | src/components/CombatResolver.tsx:69-72 | resolving stops and the pending result is delivered once |
| `CombatResolver.ResolveThenComplete` | src/components/CombatResolver.tsx:33-73 | one resolution delivers exactly the result it computed, once |
| `CombatView.Toggled` | src/components/CombatView.tsx:109-116 | mode flipped, camera at the new mode's preset height and depth, x and angles kept |
| `CombatView.ToggleTwice` | src/components/CombatView.tsx:109-116 | two toggles restore the mode, and the whole camera when it was at its preset |
| `CombatView.Advanced` | src/components/CombatView.tsx:147-169 | no keys: no change; else each coordinate moves by speed × (held forward − held backward), each angle likewise |
| `CombatView.OppositeKeysCancel` | src/components/CombatView.tsx:155-165 | holding both keys of an opposite pair equals holding neither |
| `CombatView.OtherKeyIgnored` | src/components/CombatView.tsx:155-165 | a key the update does not read has no effect |
| `CombatView.HoldForward` | src/components/CombatView.tsx:155 | n camera steps with `w` held move the camera by exactly n × 0.1 along z and change nothing else |
| `CombatView.Project3D` | src/components/CombatView.tsx:420-458 | nothing exactly at or behind the camera plane; else depth as distance, positive scale with scale × distance = 500; screen x = 600 + rotated x × scale and screen y = 400 − rotated y × scale, so the centre for a point straight ahead |
| `CombatView.ScaleFallsWithDistance` | src/components/CombatView.tsx:455 | nearer objects get a larger scale |
| `CombatView.StraightAhead` | src/components/CombatView.tsx:428-457 | a point ten units ahead of a level camera lands at (600, 400) with scale 50 |
| `CombatView.OrNumber` | src/components/CombatView.tsx:75-76 | JavaScript `||` on a number: the value unless missing or 0 |
| `CombatView.OrString` | src/components/CombatView.tsx:77 | JavaScript `||` on a string: the value unless missing or empty |
| `CombatView.SeedSoldiers` | src/components/CombatView.tsx:69-96 | two idle soldiers at x = −2 and 2 facing each other (π apart); health, maximum and type from the snapshots, each falling back (100, 100, legionnaire / hastati) when missing, 0 or empty; non-zero maxima |
| `CombatView.FallenUnitSeedsAtFullHealth` | src/components/CombatView.tsx:75 | a snapshot with 0 health is seeded at 100 |
| `CombatView.Visible` | src/components/CombatView.tsx:496-530 | never more objects than entities |
| `CombatView.VisibleExactly` | src/components/CombatView.tsx:496-530 | exactly the entities in front of the camera, each paired with its projection |
| `CombatView.VisibleCount` | src/components/CombatView.tsx:496-530 | each object occurs as often as its entity does in the input when it is that entity's projection, else never |
| `CombatView.Insert` | src/components/CombatView.tsx:533-535 | inserting adds the object and nothing else (as a multiset) |
| `CombatView.InsertKeepsOrder` | src/components/CombatView.tsx:533-535 | insertion into a farthest-first list keeps it farthest first |
| `CombatView.SortFarthestFirst` | src/components/CombatView.tsx:533-535 | a permutation of its input, ordered farthest first |
| `CombatView.PaletteFor` | src/components/CombatView.tsx:179-204 | unknown types get the legionnaire colours; the skin colour is shared |
| `CombatView.WeaponFor` | src/components/CombatView.tsx:263-279 | a bow exactly for archers |
| `CombatView.ShieldColor` | src/components/CombatView.tsx:282-292 | no shield exactly for archers; crimson for the player, brown for the enemy |
| `CombatView.HealthBarColor` | src/components/CombatView.tsx:305-311 | green exactly above 60 %, amber between 30 % and 60 %, red otherwise |
| `CombatView.PixelSize` | src/components/CombatView.tsx:178 | `max(1, scale * 0.5)`: at least both, and equal to one of them |
| `CombatView.BodyWidth` | src/components/CombatView.tsx:208 | eight pixel units: 8 up to scale 2, `4 × scale` from there |
| `CombatView.HealthBarFill` | src/components/CombatView.tsx:295-317 | `bodyWidth × health / maxHealth`; within the bar for 0 ≤ health ≤ max, full at max, past the bar above max |
| `CombatView.InfoBarClass` | src/components/CombatView.tsx:649 | one of the three band classes |
| `CombatView.InfoBarMatchesSprite` | src/components/CombatView.tsx:649 | for a positive maximum the info card and the sprite bar agree on green and red |
| `CombatView.View.constructor` | src/components/CombatView.tsx:60-107 | initial camera, no keys, seeded soldiers, fixed scenery, no frame loop yet |
| `CombatView.View.ToggleCameraMode` | src/components/CombatView.tsx:109-116 | the camera becomes `Toggled` |
| `CombatView.View.KeyDown` | src/components/CombatView.tsx:118-125 | `f` (any case) toggles and is not recorded; other keys are recorded lower-cased |
| `CombatView.View.KeyUp` | src/components/CombatView.tsx:127-134 | the lower-cased key is forgotten |
| `CombatView.View.UpdateCamera` | src/components/CombatView.tsx:147-169 | the camera becomes `Advanced` under the held keys |
| `CombatView.View.DrawList` | src/components/CombatView.tsx:489-535 | for the given camera: the visible soldiers and terrain (as a multiset), farthest first |
| `CombatView.View.Activate` | src/components/CombatView.tsx:555-564 | the loop runs, with the key set and camera of the activating render captured |
| `CombatView.View.Deactivate` | src/components/CombatView.tsx:566-570 | the loop stops |
| `CombatView.View.AnimateFrame` | src/components/CombatView.tsx:555-564 | as written: the camera steps by the captured key set; the draw list is that of the captured camera |
| `CombatView.HoldForwardAsWritten` | src/components/CombatView.tsx:147-148 | holding `w` after activation leaves the camera at its initial position for any number of frames |
| `CombatView.View.AnimateFrameCorrected` | src/components/CombatView.tsx:558-561 | intended: the camera steps by the keys held now, and the draw list is that of the new camera |
| `CombatView.HoldForwardCorrected` | src/components/CombatView.tsx:155 | with the intended frame, n frames of `w` move the camera n × 0.1 along z |
| `GameBoard.HandleCellClick` | src/components/GameBoard.tsx:33-46 | an ability use exactly for a Pila toss at an attackable unit on the cell, aimed at the first such unit in the attackable list; a move exactly with a selected unit, action `move` and a movable cell; never a selection |
| `GameBoard.CellClick` | src/components/GameBoard.tsx:100-118 | an occupied cell selects the first unit on it; an empty cell does what `handleCellClick` does |
| `GameBoard.PilaTossUnreachable` | src/components/GameBoard.tsx:112-118 | when the attackable units stand on the board, no click uses the ability |
| `GameBoard.PilaTossClickSelects` | src/components/GameBoard.tsx:112-118 | Pila toss chosen, a click on the attackable enemy selects it |
| `GameBoard.CellClickCorrected` | src/components/GameBoard.tsx:112-118 | with a Pila toss chosen a click on an attackable unit throws at the first such unit; all other clicks route as before |
| `GameBoard.HealthBarWidth` | src/components/GameBoard.tsx:132 | `32 × health / maxHealth` px; within 32 px for 0 ≤ health ≤ max; full at max |
| `GameBoard.HealthBarColor` | src/components/GameBoard.tsx:132 | green exactly above 60 % of the maximum, amber above 30 %, red otherwise |
| `GameBoard.BoardBarMatchesSprite` | src/components/GameBoard.tsx:132 | for a positive maximum the board and the combat sprite choose the same colour |
| `UnitRoster.UnitTypeColor` | src/components/UnitRoster.tsx:24-32 | the gray badge exactly for a type outside the four |
| `UnitRoster.HealthColor` | src/components/UnitRoster.tsx:34-40 | four bands: above 75 %, above 50 %, above 25 %, otherwise |
| `UnitRoster.HealthBarWidth` | src/components/UnitRoster.tsx:121 | `health / maxHealth × 100`; within [0, 100] in range, 100 exactly at the maximum, above 100 past it |
| `UnitRoster.HealthColorMatchesWidth` | src/components/UnitRoster.tsx:120-121 | the green and red bands agree with the drawn width |
| `UnitRoster.MoraleColor` | src/components/UnitRoster.tsx:42-47 | four bands at 80, 60 and 40 |
| `UnitRoster.Count` | src/components/UnitRoster.tsx:59-61 | at most the roster size; the size exactly when all qualify; 0 exactly when none does |
| `UnitRoster.HealthyUnits` | src/components/UnitRoster.tsx:60 | never more than the total; the total exactly when every unit is above half health |
| `UnitRoster.HighMoraleUnits` | src/components/UnitRoster.tsx:61 | never more than the total; the total exactly when every unit has morale 70 or more |
| `UnitRoster.CountAppend` | src/components/UnitRoster.tsx:59-61 | one more unit raises a count by one exactly when it qualifies |
| `ActionWheel.OfferedActions` | src/components/ActionWheel.tsx:11-46 | nothing without a unit; `move` always; `pila_toss` exactly for hastati with the ability unused; no other action, none twice |
| `CommandPanel.MoraleColor` | src/components/CommandPanel.tsx:48-53 | four text bands at 80, 60 and 40 |
| `CommandPanel.MoraleBandsAgree` | src/components/CommandPanel.tsx:48-53 | the panel and the roster put every morale in the same band |
| `CommandPanel.UnitTypeDescription` | src/components/CommandPanel.tsx:55-63 | the four descriptions; "Unknown unit type" exactly outside the four types |
| `CommandPanel.ActionButtons` | src/components/CommandPanel.tsx:123-137 | four buttons in order; each disabled exactly without a selected unit; highlighted exactly when it is the selected action, so at most one |
| `CommandPanel.FormationButtons` | src/components/CommandPanel.tsx:147-161 | four buttons in order, never highlighted, disabled exactly without a selected unit |
| `GameHUD.BadgeForRank` | src/components/GameHUD.tsx:31-35 | the gray badge exactly outside the four ranks |
| `GameHUD.RankBadgeColor` | src/components/GameHUD.tsx:29-37 | the gray badge exactly when the lower-cased rank is not a known rank |
| `GameHUD.RankBadgeIgnoresCase` | src/components/GameHUD.tsx:30 | a rank and its lower-cased spelling get the same badge |
| `GameHUD.ExperienceColor` | src/components/GameHUD.tsx:39-45 | four bands: at least 80 %, 60 %, 40 %, otherwise |
| `GameHUD.ExperienceBarWidth` | src/components/GameHUD.tsx:73 | `experience / maxExperience × 100`; within [0, 100] in range; 100 exactly at the maximum |
| `GameHUD.MissionBarWidth` | src/components/GameHUD.tsx:92 | the progress itself, within [0, 100] when the progress is |

## Left out

- Canvas painting: rectangles, gradients, ground, terrain shapes and the sprite geometry beyond the decisions above. There is no drawing surface to model.
- Floating point: positions and ratios are exact reals; `Math.cos`/`Math.sin` are inputs; `Math.PI` is its decimal value. Opposite keys cancel exactly only over the reals (`CombatView.OppositeKeysCancel`); in doubles, adding and then subtracting 0.1 need not restore a coordinate.
- The dialog's render guard is stated by the predicate `CombatResolver.Renders`. It has no contract of its own, and `Resolver.Resolve` is modelled for a rendered dialog.
- The `requestAnimationFrame` scheduling and the window listeners: a frame is the explicit step `View.AnimateFrame`, and key events are the methods `View.KeyDown` and `View.KeyUp`.
- The 2-second `setTimeout` delay and unmounting: the timer is the explicit step `Resolver.TimerFires`.
- React scheduling: batching and stale `useCallback` closures. Each handler is one atomic method on the current state.
- `console.log` lines, `handlePauseGame` (only a log line), hover state, icons and symbols, the board's type colours, the action wheel's screen position, the static "None" in the status bar, and the average-morale line (not needed by any other part).
- Text.ToLower: only ASCII letters are case-mapped; JavaScript maps all of Unicode.
- Text.Capitalised: only ASCII letters are upper-cased, so "same length" holds. JavaScript maps all of Unicode and can lengthen a string ("ß" becomes "SS"); the type names are ASCII.
- CombatView.PaletteFor: a type named after an object-prototype key (`toString`, say) is not modelled; the source would read an inherited property there.
- The container's `Unit` type lacks `abilityUsed`, so in the running app it reads as `undefined` (falsy). The model keeps it as a field, false in the initial roster.
- The container passes no `actionType` to the resolver, so it always fights a melee there; the model takes the action type as a parameter.
- The container gives the board no `movableTiles`, `attackableTiles`, `onAbilityUse` or `onActionSelect`. A click on an empty cell would then throw. The model takes these as parameters, as the board declares them.
- Units.Percentage: requires a non-zero maximum; JavaScript would give an infinite or NaN width there.
- UnitRoster.HealthBarWidth: requires a non-zero maximum, as `Units.Percentage`.
- GameHUD.ExperienceBarWidth: requires a non-zero maximum, as `Units.Percentage`.
- GameBoard.HealthBarWidth: requires a non-zero maximum, as `Units.Percentage`.
- CombatView.HealthBarFill: requires a non-zero maximum; seeded soldiers always have one.
- App.EndTurnUnits: requires one random draw per unit, as the source draws one per unit.
- App.Game.EndTurn: requires one random draw per unit, as `App.EndTurnUnits`.
- CombatResolver.Resolver.Resolve: requires that no resolution is running. The button is shown only then.
- The handlers of `App.Game` require the invariant `Valid` (experience, turn, progress and unit bounds, distinct ids). The constructor establishes it and every handler keeps it, so every reachable state meets it.

## Findings

| source | as written | input that shows it | evidently intended | confidence | as-written member | corrected member |
|---|---|---|---|---|---|---|
| src/components/GameBoard.tsx:112-118 | a cell with a unit on it calls `onUnitSelect` and never reaches `handleCellClick`, whose Pila-toss branch (lines 35-39) needs an attackable unit on the clicked cell | Pila toss selected, enemy `enemy1` at (8, 8) attackable, click on (8, 8): the enemy is selected and no pila is thrown | with a Pila toss selected, a click on an attackable unit throws the pila | not executed | `GameBoard.PilaTossUnreachable` | `GameBoard.CellClickCorrected` |
| src/components/CombatView.tsx:555-571 | the `animate` effect depends only on `isActive`, so every frame calls the `updateCamera` and `render` of the activating render; `updateCamera` reads that render's key set, normally empty, and returns at line 148, and `render` draws that render's camera | open the view, hold `w` for any number of frames: the camera does not move; press `f`: the camera state toggles but the canvas keeps the old view | each frame steps the camera by the keys held now and draws the camera so reached | not executed | `CombatView.HoldForwardAsWritten` | `CombatView.View.AnimateFrameCorrected` |
