# GhostbusterQuest core, modelled in Dafny

GhostbusterQuest is an iOS location game. A player keeps a store of
games. Each game has circular zones and ghosts. The player starts a hunt
on one ghost, walks towards it with a radar screen, and catches it in an
augmented-reality view by shooting projectiles until the ghost freezes.
This project models the logic behind those screens and proves what it
promises:

- `GameModels` (`game_models.dfy`): the `CircleZone`, `Ghost` and `Game`
  records with their initialiser defaults, `currentLocation` and
  `capturedCount`.
- `GameStore` (`game_store.dfy`): the shared store, a class whose `games`
  sequence is updated in place by `addGame`, `delete(at:)`,
  `resetProgress` and `setActive`, plus the mock data it starts with.
- `GameList` and `GameDetail` (`game_list.dfy`, `game_detail.dfy`): the
  list and detail screens' edits of the store, and the map region's centre.
- `Scanner` (`scanner.dfy`): which game and ghost the radar shows, zone
  gating, the clamping of radar vectors, the sprite's look, and the
  degree wrap-around.
- `ModelSettings` and `ZoneStyling` (`model_settings.dfy`,
  `zone_styling.dfy`): the scale slider, its label and the model's display
  name; the colour of a zone.
- `SvgPath` and `SvgScale` (`svg_path.dfy`): the ghost outline's path-data
  parser (moveto, lineto, curveto and closepath of section 8.3 of SVG 1.1)
  and its uniform scaling.
- `ModelPreview` (`model_preview.dfy`): how a model id is resolved to a
  bundle resource, the animation options, the hit animation's choice, and
  the preview coordinator's change detection.
- `HuntEngine` (`hunt_engine.dfy`): the AR engine's state machine. It
  covers firing, the per-frame projectile sweep with hits, range and
  expiry, freezing, and the two-stage catch with its completion calls.

Operations that change objects in place are class methods. Each method's
`ensures` ties the new state to a pure function of the old state, and
lemmas state the properties of that function. Loops of the source
(`setActive`, `resetProgress`, `deleteGhost`, the region accumulation,
the path parser, the resource search, the projectile sweep) are `while`
loops with invariants.

## Model

| member | source | states |
|---|---|---|
| GameModels.CircleZoneCentre | GhostbusterQuest/GameModels.swift:17-26 | a zone's `coordinate` is the centre it was built with, and the default radius is 100 |
| GameModels.NewGhostDefaults | GhostbusterQuest/GameModels.swift:54-79 | a new ghost stands at its base and has main radius 150, fight radius 20, trap window 7, escape distance 40, state idle and no escape date |
| GameModels.CurrentLocationRoundTrip | GhostbusterQuest/GameModels.swift:81-91 | reading `currentLocation` after setting it gives the value set; base and all other fields are unchanged; setting the value already held changes nothing |
| GameModels.NewGameDefaults | GhostbusterQuest/GameModels.swift:101-113 | a new game is inactive, with no zones and no ghosts |
| GameModels.CapturedCount | GhostbusterQuest/GameModels.swift:115-117 | the count is at most the number of ghosts; it equals it iff all are captured and is 0 iff none is |
| GameModels.GameIndex | GhostbusterQuest/GameListView.swift:107-110 | `binding(for:)`: the first game with the id, or none iff no game has it |
| GameModels.GhostIndex | GhostbusterQuest/GameListView.swift:120 | the first ghost of a list with the id, or none iff no ghost has it |
| GameStore.MockShape | GhostbusterQuest/GameStore.swift:52-58 | the mock store holds one active game "Патриаршие пруды" with one 120 m zone at the mock base and one idle ghost "Полтергейст" (model "ghost_01") standing at its base there |
| GameStore.ResetGhost | GhostbusterQuest/GameStore.swift:37-41 | a reset ghost is idle and back at its base; no other field changes |
| GameStore.GameStore.constructor | GhostbusterQuest/GameStore.swift:15 | the store starts with the mock games |
| GameStore.GameStore.AddGame | GhostbusterQuest/GameStore.swift:26-29 | exactly one game is appended, named "Новая игра", inactive, without zones or ghosts; earlier games are unchanged |
| GameStore.GameStore.Delete | GhostbusterQuest/GameStore.swift:31-33 | `delete(at:)` leaves the games at offsets not in the set, in order (with `Common.RemoveOffsetsKeeps`/`RemoveOffsetsOnlyKept`: exactly those) |
| GameStore.GameStore.ResetProgress | GhostbusterQuest/GameStore.swift:35-42 | no-op for an unknown id; otherwise only the first game with the id changes, and each of its ghosts is reset |
| GameStore.GameStore.SetActive | GhostbusterQuest/GameStore.swift:44-48 | every game is active iff its id is the given one; count, order and all other fields are unchanged |
| GameStore.SetActiveSingle | GhostbusterQuest/GameStore.swift:44-48 | with distinct ids, activating a stored game leaves exactly that game active |
| GameList.WithoutGame | GhostbusterQuest/GameListView.swift:112-116 | no-op for an unknown id; otherwise the first game with the id is removed and the store shrinks by one |
| GameList.WithoutGameKeepsOrder | GhostbusterQuest/GameListView.swift:112-116 | games before the removed one stay, later ones move up by one, nothing new appears, and a later duplicate of the id survives |
| GameList.DeleteGame | GhostbusterQuest/GameListView.swift:112-116 | the store after `delete(gameID:)` is `WithoutGame` of the store before |
| GameList.GhostLocation | GhostbusterQuest/GameListView.swift:118-125 | `ghostBinding(for:)`: the first position of the id in the lowest game that lists it; none iff no game lists it |
| GameList.WithoutGhost | GhostbusterQuest/GameListView.swift:127-134 | no-op for an unknown id; otherwise only the located game changes, and only by losing the located ghost |
| GameList.DeleteGhost | GhostbusterQuest/GameListView.swift:127-134 | the loop with `break` leaves the store equal to `WithoutGhost` of the store before |
| GameList.DeleteGhostRemovesOne | GhostbusterQuest/GameListView.swift:127-134 | deleting a listed ghost removes exactly one ghost from the store; an unknown id removes none |
| GameList.TotalGhostsUpdate | GhostbusterQuest/GameListView.swift:130 | replacing one game's ghost list changes the store's ghost total by the difference in that game's count |
| GameList.ShortcutMatchesScanner | GhostbusterQuest/GameListView.swift:57-63 | the scanner shortcut is shown iff the scanner has an active game |
| GameList.RowText | GhostbusterQuest/GameListView.swift:145-155 | the row shows "captured / total" iff the game has ghosts, with total the ghost count and captured `capturedCount` ≤ total; otherwise the zero-ghost text |
| GameDetail.StartHuntEffect | GhostbusterQuest/GameDetailView.swift:115-120 | after `startHunt`, with distinct game ids, this game is the only active one; its chosen ghost is active and every other ghost idle; counts, order and other fields are unchanged |
| GameDetail.StartHunt | GhostbusterQuest/GameDetailView.swift:115-120 | the store after the method (`setActive`, then the ghost loop) is `StartHuntGames` of the store before |
| GameDetail.RegionForContent | GhostbusterQuest/GameDetailView.swift:128-165 | the accumulation loop returns `ContentRegion`: the default region, the padded region, or the padded region re-centred on the mean ghost position |
| GameDetail.ContentRegionCentre | GhostbusterQuest/GameDetailView.swift:130-163 | with ghosts, the centre lies in every box that holds all the ghosts' current positions (and is that position when they all coincide); with no ghosts and no user, the region is (55.7558, 37.6173) with span 0.05; with no ghosts and a user, the padded region |
| GameDetail.MeanWithin | GhostbusterQuest/GameDetailView.swift:158-163 | the mean of the accumulated coordinates lies between their lower and upper bounds |
| GameDetail.SumWithin | GhostbusterQuest/GameDetailView.swift:136-138 | the running sums are bounded by count times the bounds |
| GameDetail.NewHuntGhost | GhostbusterQuest/GameDetailView.swift:123-124 | the new ghost is named "Новый призрак", has model "model_id", is idle, and stands at the centre it is given (base and current) |
| GameDetail.AddGhost | GhostbusterQuest/GameDetailView.swift:122-126 | exactly one ghost is appended to this game, placed at the centre of `ContentRegion`; other games are unchanged |
| GameDetail.ClearGhosts | GhostbusterQuest/GameDetailView.swift:97-99 | this game's ghost list becomes empty; nothing else changes |
| GameDetail.DeleteGhosts | GhostbusterQuest/GameDetailView.swift:64-66 | this game loses exactly the ghosts at the offsets, the rest in order; nothing else changes |
| Scanner.ActiveGameIndex | GhostbusterQuest/ScannerView.swift:19-21 | `activeGame`: the first active game; none iff no game is active |
| Scanner.TargetGhost | GhostbusterQuest/ScannerView.swift:23-29 | none iff no active game or it has no ghosts; otherwise its first ghost in the active state, or its first ghost when none is active |
| Scanner.ScannerScreen | GhostbusterQuest/ScannerView.swift:33-77 | the radar is shown iff there is a target and a user location; the main-zone message iff distance ≤ main radius; the AR button enabled iff distance ≤ fight radius |
| Scanner.FightInsideMainZone | GhostbusterQuest/ScannerView.swift:53-72 | when the fight radius is within the main radius, an enabled AR button implies the main-zone message |
| Scanner.ClampVectorSpec | GhostbusterQuest/ScannerView.swift:203-208 | `clamp` keeps a vector whose length is within the radius and otherwise scales it by radius/length, so the result's length never exceeds the radius |
| Scanner.WaveOriginSpec | GhostbusterQuest/ScannerView.swift:158-165 | `waveOrigin` keeps a vector within the radius and otherwise rescales it to length 1.1 times the radius |
| Scanner.Sprite | GhostbusterQuest/ScannerView.swift:145-150 | the sprite is visible iff vectorMeters ≤ maxRange; visible means opacity 0.9 and scale 1, otherwise opacity 0 and scale 0.75 |
| Scanner.TruncatingRemainder | GhostbusterQuest/ScannerView.swift:228 | `truncatingRemainder`: x minus a truncated multiple of m, in [0, m) for x ≥ 0 and in (-m, 0] for x < 0 |
| Scanner.WrappedDegreesSpec | GhostbusterQuest/ScannerView.swift:227-230 | `wrappedDegrees` lies in [0, 360), differs from x by whole turns, and is the identity on [0, 360) |
| Scanner.RelativeBearingSpec | GhostbusterQuest/ScannerView.swift:185-187 | the relative bearing lies in [0, 360) and is 0 when the bearing equals the heading |
| Scanner.RelativeBearingZero | GhostbusterQuest/ScannerView.swift:185-187 | the relative bearing is 0 exactly when the bearing and the heading in use (true if ≥ 0, else magnetic) differ by whole turns |
| ModelSettings.Clamp | GhostbusterQuest/GhostModelSettingsView.swift:53-55 | the result lies in [lower, upper]; it is the input when in range, the nearer bound otherwise |
| ModelSettings.ClampIdempotentMonotone | GhostbusterQuest/GhostModelSettingsView.swift:53-55 | clamping twice is clamping once, and clamping preserves order |
| ModelSettings.ScaleTextSpec | GhostbusterQuest/GhostModelSettingsView.swift:57-66 | the value shown is the value clamped to [0.1, 100]; 0 decimals iff it is ≥ 10, 2 iff in [1, 10), 3 iff below 1; larger values never get more decimals |
| ModelSettings.DisplayModelName | GhostbusterQuest/GhostModelSettingsView.swift:49-51 | the whole id when it has no non-empty '/'-component; otherwise its last non-empty component, which is non-empty, holds no '/' and is the run of characters right before the trailing slashes (`Common.LastWord`) |
| Common.LastComponentOrSuffix | GhostbusterQuest/GhostModelSettingsView.swift:50 | the last component of `split(separator:)` is the run of non-separators ending right before the trailing separators |
| ModelSettings.GhostModelStore.constructor | GhostbusterQuest/GhostModelStore.swift:15-20 | the settings start as model "Quaternius.usdc" at scale 0.12 |
| ModelSettings.GhostModelStore.SetSliderValue | GhostbusterQuest/GhostModelSettingsView.swift:42-45 | the slider's setter stores the value clamped to [0.1, 100] and leaves the model id alone |
| ZoneStyling.ColorFor | GhostbusterQuest/ZoneStyling.swift:11-20 | the colour is always one of the nine palette colours |
| ZoneStyling.ColorForSpec | GhostbusterQuest/ZoneStyling.swift:15-20 | blue when no zone has the id; otherwise the palette colour at the first such index mod 9 |
| ZoneStyling.ColorCycle | GhostbusterQuest/ZoneStyling.swift:19 | with distinct ids, zones nine apart share a colour and zones fewer than nine apart do not |
| SvgPath.LinesFromConsumes | GhostbusterQuest/GhostSpriteView.swift:160-166 | l/L reads every number of the run and emits one line per complete pair; an odd last number is consumed and dropped |
| SvgPath.LinesFromSpec | GhostbusterQuest/GhostSpriteView.swift:160-166 | the k-th line goes to the point read from the k-th pair of numbers, relative to the previous line's end (the current point for the first) for `l` and absolute for `L`; the current point ends at the last line's end |
| SvgPath.CurvesFromConsumes | GhostbusterQuest/GhostSpriteView.swift:142-159 | c/C emits one curve per complete group of six numbers and stops reading at the first non-number |
| SvgPath.CurvesFromSpec | GhostbusterQuest/GhostSpriteView.swift:142-159 | each curve's control points and end are read from its group, relative for `c` and absolute for `C`, and the current point ends at the last end |
| SvgPath.ReadLines | GhostbusterQuest/GhostSpriteView.swift:161-166 | the lineto loop computes `LinesFrom` |
| SvgPath.ScanCurveNumbers | GhostbusterQuest/GhostSpriteView.swift:144-151 | the `guard` succeeds iff six numbers follow, and then returns them in order; on failure it leaves the scanner after the numbers it did read |
| SvgPath.ReadCurves | GhostbusterQuest/GhostSpriteView.swift:143-159 | the curveto loop computes `CurvesFrom` |
| SvgPath.Execute | GhostbusterQuest/GhostSpriteView.swift:131-172 | a command never moves the scanner back; m/M, l/L and c/C consume an available number; z/Z and unknown letters consume nothing and stay in force |
| SvgPath.RunCommand | GhostbusterQuest/GhostSpriteView.swift:131-172 | the switch over the command computes `Execute` |
| SvgPath.MoveToStartsSubpath | GhostbusterQuest/GhostSpriteView.swift:134-141 | a moveto with two numbers emits one MoveTo, sets both the current point and the subpath start to it, and makes l/L (same case) the command in force |
| SvgPath.CloseReturnsToStart | GhostbusterQuest/GhostSpriteView.swift:167-169 | closepath emits Close and moves the current point back to the subpath start |
| SvgPath.UnknownLetterEmitsNothing | GhostbusterQuest/GhostSpriteView.swift:170-171 | an unrecognised letter emits nothing and changes only the command in force |
| SvgPath.StallAfterInertCommand | GhostbusterQuest/GhostSpriteView.swift:127-129 | a number after closepath or an unknown letter is never consumed: the round leaves the state where it found it, so the loop repeats forever |
| SvgPath.SkipsBeforeFirstCommand | GhostbusterQuest/GhostSpriteView.swift:124-126 | numbers before the first letter emit nothing: parsing equals parsing from the first letter |
| SvgPath.StepProgress | GhostbusterQuest/GhostSpriteView.swift:121-173 | on well-formed input each outer round reads at least one token |
| SvgPath.Round | GhostbusterQuest/GhostSpriteView.swift:122-172 | one round of the outer loop computes `Step` |
| SvgPath.MakePath | GhostbusterQuest/GhostSpriteView.swift:112-176 | on well-formed input the whole parser returns `Parse` of its tokens |
| SvgScale.ScaleFactor | GhostbusterQuest/GhostSpriteView.swift:72 | the scale fits the 1024-unit square in both sides of the view and fills the smaller one |
| SvgScale.ScalePath | GhostbusterQuest/GhostSpriteView.swift:73-75 | the copied path has the same elements in order, every point scaled |
| SvgScale.ParseCommutesWithScale | GhostbusterQuest/GhostSpriteView.swift:69-78 | scaling the parsed outline equals parsing the path data with every number scaled |
| SvgScale.ScalePathComposes | GhostbusterQuest/GhostSpriteView.swift:72-75 | scaling by 1 is the identity and two scalings compose into one |
| ModelPreview.NormalizeSlashes | GhostbusterQuest/GhostModelPreviewView.swift:151 | every backslash becomes '/', every other character is kept, and the length is unchanged |
| ModelPreview.SplitPathSpec | GhostbusterQuest/GhostModelPreviewView.swift:152-154 | the file name is the last non-empty '/'-component, or the whole path when there is none; the subdirectory is the other components joined by '/' and exists iff there are at least two |
| ModelPreview.SplitNameRoundTrip | GhostbusterQuest/GhostModelPreviewView.swift:156-164 | split at the last '.': name, '.', and extension rejoin to the file name and the extension holds no '.'; with no dot the extension is absent and the name is the file name |
| ModelPreview.FirstExisting | GhostbusterQuest/GhostModelPreviewView.swift:169-185 | the search returns a candidate that exists; none iff no candidate exists |
| ModelPreview.TryExtension | GhostbusterQuest/GhostModelPreviewView.swift:170-182 | the lookups for one extension return the first existing of their candidates |
| ModelPreview.ResolveModelURL | GhostbusterQuest/GhostModelPreviewView.swift:150-186 | the nested loops with early return give the first existing resource among the model id's candidates |
| ModelPreview.ExtLookupsOrder | GhostbusterQuest/GhostModelPreviewView.swift:167-182 | for one extension the result is the first existing of: the given subdirectory, then "Ghost", then the top level (the repeated lookup in the given subdirectory changes nothing) |
| ModelPreview.ResolveOrder | GhostbusterQuest/GhostModelPreviewView.swift:166-185 | only the given extension is tried, else "usdc" before "usdz"; a "usdc" match anywhere beats any "usdz" match |
| ModelPreview.Options | GhostbusterQuest/GhostModelPreviewView.swift:116-121 | one option per animation, in order; an unnamed animation gets "index:i" and "Animation i+1" |
| ModelPreview.OptionPlaysItsAnimation | GhostbusterQuest/GhostModelPreviewView.swift:116-147 | choosing an option makes a hit play an animation of that option's name, and exactly that one for an unnamed animation |
| ModelPreview.OptionIdsDistinct | GhostbusterQuest/GhostModelPreviewView.swift:116-121 | options of distinct names, or of two unnamed animations, have distinct ids |
| ModelPreview.IndexSelection | GhostbusterQuest/GhostModelPreviewView.swift:131-133 | an "index:N" selection names a position only when N is in range |
| ModelPreview.ChooseHit | GhostbusterQuest/GhostModelPreviewView.swift:130-147 | the animation played: the "index:N" position when valid, else the first exact name match, else the first name containing "hit", else the first |
| ModelPreview.Coordinator.constructor | GhostbusterQuest/GhostModelPreviewView.swift:50-59 | nothing is loaded yet and the trigger starts at 0 |
| ModelPreview.Coordinator.Load | GhostbusterQuest/GhostModelPreviewView.swift:86-124 | `load` records the id and scale, clears the entity, animations and options, reports an empty list, and starts loading the resolved resource (none when unresolved) |
| ModelPreview.Coordinator.Deliver | GhostbusterQuest/GhostModelPreviewView.swift:109-123 | the loaded entity takes the scale captured at the start of the load; its options are built and reported |
| ModelPreview.Coordinator.Fail | GhostbusterQuest/GhostModelPreviewView.swift:104-108 | a failed load only clears the request |
| ModelPreview.Coordinator.PlayHit | GhostbusterQuest/GhostModelPreviewView.swift:126-147 | nothing plays without an entity or animations; otherwise `ChooseHit` plays |
| ModelPreview.Coordinator.Update | GhostbusterQuest/GhostModelPreviewView.swift:66-84 | reloads iff the id changed; rescales iff the id is unchanged and the scale differs; plays a hit and records the trigger iff the trigger changed |
| HuntEngine.ARHuntEngine.constructor | GhostbusterQuest/ARHuntView.swift:96-112 | the engine starts at time 0, not firing, frozen or captured, with no target, no view and no projectiles |
| HuntEngine.ARHuntEngine.Attach | GhostbusterQuest/ARHuntView.swift:119-124 | attaching records the view and creates the target |
| HuntEngine.ARHuntEngine.StartFiring | GhostbusterQuest/ARHuntView.swift:130-132 | sets `isFiring` and changes no other field |
| HuntEngine.ARHuntEngine.StopFiring | GhostbusterQuest/ARHuntView.swift:134-136 | clears `isFiring` and changes no other field |
| HuntEngine.AfterFreeze | GhostbusterQuest/ARHuntView.swift:234-241 | no-op without a target or once captured; otherwise frozen, catchable, freeze position recorded; no other field changes |
| HuntEngine.ARHuntEngine.FreezeTarget | GhostbusterQuest/ARHuntView.swift:234-241 | the engine's new state is `AfterFreeze` of its old state |
| HuntEngine.AfterShot | GhostbusterQuest/ARHuntView.swift:138-175 | without a view nothing changes; otherwise one projectile born now with the next id is appended |
| HuntEngine.ARHuntEngine.ShootBeam | GhostbusterQuest/ARHuntView.swift:138-175 | the engine's new state is `AfterShot` of its old state |
| HuntEngine.SweepAlive | GhostbusterQuest/ARHuntView.swift:245-276 | the survivors of a partial sweep are exactly the surviving projectiles of that prefix, in order |
| HuntEngine.SweepFrozen | GhostbusterQuest/ARHuntView.swift:248-265 | after a partial sweep the engine is frozen iff it was or an earlier projectile was near while not captured; only the freeze fields change |
| HuntEngine.SurvivorsSpec | GhostbusterQuest/ARHuntView.swift:243-277 | the projectiles kept are those that did not hit, are at most 20 from the anchor and are at most 3.0 old, in order; a hit is a near projectile while not frozen before it |
| HuntEngine.UpdateFreezes | GhostbusterQuest/ARHuntView.swift:243-277 | after the sweep the engine is frozen iff it was or a projectile hit; a freeze snapshots the target position and allows the catch; time and firing are untouched |
| HuntEngine.FrozenMeansNoHits | GhostbusterQuest/ARHuntView.swift:261-265 | once frozen no projectile is removed as a hit; it survives iff in range and not expired |
| HuntEngine.AtMostOneHit | GhostbusterQuest/ARHuntView.swift:261-265 | while a target is present and not captured, at most one projectile per sweep hits |
| HuntEngine.ARHuntEngine.UpdateProjectiles | GhostbusterQuest/ARHuntView.swift:243-277 | the loop over the projectiles leaves the engine in `AfterUpdate` of its old state |
| HuntEngine.TickSpec | GhostbusterQuest/ARHuntView.swift:198-207 | a tick adds the frame duration to time; it sweeps before the fire gate; at most one shot, born at the new time with the next id, after the survivors; `lastFireTime` becomes the time iff the gate was open |
| HuntEngine.TickNeverThaws | GhostbusterQuest/ARHuntView.swift:198-241 | a tick never unfreezes, never moves the freeze position, and never changes capture |
| HuntEngine.TickKeepsOrdered | GhostbusterQuest/ARHuntView.swift:198-207 | with a non-negative duration, projectile ids stay increasing and below the next id, and no projectile is born after the current time |
| HuntEngine.SweepKeepsOrder | GhostbusterQuest/ARHuntView.swift:245-276 | the sweep keeps the survivors' relative order |
| HuntEngine.ARHuntEngine.StepOrbit | GhostbusterQuest/ARHuntView.swift:198-232 | the engine's new state is `AfterTick` of its old state |
| HuntEngine.AfterCatch | GhostbusterQuest/ARHuntView.swift:279-296 | without a target or once captured the completion is called at once and nothing changes; otherwise captured, not catchable, not firing, with the first stage queued |
| HuntEngine.AfterStage | GhostbusterQuest/ARHuntView.swift:297-313 | running a queued stage keeps the calls known and the number of calls |
| HuntEngine.ARHuntEngine.PerformCatch | GhostbusterQuest/ARHuntView.swift:279-314 | the engine and the main queue after the call are `AfterCatch` of their state before |
| HuntEngine.CatchKeepsExactlyOnce | GhostbusterQuest/ARHuntView.swift:279-314 | a call keeps every call's completions plus queued stages equal to one |
| HuntEngine.StageKeepsExactlyOnce | GhostbusterQuest/ARHuntView.swift:297-313 | running any stage, with or without the engine, keeps that count and decreases the remaining work |
| HuntEngine.DrainedMeansCompleted | GhostbusterQuest/ARHuntView.swift:279-314 | when nothing is queued, every call has had its completion exactly once |
| HuntEngine.MainQueue.RunStage | GhostbusterQuest/ARHuntView.swift:297-313 | the queue after running a stage is `AfterStage` of the queue before |
| HuntEngine.MainQueue.RunAll | GhostbusterQuest/ARHuntView.swift:279-314 | running the queue until empty calls every completion exactly once |

## Left out

- RealityKit and ARKit: the view session, meshes, materials, the camera
  transform, the display link. The target is a flag (`hasTarget`) and the
  weak `arView` is a flag (`hasView`); a view that disappears later is
  not modelled beyond that flag.
- Trigonometric motion: the figure-eight orbit, the frozen jitter, the
  projectiles' sine wobble and roll. Each projectile's "within 0.14 of the
  target" and "more than 20 from the anchor" tests are inputs of the
  sweep (`Sample`), and the target's position is an input of the freeze.
- Wall-clock timing of the catch stages: they may run in any order. Whether
  the engine and target still exist when the first stage runs is an
  input (`engineAlive`). The animations and the target's removal are not
  modelled.
- `markCaptured` and `clearActive`, called by the hunt and scanner screens,
  are not in GameStore.swift, so they are not part of this model.
- The persistence placeholders `save` and `load` of GameStore.swift, and
  the JSON persistence and bundle enumeration of GhostModelStore.swift
  (the store's constructor gives the default settings that a failed load
  falls back to).
- UserLocationProvider.swift: the user's location is an `Option` input.
- Geodesy and MapKit: CLLocation distance, the great-circle bearing and
  the map-point projection are inputs. The map rect and its 25 % padding
  are an input (`padded`); only the default region and the centre
  averaging are modelled.
- `log10`/`pow` of the slider: the slider's setter takes the value after
  `pow`.
- `String(format:)` output: `ScaleText` returns the value shown and its
  number of decimals; `RowText` returns the numbers of the subtitle.
- `localizedCaseInsensitiveContains("hit")`: modelled with ASCII case
  folding only.
- Swift `String` compares and searches by `Character` (grapheme clusters
  under canonical equivalence); the model compares code points. So the
  name match of `playHit`, `lastIndex(of: ".")`, `split(separator: "/")`
  and `hasPrefix("index:")` treat a precomposed "é" and "e" followed by a
  combining accent as different, where Swift treats them as equal.
- `Common.ParseInt`: Swift's `Int(String)` rejects values that do not fit
  in 64 bits; the model accepts them. An index that large is never below
  the animation count, so `IndexSelection` gives the same result either way.
- `SvgPath.Parse` is the sequence of path calls the parser makes. A
  `CGMutablePath` ignores `addLine`, `addCurve` and `closeSubpath` while it
  has no current point, so a path whose data does not start with a moveto
  (for example `L 10 10 Z`) holds fewer elements than the calls. That rule
  is not modelled; the app's own outline starts with `m`.
- Foundation's `Scanner` on path data: the input is a sequence of letter
  and number tokens, so number syntax, skipped separators and characters
  that are neither (on which the source also spins) are not modelled.
- SvgPath.MakePath: requires well-formed tokens (every closepath or
  unknown letter followed by a letter or the end), because on other input
  the source's loop never terminates (`StallAfterInertCommand`).
- Floating point: `Double`, `Float` and `CGFloat` are `real`, with no
  rounding, overflow, infinities or NaN; `Int` counters are unbounded.
- The mouth animation of GhostSpriteView.swift (a timed loop) and the eye
  and mouth geometry.
- `UUID()` default arguments: fresh ids are parameters.
- SwiftUI view bodies, alerts, navigation and the AR screen's buttons.
- GameDetail.AddGhost: places the ghost at the centre of `ContentRegion`,
  which depends on the padded map rect given as a parameter.
