# FlowerSimulation: seed and petal regeneration

FlowerSimulation is a Bevy application. It draws a phyllotaxis "sunflower"
pattern and lets the user reshape it from an egui side panel. This project
models the part of it that decides what is on screen:

- `spawn_flowers` places seed `i` for `i` in `1..num_seeds` at angle
  `(2π / (1 / rotation))·i` and distance `5·sqrt(i)·density`. Each seed gets
  its own circle mesh and orange material.
- `clear_flowers` despawns every `FlowerSeed` entity.
- `FlowerPlugin` installs the default resources: 50 seeds, radius 4,
  density 4 and rotation 1/PHI. Its start-up system `spawn_initial_flowers`
  then runs once.
- `spawn_petals` despawns every `FlowerComponent` entity. It fills the
  mesh and material handle cache of the `SeedSettings` resource when that
  cache is empty. Then it spawns petals `1..=amount` on a ring, all sharing
  the two cached handles. Each petal is turned a quarter turn past its
  angle.
- `settings_ui` does the following each frame:
  - the sliders and the "1/PI" / "1/PHI" buttons write the seed resources;
  - the change flags are ORed, and a change clears and respawns the seeds;
  - Ctrl+Comma and Ctrl+Period scale the panel by 1.1 and 0.9.

The model has four modules:

- **`Ecs`** covers the world and the asset stores. An entity table with an
  identifier counter is the `World` class. `Assets<Mesh>` and
  `Assets<ColorMaterial>` are append-only stores, where a handle is a
  position in the store.
- **`Petal`**, **`Flower`** and **`Ui`** each model one source file.

Every system is an imperative method over these objects. Its postcondition
ties the new state to a pure specification function of the old state
(`SpawnPetalsSpec`, `SpawnFlowersSpec`, `ClearSeeds`, `PanelFrame`). The
properties are proved as lemmas about those functions.

Two representation choices:

- Angles are measured in turns (radians / 2π).
- Square roots stay symbolic: a seed's radial is `SqrtScaled(5·density, i)`.
  The monotonicity lemma takes the roots as arguments, each with
  `root ≥ 0` and `root·root = i`.

Four behaviours of the code are worth stating outright:

- `spawn_flowers` loops over `1..num_seeds`, which excludes `num_seeds`. So
  it spawns `num_seeds - 1` seeds, and none when `num_seeds <= 1`. The
  default of 50 gives 49 seeds (`Flower.InitialSeeds`).
- The angle step is written with a period, `2π / (1. / seed_rotation)`:
  - `Flower.SeedStep` models the quotient with floating-point semantics at
    zero: `1 / 0` is infinite, and `2π / ∞` is 0.
  - `Flower.SeedStepIsRotation` proves, over the reals, that the step equals
    2π·rotation for every rotation, zero included. So the seeds sit at
    `rotation·i` turns.
- Nothing in the modelled code clears the petal handle cache. So a filled
  handle is reused whatever the current radius (`Petal.HandleCache`).
- `PHI` is one module constant, `Flower.PHI`. The plugin defaults and the
  "1/PHI" button both use it.

## Model

| member | source | states |
|---|---|---|
| Ecs.World.Spawn | src/flower.rs:63-69 | spawning takes the next identifier, which was not live, adds exactly that entity and advances the counter |
| Ecs.World.Despawn | src/flower.rs:78 | despawning removes exactly that entity and allocates nothing |
| Ecs.World.DespawnAll | src/flower.rs:77-79 | the loop over a query result removes exactly the queried entities, whatever the order, and keeps every other entity |
| Ecs.Assets.Add | src/flower.rs:64-65 | adding an asset appends it to the store and returns its position as the handle |
| Ecs.SpawnAllAt | src/petal.rs:47-60 | spawning a sequence of entities from a fresh identifier keeps every older entity and puts the k-th spawned entity at the k-th fresh identifier, nothing else |
| Petal.SpawnPetals | src/petal.rs:31-61 | one run of `spawn_petals` changes the world, both stores and the settings' handles exactly as `SpawnPetalsSpec` says: despawn the `FlowerComponent` entities, fill the lazy handle cache, spawn the ring |
| Petal.SpawnRing | src/petal.rs:47-60 | the loop `1..amount + 1` spawns exactly max(amount, 0) petals, petal i at the i-th fresh identifier, and keeps every other entity |
| Petal.PetalsShape | src/petal.rs:47 | the petal sequence has max(amount, 0) elements, and element k is the petal for index k + 1 |
| Petal.SpawnPetalsEntities | src/petal.rs:36-60 | afterwards the live entities are exactly the earlier non-`FlowerComponent` ones, unchanged, plus one fresh petal per index 1..=amount |
| Petal.OldPetalsGone | src/petal.rs:36-40 | no entity that carried `FlowerComponent` on entry survives the run |
| Petal.PetalsExactly | src/petal.rs:38-59 | afterwards the `FlowerComponent` entities are exactly the freshly spawned ones, max(amount, 0) of them |
| Petal.HandleCache | src/petal.rs:41-56 | a mesh (an ellipse with half-axes 5·radius and 10·radius) is added only if the mesh handle was empty, and a material of the settings' colour only if the material handle was empty; otherwise store and handle are unchanged; both handles are set afterwards, nothing else in the settings changes, and every petal uses those two handles |
| Petal.PetalPlacement | src/petal.rs:47-55 | petal i sits at rotation·i turns at the fixed distance, whatever its index, and is turned a quarter turn (π/2) further |
| Petal.SpawnPetalsTwice | src/petal.rs:41-46 | a second run with the settings the first left allocates no asset, keeps the handles and rebuilds the same petals one for one at fresh identifiers |
| Flower.FlowerParams.Defaults | src/flower.rs:11-14 | the default resources are 50 seeds, radius 4, density 4 and rotation 1/PHI |
| Flower.Reciprocal | src/flower.rs:58 | over the reals, `1. / x` is finite exactly when x is not zero |
| Flower.SeedStepIsRotation | src/flower.rs:58 | over the reals, the angle step `2π / (1. / rotation)` is 2π·rotation for every rotation, including zero, where the period is infinite |
| Flower.ClearSeeds | src/flower.rs:73-80 | after `clear_flowers` an entity is live exactly when it was live and not a `FlowerSeed`, and it keeps its components |
| Flower.ClearFlowers | src/flower.rs:73-80 | the method leaves exactly the `ClearSeeds` table and allocates no identifier |
| Flower.SpawnFlowers | src/flower.rs:43-71 | the loop `1..num_seeds` changes the world and both stores exactly as `SpawnFlowersSpec` says, one seed, one circle and one orange material per index |
| Flower.SpawnInitialFlowers | src/flower.rs:31-41 | the start-up system runs `spawn_flowers` once with the values of the four resources |
| Flower.Startup | src/flower.rs:8-16 | the plugin inserts the default resources and its start-up system spawns the default flower |
| Flower.SeedsThroughShape | src/flower.rs:57-70 | after the passes for 1..=k: k fresh identifiers; older entities unchanged; k new circles and k new orange materials after the old store contents; the entity at the j-th fresh identifier is seed j + 1 holding the j-th new mesh and material |
| Flower.SeedAt | src/flower.rs:57-69 | the entity at a fresh identifier is the seed for its loop index, with the mesh and material added on that pass |
| Flower.SeedsExactly | src/flower.rs:57-69 | `spawn_flowers` spawns max(num_seeds - 1, 0) seeds, keeps every older entity, and afterwards the `FlowerSeed` entities are the older ones plus exactly the fresh ones, with indices 1 to num_seeds - 1 |
| Flower.FreshAssetsPerSeed | src/flower.rs:63-65 | each seed gets a mesh and a material of its own: both stores grow by the seed count, the old contents stay, the new entries are circles of the seed radius and orange materials, and each seed points into the new entries |
| Flower.SeedTurns | src/flower.rs:58 | a seed's angle in turns is rotation times its index |
| Flower.SeedPlacement | src/flower.rs:57-61 | the seed at the k-th fresh identifier has index k + 1, angle rotation·(k + 1) turns, radial 5·density·sqrt(k + 1) and no rotation of its own |
| Flower.SeedSpriteAt | src/flower.rs:57-61 | the placement of the seed at one fresh identifier, as in `SeedPlacement` |
| Flower.SeedRadiusIncreasing | src/flower.rs:59-61 | with a positive density a seed with a larger index lies strictly further from the origin |
| Flower.InitialSeeds | src/flower.rs:11-14 | the default flower has 49 seeds, one per index 1..49, each with a circle of radius 4, at 1/PHI of a turn per index and 20·sqrt(i) from the origin |
| Ui.SettingsUi | src/ui.rs:15-64 | one frame of the panel leaves the scene and seed resources as `PanelFrame` says, and the scale factor as the hotkey rule says |
| Ui.QuietFrame | src/ui.rs:51-57 | a frame with no change and no click leaves the resources, the entities and both stores as they were |
| Ui.RegeneratesIff | src/ui.rs:51-57 | the scene changes only when some widget reported a change, and any reported change clears the seeds and respawns them with the edited values |
| Ui.PresetsWin | src/ui.rs:39-46 | a preset click forces regeneration and sets the rotation to 1/PI or 1/PHI, with 1/PHI winning when both are clicked |
| Ui.SlidersStayInRange | src/ui.rs:37-50 | the resources after a frame stay within the slider ranges: rotation 0..=1, density 0..=30, radius 0..=20, count 0..=1000; the presets 1/PI and 1/PHI lie strictly between 0 and 1 |
| Ui.RegenerationReplacesSeeds | src/ui.rs:54-57 | a regenerating frame removes every earlier seed, keeps every other entity and spawns max(count - 1, 0) fresh seeds with the edited count, radius, density and rotation, each with a circle of the edited radius and an orange material that no other new seed shares |
| Ui.ClearThenSpawn | src/ui.rs:55-56 | clearing and then spawning leaves exactly the new seeds tagged `FlowerSeed` and every non-seed entity untouched |
| Ui.HotkeyScaling | src/ui.rs:59-63 | Ctrl+Comma scales by 1.1 and takes precedence, Ctrl+Period scales by 0.9, otherwise nothing changes; a positive scale stays positive |

## Left out

- Trigonometry, Cartesian positions and `f32` rounding are not modelled. Placements are kept in polar form (angle in turns and a radial), with exact real arithmetic.
- Square roots are not computed. A seed's distance is `SqrtScaled(coefficient, i)`, and lemmas about distances take the root as an argument.
- Bevy's deferred `Commands` are not modelled. They take effect immediately and in order, which gives the same end state for these systems because each query is taken before anything is spawned.
- Entity generations and recursive children are not modelled: `despawn_recursive` removes only the entity, since nothing here spawns children.
- `register_systems` and the `Callback` / `ResetFlowerPetals` one-shot registration in src/petal.rs are not modelled. They are Bevy system plumbing; `spawn_petals` itself is modelled.
- egui layout, scroll areas, slider stepping and drag speed are not modelled. A frame's widget reports are inputs to `Ui.SettingsUi`, and the toolkit's clamping is the predicate `SlidersClamp`.
- Keyboard state is not modelled. It is an input, `Keys`.
- The value of `PHI` is not modelled, because the constants module is not part of this model. `Flower.PHI` is a constant known only to exceed 1.
- `PI` is the `f32` constant written as the real 3.1415927.
- src/egui_block_input.rs, src/setup.rs and src/main.rs are not part of this model. They hold the camera, window and input-blocking set-up.
- `Petal.SpawnPetals` does not model an `amount` width or overflow of `amount + 1`, because the type of `amount` is not shown. It is an unbounded integer.
- `Flower.SpawnFlowers` models `num_seeds` as a 32-bit value. The loop bound `1..num_seeds` cannot overflow, so no wrap-around is modelled.
- Animation, pattern modes, the handle-invalidation table, typed rotation expressions and a linear radial growth law do not appear in the modelled code and are not modelled.
- Bevy's asset reference counting is not modelled: the stores are append-only and no asset is ever freed. In Bevy, the circles and materials of cleared seeds are dropped with their last handle. So "both stores grow by the seed count" (`Flower.FreshAssetsPerSeed`) holds within one run only.
- `Flower.SeedStepIsRotation` does not model `f32` overflow: for a non-zero rotation of magnitude below about 2.9e-39, `1. / x` overflows to infinity in `f32` and the source's step is 0, not the rotation. The rotation slider, which steps by 1e-5 in 0..=1, cannot produce such values.
