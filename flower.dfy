/** Seed regeneration (src/flower.rs): the plugin's default resources,
    `spawn_flowers`, which spawns seeds for the indices 1..num_seeds with the
    upper bound excluded and allocates a fresh circle mesh and orange
    material for each, and `clear_flowers`, which despawns every seed. */
module Flower {
  import opened Ecs

  type Phi = x: real | x > 1.0 witness 2.0

  /** The golden ratio `PHI` of the constants module, shared by the plugin
      defaults and the panel's "1/PHI" button. The constants module is not
      part of this model, so its value is left open: all the model relies on
      is that it exceeds 1. */
  const PHI: Phi

  type I32 = x: int | -0x8000_0000 <= x < 0x8000_0000

  /** The four resources `NumberSeeds`, `SeedRadius`, `SeedDistance` and
      `SeedRotation`, as a value. */
  datatype Params = Params(numSeeds: I32, radius: real, distance: real, rotation: real)

  /** The four seed resources; the settings panel assigns them in place. */
  class FlowerParams {
    var numSeeds: I32
    var seedRadius: real
    var seedDistance: real
    var seedRotation: real

    function Value(): Params
      reads this
    {
      Params(numSeeds, seedRadius, seedDistance, seedRotation)
    }

    /** `FlowerPlugin::build`: 50 seeds of radius 4 at density 4, rotating
        1/PHI of a turn per seed. */
    constructor Defaults()
      ensures Value() == DEFAULTS
    {
      numSeeds, seedRadius, seedDistance, seedRotation := 50, 4.0, 4.0, 1.0 / PHI;
    }
  }

  /** The resource values `FlowerPlugin::build` inserts. */
  const DEFAULTS: Params := Params(50, 4.0, 4.0, 1.0 / PHI)

  /** An `f32` that may be infinite, for the quotient `1. / seed_rotation`. */
  datatype Extended = Finite(value: real) | Infinite

  /** `1. / x` in floating point: infinite for zero. */
  function Reciprocal(x: real): (r: Extended)
    ensures r.Finite? <==> x != 0.0
  {
    if x == 0.0 then Infinite else Finite(1.0 / x)
  }

  /** The angle step `(2π / (1. / seed_rotation))` measured in turns: a full
      turn over a period of `1 / seed_rotation`, and zero when that period is
      infinite. */
  function SeedStep(rotation: real): real {
    match Reciprocal(rotation)
    case Infinite => 0.0
    case Finite(period) => 1.0 / period
  }

  /** Seed `i`: a `FlowerSeed` at (2π / (1 / rotation))·i radians and
      5·sqrt(i)·distance from the origin, with no rotation of its own. */
  function SeedEntity(p: Params, i: nat, mesh: MeshHandle, material: MaterialHandle): Entity {
    Entity({FlowerSeed},
           Some(Sprite(mesh, material, i, AngleTurns(SeedStep(p.rotation), i), SqrtScaled(5.0 * p.distance, i), 0.0)))
  }

  /** One pass of the seed loop: add a circle mesh, add an orange material,
      spawn seed `i` holding the two new handles. */
  function SpawnSeed(w: Scene, p: Params, i: nat): Scene {
    Scene(w.entities[w.nextId := SeedEntity(p, i, |w.meshes|, |w.materials|)], w.nextId + 1,
          w.meshes + [Circle(p.radius)], w.materials + [ColorMaterial(ORANGE)])
  }

  /** The scene after the passes for indices 1..=k. */
  function SeedsThrough(w: Scene, p: Params, k: nat): Scene
    decreases k
  {
    if k == 0 then w else SpawnSeed(SeedsThrough(w, p, k - 1), p, k)
  }

  /** How many indices `1..num_seeds` holds. */
  function SeedCount(numSeeds: int): nat {
    if numSeeds > 1 then numSeeds - 1 else 0
  }

  /** The scene after `spawn_flowers` with the parameters `p`. */
  function SpawnFlowersSpec(w: Scene, p: Params): Scene {
    SeedsThrough(w, p, SeedCount(p.numSeeds))
  }

  /** The entity table after `clear_flowers`: every `FlowerSeed` entity is
      gone and every other entity is kept as it was. */
  function ClearSeeds(m: map<EntityId, Entity>): (r: map<EntityId, Entity>)
    ensures forall id :: id in r <==> id in m && FlowerSeed !in m[id].tags
    ensures forall id :: id in r ==> r[id] == m[id]
  {
    m - Tagged(m, FlowerSeed)
  }

  method SpawnFlowers(world: World, meshes: Assets<Mesh>, materials: Assets<ColorMaterial>,
                      numSeeds: I32, seedRadius: real, seedDistance: real, seedRotation: real)
    requires world.Valid()
    modifies world, meshes, materials
    ensures world.Valid()
    ensures SceneOf(world, meshes, materials)
            == SpawnFlowersSpec(old(SceneOf(world, meshes, materials)), Params(numSeeds, seedRadius, seedDistance, seedRotation))
  {
    var p := Params(numSeeds, seedRadius, seedDistance, seedRotation);
    var i := 1;
    while i < numSeeds
      invariant 1 <= i <= SeedCount(numSeeds) + 1
      invariant world.Valid()
      invariant SceneOf(world, meshes, materials) == SeedsThrough(old(SceneOf(world, meshes, materials)), p, i - 1)
    {
      var mesh := meshes.Add(Circle(seedRadius));
      var material := materials.Add(ColorMaterial(ORANGE));
      var _ := world.Spawn(SeedEntity(p, i, mesh, material));
      i := i + 1;
    }
  }

  method ClearFlowers(world: World)
    requires world.Valid()
    modifies world
    ensures world.Valid()
    ensures world.entities == ClearSeeds(old(world.entities)) && world.nextId == old(world.nextId)
  {
    var flowers := world.Query(FlowerSeed);
    world.DespawnAll(flowers);
  }

  /** `spawn_initial_flowers`: one `spawn_flowers` with the resources' values. */
  method SpawnInitialFlowers(world: World, meshes: Assets<Mesh>, materials: Assets<ColorMaterial>, params: FlowerParams)
    requires world.Valid()
    modifies world, meshes, materials
    ensures world.Valid()
    ensures SceneOf(world, meshes, materials) == SpawnFlowersSpec(old(SceneOf(world, meshes, materials)), params.Value())
  {
    SpawnFlowers(world, meshes, materials, params.numSeeds, params.seedRadius, params.seedDistance, params.seedRotation);
  }

  /** The plugin at start-up: the resources are inserted with their defaults
      and the `Startup` system runs once with them. */
  method Startup(world: World, meshes: Assets<Mesh>, materials: Assets<ColorMaterial>)
    returns (params: FlowerParams)
    requires world.Valid()
    modifies world, meshes, materials
    ensures fresh(params) && params.Value() == DEFAULTS
    ensures world.Valid()
    ensures SceneOf(world, meshes, materials) == SpawnFlowersSpec(old(SceneOf(world, meshes, materials)), DEFAULTS)
  {
    params := new FlowerParams.Defaults();
    SpawnInitialFlowers(world, meshes, materials, params);
  }

  /** The floating-point step formula is the rotation itself: for a non-zero
      rotation 2π / (1 / r) is 2π·r, and for zero the infinite period makes
      the step zero, which is 0·2π as well. */
  lemma SeedStepIsRotation(rotation: real)
    ensures SeedStep(rotation) == rotation
  {
    var r := Reciprocal(rotation);
    if r.Finite? {
      assert r.value * rotation == 1.0;
      assert rotation * r.value == 1.0;
      assert (1.0 / r.value) * r.value == 1.0;
    }
  }

  /** The seed at one fresh identifier, after the passes for 1..=k. */
  lemma SeedAt(w: Scene, p: Params, k: nat, id: EntityId)
    requires ValidScene(w) && w.nextId <= id < w.nextId + k
    ensures id in SeedsThrough(w, p, k).entities
    ensures SeedsThrough(w, p, k).entities[id]
            == SeedEntity(p, id - w.nextId + 1, |w.meshes| + (id - w.nextId), |w.materials| + (id - w.nextId))
  {
    SeedsThroughShape(w, p, k);
  }

  /** Seed i's angle, in turns, is rotation·i. */
  lemma SeedTurns(p: Params, sprite: Sprite, i: nat, mesh: MeshHandle, material: MaterialHandle)
    requires Some(sprite) == SeedEntity(p, i, mesh, material).sprite
    ensures sprite.turns == AngleTurns(p.rotation, sprite.index)
  {
    SeedStepIsRotation(p.rotation);
  }

  /** After the passes for 1..=k: k more identifiers, meshes and materials;
      every earlier entity and asset kept; seed j + 1 at the j-th fresh
      identifier, holding the j-th fresh mesh and material. */
  lemma {:induction false} SeedsThroughShape(w: Scene, p: Params, k: nat)
    requires ValidScene(w)
    ensures var r := SeedsThrough(w, p, k);
      && ValidScene(r)
      && r.nextId == w.nextId + k
      && |r.meshes| == |w.meshes| + k && r.meshes[..|w.meshes|] == w.meshes
      && |r.materials| == |w.materials| + k && r.materials[..|w.materials|] == w.materials
      && (forall j :: |w.meshes| <= j < |r.meshes| ==> r.meshes[j] == Circle(p.radius))
      && (forall j :: |w.materials| <= j < |r.materials| ==> r.materials[j] == ColorMaterial(ORANGE))
      && (forall id :: id in r.entities <==> id in w.entities || w.nextId <= id < w.nextId + k)
      && (forall id :: id in w.entities ==> r.entities[id] == w.entities[id])
      && (forall id :: w.nextId <= id < w.nextId + k ==>
            r.entities[id] == SeedEntity(p, id - w.nextId + 1, |w.meshes| + (id - w.nextId), |w.materials| + (id - w.nextId)))
    decreases k
  {
    if k > 0 {
      SeedsThroughShape(w, p, k - 1);
      var prev := SeedsThrough(w, p, k - 1);
      assert SeedsThrough(w, p, k) == SpawnSeed(prev, p, k);
      assert (prev.meshes + [Circle(p.radius)])[..|w.meshes|] == prev.meshes[..|w.meshes|];
      assert (prev.materials + [ColorMaterial(ORANGE)])[..|w.materials|] == prev.materials[..|w.materials|];
    }
  }

  /** `spawn_flowers` adds max(num_seeds - 1, 0) seeds, all tagged
      `FlowerSeed`, with the indices 1..num_seeds - 1: index num_seeds itself
      is never used. Every entity that existed before is kept. */
  lemma SeedsExactly(w: Scene, p: Params)
    requires ValidScene(w)
    ensures var r := SpawnFlowersSpec(w, p);
      && r.nextId == w.nextId + SeedCount(p.numSeeds)
      && (forall id :: id in r.entities <==> id in w.entities || w.nextId <= id < r.nextId)
      && (forall id :: id in w.entities ==> id in r.entities && r.entities[id] == w.entities[id])
      && (forall id :: id in r.entities && FlowerSeed in r.entities[id].tags <==>
            (id in w.entities && FlowerSeed in w.entities[id].tags)
            || w.nextId <= id < w.nextId + SeedCount(p.numSeeds))
      && (forall id :: w.nextId <= id < r.nextId ==>
            && r.entities[id].sprite.Some?
            && 1 <= r.entities[id].sprite.value.index < p.numSeeds)
  {
    SeedsThroughShape(w, p, SeedCount(p.numSeeds));
  }

  /** Each seed gets a mesh and a material of its own: both stores grow by
      exactly the number of seeds, the new assets are circles of the seed
      radius and orange materials, and no two seeds share a handle, nor
      does any seed use an asset that existed before. */
  lemma FreshAssetsPerSeed(w: Scene, p: Params)
    requires ValidScene(w)
    ensures var r := SpawnFlowersSpec(w, p);
      && |r.meshes| == |w.meshes| + SeedCount(p.numSeeds) && r.meshes[..|w.meshes|] == w.meshes
      && |r.materials| == |w.materials| + SeedCount(p.numSeeds) && r.materials[..|w.materials|] == w.materials
      && (forall j :: |w.meshes| <= j < |r.meshes| ==> r.meshes[j] == Circle(p.radius))
      && (forall j :: |w.materials| <= j < |r.materials| ==> r.materials[j] == ColorMaterial(ORANGE))
      && (forall id :: w.nextId <= id < r.nextId ==>
            && id in r.entities && r.entities[id].sprite.Some?
            && |w.meshes| <= r.entities[id].sprite.value.mesh < |r.meshes|
            && |w.materials| <= r.entities[id].sprite.value.material < |r.materials|)
      && (forall id1, id2 :: w.nextId <= id1 < r.nextId && w.nextId <= id2 < r.nextId && id1 != id2 ==>
            && r.entities[id1].sprite.value.mesh != r.entities[id2].sprite.value.mesh
            && r.entities[id1].sprite.value.material != r.entities[id2].sprite.value.material)
  {
    SeedsThroughShape(w, p, SeedCount(p.numSeeds));
  }

  /** Seed i sits at rotation·i turns (the step formula equals the rotation,
      zero included), at 5·sqrt(i)·distance, unrotated. */
  lemma SeedPlacement(w: Scene, p: Params)
    requires ValidScene(w)
    ensures var r := SpawnFlowersSpec(w, p);
      forall id :: w.nextId <= id < r.nextId ==>
        && id in r.entities && r.entities[id].sprite.Some?
        && r.entities[id].sprite.value.index == id - w.nextId + 1
        && r.entities[id].sprite.value.turns == AngleTurns(p.rotation, r.entities[id].sprite.value.index)
        && r.entities[id].sprite.value.radial == SqrtScaled(5.0 * p.distance, r.entities[id].sprite.value.index)
        && r.entities[id].sprite.value.orientation == 0.0
  {
    var k := SeedCount(p.numSeeds);
    SeedsThroughShape(w, p, k);
    forall id | w.nextId <= id < w.nextId + k
      ensures var r := SeedsThrough(w, p, k);
        && id in r.entities && r.entities[id].sprite.Some?
        && r.entities[id].sprite.value.index == id - w.nextId + 1
        && r.entities[id].sprite.value.turns == AngleTurns(p.rotation, r.entities[id].sprite.value.index)
        && r.entities[id].sprite.value.radial == SqrtScaled(5.0 * p.distance, r.entities[id].sprite.value.index)
        && r.entities[id].sprite.value.orientation == 0.0
    {
      SeedSpriteAt(w, p, k, id);
    }
  }

  /** Placement of the seed at one fresh identifier. */
  lemma SeedSpriteAt(w: Scene, p: Params, k: nat, id: EntityId)
    requires ValidScene(w) && w.nextId <= id < w.nextId + k
    ensures var r := SeedsThrough(w, p, k);
      && id in r.entities && FlowerSeed in r.entities[id].tags && r.entities[id].sprite.Some?
      && r.entities[id].sprite.value.index == id - w.nextId + 1
      && r.entities[id].sprite.value.turns == AngleTurns(p.rotation, r.entities[id].sprite.value.index)
      && r.entities[id].sprite.value.radial == SqrtScaled(5.0 * p.distance, r.entities[id].sprite.value.index)
      && r.entities[id].sprite.value.orientation == 0.0
  {
    SeedAt(w, p, k, id);
    var r := SeedsThrough(w, p, k);
    SeedTurns(p, r.entities[id].sprite.value, id - w.nextId + 1, |w.meshes| + (id - w.nextId), |w.materials| + (id - w.nextId));
  }

  /** With a positive density, the seed with the larger index lies strictly
      further out: 5·sqrt(i)·d < 5·sqrt(j)·d for i < j. */
  lemma SeedRadiusIncreasing(p: Params, i: nat, j: nat, rootI: real, rootJ: real,
                             m1: MeshHandle, t1: MaterialHandle, m2: MeshHandle, t2: MaterialHandle)
    requires p.distance > 0.0 && i < j
    requires IsRootOf(rootI, i) && IsRootOf(rootJ, j)
    ensures RadiusWith(SeedEntity(p, i, m1, t1).sprite.value.radial, rootI)
            < RadiusWith(SeedEntity(p, j, m2, t2).sprite.value.radial, rootJ)
  {
    var c := 5.0 * p.distance;
    assert c * rootI < c * rootJ;
  }

  /** At start-up 49 seeds appear for the default count of 50 (indices
      1..49, in spawn order), each with its own circle of radius 4 and orange
      material, at 1/PHI of a turn per index and 20·sqrt(i) from the origin. */
  lemma InitialSeeds(w: Scene)
    requires ValidScene(w)
    ensures var r := SpawnFlowersSpec(w, DEFAULTS);
      && r.nextId == w.nextId + 49
      && |r.meshes| == |w.meshes| + 49 && |r.materials| == |w.materials| + 49
      && (forall j :: |w.meshes| <= j < |r.meshes| ==> r.meshes[j] == Circle(4.0))
      && (forall id :: w.nextId <= id < r.nextId ==>
            && id in r.entities && FlowerSeed in r.entities[id].tags && r.entities[id].sprite.Some?
            && r.entities[id].sprite.value.index == id - w.nextId + 1
            && r.entities[id].sprite.value.turns == AngleTurns(1.0 / PHI, r.entities[id].sprite.value.index)
            && r.entities[id].sprite.value.radial == SqrtScaled(20.0, r.entities[id].sprite.value.index))
  {
    var p := DEFAULTS;
    var r := SpawnFlowersSpec(w, p);
    assert p.rotation == 1.0 / PHI;
    SeedsExactly(w, p);
    FreshAssetsPerSeed(w, p);
    SeedPlacement(w, p);
  }
}
