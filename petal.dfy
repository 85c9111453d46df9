/** Petal regeneration (`spawn_petals` in src/petal.rs): despawn every
    `FlowerComponent` entity, fill the settings' mesh and material handle
    cache when it is empty, then spawn petals 1..=amount that all share the
    cached handles and sit on one ring. */
module Petal {
  import opened Ecs

  /** The `SeedSettings` resource, as a value. */
  datatype Settings = Settings(meshHandle: Option<MeshHandle>, materialHandle: Option<MaterialHandle>,
                               radius: real, color: Color, amount: int,
                               rotation: real, distance: real)

  /** The `SeedSettings` resource; `spawn_petals` updates its handle fields in place. */
  class SeedSettings {
    var meshHandle: Option<MeshHandle>
    var materialHandle: Option<MaterialHandle>
    var radius: real
    var color: Color
    var amount: int
    var rotation: real
    var distance: real

    function Value(): Settings
      reads this
    {
      Settings(meshHandle, materialHandle, radius, color, amount, rotation, distance)
    }

    constructor (s: Settings)
      ensures Value() == s
    {
      meshHandle, materialHandle := s.meshHandle, s.materialHandle;
      radius, color, amount := s.radius, s.color, s.amount;
      rotation, distance := s.rotation, s.distance;
    }
  }

  /** The petal shape: an ellipse with half-axes 5·radius and 10·radius. */
  function PetalMesh(radius: real): Mesh {
    Ellipse(5.0 * radius, 10.0 * radius)
  }

  /** Petal `i`: angle 2π·rotation·i radians, i.e. rotation·i turns, at the
      fixed distance, turned a further quarter turn (π/2). */
  function PetalEntity(s: Settings, mesh: MeshHandle, material: MaterialHandle, i: int): Entity {
    var turns := AngleTurns(s.rotation, i);
    Entity({FlowerPetal, FlowerComponent},
           Some(Sprite(mesh, material, i, turns, Fixed(s.distance), turns + 0.25)))
  }

  /** The petals the loop `for i in 1..n + 1` spawns, in spawn order. */
  function Petals(s: Settings, mesh: MeshHandle, material: MaterialHandle, n: int): seq<Entity>
    decreases n
  {
    if n <= 0 then [] else Petals(s, mesh, material, n - 1) + [PetalEntity(s, mesh, material, n)]
  }

  /** How many indices `1..amount + 1` holds. */
  function PetalCount(amount: int): nat {
    if amount > 0 then amount else 0
  }

  /** The mesh store and mesh handle after the lazy cache step. */
  function CacheMesh(meshes: seq<Mesh>, s: Settings): (seq<Mesh>, MeshHandle) {
    if s.meshHandle.None? then (meshes + [PetalMesh(s.radius)], |meshes|)
    else (meshes, s.meshHandle.value)
  }

  /** The material store and material handle after the lazy cache step. */
  function CacheMaterial(materials: seq<ColorMaterial>, s: Settings): (seq<ColorMaterial>, MaterialHandle) {
    if s.materialHandle.None? then (materials + [ColorMaterial(s.color)], |materials|)
    else (materials, s.materialHandle.value)
  }

  /** The scene and settings after one run of `spawn_petals`. */
  function SpawnPetalsSpec(w: Scene, s: Settings): (Scene, Settings) {
    var (meshes, mesh) := CacheMesh(w.meshes, s);
    var (materials, material) := CacheMaterial(w.materials, s);
    var cached := s.(meshHandle := Some(mesh), materialHandle := Some(material));
    var petals := Petals(cached, mesh, material, s.amount);
    var kept := w.entities - Tagged(w.entities, FlowerComponent);
    (Scene(SpawnAll(kept, w.nextId, petals), w.nextId + |petals|, meshes, materials), cached)
  }

  method SpawnPetals(world: World, meshes: Assets<Mesh>, materials: Assets<ColorMaterial>, settings: SeedSettings)
    requires world.Valid()
    modifies world, meshes, materials, settings`meshHandle, settings`materialHandle
    ensures world.Valid()
    ensures (SceneOf(world, meshes, materials), settings.Value())
            == SpawnPetalsSpec(old(SceneOf(world, meshes, materials)), old(settings.Value()))
  {
    ghost var w0 := SceneOf(world, meshes, materials);
    ghost var s0 := settings.Value();
    var flowers := world.Query(FlowerComponent);
    world.DespawnAll(flowers);
    if settings.meshHandle.None? {
      var h := meshes.Add(PetalMesh(settings.radius));
      settings.meshHandle := Some(h);
    }
    if settings.materialHandle.None? {
      var h := materials.Add(ColorMaterial(settings.color));
      settings.materialHandle := Some(h);
    }
    var mesh, material := settings.meshHandle.value, settings.materialHandle.value;
    assert (meshes.items, mesh) == CacheMesh(w0.meshes, s0);
    assert (materials.items, material) == CacheMaterial(w0.materials, s0);
    ghost var kept := world.entities;
    assert kept == w0.entities - Tagged(w0.entities, FlowerComponent);
    SpawnRing(world, settings.Value(), mesh, material);
    PetalsShape(settings.Value(), mesh, material, s0.amount);
    assert settings.Value() == SpawnPetalsSpec(w0, s0).1;
    assert SceneOf(world, meshes, materials) == SpawnPetalsSpec(w0, s0).0;
  }

  /** The loop `for i in 1..amount + 1`, spawning petal i on each pass. */
  method SpawnRing(world: World, s: Settings, mesh: MeshHandle, material: MaterialHandle)
    requires world.Valid()
    modifies world
    ensures world.Valid()
    ensures world.nextId == old(world.nextId) + PetalCount(s.amount)
    ensures world.entities == SpawnAll(old(world.entities), old(world.nextId), Petals(s, mesh, material, s.amount))
  {
    var i := 1;
    while i < s.amount + 1
      invariant 1 <= i <= PetalCount(s.amount) + 1
      invariant world.Valid() && world.nextId == old(world.nextId) + (i - 1)
      invariant world.entities == SpawnAll(old(world.entities), old(world.nextId), Petals(s, mesh, material, i - 1))
    {
      PetalsShape(s, mesh, material, i - 1);
      ghost var done := Petals(s, mesh, material, i - 1);
      assert (done + [PetalEntity(s, mesh, material, i)])[..i - 1] == done;
      var _ := world.Spawn(PetalEntity(s, mesh, material, i));
      i := i + 1;
    }
    PetalsShape(s, mesh, material, s.amount);
  }

  /** The petal list holds exactly `amount` petals (none when amount <= 0),
      petal k being the one for index k + 1. */
  lemma {:induction false} PetalsShape(s: Settings, mesh: MeshHandle, material: MaterialHandle, n: int)
    ensures |Petals(s, mesh, material, n)| == PetalCount(n)
    ensures forall k :: 0 <= k < PetalCount(n) ==> Petals(s, mesh, material, n)[k] == PetalEntity(s, mesh, material, k + 1)
    decreases n
  {
    if n > 0 {
      PetalsShape(s, mesh, material, n - 1);
    }
  }

  /** What `spawn_petals` leaves in the entity table: the entities that did
      not carry `FlowerComponent` on entry, untouched, and petal k + 1 at the
      k-th fresh identifier, for k below the petal count. */
  lemma SpawnPetalsEntities(w: Scene, s: Settings)
    requires ValidScene(w)
    ensures var out := SpawnPetalsSpec(w, s);
      && ValidScene(out.0)
      && out.0.nextId == w.nextId + PetalCount(s.amount)
      && out.1.meshHandle.Some? && out.1.materialHandle.Some?
      && (forall id :: id in out.0.entities <==>
            (id in w.entities && FlowerComponent !in w.entities[id].tags)
            || w.nextId <= id < w.nextId + PetalCount(s.amount))
      && (forall id :: id in w.entities && FlowerComponent !in w.entities[id].tags ==>
            out.0.entities[id] == w.entities[id])
      && (forall id :: w.nextId <= id < w.nextId + PetalCount(s.amount) ==>
            out.0.entities[id] == PetalEntity(out.1, out.1.meshHandle.value, out.1.materialHandle.value, id - w.nextId + 1))
  {
    var (meshes, mesh) := CacheMesh(w.meshes, s);
    var (materials, material) := CacheMaterial(w.materials, s);
    var cached := s.(meshHandle := Some(mesh), materialHandle := Some(material));
    var petals := Petals(cached, mesh, material, s.amount);
    var kept := w.entities - Tagged(w.entities, FlowerComponent);
    var r := Scene(SpawnAll(kept, w.nextId, petals), w.nextId + |petals|, meshes, materials);
    assert SpawnPetalsSpec(w, s) == (r, cached);
    PetalsShape(cached, mesh, material, s.amount);
    SpawnAllAt(kept, w.nextId, petals);
    forall id | w.nextId <= id < w.nextId + PetalCount(s.amount)
      ensures r.entities[id] == PetalEntity(cached, mesh, material, id - w.nextId + 1)
    {
      assert r.entities[w.nextId + (id - w.nextId)] == petals[id - w.nextId];
    }
  }

  /** No entity that carried `FlowerComponent` on entry survives: the
      despawn set is the query taken before any petal is spawned. */
  lemma OldPetalsGone(w: Scene, s: Settings)
    requires ValidScene(w)
    ensures forall id :: id in w.entities && FlowerComponent in w.entities[id].tags ==>
              id !in SpawnPetalsSpec(w, s).0.entities
  {
    SpawnPetalsEntities(w, s);
  }

  /** Afterwards the `FlowerComponent` entities are exactly the fresh ones,
      one per index 1..=amount, and none when amount <= 0. */
  lemma PetalsExactly(w: Scene, s: Settings)
    requires ValidScene(w)
    ensures var r := SpawnPetalsSpec(w, s).0;
      forall id :: id in r.entities && FlowerComponent in r.entities[id].tags <==>
        w.nextId <= id < w.nextId + PetalCount(s.amount)
  {
    SpawnPetalsEntities(w, s);
  }

  /** The handle cache: a new ellipse mesh (half-axes 5·radius, 10·radius) is
      added only when the mesh handle was empty, a new material of the
      settings' colour only when the material handle was empty; otherwise
      store and handle stay as they were. Both handles are filled
      afterwards, nothing else in the settings changes, and every petal
      uses exactly those two handles. */
  lemma HandleCache(w: Scene, s: Settings)
    requires ValidScene(w)
    ensures var out := SpawnPetalsSpec(w, s);
      && out.1.meshHandle.Some? && out.1.materialHandle.Some?
      && out.1.(meshHandle := s.meshHandle, materialHandle := s.materialHandle) == s
      && (if s.meshHandle.None?
          then out.0.meshes == w.meshes + [Ellipse(5.0 * s.radius, 10.0 * s.radius)] && out.1.meshHandle == Some(|w.meshes|)
          else out.0.meshes == w.meshes && out.1.meshHandle == s.meshHandle)
      && (if s.materialHandle.None?
          then out.0.materials == w.materials + [ColorMaterial(s.color)] && out.1.materialHandle == Some(|w.materials|)
          else out.0.materials == w.materials && out.1.materialHandle == s.materialHandle)
      && (forall id :: w.nextId <= id < w.nextId + PetalCount(s.amount) ==>
            && id in out.0.entities
            && out.0.entities[id].sprite.Some?
            && out.0.entities[id].sprite.value.mesh == out.1.meshHandle.value
            && out.0.entities[id].sprite.value.material == out.1.materialHandle.value)
  {
    SpawnPetalsEntities(w, s);
  }

  /** Petal i sits at rotation·i turns (2π·rotation·i radians) at the fixed
      distance, whatever its index, and is turned a quarter turn (π/2) past
      its placement angle; indices grow with spawn order from 1. */
  lemma PetalPlacement(w: Scene, s: Settings)
    requires ValidScene(w)
    ensures var r := SpawnPetalsSpec(w, s).0;
      forall id :: w.nextId <= id < w.nextId + PetalCount(s.amount) ==>
        && id in r.entities
        && r.entities[id].sprite.Some?
        && var p := r.entities[id].sprite.value;
        && p.index == id - w.nextId + 1
        && p.turns == AngleTurns(s.rotation, p.index)
        && p.radial == Fixed(s.distance)
        && p.orientation == p.turns + 0.25
  {
    SpawnPetalsEntities(w, s);
  }

  /** Running `spawn_petals` a second time with the settings the first run
      left allocates no mesh and no material, keeps the handles, and leaves
      the same number of petals, equal one for one to the first run's. */
  lemma SpawnPetalsTwice(w: Scene, s: Settings)
    requires ValidScene(w)
    ensures var out1 := SpawnPetalsSpec(w, s);
      var out2 := SpawnPetalsSpec(out1.0, out1.1);
      && out2.0.meshes == out1.0.meshes && out2.0.materials == out1.0.materials && out2.1 == out1.1
      && out1.0.nextId == w.nextId + PetalCount(s.amount)
      && (forall id :: w.nextId <= id < out1.0.nextId ==> id in out1.0.entities)
      && out2.0.nextId == out1.0.nextId + PetalCount(s.amount)
      && (forall id :: id in out2.0.entities && FlowerComponent in out2.0.entities[id].tags <==>
            out1.0.nextId <= id < out1.0.nextId + PetalCount(s.amount))
      && (forall id :: out1.0.nextId <= id < out1.0.nextId + PetalCount(s.amount) ==>
            out2.0.entities[id] == out1.0.entities[id - PetalCount(s.amount)])
  {
    var out1 := SpawnPetalsSpec(w, s);
    SpawnPetalsEntities(w, s);
    HandleCache(w, s);
    SpawnPetalsEntities(out1.0, out1.1);
    HandleCache(out1.0, out1.1);
    PetalsExactly(out1.0, out1.1);
  }
}
