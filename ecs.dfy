/** The part of the Bevy world that the flower systems touch, made explicit.

    Entities live in a table from identifier to tags and an optional sprite
    (the `MaterialMesh2dBundle` a system spawns). Meshes and colour materials
    live in append-only stores; a handle is the position of its asset in the
    store. Commands take effect immediately and in order. */
module Ecs {

  datatype Option<+T> = None | Some(value: T)

  type EntityId = nat
  type MeshHandle = nat
  type MaterialHandle = nat

  /** The marker components the core attaches to what it spawns. */
  datatype Tag = FlowerPetal | FlowerComponent | FlowerSeed

  /** `Ellipse::new(half_width, half_height)` and `Circle { radius }`. */
  datatype Mesh = Ellipse(halfWidth: real, halfHeight: real) | Circle(radius: real)

  datatype Color = Rgba(red: real, green: real, blue: real, alpha: real)

  /** Bevy's `Color::ORANGE`, `Color::rgb(1.0, 0.65, 0.0)`. */
  const ORANGE: Color := Rgba(1.0, 0.65, 0.0, 1.0)

  datatype ColorMaterial = ColorMaterial(color: Color)

  /** Distance of a sprite from the origin: a fixed value, or
      `coefficient * sqrt(radicand)`, kept symbolic because the square root
      has no closed form over the reals here. */
  datatype Radial = Fixed(distance: real) | SqrtScaled(coefficient: real, radicand: nat)

  /** `root` is the non-negative square root of `n`. */
  predicate IsRootOf(root: real, n: nat) {
    root >= 0.0 && root * root == n as real
  }

  /** The distance a radial denotes, given the square root of its radicand. */
  function RadiusWith(rad: Radial, root: real): real {
    match rad
    case Fixed(d) => d
    case SqrtScaled(c, _) => c * root
  }

  /** The angle of element `i`, in turns, at `step` turns per index
      (2π·step·i radians). */
  function AngleTurns(step: real, i: int): real {
    step * i as real
  }

  /** A placed sprite: its shared render resources, the loop index it was
      spawned for, its polar placement (angle in turns, i.e. radians / 2π)
      and its orientation in turns. Cartesian positions are left out. */
  datatype Sprite = Sprite(mesh: MeshHandle, material: MaterialHandle, index: int,
                           turns: real, radial: Radial, orientation: real)

  datatype Entity = Entity(tags: set<Tag>, sprite: Option<Sprite>)

  /** A snapshot of the world and both asset stores, used by specifications. */
  datatype Scene = Scene(entities: map<EntityId, Entity>, nextId: EntityId,
                         meshes: seq<Mesh>, materials: seq<ColorMaterial>)

  /** Every live entity was allocated before the identifier counter. */
  predicate ValidScene(w: Scene) {
    forall id :: id in w.entities ==> id < w.nextId
  }

  /** The result of a `Query<Entity, With<tag>>`. */
  function Tagged(m: map<EntityId, Entity>, tag: Tag): set<EntityId> {
    set id | id in m && tag in m[id].tags
  }

  /** `m` after spawning `es` in order with fresh identifiers from `base` on. */
  function SpawnAll(m: map<EntityId, Entity>, base: EntityId, es: seq<Entity>): map<EntityId, Entity>
    decreases |es|
  {
    if es == [] then m
    else SpawnAll(m, base, es[..|es| - 1])[base + |es| - 1 := es[|es| - 1]]
  }

  /** Spawning keeps the entities below `base` and puts `es[k]` at `base + k`,
      nothing else. */
  lemma {:induction false} SpawnAllAt(m: map<EntityId, Entity>, base: EntityId, es: seq<Entity>)
    requires forall id :: id in m ==> id < base
    ensures forall id :: id in SpawnAll(m, base, es) <==> id in m || base <= id < base + |es|
    ensures forall id :: id in m ==> SpawnAll(m, base, es)[id] == m[id]
    ensures forall k :: 0 <= k < |es| ==> SpawnAll(m, base, es)[base + k] == es[k]
    decreases |es|
  {
    if es != [] {
      var init := es[..|es| - 1];
      SpawnAllAt(m, base, init);
      forall k | 0 <= k < |init| ensures es[k] == init[k] { }
    }
  }

  /** The entity table of a Bevy `World`, with the identifier allocator. */
  class World {
    var entities: map<EntityId, Entity>
    var nextId: EntityId

    ghost predicate Valid()
      reads this
    {
      forall id :: id in entities ==> id < nextId
    }

    constructor ()
      ensures Valid() && entities == map[] && nextId == 0
    {
      entities := map[];
      nextId := 0;
    }

    /** `commands.spawn(bundle)`: a fresh entity holding `e`. */
    method Spawn(e: Entity) returns (id: EntityId)
      requires Valid()
      modifies this
      ensures Valid()
      ensures id == old(nextId) && id !in old(entities)
      ensures nextId == id + 1 && entities == old(entities)[id := e]
    {
      id := nextId;
      entities := entities[id := e];
      nextId := nextId + 1;
    }

    /** `commands.entity(id).despawn_recursive()` (children are not modelled). */
    method Despawn(id: EntityId)
      requires Valid()
      modifies this
      ensures Valid()
      ensures entities == old(entities) - {id} && nextId == old(nextId)
    {
      entities := entities - {id};
    }

    /** The entities a `Query<Entity, With<tag>>` yields. */
    function Query(tag: Tag): set<EntityId>
      reads this
    {
      Tagged(entities, tag)
    }

    /** `for entity in query.iter() { commands.entity(entity).despawn_recursive() }`
        over a query result taken beforehand. */
    method DespawnAll(ids: set<EntityId>)
      requires Valid()
      modifies this
      ensures Valid()
      ensures entities == old(entities) - ids && nextId == old(nextId)
    {
      var remaining := ids;
      while remaining != {}
        invariant remaining <= ids && Valid()
        invariant entities == old(entities) - (ids - remaining)
        invariant nextId == old(nextId)
        decreases remaining
      {
        var id :| id in remaining;
        Despawn(id);
        remaining := remaining - {id};
      }
    }
  }

  /** A Bevy `Assets<T>` store; `add` appends and hands back the position. */
  class Assets<T> {
    var items: seq<T>

    constructor ()
      ensures items == []
    {
      items := [];
    }

    method Add(x: T) returns (h: nat)
      modifies this
      ensures items == old(items) + [x] && h == |old(items)|
    {
      h := |items|;
      items := items + [x];
    }
  }

  ghost function SceneOf(world: World, meshes: Assets<Mesh>, materials: Assets<ColorMaterial>): Scene
    reads world, meshes, materials
  {
    Scene(world.entities, world.nextId, meshes.items, materials.items)
  }
}
