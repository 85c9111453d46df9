/** The decision logic of the settings panel (`settings_ui` in src/ui.rs):
    the widgets write the seed resources, their change flags are ORed, the
    "1/PI" and "1/PHI" buttons overwrite the rotation, a change clears and
    respawns every seed, and two hotkeys rescale the panel. Widget layout and
    drawing are left to the widget toolkit, whose per-frame reports are
    inputs here. */
module Ui {
  import opened Ecs
  import opened Flower

  /** `std::f32::consts::PI`. */
  const PI: real := 3.1415927

  /** What one widget reports in a frame: the value it leaves in the
      resource it edits, and whether its response says `changed()`. */
  datatype Report<T> = Report(value: T, changed: bool)

  /** The panel's widgets in one frame: the rotation slider, the two preset
      buttons, and the density, radius and count sliders. */
  datatype Panel = Panel(rotation: Report<real>, piClicked: bool, phiClicked: bool,
                         density: Report<real>, radius: Report<real>, count: Report<I32>)

  /** Left Control held, and whether Comma or Period went down this frame. */
  datatype Keys = Keys(controlLeft: bool, commaJustPressed: bool, periodJustPressed: bool)

  /** The `EguiSettings` resource; only its scale factor is used. */
  class EguiSettings {
    var scaleFactor: real

    constructor (scale: real)
      ensures scaleFactor == scale
    {
      scaleFactor := scale;
    }
  }

  /** The slider ranges: rotation 0..=1, density 0..=30, radius 0..=20,
      count 0..=1000. */
  predicate InSliderRanges(p: Params) {
    && 0.0 <= p.rotation <= 1.0
    && 0.0 <= p.distance <= 30.0
    && 0.0 <= p.radius <= 20.0
    && 0 <= p.numSeeds <= 1000
  }

  /** What the widget toolkit guarantees of a frame's reports: a slider
      leaves a value inside its range, and one that reports no change leaves
      the resource as it was. */
  predicate SlidersClamp(p: Params, panel: Panel) {
    && 0.0 <= panel.rotation.value <= 1.0
    && 0.0 <= panel.density.value <= 30.0
    && 0.0 <= panel.radius.value <= 20.0
    && 0 <= panel.count.value <= 1000
    && (!panel.rotation.changed ==> panel.rotation.value == p.rotation)
    && (!panel.density.changed ==> panel.density.value == p.distance)
    && (!panel.radius.changed ==> panel.radius.value == p.radius)
    && (!panel.count.changed ==> panel.count.value == p.numSeeds)
  }

  /** `changed = r_changed || d_changed || ra_changed || n_changed`, where a
      preset click also sets `r_changed`. */
  function Regenerates(panel: Panel): bool {
    var rotationChanged := panel.rotation.changed || panel.piClicked || panel.phiClicked;
    rotationChanged || panel.density.changed || panel.radius.changed || panel.count.changed
  }

  /** The rotation after the slider and the two preset buttons, in the order
      the panel runs them. */
  function EditedRotation(panel: Panel): real {
    var afterPi := if panel.piClicked then 1.0 / PI else panel.rotation.value;
    if panel.phiClicked then 1.0 / PHI else afterPi
  }

  /** The seed resources after the panel has run. */
  function EditedParams(panel: Panel): Params {
    Params(panel.count.value, panel.radius.value, panel.density.value, EditedRotation(panel))
  }

  /** The scene and seed resources after the panel part of `settings_ui`. */
  function PanelFrame(w: Scene, panel: Panel): (Scene, Params) {
    var p := EditedParams(panel);
    if Regenerates(panel) then (SpawnFlowersSpec(w.(entities := ClearSeeds(w.entities)), p), p)
    else (w, p)
  }

  /** The scale factor after the hotkey check. */
  function ScaleAfterHotkeys(scale: real, keys: Keys): real {
    if keys.controlLeft && keys.commaJustPressed then scale * 1.1
    else if keys.controlLeft && keys.periodJustPressed then scale * 0.9
    else scale
  }

  method SettingsUi(world: World, meshes: Assets<Mesh>, materials: Assets<ColorMaterial>,
                    params: FlowerParams, egui: EguiSettings, panel: Panel, keys: Keys)
    requires world.Valid()
    modifies world, meshes, materials, params, egui
    ensures world.Valid()
    ensures (SceneOf(world, meshes, materials), params.Value())
            == PanelFrame(old(SceneOf(world, meshes, materials)), panel)
    ensures egui.scaleFactor == ScaleAfterHotkeys(old(egui.scaleFactor), keys)
  {
    params.seedRotation := panel.rotation.value;
    var rotationChanged := panel.rotation.changed;
    if panel.piClicked {
      rotationChanged := true;
      params.seedRotation := 1.0 / PI;
    }
    if panel.phiClicked {
      rotationChanged := true;
      params.seedRotation := 1.0 / PHI;
    }
    params.seedDistance := panel.density.value;
    var densityChanged := panel.density.changed;
    params.seedRadius := panel.radius.value;
    var radiusChanged := panel.radius.changed;
    params.numSeeds := panel.count.value;
    var countChanged := panel.count.changed;
    var changed := rotationChanged || densityChanged || radiusChanged || countChanged;
    if changed {
      ClearFlowers(world);
      SpawnFlowers(world, meshes, materials, params.numSeeds, params.seedRadius, params.seedDistance, params.seedRotation);
    }

    if keys.controlLeft && keys.commaJustPressed {
      egui.scaleFactor := egui.scaleFactor * 1.1;
    } else if keys.controlLeft && keys.periodJustPressed {
      egui.scaleFactor := egui.scaleFactor * 0.9;
    }
  }

  /** A frame in which no widget reports a change and no button is clicked
      leaves the seed resources, the entities and both asset stores as they
      were. */
  lemma QuietFrame(w: Scene, p: Params, panel: Panel)
    requires SlidersClamp(p, panel)
    requires !panel.rotation.changed && !panel.piClicked && !panel.phiClicked
    requires !panel.density.changed && !panel.radius.changed && !panel.count.changed
    ensures PanelFrame(w, panel) == (w, p)
  {
  }

  /** Regeneration happens exactly when some widget reported a change: the
      rotation slider, a preset button, or the density, radius or count
      slider. */
  lemma RegeneratesIff(w: Scene, panel: Panel)
    ensures PanelFrame(w, panel).0 != w ==>
              panel.rotation.changed || panel.piClicked || panel.phiClicked
              || panel.density.changed || panel.radius.changed || panel.count.changed
    ensures (panel.rotation.changed || panel.piClicked || panel.phiClicked
              || panel.density.changed || panel.radius.changed || panel.count.changed) ==>
              PanelFrame(w, panel).0 == SpawnFlowersSpec(w.(entities := ClearSeeds(w.entities)), EditedParams(panel))
  {
  }

  /** A preset click forces regeneration and sets the rotation to 1/PI or
      1/PHI; with both clicked in one frame 1/PHI wins, being written last. */
  lemma PresetsWin(w: Scene, panel: Panel)
    requires panel.piClicked || panel.phiClicked
    ensures Regenerates(panel)
    ensures PanelFrame(w, panel).1.rotation == if panel.phiClicked then 1.0 / PHI else 1.0 / PI
  {
  }

  /** The seed resources, and so the values handed to `spawn_flowers`, stay
      inside the slider ranges: the sliders clamp, and both presets lie
      strictly between 0 and 1 because PI and PHI exceed 1. */
  lemma SlidersStayInRange(w: Scene, p: Params, panel: Panel)
    requires SlidersClamp(p, panel)
    ensures InSliderRanges(PanelFrame(w, panel).1)
    ensures 0.0 < 1.0 / PI < 1.0 && 0.0 < 1.0 / PHI < 1.0
  {
    assert 0.0 < 1.0 / PHI < 1.0 by {
      assert PHI * (1.0 / PHI) == 1.0;
    }
    assert 0.0 < 1.0 / PI < 1.0;
  }

  /** A regenerating frame first removes every seed that existed, keeps
      every other entity, and then spawns max(count - 1, 0) seeds with the
      edited count, radius, density and rotation, each with a fresh circle
      and material. */
  lemma RegenerationReplacesSeeds(w: Scene, panel: Panel)
    requires ValidScene(w) && Regenerates(panel)
    ensures var r := PanelFrame(w, panel).0;
      var q := EditedParams(panel);
      && PanelFrame(w, panel).1 == q
      && r.nextId == w.nextId + SeedCount(q.numSeeds)
      && |r.meshes| == |w.meshes| + SeedCount(q.numSeeds)
      && |r.materials| == |w.materials| + SeedCount(q.numSeeds)
      && (forall id :: id in w.entities && FlowerSeed in w.entities[id].tags ==> id !in r.entities)
      && (forall id :: id in w.entities && FlowerSeed !in w.entities[id].tags ==>
            id in r.entities && r.entities[id] == w.entities[id])
      && (forall id :: id in r.entities && FlowerSeed in r.entities[id].tags <==>
            w.nextId <= id < r.nextId)
      && (forall j :: |w.meshes| <= j < |r.meshes| ==> r.meshes[j] == Circle(q.radius))
      && (forall j :: |w.materials| <= j < |r.materials| ==> r.materials[j] == ColorMaterial(ORANGE))
      && (forall id :: w.nextId <= id < r.nextId ==>
            && r.entities[id].sprite.Some?
            && |w.meshes| <= r.entities[id].sprite.value.mesh < |r.meshes|
            && |w.materials| <= r.entities[id].sprite.value.material < |r.materials|
            && r.entities[id].sprite.value.index == id - w.nextId + 1
            && r.entities[id].sprite.value.turns == AngleTurns(q.rotation, r.entities[id].sprite.value.index)
            && r.entities[id].sprite.value.radial == SqrtScaled(5.0 * q.distance, r.entities[id].sprite.value.index))
      && (forall id1, id2 :: w.nextId <= id1 < r.nextId && w.nextId <= id2 < r.nextId && id1 != id2 ==>
            && r.entities[id1].sprite.value.mesh != r.entities[id2].sprite.value.mesh
            && r.entities[id1].sprite.value.material != r.entities[id2].sprite.value.material)
  {
    var q := EditedParams(panel);
    var cleared := w.(entities := ClearSeeds(w.entities));
    assert PanelFrame(w, panel) == (SpawnFlowersSpec(cleared, q), q);
    ClearThenSpawn(w, q);
    assert ValidScene(cleared);
    SeedsExactly(cleared, q);
    FreshAssetsPerSeed(cleared, q);
    SeedPlacement(cleared, q);
  }

  /** Clearing the seeds and spawning a new flower leaves exactly the new
      seeds tagged `FlowerSeed` and every other entity untouched. */
  lemma ClearThenSpawn(w: Scene, q: Params)
    requires ValidScene(w)
    ensures var r := SpawnFlowersSpec(w.(entities := ClearSeeds(w.entities)), q);
      && (forall id :: id in w.entities && FlowerSeed in w.entities[id].tags ==> id !in r.entities)
      && (forall id :: id in w.entities && FlowerSeed !in w.entities[id].tags ==>
            id in r.entities && r.entities[id] == w.entities[id])
      && (forall id :: id in r.entities && FlowerSeed in r.entities[id].tags <==>
            w.nextId <= id < r.nextId)
  {
    var cleared := w.(entities := ClearSeeds(w.entities));
    assert ValidScene(cleared);
    SeedsExactly(cleared, q);
  }

  /** Left Control with Comma multiplies the scale factor by 1.1, with
      Period by 0.9; Comma takes precedence, at most one applies per frame,
      and without left Control nothing changes. A positive factor stays
      positive. */
  lemma HotkeyScaling(scale: real, keys: Keys)
    ensures var r := ScaleAfterHotkeys(scale, keys);
      && (keys.controlLeft && keys.commaJustPressed ==> r == scale * 1.1)
      && (keys.controlLeft && !keys.commaJustPressed && keys.periodJustPressed ==> r == scale * 0.9)
      && (!keys.controlLeft || (!keys.commaJustPressed && !keys.periodJustPressed) ==> r == scale)
      && (scale > 0.0 ==> r > 0.0)
  {
  }
}
