/**
 * The scene builder's bookkeeping: loading a list of positioned objects one
 * after another (an index-aligned result with null for unknown assets, and
 * every loaded mesh appended to `loadedModels`), placing a freshly loaded
 * mesh, moving an object's mesh, and caching the animated model.
 */
module Scene {
  import opened Wrappers
  import opened Vectors
  import Assets
  import Engine
  import opened Objects

  /** An element handed to the builder: a PositionedObject, or a value of any other kind. */
  datatype SceneItem = Positioned(obj: PositionedObject) | Other

  const NotPositionedObject: string := "SceneBuilder: Only instances of PositionedObject are allowed."

  /** The TypeError raised by calling `addInPlace` on a mesh position that is not a Vector3. */
  const AddInPlaceNotAFunction: string := "positionedObject.model.position.addInPlace is not a function"

  /** The per-item results of a load sequence and the import outcomes it left unused. */
  datatype LoadPlan = LoadPlan(models: seq<Engine.Mesh?>, rest: seq<Engine.LoadOutcome>)

  /**
   * What loading `items` in order yields when the engine's imports answer
   * with `outcomes` in turn: null (and no import) for an object whose asset
   * the manifest lacks, the imported mesh or null otherwise; the sequence
   * stops at the first item that is not a PositionedObject.
   */
  function Plan(items: seq<SceneItem>, outcomes: seq<Engine.LoadOutcome>): (p: LoadPlan)
    ensures |p.models| <= |items|
    ensures |p.rest| <= |outcomes| && p.rest == outcomes[|outcomes| - |p.rest|..]
    decreases |items|
  {
    if items == [] || items[0].Other? then LoadPlan([], outcomes)
    else if Assets.GetAssetUrl(items[0].obj.modelId).None? then
      var p := Plan(items[1..], outcomes);
      LoadPlan([null] + p.models, p.rest)
    else
      var p := Plan(items[1..], Engine.Rest(outcomes));
      LoadPlan([Engine.MeshOf(Engine.Next(outcomes))] + p.models, p.rest)
  }

  /** The index of the first item that is not a PositionedObject, or |items| when there is none. */
  function FirstOther(items: seq<SceneItem>): (k: nat)
    ensures k <= |items|
    ensures forall i :: 0 <= i < k ==> items[i].Positioned?
    ensures k < |items| ==> items[k].Other?
  {
    if items == [] then 0
    else if items[0].Other? then 0
    else 1 + FirstOther(items[1..])
  }

  /** The non-null entries, in order. */
  function NonNull(models: seq<Engine.Mesh?>): (r: seq<Engine.Mesh>)
    ensures |r| <= |models|
  {
    if models == [] then []
    else if models[0] == null then NonNull(models[1..])
    else [models[0]] + NonNull(models[1..])
  }

  ghost function ObjectsOf(items: seq<SceneItem>): set<PositionedObject> {
    set i | 0 <= i < |items| && items[i].Positioned? :: items[i].obj
  }

  /** Entry i loaded a mesh and no later entry for the same object did. */
  ghost predicate LastLoadOf(items: seq<SceneItem>, models: seq<Engine.Mesh?>, i: int)
    requires 0 <= i < |models| <= |items|
  {
    models[i] != null && forall j :: i < j < |models| && items[j] == items[i] ==> models[j] == null
  }

  /** No entry for `o` loaded a mesh. */
  ghost predicate NeverLoaded(items: seq<SceneItem>, models: seq<Engine.Mesh?>, o: PositionedObject)
    requires |models| <= |items|
  {
    forall j :: 0 <= j < |models| && items[j] == Positioned(o) ==> models[j] == null
  }

  /** One result per item up to the first non-PositionedObject: exactly one per item when all are. */
  lemma {:induction false} PlanLength(items: seq<SceneItem>, outcomes: seq<Engine.LoadOutcome>)
    ensures |Plan(items, outcomes).models| == FirstOther(items)
    decreases |items|
  {
    if items != [] && items[0].Positioned? {
      if Assets.GetAssetUrl(items[0].obj.modelId).None? {
        PlanLength(items[1..], outcomes);
      } else {
        PlanLength(items[1..], Engine.Rest(outcomes));
      }
    }
  }

  /** An object whose asset the manifest lacks gets a null entry at its own index. */
  lemma {:induction false} PlanMissingAsset(items: seq<SceneItem>, outcomes: seq<Engine.LoadOutcome>, i: nat)
    requires i < |Plan(items, outcomes).models|
    ensures i < FirstOther(items) && items[i].Positioned?
    ensures Assets.GetAssetUrl(items[i].obj.modelId).None? ==> Plan(items, outcomes).models[i] == null
    decreases |items|
  {
    PlanLength(items, outcomes);
    if i > 0 {
      if Assets.GetAssetUrl(items[0].obj.modelId).None? {
        PlanMissingAsset(items[1..], outcomes, i - 1);
      } else {
        PlanMissingAsset(items[1..], Engine.Rest(outcomes), i - 1);
      }
    }
  }

  /** When the manifest knows no asset of any item, no import is attempted. */
  lemma {:induction false} PlanNoImportForMissing(items: seq<SceneItem>, outcomes: seq<Engine.LoadOutcome>)
    requires forall i :: 0 <= i < |items| && items[i].Positioned? ==> Assets.GetAssetUrl(items[i].obj.modelId).None?
    ensures Plan(items, outcomes).rest == outcomes
    ensures NonNull(Plan(items, outcomes).models) == []
    decreases |items|
  {
    if items != [] && items[0].Positioned? {
      PlanNoImportForMissing(items[1..], outcomes);
    }
  }

  /** Collecting the non-null entries distributes over concatenation. */
  lemma {:induction false} NonNullAppend(a: seq<Engine.Mesh?>, b: seq<Engine.Mesh?>)
    ensures NonNull(a + b) == NonNull(a) + NonNull(b)
    decreases |a|
  {
    if a != [] {
      assert (a + b)[0] == a[0] && (a + b)[1..] == a[1..] + b;
      NonNullAppend(a[1..], b);
    } else {
      assert a + b == b;
    }
  }

  /** The mesh attached to `o` after the loads `models` of `items`, starting from `initial`: the latest non-null load for `o`. */
  function Attached(items: seq<SceneItem>, models: seq<Engine.Mesh?>, o: PositionedObject, initial: Engine.Mesh?): (r: Engine.Mesh?)
    requires |models| <= |items|
    ensures r == initial || (r != null && exists i :: 0 <= i < |models| && items[i] == Positioned(o) && models[i] == r)
    decreases |models|
  {
    if models == [] then initial
    else
      var k := |models| - 1;
      if items[k] == Positioned(o) && models[k] != null then models[k]
      else Attached(items, models[..k], o, initial)
  }

  /** One more load changes the attached mesh only for its own object, and only when it produced a mesh. */
  lemma AttachedAppend(items: seq<SceneItem>, models: seq<Engine.Mesh?>, m: Engine.Mesh?, o: PositionedObject, initial: Engine.Mesh?)
    requires |models| < |items|
    ensures Attached(items, models + [m], o, initial)
            == if items[|models|] == Positioned(o) && m != null then m else Attached(items, models, o, initial)
  {
    assert (models + [m])[..|models|] == models;
  }

  /** A load that no later load of the same object overrides is the one attached. */
  lemma {:induction false} AttachedLastLoad(items: seq<SceneItem>, models: seq<Engine.Mesh?>, k: nat, initial: Engine.Mesh?)
    requires k < |models| <= |items| && items[k].Positioned?
    requires LastLoadOf(items, models, k)
    ensures Attached(items, models, items[k].obj, initial) == models[k]
    decreases |models|
  {
    var n := |models| - 1;
    if k < n {
      assert items[n] == items[k] ==> models[n] == null;
      assert LastLoadOf(items, models[..n], k);
      AttachedLastLoad(items, models[..n], k, initial);
    }
  }

  /** An object none of whose loads produced a mesh keeps its initial model. */
  lemma {:induction false} AttachedNeverLoaded(items: seq<SceneItem>, models: seq<Engine.Mesh?>, o: PositionedObject, initial: Engine.Mesh?)
    requires |models| <= |items|
    requires NeverLoaded(items, models, o)
    ensures Attached(items, models, o, initial) == initial
    decreases |models|
  {
    if models != [] {
      var n := |models| - 1;
      assert NeverLoaded(items, models[..n], o);
      AttachedNeverLoaded(items, models[..n], o, initial);
    }
  }

  /**
   * The loading loop's progress: the first i items were PositionedObjects
   * and produced `models`, and what remains of the plan is the plan of the
   * remaining items on the outcomes not yet consumed.
   */
  ghost predicate Progress(items: seq<SceneItem>, outcomes0: seq<Engine.LoadOutcome>, i: nat,
                           models: seq<Engine.Mesh?>, outcomes: seq<Engine.LoadOutcome>)
  {
    i <= |items| && |models| == i
    && (forall k :: 0 <= k < i ==> items[k].Positioned?)
    && Plan(items, outcomes0) == LoadPlan(models + Plan(items[i..], outcomes).models, Plan(items[i..], outcomes).rest)
    && Engine.MeshesOf(outcomes) <= Engine.MeshesOf(outcomes0)
  }

  /** Loading item i with result `m` advances the progress by one item. */
  lemma ProgressStep(items: seq<SceneItem>, outcomes0: seq<Engine.LoadOutcome>, i: nat, models: seq<Engine.Mesh?>,
                     before: seq<Engine.LoadOutcome>, m: Engine.Mesh?, after: seq<Engine.LoadOutcome>)
    requires Progress(items, outcomes0, i, models, before)
    requires i < |items| && items[i].Positioned?
    requires Assets.GetAssetUrl(items[i].obj.modelId).None? ==> m == null && after == before
    requires Assets.GetAssetUrl(items[i].obj.modelId).Some? ==> m == Engine.MeshOf(Engine.Next(before)) && after == Engine.Rest(before)
    ensures Progress(items, outcomes0, i + 1, models + [m], after)
  {
    var p1 := Plan(items[i + 1..], after);
    assert Plan(items[i..], before) == LoadPlan([m] + p1.models, p1.rest) by {
      PlanStep(items, i, before);
    }
    assert Engine.MeshesOf(after) <= Engine.MeshesOf(before) by {
      Engine.RestMeshes(before);
    }
    assert models + ([m] + p1.models) == (models + [m]) + p1.models;
  }

  /** At an item that is not a PositionedObject the plan is complete. */
  lemma ProgressStops(items: seq<SceneItem>, outcomes0: seq<Engine.LoadOutcome>, i: nat,
                      models: seq<Engine.Mesh?>, outcomes: seq<Engine.LoadOutcome>)
    requires Progress(items, outcomes0, i, models, outcomes)
    requires i == |items| || items[i].Other?
    ensures Plan(items, outcomes0) == LoadPlan(models, outcomes)
    ensures |models| <= |items|
  {
    assert Plan(items[i..], outcomes) == LoadPlan([], outcomes);
    assert models + [] == models;
  }

  /** Unfolding Plan by one item, from position i. */
  lemma PlanStep(items: seq<SceneItem>, i: nat, outcomes: seq<Engine.LoadOutcome>)
    requires i < |items| && items[i].Positioned?
    ensures var p := Plan(items[i + 1..], outcomes);
      Assets.GetAssetUrl(items[i].obj.modelId).None? ==>
        Plan(items[i..], outcomes) == LoadPlan([null] + p.models, p.rest)
    ensures var p := Plan(items[i + 1..], Engine.Rest(outcomes));
      Assets.GetAssetUrl(items[i].obj.modelId).Some? ==>
        Plan(items[i..], outcomes) == LoadPlan([Engine.MeshOf(Engine.Next(outcomes))] + p.models, p.rest)
  {
    assert items[i..][1..] == items[i + 1..];
  }

  /**
   * A mesh placed for an object: at the object's position (as an engine
   * Vector3), scaled by its scale on all three axes and turned by its
   * (pitch, yaw, roll).
   */
  ghost predicate PlacedFor(m: Engine.Mesh, o: PositionedObject)
    reads m, o
  {
    m.position == o.position && m.positionIsVector3
    && m.scaling == Vec3(o.scaling, o.scaling, o.scaling)
    && m.rotationDegrees == Vec3(o.rotation.pitch, o.rotation.yaw, o.rotation.roll)
  }

  class SceneBuilder {
    const modelLoader: Engine.Loader
    const animatedModelLoader: Engine.Loader
    /** Every mesh loaded through loadSceneModels, in load order. */
    var loadedModels: seq<Engine.Mesh>
    var loadedAnimatedModel: Engine.Mesh?

    constructor(modelLoader: Engine.Loader, animatedModelLoader: Engine.Loader)
      ensures this.modelLoader == modelLoader && this.animatedModelLoader == animatedModelLoader
      ensures loadedModels == [] && loadedAnimatedModel == null
    {
      this.modelLoader := modelLoader;
      this.animatedModelLoader := animatedModelLoader;
      loadedModels := [];
      loadedAnimatedModel := null;
    }

    /** Load the animated "running" model and cache it, whatever the cache held. */
    method LoadAnimatedModel() returns (m: Engine.Mesh?)
      modifies this`loadedAnimatedModel, animatedModelLoader
      ensures m == Engine.MeshOf(Engine.Next(old(animatedModelLoader.outcomes))) && loadedAnimatedModel == m
      ensures animatedModelLoader.outcomes == Engine.Rest(old(animatedModelLoader.outcomes))
    {
      // The source hands the asset name "running" to the animated-model
      // loader, which looks its URL up in the manifest itself; the lookup is
      // written here because Loader.Load takes the looked-up URL.
      var outcome := animatedModelLoader.Load(Assets.GetAssetUrl("running"));
      loadedAnimatedModel := Engine.MeshOf(outcome);
      m := loadedAnimatedModel;
    }

    /** The cached animated model; loaded only when nothing is cached. */
    method GetAnimatedModel() returns (m: Engine.Mesh?)
      modifies this`loadedAnimatedModel, animatedModelLoader
      ensures loadedAnimatedModel == m
      ensures old(loadedAnimatedModel) != null ==>
                m == old(loadedAnimatedModel) && animatedModelLoader.outcomes == old(animatedModelLoader.outcomes)
      ensures old(loadedAnimatedModel) == null ==>
                m == Engine.MeshOf(Engine.Next(old(animatedModelLoader.outcomes)))
                && animatedModelLoader.outcomes == Engine.Rest(old(animatedModelLoader.outcomes))
    {
      if loadedAnimatedModel == null {
        var _ := LoadAnimatedModel();
      }
      m := loadedAnimatedModel;
    }

    /**
     * Import one object's model and place it: the mesh takes the object's
     * position, its scale on all three axes and its rotation. A failed or
     * empty import gives null rather than an error.
     */
    method LoadSceneModel(item: SceneItem) returns (r: Completion<Engine.Mesh?>)
      modifies modelLoader, Engine.MeshesOf(modelLoader.outcomes)
      ensures item.Other? ==> r == Threw(NotPositionedObject) && modelLoader.outcomes == old(modelLoader.outcomes)
      ensures item.Positioned? ==>
                r == Returned(Engine.MeshOf(Engine.Next(old(modelLoader.outcomes))))
                && modelLoader.outcomes == Engine.Rest(old(modelLoader.outcomes))
      ensures r.Returned? && r.value != null ==> PlacedFor(r.value, item.obj) && r.value.disposed == old(r.value.disposed)
      ensures forall m :: m in Engine.MeshesOf(old(modelLoader.outcomes)) && (r.Threw? || m != r.value) ==> unchanged(m)
    {
      if item.Other? {
        return Threw(NotPositionedObject);
      }
      var o := item.obj;
      Engine.RestMeshes(modelLoader.outcomes);
      var outcome := modelLoader.Load(Assets.GetAssetUrl(o.modelId));
      if outcome.Loaded? {
        var m := outcome.mesh;
        m.position := o.position;
        m.positionIsVector3 := true;
        m.scaling := Vec3(o.scaling, o.scaling, o.scaling);
        m.rotationDegrees := Vec3(o.rotation.pitch, o.rotation.yaw, o.rotation.roll);
        r := Returned(m);
      } else {
        r := Returned(null);
      }
    }

    /**
     * One pass of the loading loop for a PositionedObject: no import for an
     * asset the manifest lacks; a loaded mesh is recorded and attached.
     */
    method LoadEntry(o: PositionedObject) returns (m: Engine.Mesh?)
      modifies this`loadedModels, modelLoader, o`model, Engine.MeshesOf(modelLoader.outcomes)
      ensures Assets.GetAssetUrl(o.modelId).None? ==> m == null && modelLoader.outcomes == old(modelLoader.outcomes)
      ensures Assets.GetAssetUrl(o.modelId).Some? ==>
                m == Engine.MeshOf(Engine.Next(old(modelLoader.outcomes)))
                && modelLoader.outcomes == Engine.Rest(old(modelLoader.outcomes))
      ensures loadedModels == old(loadedModels) + NonNull([m])
      ensures m != null ==> o.model == m
      ensures m == null ==> o.model == old(o.model)
      ensures m != null ==> PlacedFor(m, o) && m.disposed == old(m.disposed)
      ensures forall mm :: mm in Engine.MeshesOf(old(modelLoader.outcomes)) && mm != m ==> unchanged(mm)
    {
      m := null;
      if Assets.GetAssetUrl(o.modelId).Some? {
        var loaded := LoadSceneModel(Positioned(o));
        m := loaded.value;
        if m != null {
          loadedModels := loadedModels + [m];
          o.SetModel(m);
        }
      }
    }

    /**
     * Load each item in turn. The result has one entry per item, in order;
     * every loaded mesh is appended to `loadedModels` and attached to its
     * object. An item that is not a PositionedObject throws, after the items
     * before it were processed.
     */
    method LoadSceneModels(items: seq<SceneItem>) returns (r: Completion<seq<Engine.Mesh?>>)
      modifies this`loadedModels, modelLoader, ObjectsOf(items)`model, Engine.MeshesOf(modelLoader.outcomes)
      ensures var p := Plan(items, old(modelLoader.outcomes));
              && modelLoader.outcomes == p.rest
              && loadedModels == old(loadedModels) + NonNull(p.models)
              && (r.Returned? <==> forall i :: 0 <= i < |items| ==> items[i].Positioned?)
              && (r.Returned? ==> r.value == p.models)
              && (r.Threw? ==> r.message == NotPositionedObject)
      ensures var p := Plan(items, old(modelLoader.outcomes));
              |p.models| <= |items|
              && forall k :: 0 <= k < |items| && items[k].Positioned? ==>
                   items[k].obj.model == Attached(items, p.models, items[k].obj, old(items[k].obj.model))
    {
      ghost var outcomes0 := modelLoader.outcomes;
      var models: seq<Engine.Mesh?> := [];
      var i := 0;
      while i < |items| && items[i].Positioned?
        invariant Progress(items, outcomes0, i, models, modelLoader.outcomes)
        invariant loadedModels == old(loadedModels) + NonNull(models)
        invariant forall k :: 0 <= k < |items| && items[k].Positioned? ==>
                    items[k].obj.model == Attached(items, models, items[k].obj, old(items[k].obj.model))
      {
        var o := items[i].obj;
        assert o in ObjectsOf(items);
        ghost var before := modelLoader.outcomes;
        var m := LoadEntry(o);
        ProgressStep(items, outcomes0, i, models, before, m, modelLoader.outcomes);
        NonNullAppend(models, [m]);
        forall k | 0 <= k < |items| && items[k].Positioned?
          ensures Attached(items, models + [m], items[k].obj, old(items[k].obj.model))
                  == if items[i] == items[k] && m != null then m else Attached(items, models, items[k].obj, old(items[k].obj.model))
        {
          AttachedAppend(items, models, m, items[k].obj, old(items[k].obj.model));
        }
        models := models + [m];
        i := i + 1;
      }
      ProgressStops(items, outcomes0, i, models, modelLoader.outcomes);
      if i < |items| {
        r := Threw(NotPositionedObject);
      } else {
        r := Returned(models);
      }
    }

    /**
     * Move an object's mesh to `position`, which becomes the mesh's position
     * object itself: an engine Vector3, or any other value with x, y and z
     * (`isVector3`). An item that is not a PositionedObject, or one without a
     * mesh, is left alone.
     */
    method MoveModelTo(item: SceneItem, position: Vec3, isVector3: bool)
      modifies if item.Positioned? && item.obj.model != null then {item.obj.model} else {}
      ensures item.Positioned? && item.obj.model != null ==>
                var m := item.obj.model;
                m.position == position && m.positionIsVector3 == isVector3
                && m.rotationDegrees == old(m.rotationDegrees) && m.scaling == old(m.scaling) && m.disposed == old(m.disposed)
    {
      if item.Other? || item.obj.model == null {
        return;
      }
      item.obj.model.position := position;
      item.obj.model.positionIsVector3 := isVector3;
    }

    /**
     * Move an object's mesh by `delta`, component-wise. An item that is not a
     * PositionedObject, or one without a mesh, is left alone; a mesh position
     * that is not a Vector3 has no `addInPlace` method, so the call throws and
     * the mesh stays where it was.
     */
    method MoveModelBy(item: SceneItem, delta: Vec3) returns (c: Completion<()>)
      modifies if item.Positioned? && item.obj.model != null then {item.obj.model} else {}
      ensures c.Threw? <==> item.Positioned? && item.obj.model != null && !item.obj.model.positionIsVector3
      ensures c.Threw? ==> c.message == AddInPlaceNotAFunction
      ensures item.Positioned? && item.obj.model != null ==>
                var m := item.obj.model;
                m.position == (if c.Threw? then old(m.position) else Add(old(m.position), delta))
                && m.positionIsVector3 == old(m.positionIsVector3)
                && m.rotationDegrees == old(m.rotationDegrees) && m.scaling == old(m.scaling) && m.disposed == old(m.disposed)
    {
      c := Returned(());
      if item.Other? || item.obj.model == null {
        return;
      }
      var m := item.obj.model;
      if !m.positionIsVector3 {
        return Threw(AddInPlaceNotAFunction);
      }
      m.position := Vec3(m.position.x + delta.x, m.position.y + delta.y, m.position.z + delta.z);
    }
  }
}
