/**
 * A scene object's placement record: model id and URL, position, rotation
 * in degrees, three animation ids, a uniform scale, and the engine mesh once
 * one has been attached.
 */
module Objects {
  import opened Wrappers
  import opened Vectors
  import Assets
  import Engine

  /** Rotation angles in degrees. */
  datatype Rotation = Rotation(pitch: real, roll: real, yaw: real)

  datatype AnimationIds = AnimationIds(animationId1: string, animationId2: string, animationId3: string)

  /** The constructor's optional arguments; an absent one takes its default. */
  datatype PlacementArgs = PlacementArgs(
    x: Option<real>, y: Option<real>, z: Option<real>,
    pitch: Option<real>, roll: Option<real>, yaw: Option<real>,
    animationId1: Option<string>, animationId2: Option<string>, animationId3: Option<string>,
    scale: Option<real>)

  /** The TypeError raised by calling `set` on a mesh position that is not a Vector3. */
  const SetNotAFunction: string := "this.model.position.set is not a function"

  const AllDefaults: PlacementArgs := PlacementArgs(None, None, None, None, None, None, None, None, None, None)

  /** The snapshot `getObjectProperties` returns: everything but the mesh. */
  datatype ObjectProperties = ObjectProperties(
    modelId: string, modelUrl: Option<string>, position: Vec3,
    rotation: Rotation, animationIds: AnimationIds, scaling: real)

  class PositionedObject {
    const modelId: string
    const modelUrl: Option<string>
    const scaling: real
    var position: Vec3
    var rotation: Rotation
    var animationIds: AnimationIds
    var model: Engine.Mesh?

    constructor(modelId: string, args: PlacementArgs)
      ensures this.modelId == modelId && model == null
      ensures modelUrl == Assets.GetAssetUrl(modelId)
      ensures position == Vec3(args.x.GetOr(0.0), args.y.GetOr(0.0), args.z.GetOr(0.0))
      ensures rotation == Rotation(args.pitch.GetOr(0.0), args.roll.GetOr(0.0), args.yaw.GetOr(0.0))
      ensures animationIds == AnimationIds(args.animationId1.GetOr(""), args.animationId2.GetOr(""), args.animationId3.GetOr(""))
      ensures scaling == args.scale.GetOr(1.0)
      ensures args == AllDefaults ==>
                position == Zero && rotation == Rotation(0.0, 0.0, 0.0)
                && animationIds == AnimationIds("", "", "") && scaling == 1.0
    {
      this.modelId := modelId;
      scaling := args.scale.GetOr(1.0);
      var url := Assets.GetAssetUrl(modelId);
      if url.Some? {
        modelUrl := url;
      } else {
        modelUrl := None;
      }
      position := Vec3(args.x.GetOr(0.0), args.y.GetOr(0.0), args.z.GetOr(0.0));
      rotation := Rotation(args.pitch.GetOr(0.0), args.roll.GetOr(0.0), args.yaw.GetOr(0.0));
      animationIds := AnimationIds(args.animationId1.GetOr(""), args.animationId2.GetOr(""), args.animationId3.GetOr(""));
      model := null;
    }

    method SetModel(model: Engine.Mesh?)
      modifies this`model
      ensures this.model == model
    {
      this.model := model;
    }

    /**
     * Replace the stored position and move the attached mesh, if any, to the
     * same point. A mesh position that is not a Vector3 has no `set` method:
     * the call throws after the stored position was replaced, and the mesh
     * stays where it was.
     */
    method SetPosition(x: real, y: real, z: real) returns (c: Completion<()>)
      modifies this`position, model
      ensures position == Vec3(x, y, z)
      ensures c.Threw? <==> model != null && !old(model.positionIsVector3)
      ensures c.Threw? ==> c.message == SetNotAFunction
      ensures model != null ==>
                model.position == (if c.Threw? then old(model.position) else Vec3(x, y, z))
                && model.positionIsVector3 == old(model.positionIsVector3)
                && model.rotationDegrees == old(model.rotationDegrees)
                && model.scaling == old(model.scaling) && model.disposed == old(model.disposed)
    {
      position := Vec3(x, y, z);
      c := Returned(());
      if model != null {
        if !model.positionIsVector3 {
          return Threw(SetNotAFunction);
        }
        model.position := Vec3(x, y, z);
      }
    }

    /**
     * Replace the stored rotation (degrees) and turn the attached mesh, if
     * any, to (pitch, yaw, roll) on its x, y and z axes.
     */
    method SetRotation(pitch: real, roll: real, yaw: real)
      modifies this`rotation, model
      ensures rotation == Rotation(pitch, roll, yaw)
      ensures model != null ==>
                model.rotationDegrees == Vec3(pitch, yaw, roll)
                && model.position == old(model.position)
                && model.positionIsVector3 == old(model.positionIsVector3)
                && model.scaling == old(model.scaling) && model.disposed == old(model.disposed)
    {
      rotation := Rotation(pitch, roll, yaw);
      if model != null {
        model.rotationDegrees := Vec3(pitch, yaw, roll);
      }
    }

    method SetAnimationIds(animationId1: string, animationId2: string, animationId3: string)
      modifies this`animationIds
      ensures animationIds == AnimationIds(animationId1, animationId2, animationId3)
    {
      animationIds := AnimationIds(animationId1, animationId2, animationId3);
    }

    /** Dispose of and detach the attached mesh; without one, nothing happens. */
    method DisposeModel()
      modifies this`model, model
      ensures model == null
      ensures old(model) != null ==>
                old(model).disposed
                && old(model).position == old(model.position)
                && old(model).positionIsVector3 == old(model.positionIsVector3)
                && old(model).rotationDegrees == old(model.rotationDegrees)
                && old(model).scaling == old(model.scaling)
    {
      if model != null {
        model.Dispose();
        model := null;
      }
    }

    function GetObjectProperties(): (p: ObjectProperties)
      reads this
      ensures p.modelId == modelId && p.modelUrl == modelUrl && p.position == position
      ensures p.rotation == rotation && p.animationIds == animationIds && p.scaling == scaling
    {
      ObjectProperties(modelId, modelUrl, position, rotation, animationIds, scaling)
    }
  }

  /** Disposing twice leaves the object and the mesh exactly as disposing once does. */
  method DisposeTwice(o: PositionedObject)
    modifies o`model, o.model
    ensures o.model == null
    ensures o.GetObjectProperties() == old(o.GetObjectProperties())
    ensures old(o.model) != null ==>
              old(o.model).disposed
              && old(o.model).position == old(o.model.position)
              && old(o.model).positionIsVector3 == old(o.model.positionIsVector3)
              && old(o.model).rotationDegrees == old(o.model.rotationDegrees)
              && old(o.model).scaling == old(o.model.scaling)
  {
    o.DisposeModel();
    o.DisposeModel();
  }
}
