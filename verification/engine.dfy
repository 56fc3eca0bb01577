/**
 * The parts of the rendering engine the core touches: a mesh whose transform
 * the core writes in place, and the asynchronous model import, represented as
 * an oracle whose answers are fixed in advance and consumed in call order.
 */
module Engine {
  import opened Wrappers
  import opened Vectors

  /** An engine mesh. Rotations are kept in degrees, before the engine's radian conversion. */
  class Mesh {
    var position: Vec3
    /** Whether `position` is an engine Vector3 (a mesh whose position was replaced by another kind of value is not). */
    var positionIsVector3: bool
    /** (pitch, yaw, roll) in degrees, in the engine's x, y, z order. */
    var rotationDegrees: Vec3
    var scaling: Vec3
    var disposed: bool

    constructor(position: Vec3)
      ensures this.position == position && positionIsVector3
      ensures rotationDegrees == Zero && scaling == Vec3(1.0, 1.0, 1.0) && !disposed
    {
      this.position := position;
      positionIsVector3 := true;
      rotationDegrees := Zero;
      scaling := Vec3(1.0, 1.0, 1.0);
      disposed := false;
    }

    method Dispose()
      modifies this`disposed
      ensures disposed
    {
      disposed := true;
    }
  }

  /** What one import call yields: a mesh, nothing, or an error. */
  datatype LoadOutcome = Loaded(mesh: Mesh) | Empty | Failed

  /** The outcome of the next import, given the outcomes still to come; an exhausted script fails. */
  function Next(outcomes: seq<LoadOutcome>): LoadOutcome {
    if outcomes == [] then Failed else outcomes[0]
  }

  function Rest(outcomes: seq<LoadOutcome>): (r: seq<LoadOutcome>)
    ensures |r| == if outcomes == [] then 0 else |outcomes| - 1
  {
    if outcomes == [] then [] else outcomes[1..]
  }

  /** The mesh an outcome resolves to, or null. */
  function MeshOf(outcome: LoadOutcome): Mesh? {
    if outcome.Loaded? then outcome.mesh else null
  }

  ghost function MeshesOf(outcomes: seq<LoadOutcome>): set<Mesh> {
    set i | 0 <= i < |outcomes| && outcomes[i].Loaded? :: outcomes[i].mesh
  }

  lemma RestMeshes(outcomes: seq<LoadOutcome>)
    ensures MeshesOf(Rest(outcomes)) <= MeshesOf(outcomes)
    ensures MeshOf(Next(outcomes)) != null ==> MeshOf(Next(outcomes)) in MeshesOf(outcomes)
  {
    forall m | m in MeshesOf(Rest(outcomes)) ensures m in MeshesOf(outcomes) {
      var i :| 0 <= i < |Rest(outcomes)| && Rest(outcomes)[i].Loaded? && Rest(outcomes)[i].mesh == m;
      assert outcomes[i + 1] == Rest(outcomes)[i];
    }
  }

  /** An engine model importer: each call answers with the next scripted outcome, whatever the URL. */
  class Loader {
    var outcomes: seq<LoadOutcome>

    constructor(outcomes: seq<LoadOutcome>)
      ensures this.outcomes == outcomes
    {
      this.outcomes := outcomes;
    }

    method Load(url: Option<string>) returns (r: LoadOutcome)
      modifies this
      ensures r == Next(old(outcomes)) && outcomes == Rest(old(outcomes))
    {
      r := Next(outcomes);
      outcomes := Rest(outcomes);
    }
  }
}
