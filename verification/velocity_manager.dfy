/**
 * The velocity integrator: one velocity vector, accelerated toward a
 * non-zero direction and clamped to the maximum speed, or slowed by friction
 * and snapped to zero below a threshold when the direction is zero; once per
 * frame it is added to the target mesh's position.
 */
module Velocity {
  import opened Wrappers
  import opened Vectors
  import Engine
  import Input

  const DefaultMaxSpeed: real := 0.2
  const DefaultAccelerationRate: real := 0.05
  const DefaultFriction: real := 0.04

  /** Friction snaps a velocity shorter than this to exactly zero. */
  const StopThreshold: real := 0.001

  /** The constructor's options object; an absent entry takes its default. */
  datatype Options = Options(maxSpeed: Option<real>, accelerationRate: Option<real>, friction: Option<real>)

  const NoOptions: Options := Options(None, None, None)

  /**
   * What `applyAcceleration` can be handed, JavaScript being untyped: an
   * engine Vector3, or a movement notification object `{direction,
   * resetVelocity}`, which has no `length` method.
   */
  datatype Argument = Vector3(v: Vec3) | Notification(event: Input.MoveEvent)

  /** The TypeError raised by calling `length()` on a value that has no such method. */
  const LengthNotAFunction: string := "direction.length is not a function"

  /**
   * `clampVelocity` on a velocity `v` of length `len`: a velocity longer than
   * maxSpeed is normalised and scaled to maxSpeed; any other is kept.
   */
  function Clamp(v: Vec3, len: real, maxSpeed: real): (r: Vec3)
    requires IsLengthOf(v, len)
    ensures len <= maxSpeed ==> r == v
    ensures maxSpeed >= 0.0 ==> SqLen(r) <= Sq(maxSpeed)
    ensures 0.0 <= maxSpeed < len ==> r == Scale(v, maxSpeed / len) && SqLen(r) == Sq(maxSpeed)
  {
    if len > maxSpeed then
      ClampScales(v, len, maxSpeed);
      Scale(Normalized(v, len), maxSpeed)
    else
      WithinBound(v, len, maxSpeed);
      v
  }

  lemma WithinBound(v: Vec3, len: real, maxSpeed: real)
    requires IsLengthOf(v, len)
    ensures len <= maxSpeed ==> SqLen(v) <= Sq(maxSpeed)
  {
    if len <= maxSpeed {
      SqMonotone(len, maxSpeed);
    }
  }

  lemma ClampScales(v: Vec3, len: real, maxSpeed: real)
    requires IsLengthOf(v, len)
    ensures 0.0 <= maxSpeed < len ==> Scale(Normalized(v, len), maxSpeed) == Scale(v, maxSpeed / len)
    ensures 0.0 <= maxSpeed < len ==> SqLen(Scale(v, maxSpeed / len)) == Sq(maxSpeed)
  {
    if !(0.0 <= maxSpeed < len) {
      return;
    }
    var n := Normalized(v, len);
    assert SqLen(n) == 1.0 && n == Scale(v, 1.0 / len);
    assert Scale(n, maxSpeed) == Scale(v, maxSpeed / len) by {
      ScaleScale(v, 1.0 / len, maxSpeed);
      assert maxSpeed * (1.0 / len) == maxSpeed / len;
    }
    var q := Sq(maxSpeed);
    assert SqLen(Scale(n, maxSpeed)) == q * SqLen(n) by {
      SqLenScale(n, maxSpeed);
    }
  }

  /** Clamping keeps the direction: the result is the input scaled by a positive factor. */
  lemma ClampKeepsDirection(v: Vec3, len: real, maxSpeed: real)
    requires IsLengthOf(v, len) && maxSpeed > 0.0
    ensures exists k: real :: k > 0.0 && Clamp(v, len, maxSpeed) == Scale(v, k)
  {
    if len > maxSpeed {
      var k := maxSpeed / len;
      assert k > 0.0;
      assert Clamp(v, len, maxSpeed) == Scale(v, k);
    } else {
      ScaleOne(v);
      assert Clamp(v, len, maxSpeed) == Scale(v, 1.0);
    }
  }

  /**
   * `applyFriction`: scale by (1 - friction); a result shorter than
   * StopThreshold becomes exactly zero.
   */
  function AfterFriction(v: Vec3, friction: real): (r: Vec3)
    ensures r == Zero <==> SqLen(Scale(v, 1.0 - friction)) < Sq(StopThreshold)
    ensures r == Zero || SqLen(r) >= Sq(StopThreshold)
    ensures r != Zero ==> r == Scale(v, 1.0 - friction)
  {
    var s := Scale(v, 1.0 - friction);
    if SqLen(s) < Sq(StopThreshold) then Zero else s
  }

  /** Friction never lengthens the velocity when 0 <= friction <= 2. */
  lemma FrictionNeverSpeedsUp(v: Vec3, friction: real)
    ensures 0.0 <= friction <= 2.0 ==> SqLen(AfterFriction(v, friction)) <= SqLen(v)
  {
    SqLenNonNegative(v);
    FrictionShrinks(v, friction);
  }

  lemma FrictionShrinks(v: Vec3, friction: real)
    ensures 0.0 <= friction <= 2.0 ==> SqLen(Scale(v, 1.0 - friction)) <= SqLen(v)
  {
    if 0.0 <= friction <= 2.0 {
      ScaledNotLonger(v, 1.0 - friction);
    }
  }

  /** n consecutive zero-direction events. */
  function Decay(v: Vec3, friction: real, n: nat): Vec3
    decreases n
  {
    if n == 0 then v else Decay(AfterFriction(v, friction), friction, n - 1)
  }

  /**
   * n copies of d, added up: the value n * d, written as a recursion on n so
   * that the induction in FrictionStops can unfold it one step at a time.
   */
  function Times(n: nat, d: real): real {
    if n == 0 then 0.0 else Times(n - 1, d) + d
  }

  /**
   * With 0 < friction < 1, zero-direction events bring a velocity to exactly
   * zero within n + 1 steps, for any n with SqLen(v) <= n * Drop(friction).
   */
  lemma {:induction false} FrictionStops(v: Vec3, friction: real, n: nat)
    requires 0.0 < friction < 1.0
    requires SqLen(v) <= Times(n, Drop(friction))
    ensures Decay(v, friction, n + 1) == Zero
    decreases n
  {
    var r := AfterFriction(v, friction);
    assert Decay(v, friction, n + 1) == Decay(r, friction, n);
    if r == Zero {
      DecayZero(friction, n);
    } else if n == 0 {
      StillStops(v, friction);
      assert false;
    } else {
      assert SqLen(r) <= Times(n - 1, Drop(friction)) by {
        FrictionStep(v, friction);
      }
      FrictionStops(r, friction, n - 1);
    }
  }

  /** A zero velocity stays zero. */
  lemma StillStops(v: Vec3, friction: real)
    requires SqLen(v) <= 0.0
    ensures AfterFriction(v, friction) == Zero
  {
    assert v == Zero by { SqLenNonNegative(v); }
    ZeroStaysZero(friction);
  }

  lemma ZeroStaysZero(friction: real)
    ensures AfterFriction(Zero, friction) == Zero
  {
    ScaleZero(1.0 - friction);
  }

  lemma {:induction false} DecayZero(friction: real, n: nat)
    ensures Decay(Zero, friction, n) == Zero
  {
    if n > 0 {
      ZeroStaysZero(friction);
      DecayZero(friction, n - 1);
    }
  }

  /** The least amount by which one friction step that does not stop shrinks the squared length. */
  function Drop(friction: real): real {
    (1.0 - Sq(1.0 - friction)) * Sq(StopThreshold)
  }

  lemma DropPositive(friction: real)
    requires 0.0 < friction < 1.0
    ensures Drop(friction) > 0.0
  {
    SqStrict(1.0 - friction, 1.0);
    assert Sq(1.0) == 1.0;
    SqPositive(StopThreshold);
    MulPositive(1.0 - Sq(1.0 - friction), Sq(StopThreshold));
  }

  lemma FrictionStep(v: Vec3, friction: real)
    requires 0.0 < friction < 1.0
    requires AfterFriction(v, friction) != Zero
    ensures SqLen(AfterFriction(v, friction)) <= SqLen(v) - Drop(friction)
  {
    var r := AfterFriction(v, friction);
    var t, after, q, e := SqLen(v), SqLen(r), Sq(1.0 - friction), Sq(StopThreshold);
    assert after == q * t by { SqLenScale(v, 1.0 - friction); }
    assert 0.0 <= q <= 1.0 by {
      SqPositive(1.0 - friction);
      SqAtMostOne(1.0 - friction);
    }
    assert t >= 0.0 by { SqLenNonNegative(v); }
    Gap(t, after, q, e);
  }

  /** If after == q * t with 0 <= q <= 1 and after >= e, the step from t to after is at least (1 - q) * e. */
  lemma Gap(t: real, after: real, q: real, e: real)
    requires after == q * t && 0.0 <= q <= 1.0 && t >= 0.0 && after >= e
    ensures t - after >= (1.0 - q) * e
  {
    MulAtMostOne(q, t);
    calc {
      t - after;
      t - q * t;
      (1.0 - q) * t;
    >= { MulMonotoneLeft(1.0 - q, after, t); }
      (1.0 - q) * after;
    >= { MulMonotoneLeft(1.0 - q, e, after); }
      (1.0 - q) * e;
    }
  }

  lemma MulMonotoneLeft(c: real, a: real, b: real)
    requires c >= 0.0 && a <= b
    ensures c * a <= c * b
  {
    if c > 0.0 && a < b {
      MulPositive(c, b - a);
      assert c * (b - a) == c * b - c * a;
    }
  }

  /**
   * The velocity after one direction event: accelerate along a non-zero
   * direction and clamp, or apply friction for a zero one. Under
   * maxSpeed >= 0 and 0 <= friction <= 2 a velocity within maxSpeed stays
   * within it.
   */
  function EventVelocity(velocity: Vec3, direction: Vec3, length: Vec3 -> real, rate: real, maxSpeed: real, friction: real): (r: Vec3)
    requires IsLengthFunction(length)
    ensures maxSpeed >= 0.0 && 0.0 <= friction <= 2.0 && SqLen(velocity) <= Sq(maxSpeed) ==> SqLen(r) <= Sq(maxSpeed)
  {
    if SqLen(direction) > 0.0 then
      var v := Add(velocity, Scale(direction, rate));
      Clamp(v, length(v), maxSpeed)
    else
      FrictionNeverSpeedsUp(velocity, friction);
      AfterFriction(velocity, friction)
  }

  class VelocityManager {
    /** The mesh whose position the velocity drives, or null. */
    const model: Engine.Mesh?
    const maxSpeed: real
    const accelerationRate: real
    const friction: real
    /** The engine's `Vector3.length()`. */
    const length: Vec3 -> real
    var velocity: Vec3

    ghost predicate Valid() {
      IsLengthFunction(length)
    }

    /** The parameters under which every event keeps the speed within maxSpeed. */
    predicate KeepsSpeedBound() {
      maxSpeed >= 0.0 && 0.0 <= friction <= 2.0
    }

    ghost predicate WithinMaxSpeed()
      reads this
    {
      SqLen(velocity) <= Sq(maxSpeed)
    }

    constructor(model: Engine.Mesh?, length: Vec3 -> real, options: Options)
      requires IsLengthFunction(length)
      ensures Valid() && this.model == model && this.length == length && velocity == Zero
      ensures maxSpeed == options.maxSpeed.GetOr(DefaultMaxSpeed)
      ensures accelerationRate == options.accelerationRate.GetOr(DefaultAccelerationRate)
      ensures friction == options.friction.GetOr(DefaultFriction)
      ensures options == NoOptions ==> maxSpeed == 0.2 && accelerationRate == 0.05 && friction == 0.04
    {
      this.model := model;
      this.length := length;
      maxSpeed := options.maxSpeed.GetOr(DefaultMaxSpeed);
      accelerationRate := options.accelerationRate.GetOr(DefaultAccelerationRate);
      friction := options.friction.GetOr(DefaultFriction);
      velocity := Zero;
    }

    /**
     * One direction event: a non-zero direction accelerates and clamps, and
     * applies no friction; a zero direction applies friction only.
     */
    method ApplyAcceleration(direction: Vec3)
      requires Valid()
      modifies this`velocity
      ensures SqLen(direction) > 0.0 ==>
        var v := Add(old(velocity), Scale(direction, accelerationRate));
        IsLengthOf(v, length(v)) && velocity == Clamp(v, length(v), maxSpeed)
      ensures SqLen(direction) == 0.0 ==> velocity == AfterFriction(old(velocity), friction)
      ensures KeepsSpeedBound() && old(WithinMaxSpeed()) ==> WithinMaxSpeed()
      ensures velocity == EventVelocity(old(velocity), direction, length, accelerationRate, maxSpeed, friction)
    {
      assert IsLengthOf(direction, length(direction));
      assert length(direction) > 0.0 <==> SqLen(direction) > 0.0 by {
        LengthPositive(direction, length(direction));
        SqLenNonNegative(direction);
      }
      assert SqLen(direction) >= 0.0 by { SqLenNonNegative(direction); }
      if length(direction) > 0.0 {
        var acceleration := Scale(direction, accelerationRate);
        velocity := Add(velocity, acceleration);
        ClampVelocity();
      } else {
        ApplyFriction();
        FrictionNeverSpeedsUp(old(velocity), friction);
      }
    }

    /**
     * `applyAcceleration` on whatever value it is handed: its first step calls
     * `length()` on the value, which throws for anything but a Vector3 before
     * the velocity is touched; a Vector3 is applied as above.
     */
    method ApplyAccelerationOn(arg: Argument) returns (c: Completion<()>)
      requires Valid()
      modifies this`velocity
      ensures arg.Notification? ==> c == Threw(LengthNotAFunction) && velocity == old(velocity)
      ensures arg.Vector3? ==> c == Returned(())
      ensures arg.Vector3? && SqLen(arg.v) > 0.0 ==>
        var v := Add(old(velocity), Scale(arg.v, accelerationRate));
        IsLengthOf(v, length(v)) && velocity == Clamp(v, length(v), maxSpeed)
      ensures arg.Vector3? && SqLen(arg.v) == 0.0 ==> velocity == AfterFriction(old(velocity), friction)
      ensures arg.Vector3? ==> velocity == EventVelocity(old(velocity), arg.v, length, accelerationRate, maxSpeed, friction)
      ensures KeepsSpeedBound() && old(WithinMaxSpeed()) ==> WithinMaxSpeed()
    {
      match arg {
        case Notification(_) =>
          c := Threw(LengthNotAFunction);
        case Vector3(direction) =>
          ApplyAcceleration(direction);
          c := Returned(());
      }
    }

    method ClampVelocity()
      requires Valid()
      modifies this`velocity
      ensures IsLengthOf(old(velocity), length(old(velocity)))
      ensures velocity == Clamp(old(velocity), length(old(velocity)), maxSpeed)
    {
      var len := length(velocity);
      if len > maxSpeed {
        velocity := Scale(Normalized(velocity, len), maxSpeed);
      }
    }

    method ApplyFriction()
      requires Valid()
      modifies this`velocity
      ensures velocity == AfterFriction(old(velocity), friction)
    {
      velocity := Scale(velocity, 1.0 - friction);
      LengthBelow(velocity, length(velocity), StopThreshold);
      if length(velocity) < StopThreshold {
        velocity := Zero;
      }
    }

    method ClearVelocity()
      modifies this`velocity
      ensures velocity == Zero
    {
      velocity := Zero;
    }

    /**
     * Once per frame: add the velocity to the mesh position, component-wise,
     * when there is a mesh and its position is a Vector3; otherwise nothing changes.
     */
    method UpdatePosition()
      modifies model
      ensures model != null && old(model.positionIsVector3) ==> model.position == Add(old(model.position), velocity)
      ensures model != null && !old(model.positionIsVector3) ==> model.position == old(model.position)
      ensures model != null ==>
                model.positionIsVector3 == old(model.positionIsVector3)
                && model.rotationDegrees == old(model.rotationDegrees)
                && model.scaling == old(model.scaling) && model.disposed == old(model.disposed)
    {
      if model != null && model.positionIsVector3 {
        model.position := Vec3(model.position.x + velocity.x, model.position.y + velocity.y, model.position.z + velocity.z);
      }
    }
  }
}
