/**
 * The hand-over from the key-state machine to the velocity integrator: the
 * subscription the integrator registers on the movement observable, run from
 * inside the input manager's notification, as it is written and as it is
 * evidently meant.
 */
module Pipeline {
  import opened Wrappers
  import opened Vectors
  import Input
  import Velocity

  /** Which subscription is registered. */
  datatype Wiring =
    | AsWritten  // the whole notification is passed to applyAcceleration
    | AsMeant    // the notification's direction is passed to applyAcceleration

  /**
   * The subscription as written: the whole notification `{direction,
   * resetVelocity}` is handed to applyAcceleration in place of a vector.
   */
  method DeliverAsWritten(manager: Velocity.VelocityManager, notification: Input.MoveEvent) returns (c: Completion<()>)
    requires manager.Valid()
    modifies manager`velocity
    ensures c == Threw(Velocity.LengthNotAFunction) && manager.velocity == old(manager.velocity)
  {
    c := manager.ApplyAccelerationOn(Velocity.Notification(notification));
  }

  /**
   * The subscription as meant: applyAcceleration receives the notification's
   * direction. The reset flag is not acted on.
   */
  method Deliver(manager: Velocity.VelocityManager, notification: Input.MoveEvent) returns (c: Completion<()>)
    requires manager.Valid()
    modifies manager`velocity
    ensures c == Returned(())
    ensures manager.velocity == Velocity.EventVelocity(old(manager.velocity), notification.direction, manager.length,
                                                       manager.accelerationRate, manager.maxSpeed, manager.friction)
  {
    c := manager.ApplyAccelerationOn(Velocity.Vector3(notification.direction));
  }

  /**
   * One key transition with the integrator subscribed: the flags are
   * updated, the notification is sent and the subscriber runs inside it. The
   * reset flag is cleared only after the notification returns; an exception
   * thrown by the subscriber leaves the key handler before that, so the flag
   * stays as the transition left it.
   */
  method KeyChange(input: Input.InputManager, manager: Velocity.VelocityManager, wiring: Wiring, key: string, isKeyDown: bool)
    returns (e: Input.MoveEvent, c: Completion<()>)
    requires manager.Valid()
    modifies input`movement, input`resetVelocity, input`emitted, manager`velocity
    ensures input.movement == Input.KeyUpdate(old(input.movement), key, isKeyDown)
    ensures e == Input.MoveEvent(Input.DirectionOf(input.movement), Input.ResetAfter(old(input.resetVelocity), key, isKeyDown))
    ensures input.emitted == old(input.emitted) + [e]
    ensures wiring == AsWritten ==>
              c == Threw(Velocity.LengthNotAFunction)
              && input.resetVelocity == e.resetVelocity
              && manager.velocity == old(manager.velocity)
    ensures wiring == AsMeant ==>
              c == Returned(()) && !input.resetVelocity
              && manager.velocity == Velocity.EventVelocity(old(manager.velocity), e.direction, manager.length,
                                                            manager.accelerationRate, manager.maxSpeed, manager.friction)
  {
    input.SetKeyFlag(key, isKeyDown);
    e := input.Notify();
    if wiring == AsWritten {
      c := DeliverAsWritten(manager, e);
    } else {
      c := Deliver(manager, e);
    }
    if c.Returned? {
      input.ClearResetFlag();
    }
  }

  /** The unit +z direction is non-zero, and one default acceleration step along it from rest gives 0.05 along +z. */
  lemma ForwardStepFromRest()
    ensures SqLen(Vec3(0.0, 0.0, 1.0)) == 1.0
    ensures Add(Zero, Scale(Vec3(0.0, 0.0, 1.0), Velocity.DefaultAccelerationRate)) == Vec3(0.0, 0.0, 0.05)
  {
  }

  /** The velocity that the intended delivery of the first forward press leaves, given the integrator's contract for that step. */
  lemma MeantStep(length: Vec3 -> real)
    requires IsLengthFunction(length)
    ensures Velocity.EventVelocity(Zero, Vec3(0.0, 0.0, 1.0), length, Velocity.DefaultAccelerationRate,
                                   Velocity.DefaultMaxSpeed, Velocity.DefaultFriction) == Vec3(0.0, 0.0, 0.05)
  {
    ForwardStepFromRest();
    SlowStepNotClamped(length(Vec3(0.0, 0.0, 0.05)));
  }

  /** One default acceleration step from rest is well under the default maximum speed, so the clamp keeps it. */
  lemma SlowStepNotClamped(len: real)
    requires IsLengthOf(Vec3(0.0, 0.0, 0.05), len)
    ensures Velocity.Clamp(Vec3(0.0, 0.0, 0.05), len, Velocity.DefaultMaxSpeed) == Vec3(0.0, 0.0, 0.05)
  {
    var v := Vec3(0.0, 0.0, 0.05);
    assert SqLen(v) == 0.0025;
    assert len < 0.2 by {
      LengthBelow(v, len, 0.2);
    }
  }

  /** One key transition on a freshly built pipeline with default options. */
  method FromRest(length: Vec3 -> real, wiring: Wiring, key: string, isKeyDown: bool)
    returns (e: Input.MoveEvent, c: Completion<()>, velocity: Vec3)
    requires IsLengthFunction(length)
    ensures e == Input.MoveEvent(Input.DirectionOf(Input.KeyUpdate(Input.AllReleased, key, isKeyDown)), Input.ResetAfter(false, key, isKeyDown))
    ensures wiring == AsWritten ==> c == Threw(Velocity.LengthNotAFunction) && velocity == Zero
    ensures wiring == AsMeant ==>
              c == Returned(())
              && velocity == Velocity.EventVelocity(Zero, e.direction, length, Velocity.DefaultAccelerationRate,
                                                    Velocity.DefaultMaxSpeed, Velocity.DefaultFriction)
  {
    var input := new Input.InputManager();
    var manager := new Velocity.VelocityManager(null, length, Velocity.NoOptions);
    e, c := KeyChange(input, manager, wiring, key, isKeyDown);
    velocity := manager.velocity;
  }

  /**
   * Pressing "w" on a fresh pipeline wired as written: the key handler
   * throws and the velocity stays zero although a movement key is held.
   */
  method ForwardPressAsWritten(length: Vec3 -> real) returns (velocity: Vec3, c: Completion<()>)
    requires IsLengthFunction(length)
    ensures c == Threw(Velocity.LengthNotAFunction)
    ensures velocity == Zero
  {
    var _, c', v := FromRest(length, AsWritten, "w", true);
    c, velocity := c', v;
  }

  /**
   * The same press wired as meant: the velocity becomes accelerationRate
   * along +z.
   */
  method ForwardPress(length: Vec3 -> real) returns (velocity: Vec3)
    requires IsLengthFunction(length)
    ensures velocity == Vec3(0.0, 0.0, 0.05)
  {
    Input.ForwardKeyFromRest();
    MeantStep(length);
    var _, _, v := FromRest(length, AsMeant, "w", true);
    velocity := v;
  }

  /**
   * Wired as written, a "c" press is never cleared: every later key
   * transition, whatever the key, still reports a reset.
   */
  method ResetStuckAsWritten(length: Vec3 -> real, key: string, isKeyDown: bool)
    returns (first: Input.MoveEvent, c1: Completion<()>, second: Input.MoveEvent, c2: Completion<()>)
    requires IsLengthFunction(length)
    ensures c1 == Threw(Velocity.LengthNotAFunction) && c2 == Threw(Velocity.LengthNotAFunction)
    ensures first.resetVelocity && second.resetVelocity
  {
    var input := new Input.InputManager();
    var manager := new Velocity.VelocityManager(null, length, Velocity.NoOptions);
    first, c1 := KeyChange(input, manager, AsWritten, "C", true);
    second, c2 := KeyChange(input, manager, AsWritten, key, isKeyDown);
  }
}
