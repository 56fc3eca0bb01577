/**
 * The keyboard state machine: six movement flags and a one-shot reset flag,
 * updated on every key transition, after which one movement notification
 * `{direction, resetVelocity}` is emitted. The observable is represented by
 * the log of emitted notifications.
 */
module Input {
  import opened Vectors

  /** The six movement flags. */
  datatype Movement = Movement(forward: bool, backward: bool, left: bool, right: bool, up: bool, down: bool)

  const AllReleased: Movement := Movement(false, false, false, false, false, false)

  /** What a key transition does, by the lower-cased key. */
  datatype Action = Forward | Backward | Left | Right | Up | Down | Reset | Ignore

  /** One notification sent to the movement observable. */
  datatype MoveEvent = MoveEvent(direction: Vec3, resetVelocity: bool)

  /** `typeof` of what `Vector3.length()` returns: always a number. */
  const LengthTypeof: string := "number"

  function LowerChar(c: char): char {
    if 'A' <= c <= 'Z' then (c as int + 32) as char else c
  }

  /** `toLowerCase()`, on the ASCII letters. */
  function ToLower(s: string): (r: string)
    ensures |r| == |s|
    ensures forall i :: 0 <= i < |s| ==> r[i] == LowerChar(s[i])
  {
    seq(|s|, i requires 0 <= i < |s| => LowerChar(s[i]))
  }

  /** The key mapping: w, s, a, d, space, shift and c, case-insensitively; anything else is ignored. */
  function KeyAction(key: string): (a: Action)
    ensures a == Forward <==> ToLower(key) == "w"
    ensures a == Backward <==> ToLower(key) == "s"
    ensures a == Left <==> ToLower(key) == "a"
    ensures a == Right <==> ToLower(key) == "d"
    ensures a == Up <==> ToLower(key) == " "
    ensures a == Down <==> ToLower(key) == "shift"
    ensures a == Reset <==> ToLower(key) == "c"
    ensures a == Ignore <==> ToLower(key) !in {"w", "s", "a", "d", " ", "shift", "c"}
  {
    var k := ToLower(key);
    if k == "w" then Forward
    else if k == "s" then Backward
    else if k == "a" then Left
    else if k == "d" then Right
    else if k == " " then Up
    else if k == "shift" then Down
    else if k == "c" then Reset
    else Ignore
  }

  /** The flag state after a key transition: the key's own flag takes the key state; every other flag stays. */
  function KeyUpdate(m: Movement, key: string, isKeyDown: bool): (r: Movement)
    ensures KeyAction(key) == Forward ==> r == m.(forward := isKeyDown)
    ensures KeyAction(key) == Backward ==> r == m.(backward := isKeyDown)
    ensures KeyAction(key) == Left ==> r == m.(left := isKeyDown)
    ensures KeyAction(key) == Right ==> r == m.(right := isKeyDown)
    ensures KeyAction(key) == Up ==> r == m.(up := isKeyDown)
    ensures KeyAction(key) == Down ==> r == m.(down := isKeyDown)
    ensures KeyAction(key) in {Reset, Ignore} ==> r == m
  {
    match KeyAction(key)
    case Forward => m.(forward := isKeyDown)
    case Backward => m.(backward := isKeyDown)
    case Left => m.(left := isKeyDown)
    case Right => m.(right := isKeyDown)
    case Up => m.(up := isKeyDown)
    case Down => m.(down := isKeyDown)
    case Reset => m
    case Ignore => m
  }

  /** The reset flag after a key transition: set by a "c" key-down, otherwise as it was. */
  function ResetAfter(flag: bool, key: string, isKeyDown: bool): (r: bool)
    ensures r <==> flag || (ToLower(key) == "c" && isKeyDown)
    ensures flag ==> r
  {
    flag || (KeyAction(key) == Reset && isKeyDown)
  }

  /** The contribution of an opposing pair of keys to one axis. */
  function Axis(positive: bool, negative: bool): int {
    (if positive then 1 else 0) - (if negative then 1 else 0)
  }

  /** The direction emitted for a flag state: right-left, up-down, forward-backward, not normalised. */
  function DirectionOf(m: Movement): (d: Vec3)
    ensures d.x == 1.0 <==> m.right && !m.left
    ensures d.x == -1.0 <==> m.left && !m.right
    ensures d.x == 0.0 <==> m.right == m.left
    ensures d.y == 1.0 <==> m.up && !m.down
    ensures d.y == -1.0 <==> m.down && !m.up
    ensures d.y == 0.0 <==> m.up == m.down
    ensures d.z == 1.0 <==> m.forward && !m.backward
    ensures d.z == -1.0 <==> m.backward && !m.forward
    ensures d.z == 0.0 <==> m.forward == m.backward
  {
    Vec3(Axis(m.right, m.left) as real, Axis(m.up, m.down) as real, Axis(m.forward, m.backward) as real)
  }

  /** Every component is -1, 0 or 1; opposing keys cancel; a lone key gives its sign. */
  lemma AxisValues(positive: bool, negative: bool)
    ensures -1 <= Axis(positive, negative) <= 1
    ensures Axis(positive, negative) == 0 <==> positive == negative
    ensures Axis(positive, negative) == 1 <==> positive && !negative
    ensures Axis(positive, negative) == -1 <==> !positive && negative
  {
  }

  /** The number of axes on which exactly one key of the pair is held. */
  function ActiveAxes(m: Movement): nat {
    (if m.right != m.left then 1 else 0) + (if m.up != m.down then 1 else 0) + (if m.forward != m.backward then 1 else 0)
  }

  /**
   * The emitted direction is the raw sum: its squared length is the number of
   * active axes, so a diagonal has squared length 2 or 3 rather than 1.
   */
  lemma DirectionIsRawSum(m: Movement)
    ensures SqLen(DirectionOf(m)) == ActiveAxes(m) as real
    ensures DirectionOf(m) == Zero <==> ActiveAxes(m) == 0
  {
    var d := DirectionOf(m);
    assert Sq(d.x) == if m.right != m.left then 1.0 else 0.0;
    assert Sq(d.y) == if m.up != m.down then 1.0 else 0.0;
    assert Sq(d.z) == if m.forward != m.backward then 1.0 else 0.0;
  }

  class InputManager {
    var movement: Movement
    var resetVelocity: bool
    /** The notifications emitted so far, oldest first. */
    var emitted: seq<MoveEvent>

    constructor()
      ensures movement == AllReleased && !resetVelocity && emitted == []
    {
      movement := AllReleased;
      resetVelocity := false;
      emitted := [];
    }

    /**
     * A key went down (`isKeyDown`) or up: update the flag the key maps to,
     * then emit exactly one notification.
     */
    method OnKeyChange(key: string, isKeyDown: bool) returns (e: MoveEvent)
      modifies this
      ensures movement == KeyUpdate(old(movement), key, isKeyDown)
      ensures e == MoveEvent(DirectionOf(movement), ResetAfter(old(resetVelocity), key, isKeyDown))
      ensures !resetVelocity
      ensures emitted == old(emitted) + [e]
    {
      SetKeyFlag(key, isKeyDown);
      e := EmitMovementDirection();
    }

    /** The key switch: set the flag the lower-cased key maps to; "c" sets the reset flag on key-down only. */
    method SetKeyFlag(key: string, isKeyDown: bool)
      modifies this`movement, this`resetVelocity
      ensures movement == KeyUpdate(old(movement), key, isKeyDown)
      ensures resetVelocity == ResetAfter(old(resetVelocity), key, isKeyDown)
    {
      match KeyAction(key) {
        case Forward => movement := movement.(forward := isKeyDown);
        case Backward => movement := movement.(backward := isKeyDown);
        case Left => movement := movement.(left := isKeyDown);
        case Right => movement := movement.(right := isKeyDown);
        case Up => movement := movement.(up := isKeyDown);
        case Down => movement := movement.(down := isKeyDown);
        case Reset =>
          if isKeyDown {
            resetVelocity := true;
          }
        case Ignore =>
      }
    }

    /** Notify, then clear the reset flag. */
    method EmitMovementDirection() returns (e: MoveEvent)
      modifies this`resetVelocity, this`emitted
      ensures e == MoveEvent(DirectionOf(movement), old(resetVelocity))
      ensures !resetVelocity
      ensures emitted == old(emitted) + [e]
    {
      e := Notify();
      ClearResetFlag();
    }

    /** Sum the held keys into a direction and notify it with the current reset flag. */
    method Notify() returns (e: MoveEvent)
      modifies this`emitted
      ensures e == MoveEvent(DirectionOf(movement), resetVelocity)
      ensures emitted == old(emitted) + [e]
    {
      var x, y, z := 0, 0, 0;
      if movement.right { x := x + 1; }
      if movement.left { x := x - 1; }
      if movement.forward { z := z + 1; }
      if movement.backward { z := z - 1; }
      if movement.up { y := y + 1; }
      if movement.down { y := y - 1; }
      var direction := Vec3(x as real, y as real, z as real);
      // The normalisation guard compares the type of a number with "function": it never holds.
      if LengthTypeof == "function" && SqLen(direction) > 0.0 {
        assert false;
      }
      e := MoveEvent(direction, resetVelocity);
      emitted := emitted + [e];
    }

    /** The reset flag is cleared once the observers have been notified. */
    method ClearResetFlag()
      modifies this`resetVelocity
      ensures !resetVelocity
    {
      resetVelocity := false;
    }
  }

  /** From rest, a "w" key-down sets only the forward flag, whose direction is the unit vector along +z. */
  lemma ForwardKeyFromRest()
    ensures KeyUpdate(AllReleased, "w", true) == AllReleased.(forward := true)
    ensures DirectionOf(AllReleased.(forward := true)) == Vec3(0.0, 0.0, 1.0)
    ensures !ResetAfter(false, "w", true)
  {
    assert ToLower("w") == "w";
  }

  /** Pressing "w" on a fresh manager emits the unit vector along +z, with no reset. */
  method ForwardFromRest() returns (e: MoveEvent)
    ensures e == MoveEvent(Vec3(0.0, 0.0, 1.0), false)
  {
    var manager := new InputManager();
    ForwardKeyFromRest();
    e := manager.OnKeyChange("w", true);
  }

  /**
   * A "c" press is reported in exactly one notification: the next key
   * transition, even with "c" still held, reports no reset.
   */
  method ResetReportedOnce(key: string, isKeyDown: bool) returns (first: MoveEvent, second: MoveEvent)
    ensures first.resetVelocity
    ensures second.resetVelocity <==> KeyAction(key) == Reset && isKeyDown
  {
    var manager := new InputManager();
    first := manager.OnKeyChange("C", true);
    second := manager.OnKeyChange(key, isKeyDown);
  }
}
