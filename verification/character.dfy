/** A walking character: a five-state machine whose update steps the
    walk-cycle frame, turns the character and the orbit camera, and moves
    it unless the move would bring it too close to another character. */
module Characters {
  import opened Geometry
  import opened CInt
  import opened Cameras
  import opened ThirdPersonCameras

  datatype State = Idle | WalkForward | WalkBackward | TurnLeft | TurnRight
  {
    predicate Walking() { this == WalkForward || this == WalkBackward }
    predicate Turning() { this == TurnLeft || this == TurnRight }
  }

  /** The default walking speed. */
  const DefaultWalkingSpeed: real := 1.1932

  /** Seconds per animation frame at walking speed 1: 1.2 frames of a
      60 frames-per-second clock. */
  const FrameTime: real := 0.016667 * 1.2

  /** Two characters closer than 0.5 collide; compared squared. */
  const CollisionDistanceSquared: real := 0.25

  // ---------------------------------------------------------------- the walk cycle

  /** One frame forward, in `unsigned int` arithmetic: past the end frame
      the cycle starts over. */
  function StepForward(frame: u32, start: u32, end: u32): u32
  {
    if ToU32(frame + 1) > end then start else ToU32(frame + 1)
  }

  /** One frame backward, in `unsigned int` arithmetic: before the start
      frame the cycle starts over from the end. */
  function StepBackward(frame: u32, start: u32, end: u32): u32
  {
    if ToU32(frame - 1) < start then end else ToU32(frame - 1)
  }

  /** Stepping forward never goes past the end frame, and a frame within
      the cycle stays within it. */
  lemma ForwardInCycle(frame: u32, start: u32, end: u32)
    requires start <= end && frame < U32Max
    ensures StepForward(frame, start, end) <= end
    ensures start <= frame ==> start <= StepForward(frame, start, end)
    ensures StepForward(frame, start, end) == if frame < end then frame + 1 else start
  {
  }

  /** Stepping backward keeps a frame within the cycle when the cycle does
      not start at frame 0. */
  lemma BackwardInCycle(frame: u32, start: u32, end: u32)
    requires 0 < start <= frame <= end
    ensures start <= StepBackward(frame, start, end) <= end
    ensures StepBackward(frame, start, end) == if frame > start then frame - 1 else end
  {
  }

  /** With a cycle starting at frame 0, frame 0 steps back to 2^32 - 1:
      the unsigned subtraction wraps and the comparison with the start
      frame can never succeed. */
  lemma BackwardUnderflow(end: u32)
    requires end < U32Max
    ensures StepBackward(0, 0, end) == U32Max
    ensures StepBackward(0, 0, end) > end
  {
  }

  function ForwardAfter(frame: u32, start: u32, end: u32, n: nat): u32
  {
    if n == 0 then frame else StepForward(ForwardAfter(frame, start, end, n - 1), start, end)
  }

  function BackwardAfter(frame: u32, start: u32, end: u32, n: nat): u32
  {
    if n == 0 then frame else StepBackward(BackwardAfter(frame, start, end, n - 1), start, end)
  }

  /** Walking forward from the start frame runs through the cycle in
      order and starts over every end - start + 1 frames. */
  lemma {:induction false} ForwardPeriod(start: u32, end: u32, n: nat)
    requires start <= end < U32Max
    ensures ForwardAfter(start, start, end, n) == start + n % (end - start + 1)
  {
    if n > 0 {
      ForwardPeriod(start, end, n - 1);
      ModSucc(n - 1, end - start + 1);
    }
  }

  /** Walking backward from the end frame runs through the cycle in
      reverse and starts over every end - start + 1 frames, provided the
      cycle does not start at frame 0. */
  lemma {:induction false} BackwardPeriod(start: u32, end: u32, n: nat)
    requires 0 < start <= end
    ensures BackwardAfter(end, start, end, n) == end - n % (end - start + 1)
  {
    if n > 0 {
      BackwardPeriod(start, end, n - 1);
      ModSucc(n - 1, end - start + 1);
    }
  }

  // ---------------------------------------------------------------- turning

  /** TURN_LEFT: the angle grows by `amount`, less one turn if it reaches 2 pi. */
  function TurnedLeft(angle: real, amount: real): (r: real)
    ensures r == angle + amount || r == angle + amount - TwoPi
    ensures r < TwoPi || angle + amount >= 2.0 * TwoPi
  {
    var a := angle + amount;
    if a >= TwoPi then a - TwoPi else a
  }

  /** TURN_RIGHT: the angle shrinks by `amount`, plus one turn if it reaches -2 pi. */
  function TurnedRight(angle: real, amount: real): (r: real)
    ensures r == angle - amount || r == angle - amount + TwoPi
    ensures r > -TwoPi || angle - amount <= -2.0 * TwoPi
  {
    var a := angle - amount;
    if a <= -TwoPi then a + TwoPi else a
  }

  /** A turn by less than a full turn keeps the angle within one turn
      either way. */
  lemma TurnKeepsRange(angle: real, amount: real)
    requires -TwoPi < angle < TwoPi && 0.0 <= amount < TwoPi
    ensures -TwoPi < TurnedLeft(angle, amount) < TwoPi
    ensures -TwoPi < TurnedRight(angle, amount) < TwoPi
  {
  }

  /** How far a turning character turns in `dt` seconds: a quarter turn
      per second. */
  function TurnAmount(dt: real): real
  {
    QuarterPi * dt
  }

  // ---------------------------------------------------------------- walking

  /** The displacement of one update: `dt * speed` along the facing
      direction, reversed when walking backward. */
  function Displacement(maths: Maths, state: State, angle: real, dt: real, speed: real): Vec3
  {
    var d := Vec3(maths.cos(angle) * dt * speed, maths.sin(angle) * dt * speed, 0.0);
    if state == WalkBackward then Neg(d) else d
  }

  /** Some other character stands closer than 0.5 to `next`. */
  predicate Collides(next: Vec3, others: seq<Vec3>)
  {
    exists j :: 0 <= j < |others| && DistanceSquared(next, others[j]) < CollisionDistanceSquared
  }

  /** The position after a move by `delta`: the move is made in full, or,
      if it ends too close to another character, not at all. */
  function Walked(position: Vec3, delta: Vec3, others: seq<Vec3>): (r: Vec3)
    ensures Collides(Add(position, delta), others) ==> r == position
    ensures !Collides(Add(position, delta), others) ==>
      r == Add(position, delta) && forall j :: 0 <= j < |others| ==> DistanceSquared(r, others[j]) >= CollisionDistanceSquared
  {
    if Collides(Add(position, delta), others) then position else Add(position, delta)
  }

  class Character {
    const maths: Maths
    var state: State
    var animationState: u32
    var startWalkingCycleState: u32
    var endWalkingCycleState: u32
    var meshCount: nat
    var position: Vec3
    var angle: real
    var walkingSpeed: real
    var lastAnimationUpdate: real
    var lastUpdate: real

    /** `state` and `animationState` are not initialised by the
        constructor, so their values are parameters. The end frame is the
        last mesh, computed in `unsigned int`, so no meshes give 2^32 - 1. */
    constructor (maths: Maths, angle: real, position: Vec3, meshCount: nat, startWalkingCycleState: int,
                 indeterminateState: State, indeterminateFrame: u32)
      ensures this.maths == maths && this.angle == angle && this.position == position && this.meshCount == meshCount
      ensures walkingSpeed == DefaultWalkingSpeed && lastAnimationUpdate == 0.0 && lastUpdate == 0.0
      ensures this.startWalkingCycleState == ToU32(startWalkingCycleState)
      ensures endWalkingCycleState == ToU32(ToU32(meshCount) - 1)
      ensures 0 < meshCount <= U32Max ==> endWalkingCycleState == meshCount - 1
      ensures meshCount == 0 ==> endWalkingCycleState == U32Max
      ensures state == indeterminateState && animationState == indeterminateFrame
    {
      this.maths := maths;
      this.angle, this.position, this.meshCount := angle, position, meshCount;
      walkingSpeed, lastAnimationUpdate, lastUpdate := DefaultWalkingSpeed, 0.0, 0.0;
      this.startWalkingCycleState := ToU32(startWalkingCycleState);
      endWalkingCycleState := ToU32(ToU32(meshCount) - 1);
      state, animationState := indeterminateState, indeterminateFrame;
    }

    /** Whether a walking character's next frame is due at time `t`: the
        frame time, scaled down by the walking speed, has passed since the
        last frame step. */
    function AnimationDue(t: real): (due: bool)
      reads this
      ensures walkingSpeed > 0.0 ==> (due <==> (t - lastAnimationUpdate) * walkingSpeed >= FrameTime)
    {
      t - lastAnimationUpdate >= Quotient(maths, FrameTime, walkingSpeed)
    }

    /** `update(t)`. `others` holds the positions of the other characters
        and `camera` is the scene's camera. */
    method Update(t: real, others: seq<Vec3>, camera: ThirdPersonCamera)
      requires camera.Valid()
      modifies this, camera, camera.cam
      ensures camera.Valid()
      ensures state == old(state) && lastUpdate == t
      ensures var due := old(AnimationDue(t));
        && animationState ==
          (if due && state == WalkForward then StepForward(old(animationState), startWalkingCycleState, endWalkingCycleState)
           else if due && state == WalkBackward then StepBackward(old(animationState), startWalkingCycleState, endWalkingCycleState)
           else old(animationState))
        && lastAnimationUpdate == if due && state.Walking() then t else old(lastAnimationUpdate)
      ensures angle ==
        (if state == TurnLeft then TurnedLeft(old(angle), TurnAmount(t - old(lastUpdate)))
         else if state == TurnRight then TurnedRight(old(angle), TurnAmount(t - old(lastUpdate)))
         else old(angle))
      ensures position ==
        if state.Walking() then Walked(old(position), Displacement(maths, state, old(angle), t - old(lastUpdate), walkingSpeed), others)
        else old(position)
      ensures state.Turning() ==>
        var amount := if state == TurnLeft then TurnAmount(t - old(lastUpdate)) else -TurnAmount(t - old(lastUpdate));
        -TwoPi < camera.yawAngle < TwoPi && exists k :: camera.yawAngle == old(camera.yawAngle) + amount + Turns(k)
      ensures !state.Turning() ==> camera.yawAngle == old(camera.yawAngle)
      ensures state.Turning() ==> camera.Placed() && camera.Aimed(old(camera.cam.rotationHitCount))
      ensures !state.Turning() ==>
        camera.cam.eyePosition == old(camera.cam.eyePosition) && camera.cam.orientation == old(camera.cam.orientation) &&
        camera.cam.BasisOf() == old(camera.cam.BasisOf()) && camera.cam.rotationHitCount == old(camera.cam.rotationHitCount)
      ensures !state.Turning() ==> !camera.cam.recalcViewMatrix && camera.cam.viewMatrix == old(camera.cam.CurrentView())
      ensures camera.radius == old(camera.radius) && camera.pitchAngle == old(camera.pitchAngle)
      ensures camera.target == old(camera.target)
      ensures walkingSpeed == old(walkingSpeed) && meshCount == old(meshCount)
      ensures startWalkingCycleState == old(startWalkingCycleState) && endWalkingCycleState == old(endWalkingCycleState)
    {
      var _ := camera.cam.GetViewMatrix();
      var dt := t - lastUpdate;
      StepAnimation(t, AnimationDue(t));
      if state.Turning() {
        Turn(dt, camera);
      }
      if state.Walking() {
        var delta := Displacement(maths, state, angle, dt, walkingSpeed);
        var collision := CheckCollision(Add(position, delta), others);
        if !collision {
          position := Add(position, delta);
        }
      }
      lastUpdate := t;
    }

    /** The frame step of a walking character, when `due`. */
    method StepAnimation(t: real, due: bool)
      modifies this
      ensures animationState ==
        (if due && state == WalkForward then StepForward(old(animationState), startWalkingCycleState, endWalkingCycleState)
         else if due && state == WalkBackward then StepBackward(old(animationState), startWalkingCycleState, endWalkingCycleState)
         else old(animationState))
      ensures lastAnimationUpdate == if due && state.Walking() then t else old(lastAnimationUpdate)
      ensures state == old(state) && angle == old(angle) && position == old(position) && lastUpdate == old(lastUpdate)
      ensures walkingSpeed == old(walkingSpeed) && meshCount == old(meshCount)
      ensures startWalkingCycleState == old(startWalkingCycleState) && endWalkingCycleState == old(endWalkingCycleState)
    {
      if due && state == WalkForward {
        lastAnimationUpdate := t;
        animationState := StepForward(animationState, startWalkingCycleState, endWalkingCycleState);
      } else if due && state == WalkBackward {
        lastAnimationUpdate := t;
        animationState := StepBackward(animationState, startWalkingCycleState, endWalkingCycleState);
      }
    }

    /** The turn of a turning character and of its camera's yaw. */
    method Turn(dt: real, camera: ThirdPersonCamera)
      requires state.Turning() && camera.Valid()
      modifies this, camera, camera.cam
      ensures camera.Valid()
      ensures angle == if state == TurnLeft then TurnedLeft(old(angle), TurnAmount(dt)) else TurnedRight(old(angle), TurnAmount(dt))
      ensures var amount := if state == TurnLeft then TurnAmount(dt) else -TurnAmount(dt);
        -TwoPi < camera.yawAngle < TwoPi && exists k :: camera.yawAngle == old(camera.yawAngle) + amount + Turns(k)
      ensures camera.Placed() && camera.Aimed(old(camera.cam.rotationHitCount))
      ensures camera.radius == old(camera.radius) && camera.pitchAngle == old(camera.pitchAngle)
      ensures camera.target == old(camera.target)
      ensures state == old(state) && animationState == old(animationState) && position == old(position)
      ensures lastUpdate == old(lastUpdate) && lastAnimationUpdate == old(lastAnimationUpdate)
      ensures walkingSpeed == old(walkingSpeed) && meshCount == old(meshCount)
      ensures startWalkingCycleState == old(startWalkingCycleState) && endWalkingCycleState == old(endWalkingCycleState)
    {
      if state == TurnLeft {
        angle := TurnedLeft(angle, TurnAmount(dt));
        camera.AddYawAngle(TurnAmount(dt));
      } else {
        angle := TurnedRight(angle, TurnAmount(dt));
        camera.AddYawAngle(-TurnAmount(dt));
      }
    }

    method SetState(d: State)
      modifies this
      ensures state == d
      ensures animationState == old(animationState) && position == old(position) && angle == old(angle)
    {
      state := d;
    }

    /** Stores a frame number given as `int` in the `unsigned int` field. */
    method SetAnimationState(frame: int)
      modifies this
      ensures animationState == ToU32(frame)
      ensures state == old(state) && position == old(position) && angle == old(angle)
    {
      animationState := ToU32(frame);
    }

    /** The frame as `int`: frames from 2^31 on read back negative. */
    function GetAnimationState(): (r: int)
      reads this
      ensures -0x8000_0000 <= r < 0x8000_0000 && ToU32(r) == animationState
      ensures animationState < 0x8000_0000 ==> r == animationState
    {
      if animationState < 0x8000_0000 then animationState else animationState - U32Limit
    }

    method SetWalkingSpeed(speed: real)
      modifies this
      ensures walkingSpeed == speed
      ensures state == old(state) && position == old(position) && angle == old(angle)
    {
      walkingSpeed := speed;
    }

    method SetPosition(position: Vec3)
      modifies this
      ensures this.position == position
      ensures state == old(state) && angle == old(angle) && walkingSpeed == old(walkingSpeed)
    {
      this.position := position;
    }

    method SetAngle(angle: real)
      modifies this
      ensures this.angle == angle
      ensures state == old(state) && position == old(position) && walkingSpeed == old(walkingSpeed)
    {
      this.angle := angle;
    }

    /** Replaces the meshes; the end frame keeps its value. */
    method SetMeshes(meshCount: nat)
      modifies this
      ensures this.meshCount == meshCount && endWalkingCycleState == old(endWalkingCycleState)
      ensures state == old(state) && position == old(position) && angle == old(angle)
    {
      this.meshCount := meshCount;
    }
  }

  /** The collision loop of `update`: whether any other character stands
      closer than 0.5 to `next`. */
  method CheckCollision(next: Vec3, others: seq<Vec3>) returns (collision: bool)
    ensures collision <==> Collides(next, others)
  {
    collision := false;
    for k := 0 to |others|
      invariant collision <==> Collides(next, others[..k])
    {
      if DistanceSquared(next, others[k]) < CollisionDistanceSquared {
        collision := true;
      }
    }
    assert others[..|others|] == others;
  }
}
