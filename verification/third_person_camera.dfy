/** The orbit camera: a yaw, a pitch and a radius around a target point.
    Yaw is kept within one turn either way, pitch between the horizon and
    just below the zenith, and every change places the eye again. */
module ThirdPersonCameras {
  import opened Geometry
  import opened Cameras

  /** k whole turns. */
  function Turns(k: int): real
  {
    k as real * TwoPi
  }

  /** The highest pitch, `(float)M_PI_2 - 0.001f`. */
  const MaxPitch: real := HalfPi - 0.001

  /** The two loops of `set_yaw_angle` and `add_yaw_angle`: whole turns
      are taken off or added until the angle lies strictly within one turn
      either way. */
  method WrapYaw(yaw: real) returns (wrapped: real)
    ensures -TwoPi < wrapped < TwoPi
    ensures exists k :: wrapped == yaw + Turns(k)
    ensures -TwoPi < yaw < TwoPi ==> wrapped == yaw
  {
    wrapped := yaw;
    ghost var k := 0;
    while wrapped >= TwoPi
      invariant wrapped == yaw + Turns(k)
      invariant yaw < TwoPi ==> wrapped == yaw
      decreases (wrapped / TwoPi).Floor
    {
      wrapped := wrapped - TwoPi;
      k := k - 1;
    }
    while wrapped <= -TwoPi
      invariant wrapped == yaw + Turns(k) && wrapped < TwoPi
      invariant -TwoPi < yaw < TwoPi ==> wrapped == yaw
      decreases (-wrapped / TwoPi).Floor
    {
      wrapped := wrapped + TwoPi;
      k := k + 1;
    }
  }

  /** The pitch rule of `set_pitch_angle` and `add_pitch_angle`. */
  function ClampPitch(pitch: real): (r: real)
    ensures 0.0 <= r < HalfPi
    ensures 0.0 <= pitch < HalfPi ==> r == pitch
    ensures pitch < 0.0 ==> r == 0.0
    ensures pitch >= HalfPi ==> r == MaxPitch
  {
    if pitch < 0.0 then 0.0 else if pitch >= HalfPi then MaxPitch else pitch
  }

  /** Where `update` puts the eye: (radius, 0, 0) turned by the pitch
      about -y and then by the yaw about +z, moved to the target. */
  function EyeFor(maths: Maths, yaw: real, pitch: real, radius: real, target: Vec3): Vec3
  {
    var rot := Product(AngleAxis(yaw, Vec3(0.0, 0.0, 1.0)), AngleAxis(pitch, Vec3(0.0, -1.0, 0.0)));
    Add(maths.rotate(rot, Vec3(radius, 0.0, 0.0)), target)
  }

  /** The up hint `update` passes to `look_at`. */
  const UpHint: Vec3 := Vec3(0.0, 0.0, 1.0)

  class ThirdPersonCamera {
    const cam: Camera
    var radius: real
    var yawAngle: real
    var pitchAngle: real
    var target: Vec3

    ghost predicate Valid()
      reads this, cam
    {
      cam.Valid()
    }

    /** The camera stands where the angles, the radius and the target put
        it, and its view is due for a rebuild. */
    ghost predicate Placed()
      reads this, cam
    {
      cam.eyePosition == EyeFor(cam.maths, yawAngle, pitchAngle, radius, target) &&
      cam.recalcViewMatrix && cam.Coherent()
    }

    /** The camera has turned to the target from where the parameters put
        it, with +z as the up hint, as a rotation that found the counter
        at `count`. */
    ghost predicate Aimed(count: int)
      reads this, cam
    {
      var b := LookAtFromBasis(cam.maths, EyeFor(cam.maths, yawAngle, pitchAngle, radius, target), target, UpHint);
      cam.Registered(count, b, OrientationOf(b))
    }

    /** Stores the parameters as given, with no wrap and no clamp, and
        places the camera. */
    constructor (maths: Maths, yawAngle: real, pitchAngle: real, radius: real, target: Vec3,
                 fov: real, aspectRatio: real, nearZ: real, farZ: real)
      ensures fresh(cam) && fresh(cam.frustum) && cam.maths == maths && Valid() && Placed()
      ensures this.yawAngle == yawAngle && this.pitchAngle == pitchAngle
      ensures this.radius == radius && this.target == target
      ensures cam.frustum.isPerspective && cam.frustum.fovy == fov && cam.frustum.aspectRatio == aspectRatio
      ensures cam.frustum.zNear == nearZ && cam.frustum.zFar == farZ
      ensures cam.rotationHitCount == 1 && Aimed(0)
    {
      cam := new Camera.PerspectiveView(maths, fov, aspectRatio, nearZ, farZ);
      this.yawAngle, this.pitchAngle, this.radius, this.target := yawAngle, pitchAngle, radius, target;
      new;
      Update();
    }

    /** Places the eye from the parameters and turns the camera to the
        target with +z as the up hint. */
    method Update()
      requires Valid()
      modifies cam
      ensures Valid() && Placed()
      ensures Aimed(old(cam.rotationHitCount))
    {
      var camPos := Vec3(radius, 0.0, 0.0);
      var rot := AngleAxis(yawAngle, Vec3(0.0, 0.0, 1.0));
      rot := Product(rot, AngleAxis(pitchAngle, Vec3(0.0, -1.0, 0.0)));
      camPos := Add(cam.maths.rotate(rot, camPos), target);
      cam.LookAtFrom(camPos, target, UpHint);
    }

    method SetRadius(radius: real)
      requires Valid()
      modifies this, cam
      ensures Valid() && Placed() && this.radius == radius
      ensures yawAngle == old(yawAngle) && pitchAngle == old(pitchAngle) && target == old(target)
      ensures Aimed(old(cam.rotationHitCount))
    {
      this.radius := radius;
      Update();
    }

    method SetYawAngle(yawAngle: real)
      requires Valid()
      modifies this, cam
      ensures Valid() && Placed()
      ensures -TwoPi < this.yawAngle < TwoPi && exists k :: this.yawAngle == yawAngle + Turns(k)
      ensures -TwoPi < yawAngle < TwoPi ==> this.yawAngle == yawAngle
      ensures radius == old(radius) && pitchAngle == old(pitchAngle) && target == old(target)
      ensures Aimed(old(cam.rotationHitCount))
    {
      this.yawAngle := WrapYaw(yawAngle);
      Update();
    }

    method SetPitchAngle(pitchAngle: real)
      requires Valid()
      modifies this, cam
      ensures Valid() && Placed() && this.pitchAngle == ClampPitch(pitchAngle)
      ensures radius == old(radius) && yawAngle == old(yawAngle) && target == old(target)
      ensures Aimed(old(cam.rotationHitCount))
    {
      this.pitchAngle := pitchAngle;
      if this.pitchAngle < 0.0 {
        this.pitchAngle := 0.0;
      } else if this.pitchAngle >= HalfPi {
        this.pitchAngle := MaxPitch;
      }
      Update();
    }

    method SetTarget(target: Vec3)
      requires Valid()
      modifies this, cam
      ensures Valid() && Placed() && this.target == target
      ensures radius == old(radius) && yawAngle == old(yawAngle) && pitchAngle == old(pitchAngle)
      ensures Aimed(old(cam.rotationHitCount))
    {
      this.target := target;
      Update();
    }

    method AddRadius(radius: real)
      requires Valid()
      modifies this, cam
      ensures Valid() && Placed() && this.radius == old(this.radius) + radius
      ensures yawAngle == old(yawAngle) && pitchAngle == old(pitchAngle) && target == old(target)
      ensures Aimed(old(cam.rotationHitCount))
    {
      this.radius := this.radius + radius;
      Update();
    }

    method AddYawAngle(yawAngle: real)
      requires Valid()
      modifies this, cam
      ensures Valid() && Placed()
      ensures -TwoPi < this.yawAngle < TwoPi && exists k :: this.yawAngle == old(this.yawAngle) + yawAngle + Turns(k)
      ensures -TwoPi < old(this.yawAngle) + yawAngle < TwoPi ==> this.yawAngle == old(this.yawAngle) + yawAngle
      ensures radius == old(radius) && pitchAngle == old(pitchAngle) && target == old(target)
      ensures Aimed(old(cam.rotationHitCount))
    {
      this.yawAngle := WrapYaw(this.yawAngle + yawAngle);
      Update();
    }

    method AddPitchAngle(pitchAngle: real)
      requires Valid()
      modifies this, cam
      ensures Valid() && Placed() && this.pitchAngle == ClampPitch(old(this.pitchAngle) + pitchAngle)
      ensures radius == old(radius) && yawAngle == old(yawAngle) && target == old(target)
      ensures Aimed(old(cam.rotationHitCount))
    {
      this.pitchAngle := this.pitchAngle + pitchAngle;
      if this.pitchAngle < 0.0 {
        this.pitchAngle := 0.0;
      } else if this.pitchAngle >= HalfPi {
        this.pitchAngle := MaxPitch;
      }
      Update();
    }

    method AddTarget(target: Vec3)
      requires Valid()
      modifies this, cam
      ensures Valid() && Placed() && this.target == Add(old(this.target), target)
      ensures radius == old(radius) && yawAngle == old(yawAngle) && pitchAngle == old(pitchAngle)
      ensures Aimed(old(cam.rotationHitCount))
    {
      this.target := Add(this.target, target);
      Update();
    }
  }
}
