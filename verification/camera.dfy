/** The fly-through camera (Camera.h): a position, Euler angles in
    degrees, and the orthogonal basis derived from them. */
module Cameras {
  import opened Glm

  /** Camera_Movement. */
  datatype Movement = Forward | Backward | Leftward | Rightward | Upward | Downward

  /** front, right and up, as updateCameraVectors derives them. */
  datatype Basis = Basis(front: Vec3, right: Vec3, up: Vec3)

  /** Camera.h pitch limit when constrainPitch is set, in degrees. */
  const PitchLimit: real := 89.0
  /** Camera.h zoom range, in degrees. */
  const MinZoom: real := 1.0
  const MaxZoom: real := 45.0

  /** Camera::updateCameraVectors: the front vector from yaw and pitch
      (cos yaw·cos pitch, sin pitch, sin yaw·cos pitch), normalised; right
      is front × worldUp and up is right × front, both normalised. */
  function CameraVectors(m: Math, yaw: real, pitch: real, worldUp: Vec3): Basis {
    var y := Radians(yaw);
    var p := Radians(pitch);
    var f := Vec3(m.cos(y) * m.cos(p), m.sin(p), m.sin(y) * m.cos(p));
    var front := Normalize(m, f);
    var right := Normalize(m, Cross(front, worldUp));
    var up := Normalize(m, Cross(right, front));
    Basis(front, right, up)
  }

  /** The direction one key moves the camera in: ±front, ±right or
      ±worldUp. */
  function Heading(dir: Movement, front: Vec3, right: Vec3, worldUp: Vec3): Vec3 {
    match dir
    case Forward => front
    case Backward => Scale(front, -1.0)
    case Leftward => Scale(right, -1.0)
    case Rightward => right
    case Upward => worldUp
    case Downward => Scale(worldUp, -1.0)
  }

  class Camera {
    var position: Vec3
    var front: Vec3
    var up: Vec3
    var right: Vec3
    var worldUp: Vec3
    var yaw: real
    var pitch: real
    var movementSpeed: real
    var mouseSensitivity: real
    var zoom: real

    /** The current basis. */
    function Vectors(): Basis
      reads this
    {
      Basis(front, right, up)
    }

    /** Camera(position, up, yaw, pitch), with the defaults of Camera.h:
        speed 50, sensitivity 0.1, zoom 45, and the basis derived from the
        angles. */
    constructor (m: Math, position: Vec3 := Vec3(0.0, 0.0, 3.0), up: Vec3 := Up,
                 yaw: real := -90.0, pitch: real := 0.0)
      ensures this.position == position && worldUp == up && this.yaw == yaw && this.pitch == pitch
      ensures movementSpeed == 50.0 && mouseSensitivity == 0.1 && zoom == 45.0
      ensures Vectors() == CameraVectors(m, yaw, pitch, up)
    {
      front := Vec3(0.0, 0.0, -1.0);
      movementSpeed := 50.0;
      mouseSensitivity := 0.1;
      zoom := 45.0;
      this.position := position;
      worldUp := up;
      this.yaw := yaw;
      this.pitch := pitch;
      var b := CameraVectors(m, yaw, pitch, up);
      front, right, this.up := b.front, b.right, b.up;
    }

    /** Camera::ProcessKeyboard: moves by movementSpeed·dt along the
        direction of the key; nothing but the position changes. */
    method ProcessKeyboard(dir: Movement, dt: real)
      modifies this
      ensures position == Add(old(position), Scale(Heading(dir, front, right, worldUp), movementSpeed * dt))
      ensures Vectors() == old(Vectors()) && worldUp == old(worldUp)
      ensures yaw == old(yaw) && pitch == old(pitch) && zoom == old(zoom)
      ensures movementSpeed == old(movementSpeed) && mouseSensitivity == old(mouseSensitivity)
    {
      var velocity := movementSpeed * dt;
      ghost var heading := Heading(dir, front, right, worldUp);
      if dir == Forward {
        position := Add(position, Scale(front, velocity));
      } else if dir == Backward {
        SubIsAddOpposite(position, front, velocity);
        position := Sub(position, Scale(front, velocity));
      } else if dir == Leftward {
        SubIsAddOpposite(position, right, velocity);
        position := Sub(position, Scale(right, velocity));
      } else if dir == Rightward {
        position := Add(position, Scale(right, velocity));
      } else if dir == Upward {
        position := Add(position, Scale(worldUp, velocity));
      } else {
        SubIsAddOpposite(position, worldUp, velocity);
        position := Sub(position, Scale(worldUp, velocity));
      }
      assert position == Add(old(position), Scale(heading, velocity));
    }

    /** Camera::ProcessMouseMovement: yaw and pitch grow by the offsets
        times the sensitivity; with constrainPitch the pitch is clamped into
        [-89, 89]; the basis is recomputed. */
    method ProcessMouseMovement(m: Math, xoffset: real, yoffset: real, constrainPitch: bool := true)
      modifies this
      ensures yaw == old(yaw) + xoffset * mouseSensitivity
      ensures constrainPitch ==> pitch == ClampReal(old(pitch + yoffset * mouseSensitivity), -PitchLimit, PitchLimit)
      ensures !constrainPitch ==> pitch == old(pitch + yoffset * mouseSensitivity)
      ensures constrainPitch ==> -PitchLimit <= pitch <= PitchLimit
      ensures Vectors() == CameraVectors(m, yaw, pitch, worldUp)
      ensures position == old(position) && worldUp == old(worldUp) && zoom == old(zoom)
      ensures movementSpeed == old(movementSpeed) && mouseSensitivity == old(mouseSensitivity)
    {
      yaw := yaw + xoffset * mouseSensitivity;
      pitch := pitch + yoffset * mouseSensitivity;
      ghost var raw := pitch;
      assert raw == old(pitch + yoffset * mouseSensitivity);
      if constrainPitch {
        ConstrainPitch();
        assert pitch == ClampReal(raw, -PitchLimit, PitchLimit);
      }
      ghost var mid := pitch;
      UpdateCameraVectors(m);
      assert pitch == mid;
    }

    /** The pitch clamp of ProcessMouseMovement: above 89 becomes 89, below
        -89 becomes -89. */
    method ConstrainPitch()
      modifies this
      ensures pitch == ClampReal(old(pitch), -PitchLimit, PitchLimit)
      ensures -PitchLimit <= pitch <= PitchLimit
      ensures position == old(position) && Vectors() == old(Vectors()) && worldUp == old(worldUp)
      ensures yaw == old(yaw) && zoom == old(zoom)
      ensures movementSpeed == old(movementSpeed) && mouseSensitivity == old(mouseSensitivity)
    {
      if pitch > PitchLimit {
        pitch := PitchLimit;
      }
      if pitch < -PitchLimit {
        pitch := -PitchLimit;
      }
    }

    /** Camera::ProcessMouseScroll: the zoom drops by the wheel offset and
        is clamped into [1, 45]. */
    method ProcessMouseScroll(yoffset: real)
      modifies this
      ensures zoom == ClampReal(old(zoom) - yoffset, MinZoom, MaxZoom)
      ensures MinZoom <= zoom <= MaxZoom
      ensures position == old(position) && Vectors() == old(Vectors()) && worldUp == old(worldUp)
      ensures yaw == old(yaw) && pitch == old(pitch)
      ensures movementSpeed == old(movementSpeed) && mouseSensitivity == old(mouseSensitivity)
    {
      zoom := zoom - yoffset;
      if zoom < MinZoom {
        zoom := MinZoom;
      }
      if zoom > MaxZoom {
        zoom := MaxZoom;
      }
    }

    /** Camera::updateCameraVectors. */
    method UpdateCameraVectors(m: Math)
      modifies this
      ensures Vectors() == CameraVectors(m, yaw, pitch, worldUp)
      ensures position == old(position) && worldUp == old(worldUp) && zoom == old(zoom)
      ensures yaw == old(yaw) && pitch == old(pitch)
      ensures movementSpeed == old(movementSpeed) && mouseSensitivity == old(mouseSensitivity)
    {
      var b := CameraVectors(m, yaw, pitch, worldUp);
      front := b.front;
      right := b.right;
      up := b.up;
    }
  }

  // ---------------------------------------------------------------------
  // Properties

  /** p - v·s is p plus the opposite of v, times s. */
  lemma SubIsAddOpposite(p: Vec3, v: Vec3, s: real)
    ensures Sub(p, Scale(v, s)) == Add(p, Scale(Scale(v, -1.0), s))
  {
    assert (v.x * -1.0) * s == -(v.x * s);
    assert (v.y * -1.0) * s == -(v.y * s);
    assert (v.z * -1.0) * s == -(v.z * s);
  }

  /** Opposite keys undo each other: a step along a key's heading followed
      by a step of the same length along the opposite key's heading lands
      where it started. */
  lemma OppositeKeysCancel(p: Vec3, front: Vec3, right: Vec3, worldUp: Vec3, d: real)
    ensures var h := Heading(Forward, front, right, worldUp);
      Add(Add(p, Scale(h, d)), Scale(Heading(Backward, front, right, worldUp), d)) == p
    ensures var h := Heading(Rightward, front, right, worldUp);
      Add(Add(p, Scale(h, d)), Scale(Heading(Leftward, front, right, worldUp), d)) == p
    ensures var h := Heading(Upward, front, right, worldUp);
      Add(Add(p, Scale(h, d)), Scale(Heading(Downward, front, right, worldUp), d)) == p
  {
    StepBack(p, front, d);
    StepBack(p, right, d);
    StepBack(p, worldUp, d);
  }

  lemma StepBack(p: Vec3, v: Vec3, d: real)
    ensures Add(Add(p, Scale(v, d)), Scale(Scale(v, -1.0), d)) == p
  {
    assert (v.x * -1.0) * d == -(v.x * d);
    assert (v.y * -1.0) * d == -(v.y * d);
    assert (v.z * -1.0) * d == -(v.z * d);
  }

  /** Scrolling clamps the zoom: within the range a scroll followed by the
      opposite scroll restores the zoom, and scrolling past a limit stops
      exactly at it. */
  lemma ScrollClamps(zoom: real, y: real)
    requires MinZoom <= zoom <= MaxZoom
    ensures MinZoom <= zoom - y <= MaxZoom ==>
      ClampReal(ClampReal(zoom - y, MinZoom, MaxZoom) + y, MinZoom, MaxZoom) == zoom
    ensures zoom - y < MinZoom ==> ClampReal(zoom - y, MinZoom, MaxZoom) == MinZoom
    ensures MaxZoom < zoom - y ==> ClampReal(zoom - y, MinZoom, MaxZoom) == MaxZoom
  {
    ClampRealProperties(zoom - y, MinZoom, MaxZoom);
    ClampRealProperties(zoom, MinZoom, MaxZoom);
  }

  /** The cross product is orthogonal to both its factors. */
  lemma CrossOrthogonal(a: Vec3, b: Vec3)
    ensures Dot(Cross(a, b), a) == 0.0 && Dot(Cross(a, b), b) == 0.0
  {
    var c := Cross(a, b);
    assert c == Vec3(a.y * b.z - a.z * b.y, a.z * b.x - a.x * b.z, a.x * b.y - a.y * b.x);
    calc {
      Dot(c, a);
      (a.y * b.z - a.z * b.y) * a.x + (a.z * b.x - a.x * b.z) * a.y + (a.x * b.y - a.y * b.x) * a.z;
      a.x * a.y * b.z - a.x * a.z * b.y + a.y * a.z * b.x - a.x * a.y * b.z + a.x * a.z * b.y - a.y * a.z * b.x;
      0.0;
    }
    calc {
      Dot(c, b);
      (a.y * b.z - a.z * b.y) * b.x + (a.z * b.x - a.x * b.z) * b.y + (a.x * b.y - a.y * b.x) * b.z;
      a.y * b.x * b.z - a.z * b.x * b.y + a.z * b.x * b.y - a.x * b.y * b.z + a.x * b.y * b.z - a.y * b.x * b.z;
      0.0;
    }
  }

  /** Normalising a vector keeps it orthogonal to whatever it was
      orthogonal to. */
  lemma NormalizeKeepsOrthogonal(m: Math, v: Vec3, w: Vec3)
    requires Dot(v, w) == 0.0
    ensures Dot(Normalize(m, v), w) == 0.0
  {
    var l := Length(m, v);
    if l != 0.0 {
      var k := 1.0 / l;
      calc {
        Dot(Scale(v, k), w);
        (v.x * k) * w.x + (v.y * k) * w.y + (v.z * k) * w.z;
        k * (v.x * w.x + v.y * w.y + v.z * w.z);
        k * 0.0;
        0.0;
      }
    }
  }

  /** The basis updateCameraVectors builds is pairwise orthogonal: right
      is orthogonal to front and up to both, for any angles and world up. */
  lemma BasisOrthogonal(m: Math, yaw: real, pitch: real, worldUp: Vec3)
    ensures var b := CameraVectors(m, yaw, pitch, worldUp);
      && Dot(b.right, b.front) == 0.0
      && Dot(b.up, b.right) == 0.0
      && Dot(b.up, b.front) == 0.0
  {
    var b := CameraVectors(m, yaw, pitch, worldUp);
    var rawRight := Cross(b.front, worldUp);
    CrossOrthogonal(b.front, worldUp);
    NormalizeKeepsOrthogonal(m, rawRight, b.front);
    var rawUp := Cross(b.right, b.front);
    CrossOrthogonal(b.right, b.front);
    NormalizeKeepsOrthogonal(m, rawUp, b.right);
    NormalizeKeepsOrthogonal(m, rawUp, b.front);
  }
}
