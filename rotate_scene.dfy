/**
 * rotate_scene.cpp's `mInteractorStyle::OnChar`: 'r' rolls the camera by 10 degrees; 'a' and
 * 'e' orbit the camera's position and focal point by 10 degrees about the actor's centre,
 * about the view-up ('a', azimuth) or the negated first row of the view transform ('e',
 * elevation); every handled key then re-orthogonalizes the view-up and renders. Other keys do
 * nothing.
 *
 * The rotation itself (`vtkTransform::RotateWXYZ`) is an oracle `rotate(axis, degrees, v)`
 * rotating a vector about an axis through the origin; the orbit translates to the centre,
 * rotates and translates back.
 */
module RotateScene {
  import opened Geometry
  import opened Toolkit

  /** What a key does. */
  datatype KeyAction = Azimuth | Elevation | RollCamera | Ignore

  function ActionFor(key: char): KeyAction {
    if key == 'a' then Azimuth
    else if key == 'e' then Elevation
    else if key == 'r' then RollCamera
    else Ignore
  }

  /** Exactly 'a', 'e' and 'r' are handled, each with its own action. */
  lemma ActionKeys(key: char)
    ensures ActionFor(key) != Ignore <==> key in "aer"
    ensures ActionFor('a') == Azimuth && ActionFor('e') == Elevation && ActionFor('r') == RollCamera
  {
  }

  /** The angle of every step, in degrees. */
  const STEP_DEGREES: real := 10.0

  /** A rotation of a vector about an axis through the origin by a number of degrees. */
  type Rotation = (Vec3, real, Vec3) -> Vec3

  function Add(a: Vec3, b: Vec3): Vec3 {
    Vec3(a.x + b.x, a.y + b.y, a.z + b.z)
  }

  function Sub(a: Vec3, b: Vec3): Vec3 {
    Vec3(a.x - b.x, a.y - b.y, a.z - b.z)
  }

  /** The squared length of a vector. */
  function Norm2(v: Vec3): real {
    v.x * v.x + v.y * v.y + v.z * v.z
  }

  /** The rotation axis of an orbiting key: the view-up for 'a', the negated camera right for 'e'. */
  function OrbitAxis(action: KeyAction, viewUp: Vec3, viewRight: Vec3): Vec3
    requires action == Azimuth || action == Elevation
  {
    if action == Azimuth then viewUp else Neg(viewRight)
  }

  /** `Translate(c) * RotateWXYZ(10, axis) * Translate(-c)` applied to `p`. */
  function OrbitPoint(rotate: Rotation, center: Vec3, axis: Vec3, p: Vec3): Vec3 {
    Add(center, rotate(axis, STEP_DEGREES, Sub(p, center)))
  }

  /** The rotation keeps lengths. */
  ghost predicate KeepsLength(rotate: Rotation) {
    forall axis, deg, v :: Norm2(rotate(axis, deg, v)) == Norm2(v)
  }

  /** The rotation is additive, as every linear map is. */
  ghost predicate Additive(rotate: Rotation) {
    forall axis, deg, u, v :: rotate(axis, deg, Sub(u, v)) == Sub(rotate(axis, deg, u), rotate(axis, deg, v))
  }

  /** For a linear rotation the orbit leaves its centre where it is. */
  lemma OrbitFixesCenter(rotate: Rotation, center: Vec3, axis: Vec3)
    requires Additive(rotate)
    ensures OrbitPoint(rotate, center, axis, center) == center
  {
    var zero := Vec3(0.0, 0.0, 0.0);
    assert Sub(center, center) == Sub(zero, zero) == zero;
    var r := rotate(axis, STEP_DEGREES, zero);
    assert r == Sub(r, r);
  }

  /**
   * For a linear, length-keeping rotation the orbit keeps the camera's distance to the centre
   * and the distance from position to focal point: the scene turns rigidly.
   */
  lemma OrbitIsRigid(rotate: Rotation, center: Vec3, axis: Vec3, position: Vec3, focal: Vec3)
    requires KeepsLength(rotate) && Additive(rotate)
    ensures Norm2(Sub(OrbitPoint(rotate, center, axis, position), center)) == Norm2(Sub(position, center))
    ensures Norm2(Sub(OrbitPoint(rotate, center, axis, position), OrbitPoint(rotate, center, axis, focal)))
      == Norm2(Sub(position, focal))
  {
    var rp := rotate(axis, STEP_DEGREES, Sub(position, center));
    var rf := rotate(axis, STEP_DEGREES, Sub(focal, center));
    assert Sub(Add(center, rp), center) == rp;
    assert Sub(Add(center, rp), Add(center, rf)) == Sub(rp, rf);
    assert Sub(Sub(position, center), Sub(focal, center)) == Sub(position, focal);
    assert Norm2(Sub(rp, rf)) == Norm2(Sub(position, focal));
  }

  class SceneStyle {
    /** The first renderer's active camera. */
    const camera: Camera
    /** The toolkit's rotation. */
    const rotate: Rotation
    /** `m_obj_actor->GetCenter()`. */
    var actorCenter: Vec3
    /** `rwi->Render()` calls. */
    ghost var renders: nat

    constructor (camera: Camera, rotate: Rotation)
      ensures this.camera == camera && this.rotate == rotate && renders == 0
    {
      this.camera := camera;
      this.rotate := rotate;
      actorCenter := Vec3(0.0, 0.0, 0.0);
      renders := 0;
    }

    /** `set_actor`, reduced to the actor's centre. */
    method SetActor(center: Vec3)
      modifies this`actorCenter
      ensures actorCenter == center
    {
      actorCenter := center;
    }

    /** `OnChar`. */
    method OnChar(key: char)
      modifies camera, this`renders
      ensures ActionFor(key) == Ignore ==> unchanged(camera) && renders == old(renders)
      ensures ActionFor(key) != Ignore ==> renders == old(renders) + 1
      ensures ActionFor(key) == RollCamera ==>
        camera.position == old(camera.position) && camera.focalPoint == old(camera.focalPoint)
        && camera.events == old(camera.events) + [Rolled(STEP_DEGREES), ViewUpOrthogonalized]
      ensures ActionFor(key) == Azimuth || ActionFor(key) == Elevation ==>
        var axis := OrbitAxis(ActionFor(key), old(camera.viewUp), old(camera.viewRight));
        camera.position == OrbitPoint(rotate, actorCenter, axis, old(camera.position))
        && camera.focalPoint == OrbitPoint(rotate, actorCenter, axis, old(camera.focalPoint))
        && camera.events == old(camera.events) + [ViewUpOrthogonalized]
    {
      if key == 'a' || key == 'e' || key == 'r' {
        if key == 'r' {
          camera.Roll(STEP_DEGREES);
        } else {
          var axis := if key == 'a' then camera.viewUp else Neg(camera.viewRight);
          var newPosition := OrbitPoint(rotate, actorCenter, axis, camera.position);
          var newFocalPoint := OrbitPoint(rotate, actorCenter, axis, camera.focalPoint);
          camera.SetPosition(newPosition);
          camera.SetFocalPoint(newFocalPoint);
        }
        camera.OrthogonalizeViewUp();
        renders := renders + 1;
      }
    }
  }
}
