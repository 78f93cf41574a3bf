/**
 * The AR manager: at the start of an AR session it saves the scene root's
 * x-scale, the camera's near plane and a copy of the camera's position,
 * then shrinks the three scene groups and moves the camera; at the end it
 * scales the groups to the saved value and puts the camera back.
 */
module ArManager {

  // ---------------------------------------------------------------------------
  // The session as values
  // ---------------------------------------------------------------------------

  datatype Xyz = Xyz(x: real, y: real, z: real)

  /** `setScalar(s)`: the same value on all three axes. */
  function Scalar(s: real): Xyz {
    Xyz(s, s, s)
  }

  /** `previousValues`. */
  datatype Saved = Saved(sceneScale: real, cameraNear: real, cameraPosition: Xyz)

  /** The values `previousValues` starts with. */
  const Defaults := Saved(1.0, 10.0, Xyz(1.0, 0.0, 1.0))

  const ArScale: real := 0.00001
  const ArNear: real := 0.01
  const ArPosition := Xyz(0.0, 0.0, 0.1)

  /**
   * What the session changes or reads: the scene root's scale, the scales
   * of the event-data, geometries and labels groups, the camera's near
   * plane and position.
   */
  datatype View = View(rootScale: Xyz, eventData: Xyz, geometries: Xyz, labels: Xyz, near: real, position: Xyz)

  function ScaledGroups(v: View, s: real): View {
    v.(eventData := Scalar(s), geometries := Scalar(s), labels := Scalar(s))
  }

  /** onXRSessionStarted: the values saved, then the groups shrunk and the camera moved close. */
  function Started(v: View): (View, Saved) {
    (ScaledGroups(v, ArScale).(near := ArNear, position := ArPosition),
     Saved(v.rootScale.x, v.near, v.position))
  }

  /** onXRSessionEnded: the groups scaled to the saved value, the camera's near and position restored. */
  function Ended(v: View, saved: Saved): View {
    ScaledGroups(v, saved.sceneScale).(near := saved.cameraNear, position := saved.cameraPosition)
  }

  /**
   * During a session the three groups have scale 0.00001 on every axis,
   * the near plane is 0.01 and the camera sits at (0, 0, 0.1); the scene
   * root keeps its scale, and what is saved is the root's x-scale and the
   * camera as it was.
   */
  lemma StartedState(v: View)
    ensures var (w, saved) := Started(v);
      && w.eventData == Scalar(0.00001) && w.geometries == Scalar(0.00001) && w.labels == Scalar(0.00001)
      && w.near == 0.01 && w.position == Xyz(0.0, 0.0, 0.1) && w.rootScale == v.rootScale
      && saved == Saved(v.rootScale.x, v.near, v.position)
  {
  }

  /**
   * A session restores the camera's near plane and position whatever the
   * camera did meanwhile, leaves the root's scale alone, and scales every
   * group to the root's x-scale from the start, not to its own previous
   * scale.
   */
  lemma SessionRoundTrip(v: View, during: View)
    requires during.rootScale == v.rootScale
    ensures var (_, saved) := Started(v);
      var w := Ended(during, saved);
      && w.near == v.near && w.position == v.position && w.rootScale == v.rootScale
      && w.eventData == Scalar(v.rootScale.x) && w.geometries == Scalar(v.rootScale.x) && w.labels == Scalar(v.rootScale.x)
  {
  }

  /** So a group scaled unlike the root does not get its own scale back. */
  lemma GroupScaleNotRestored()
    ensures var v := View(Scalar(1.0), Scalar(2.0), Scalar(1.0), Scalar(1.0), 10.0, Xyz(0.0, 0.0, 5.0));
      Ended(Started(v).0, Started(v).1).eventData != v.eventData
  {
    var v := View(Scalar(1.0), Scalar(2.0), Scalar(1.0), Scalar(1.0), 10.0, Xyz(0.0, 0.0, 5.0));
    assert Ended(Started(v).0, Started(v).1).eventData == Scalar(1.0);
  }

  /** Ending a session never started uses the initial values: scale 1, near 10, position (1, 0, 1). */
  lemma EndWithoutStart(v: View)
    ensures var w := Ended(v, Defaults);
      && w.eventData == Scalar(1.0) && w.geometries == Scalar(1.0) && w.labels == Scalar(1.0)
      && w.near == 10.0 && w.position == Xyz(1.0, 0.0, 1.0) && w.rootScale == v.rootScale
  {
  }

  /**
   * A second start without an end in between saves the session's own
   * camera, so the end that follows leaves the camera at the AR values.
   */
  lemma RestartForgetsCamera(v: View)
    ensures var (w1, _) := Started(v);
      var (w2, saved2) := Started(w1);
      var w3 := Ended(w2, saved2);
      w3.near == 0.01 && w3.position == Xyz(0.0, 0.0, 0.1)
  {
  }

  // ---------------------------------------------------------------------------
  // The three.js objects
  // ---------------------------------------------------------------------------

  class Vector3 {
    var x: real
    var y: real
    var z: real

    function Value(): Xyz
      reads this
    {
      Xyz(x, y, z)
    }

    constructor (x: real, y: real, z: real)
      ensures Value() == Xyz(x, y, z)
    {
      this.x, this.y, this.z := x, y, z;
    }

    method Set(x: real, y: real, z: real)
      modifies this
      ensures Value() == Xyz(x, y, z)
    {
      this.x, this.y, this.z := x, y, z;
    }

    method SetScalar(s: real)
      modifies this
      ensures Value() == Scalar(s)
    {
      x, y, z := s, s, s;
    }

    method Copy(v: Vector3)
      modifies this
      ensures Value() == old(v.Value())
    {
      x, y, z := v.x, v.y, v.z;
    }

    method Clone() returns (v: Vector3)
      ensures fresh(v) && v.Value() == Value()
    {
      v := new Vector3(x, y, z);
    }
  }

  /** A named group of the scene, of which only the scale matters here. */
  class Object3D {
    const scale: Vector3

    constructor (scale: Vector3)
      ensures this.scale == scale
    {
      this.scale := scale;
    }
  }

  /** The scene root and the three groups `getObjectByName` finds. */
  class Scene {
    const scale: Vector3
    const eventData: Object3D
    const geometries: Object3D
    const labels: Object3D

    constructor (scale: Vector3, eventData: Object3D, geometries: Object3D, labels: Object3D)
      ensures this.scale == scale && this.eventData == eventData && this.geometries == geometries && this.labels == labels
    {
      this.scale := scale;
      this.eventData := eventData;
      this.geometries := geometries;
      this.labels := labels;
    }
  }

  class Camera {
    var near: real
    const position: Vector3

    constructor (near: real, position: Vector3)
      ensures this.near == near && this.position == position
    {
      this.near := near;
      this.position := position;
    }
  }

  predicate Distinct4(a: Vector3, b: Vector3, c: Vector3, d: Vector3) {
    a != b && a != c && a != d && b != c && b != d && c != d
  }

  class ARManager {
    const scene: Scene
    const camera: Camera
    var sceneScale: real
    var cameraNear: real
    var cameraPosition: Vector3

    /** The vectors the manager touches are six different objects. */
    predicate Valid()
      reads this, scene, camera, scene.eventData, scene.geometries, scene.labels
    {
      && Distinct4(scene.scale, scene.eventData.scale, scene.geometries.scale, scene.labels.scale)
      && camera.position !in {scene.scale, scene.eventData.scale, scene.geometries.scale, scene.labels.scale}
      && cameraPosition !in {scene.scale, scene.eventData.scale, scene.geometries.scale, scene.labels.scale, camera.position}
    }

    function CurrentView(): View
      reads this, scene, camera, scene.eventData, scene.geometries, scene.labels
      reads scene.scale, scene.eventData.scale, scene.geometries.scale, scene.labels.scale, camera.position
    {
      View(scene.scale.Value(), scene.eventData.scale.Value(), scene.geometries.scale.Value(),
           scene.labels.scale.Value(), camera.near, camera.position.Value())
    }

    function SavedValues(): Saved
      reads this, cameraPosition
    {
      Saved(sceneScale, cameraNear, cameraPosition.Value())
    }

    constructor (scene: Scene, camera: Camera)
      requires Distinct4(scene.scale, scene.eventData.scale, scene.geometries.scale, scene.labels.scale)
      requires camera.position !in {scene.scale, scene.eventData.scale, scene.geometries.scale, scene.labels.scale}
      ensures Valid() && this.scene == scene && this.camera == camera && SavedValues() == Defaults
    {
      this.scene := scene;
      this.camera := camera;
      sceneScale := 1.0;
      cameraNear := 10.0;
      cameraPosition := new Vector3(1.0, 0.0, 1.0);
    }

    /** scaleScene: each of the three groups set to `scale` on every axis. */
    method ScaleScene(scale: real)
      requires Valid()
      modifies scene.eventData.scale, scene.geometries.scale, scene.labels.scale
      ensures CurrentView() == ScaledGroups(old(CurrentView()), scale)
    {
      var groups := [scene.eventData, scene.geometries, scene.labels];
      for i := 0 to |groups|
        invariant forall k :: 0 <= k < i ==> groups[k].scale.Value() == Scalar(scale)
        invariant forall k :: i <= k < |groups| ==> groups[k].scale.Value() == old(groups[k].scale.Value())
        invariant scene.scale.Value() == old(scene.scale.Value()) && camera.position.Value() == old(camera.position.Value())
      {
        groups[i].scale.SetScalar(scale);
      }
      assert groups[0].scale.Value() == groups[1].scale.Value() == groups[2].scale.Value() == Scalar(scale);
    }

    /** onXRSessionStarted, up to handing over to the XR session. */
    method OnXRSessionStarted()
      requires Valid()
      modifies this`sceneScale, this`cameraNear, this`cameraPosition, camera, camera.position
      modifies scene.eventData.scale, scene.geometries.scale, scene.labels.scale
      ensures Valid() && fresh(cameraPosition)
      ensures (CurrentView(), SavedValues()) == Started(old(CurrentView()))
    {
      sceneScale := scene.scale.x;
      cameraNear := camera.near;
      cameraPosition := camera.position.Clone();
      ScaleScene(ArScale);
      camera.near := ArNear;
      camera.position.Set(0.0, 0.0, 0.1);
    }

    /** onXRSessionEnded, before handing over to the XR session. */
    method OnXRSessionEnded()
      requires Valid()
      modifies camera, camera.position, scene.eventData.scale, scene.geometries.scale, scene.labels.scale
      ensures Valid() && SavedValues() == old(SavedValues())
      ensures CurrentView() == Ended(old(CurrentView()), old(SavedValues()))
    {
      ScaleScene(sceneScale);
      camera.near := cameraNear;
      camera.position.Copy(cameraPosition);
    }

    /**
     * A whole session in which the device moves the camera: the camera's
     * near plane and position come back, since the saved position is a
     * copy, and the groups end at the root's x-scale.
     */
    method Session(moved: Xyz)
      requires Valid()
      modifies this`sceneScale, this`cameraNear, this`cameraPosition, camera, camera.position
      modifies scene.eventData.scale, scene.geometries.scale, scene.labels.scale
      ensures Valid()
      ensures camera.near == old(camera.near) && camera.position.Value() == old(camera.position.Value())
      ensures scene.scale.Value() == old(scene.scale.Value())
      ensures var s := Scalar(old(scene.scale.x));
        scene.eventData.scale.Value() == s && scene.geometries.scale.Value() == s && scene.labels.scale.Value() == s
    {
      ghost var v := CurrentView();
      OnXRSessionStarted();
      camera.position.Set(moved.x, moved.y, moved.z);
      ghost var during := CurrentView();
      OnXRSessionEnded();
      SessionRoundTrip(v, during);
    }
  }
}
