/**
 * The animation sequencing of the event display: the camera fly-through, the
 * reveal of event data by a growing sphere, and the particle collision that
 * precedes it. Tweens are records in a registry whose indices are their
 * identities; a tween.js `chain` is the `next` link of a record, and every
 * callback handed to tween.js is a `Callback` value that `Invoke` runs.
 */
module Animations {
  import opened Wrappers

  /** A point (or scale) of three.js space. */
  datatype Vec3 = Vec3(x: real, y: real, z: real) {
    /** The array that `Vector3.fromArray` would read this point from. */
    function Coords(): seq<real> { [x, y, z] }
  }

  /**
   * `Sphere.containsPoint` of the reveal sphere at one update, applied to the
   * coordinates `Vector3.fromArray` reads (a short last hit chunk passes through
   * as it is; what the sphere says about it is the predicate's business).
   */
  type Sphere = seq<real> -> bool

  // ---------------------------------------------------------------------------
  // Hit positions: a flat coordinate array cut into triples
  // ---------------------------------------------------------------------------

  /** The triples of a flat coordinate array, the last one possibly shorter. */
  function Chunks(s: seq<real>): seq<seq<real>>
    decreases |s|
  {
    if s == [] then []
    else if |s| <= 3 then [s]
    else [s[..3]] + Chunks(s[3..])
  }

  /** `[].concat(...chunks)`. */
  function Flatten(cs: seq<seq<real>>): seq<real>
    decreases |cs|
  {
    if cs == [] then [] else cs[0] + Flatten(cs[1..])
  }

  /** JavaScript's `Array.prototype.slice(i, j)` for `0 <= i <= j`: both ends clamp to the length. */
  function Slice(s: seq<real>, i: nat, j: nat): seq<real>
    requires i <= j
  {
    var lo := if i < |s| then i else |s|;
    var hi := if j < |s| then j else |s|;
    s[lo..hi]
  }

  /** Cutting into triples and flattening again gives the array back. */
  lemma {:induction false} FlattenChunks(s: seq<real>)
    ensures Flatten(Chunks(s)) == s
    decreases |s|
  {
    if s == [] {
    } else if |s| <= 3 {
      assert Flatten([s]) == s + Flatten([]);
    } else {
      FlattenChunks(s[3..]);
      assert Flatten(Chunks(s)) == s[..3] + Flatten(Chunks(s[3..]));
      assert s[..3] + s[3..] == s;
    }
  }

  /** There are ceil(n/3) chunks. */
  lemma {:induction false} ChunksLength(s: seq<real>)
    ensures |Chunks(s)| == (|s| + 2) / 3
    decreases |s|
  {
    if |s| > 3 {
      ChunksLength(s[3..]);
    }
  }

  /** Chunk k is the slice [3k, min(3k+3, n)). */
  lemma {:induction false} ChunkAt(s: seq<real>, k: nat)
    requires k < |Chunks(s)|
    ensures Chunks(s)[k] == Slice(s, 3 * k, 3 * k + 3)
    decreases k
  {
    if k > 0 {
      ChunkAt(s[3..], k - 1);
      assert Slice(s[3..], 3 * (k - 1), 3 * (k - 1) + 3) == Slice(s, 3 * k, 3 * k + 3);
    }
  }

  /** The shape of `Chunks`: ceil(n/3) chunks, chunk k being the slice [3k, min(3k+3, n)). */
  lemma ChunksShape(s: seq<real>)
    ensures |Chunks(s)| == (|s| + 2) / 3
    ensures forall k :: 0 <= k < |Chunks(s)| ==> Chunks(s)[k] == Slice(s, 3 * k, 3 * k + 3)
  {
    ChunksLength(s);
    forall k | 0 <= k < |Chunks(s)|
      ensures Chunks(s)[k] == Slice(s, 3 * k, 3 * k + 3)
    {
      ChunkAt(s, k);
    }
  }

  /** Every chunk but the last is a full triple; the last holds one to three values. */
  lemma OnlyLastChunkShort(s: seq<real>)
    ensures forall k :: 0 <= k < |Chunks(s)| - 1 ==> |Chunks(s)[k]| == 3
    ensures s != [] ==> 1 <= |Chunks(s)[|Chunks(s)| - 1]| <= 3
  {
    ChunksShape(s);
  }

  /**
   * `getHitsPositions`: push the slice [i, i+3) for i = 0, 3, 6, ... while
   * i is below the length.
   */
  method GetHitsPositions(positions: seq<real>) returns (hits: seq<seq<real>>)
    ensures |hits| == (|positions| + 2) / 3
    ensures forall k :: 0 <= k < |hits| ==> hits[k] == Slice(positions, 3 * k, 3 * k + 3)
    ensures hits == Chunks(positions)
  {
    hits := [];
    var i := 0;
    while i < |positions|
      invariant i == 3 * |hits|
      invariant i <= |positions| + 2
      invariant forall k :: 0 <= k < |hits| ==> hits[k] == Slice(positions, 3 * k, 3 * k + 3)
    {
      hits := hits + [Slice(positions, i, i + 3)];
      i := i + 3;
    }
    ChunksShape(positions);
  }

  // ---------------------------------------------------------------------------
  // Scene objects of the event-data group and how animateEvent treats them
  // ---------------------------------------------------------------------------

  /** `geometry.drawRange.count`; a fresh BufferGeometry draws an unbounded range. */
  datatype DrawCount = Count(n: nat) | Infinity

  /** TubeBufferGeometry is a BufferGeometry; a legacy Geometry is not. */
  datatype GeometryKind = TubeBuffer | PlainBuffer | Legacy

  /** `geometry.attributes.position`: its array (`values`) and its `count`. */
  datatype PositionAttribute = PositionAttribute(values: seq<real>, count: nat)

  datatype Geometry = Geometry(
    kind: GeometryKind,
    position: Option<PositionAttribute>,
    drawStart: nat,
    drawCount: DrawCount,
    boundsCenter: Vec3)

  /** One object met by `eventData.traverse`. */
  datatype SceneObject = SceneObject(
    name: string,
    geometry: Option<Geometry>,
    visible: bool,
    position: Vec3,
    scale: Vec3)

  /** What the traversal does with an object. */
  datatype Role =
    | DrawRangeReveal(count: nat)  // a Track whose draw range is tweened up to `count`
    | ScaleReveal                  // a Jet scaled out from 0.01
    | SphereReveal                 // a Hit or any other object with a geometry
    | NotAnimated

  /**
   * The traversal's classification: a Track needs a non-zero position count
   * and a BufferGeometry (six times the count for a tube); a Track without
   * them is left alone rather than handed to the sphere.
   */
  function RoleOf(o: SceneObject): (r: Role)
    ensures !r.NotAnimated? ==> o.geometry.Some?
  {
    match o.geometry
    case None => NotAnimated
    case Some(g) =>
      if o.name == "Track" then
        if g.position.Some? && g.position.value.count != 0 && g.kind != Legacy then
          DrawRangeReveal(if g.kind == TubeBuffer then g.position.value.count * 6 else g.position.value.count)
        else NotAnimated
      else if o.name == "Jet" then ScaleReveal
      else SphereReveal
  }

  /** A Hit's position array is read without a guard: every Hit with a geometry must have one. */
  predicate HitsReady(objs: seq<SceneObject>) {
    forall i :: 0 <= i < |objs| && objs[i].name == "Hit" && objs[i].geometry.Some? ==>
      objs[i].geometry.value.position.Some?
  }

  /** An object as the traversal leaves it. */
  function Prepared(o: SceneObject): SceneObject {
    match RoleOf(o)
    case DrawRangeReveal(_) => o.(geometry := Some(o.geometry.value.(drawStart := 0, drawCount := Count(0))))
    case SphereReveal =>
      if o.name == "Hit" then o.(geometry := Some(o.geometry.value.(position := None)))
      else o.(visible := false)
    case _ => o
  }

  function PreparedAll(objs: seq<SceneObject>): (r: seq<SceneObject>)
    ensures |r| == |objs|
  {
    seq(|objs|, i requires 0 <= i < |objs| => Prepared(objs[i]))
  }

  /** An entry of `objectsToAnimateWithSphere`: the object and the position captured for it. */
  datatype RevealTarget = RevealTarget(obj: nat, position: seq<real>)

  /**
   * The position captured for a sphere-revealed object: a Hit's whole position
   * array; otherwise its position, or its bounding-sphere centre when it sits
   * at the origin.
   */
  function TargetPosition(o: SceneObject): seq<real>
    requires RoleOf(o).SphereReveal?
    requires o.name == "Hit" ==> o.geometry.value.position.Some?
  {
    if o.name == "Hit" then o.geometry.value.position.value.values
    else if o.position != Vec3(0.0, 0.0, 0.0) then o.position.Coords()
    else o.geometry.value.boundsCenter.Coords()
  }

  /** The entries pushed while traversing `objs` (indices are positions in `objs`). */
  function RevealTargets(objs: seq<SceneObject>): seq<RevealTarget>
    requires HitsReady(objs)
    decreases |objs|
  {
    if objs == [] then []
    else
      var i := |objs| - 1;
      assert HitsReady(objs[..i]);
      RevealTargets(objs[..i]) +
      (if RoleOf(objs[i]).SphereReveal? then [RevealTarget(i, TargetPosition(objs[i]))] else [])
  }

  // ---------------------------------------------------------------------------
  // The sphere update (onAnimationSphereUpdate)
  // ---------------------------------------------------------------------------

  /** `hitsPositions.filter(containsPoint)`. */
  function Reached(cs: seq<seq<real>>, sphere: Sphere): seq<seq<real>>
    decreases |cs|
  {
    if cs == [] then []
    else (if sphere(cs[0]) then [cs[0]] else []) + Reached(cs[1..], sphere)
  }

  /** The update of one entry: a Hit gets the reached triples as its positions, anything else is shown once reached. */
  function ApplyTarget(objs: seq<SceneObject>, t: RevealTarget, sphere: Sphere): (r: seq<SceneObject>)
    ensures |r| == |objs|
  {
    if t.obj >= |objs| then objs
    else
      var o := objs[t.obj];
      if o.name == "Hit" then
        var reached := Reached(Chunks(t.position), sphere);
        if |reached| > 0 && o.geometry.Some? then
          var flat := Flatten(reached);
          objs[t.obj := o.(geometry := Some(o.geometry.value.(position := Some(PositionAttribute(flat, |flat| / 3)))))]
        else objs
      else if sphere(t.position) then objs[t.obj := o.(visible := true)]
      else objs
  }

  /** `objectsToAnimateWithSphere.forEach(...)`: the entries applied in order. */
  function ApplyReveal(objs: seq<SceneObject>, targets: seq<RevealTarget>, sphere: Sphere): (r: seq<SceneObject>)
    ensures |r| == |objs|
    decreases |targets|
  {
    if targets == [] then objs
    else ApplyTarget(ApplyReveal(objs, targets[..|targets| - 1], sphere), targets[|targets| - 1], sphere)
  }

  /** The filter keeps exactly the triples inside the sphere. */
  lemma {:induction false} ReachedMembers(cs: seq<seq<real>>, sphere: Sphere)
    ensures forall c :: c in Reached(cs, sphere) <==> c in cs && sphere(c)
    ensures |Reached(cs, sphere)| <= |cs|
    decreases |cs|
  {
    if cs != [] {
      ReachedMembers(cs[1..], sphere);
      assert cs == [cs[0]] + cs[1..];
    }
  }

  /** Once the sphere holds every triple, the filter keeps them all, in order. */
  lemma {:induction false} ReachedAll(cs: seq<seq<real>>, sphere: Sphere)
    requires forall k :: 0 <= k < |cs| ==> sphere(cs[k])
    ensures Reached(cs, sphere) == cs
    decreases |cs|
  {
    if cs != [] {
      ReachedAll(cs[1..], sphere);
    }
  }

  /**
   * The update of a Hit's entry: with no triple inside the sphere nothing
   * changes; otherwise the Hit's position attribute becomes the triples the
   * sphere contains, concatenated in their original order, and nothing else
   * changes. The membership conjunct is the content proved here; the other
   * two unfold ApplyTarget's Hit branch so that callers can use it as a
   * statement about sequences.
   */
  lemma HitRebuilt(objs: seq<SceneObject>, t: RevealTarget, sphere: Sphere)
    requires t.obj < |objs| && objs[t.obj].name == "Hit" && objs[t.obj].geometry.Some?
    ensures var reached := Reached(Chunks(t.position), sphere);
      && (forall c :: c in reached <==> c in Chunks(t.position) && sphere(c))
      && (reached == [] ==> ApplyTarget(objs, t, sphere) == objs)
      && (reached != [] ==>
            var o := objs[t.obj];
            var flat := Flatten(reached);
            ApplyTarget(objs, t, sphere) ==
              objs[t.obj := o.(geometry := Some(o.geometry.value.(position := Some(PositionAttribute(flat, |flat| / 3)))))])
  {
    ReachedMembers(Chunks(t.position), sphere);
  }

  /** The entries point at the objects they were pushed for, in traversal order. */
  lemma {:induction false} RevealTargetsAt(objs: seq<SceneObject>)
    requires HitsReady(objs)
    ensures forall k :: 0 <= k < |RevealTargets(objs)| ==> RevealTargets(objs)[k].obj < |objs|
    ensures forall k :: 0 <= k < |RevealTargets(objs)| ==>
      var i := RevealTargets(objs)[k].obj;
      RoleOf(objs[i]).SphereReveal? && RevealTargets(objs)[k].position == TargetPosition(objs[i])
    decreases |objs|
  {
    if objs != [] {
      var n := |objs| - 1;
      assert HitsReady(objs[..n]);
      RevealTargetsAt(objs[..n]);
    }
  }

  lemma PreparedAllSnoc(objs: seq<SceneObject>, x: SceneObject)
    ensures PreparedAll(objs + [x]) == PreparedAll(objs) + [Prepared(x)]
  {
  }

  lemma ApplyTargetSnoc(objs: seq<SceneObject>, y: SceneObject, t: RevealTarget, sphere: Sphere)
    requires t.obj < |objs|
    ensures ApplyTarget(objs + [y], t, sphere) == ApplyTarget(objs, t, sphere) + [y]
  {
    assert (objs + [y])[t.obj] == objs[t.obj];
    var o := objs[t.obj];
    if o.name == "Hit" {
      var reached := Reached(Chunks(t.position), sphere);
      if |reached| > 0 && o.geometry.Some? {
        var flat := Flatten(reached);
        var v := o.(geometry := Some(o.geometry.value.(position := Some(PositionAttribute(flat, |flat| / 3)))));
        assert (objs + [y])[t.obj := v] == objs[t.obj := v] + [y];
      }
    } else if sphere(t.position) {
      assert (objs + [y])[t.obj := o.(visible := true)] == objs[t.obj := o.(visible := true)] + [y];
    }
  }

  /** Entries for earlier objects leave an object appended after them alone. */
  lemma {:induction false} ApplyRevealSnoc(objs: seq<SceneObject>, y: SceneObject, targets: seq<RevealTarget>, sphere: Sphere)
    requires forall k :: 0 <= k < |targets| ==> targets[k].obj < |objs|
    ensures ApplyReveal(objs + [y], targets, sphere) == ApplyReveal(objs, targets, sphere) + [y]
    decreases |targets|
  {
    if targets != [] {
      var init := targets[..|targets| - 1];
      ApplyRevealSnoc(objs, y, init, sphere);
      ApplyTargetSnoc(ApplyReveal(objs, init, sphere), y, targets[|targets| - 1], sphere);
    }
  }

  /** What a sphere that holds the whole event does to a prepared object. */
  function Restored(o: SceneObject): SceneObject
    requires RoleOf(o).SphereReveal? && o.name == "Hit" ==> o.geometry.value.position.Some?
  {
    if RoleOf(o).SphereReveal? then
      if o.name == "Hit" then
        var values := o.geometry.value.position.value.values;
        if values == [] then Prepared(o)
        else o.(geometry := Some(o.geometry.value.(position := Some(PositionAttribute(values, |values| / 3)))))
      else o.(visible := true)
    else Prepared(o)
  }

  /** The sphere holds the position captured for the object, or all of a Hit's triples. */
  ghost predicate CoversObject(o: SceneObject, sphere: Sphere)
    requires RoleOf(o).SphereReveal? && o.name == "Hit" ==> o.geometry.value.position.Some?
  {
    RoleOf(o).SphereReveal? ==>
      if o.name == "Hit" then forall c :: c in Chunks(TargetPosition(o)) ==> sphere(c)
      else sphere(TargetPosition(o))
  }

  /** The sphere holds everything the traversal handed to it. */
  ghost predicate Covers(objs: seq<SceneObject>, sphere: Sphere)
    requires HitsReady(objs)
  {
    forall i :: 0 <= i < |objs| ==> CoversObject(objs[i], sphere)
  }

  /** The update of the last object's own entry restores it. */
  lemma RestoreLast(z: seq<SceneObject>, x: SceneObject, sphere: Sphere)
    requires RoleOf(x).SphereReveal? && (x.name == "Hit" ==> x.geometry.value.position.Some?)
    requires CoversObject(x, sphere)
    ensures ApplyTarget(z + [Prepared(x)], RevealTarget(|z|, TargetPosition(x)), sphere) == z + [Restored(x)]
  {
    if x.name == "Hit" {
      var values := x.geometry.value.position.value.values;
      var cs := Chunks(values);
      assert forall k :: 0 <= k < |cs| ==> sphere(cs[k]);
      ReachedAll(cs, sphere);
      FlattenChunks(values);
    }
  }

  /**
   * A sphere update that reaches everything undoes the preparation of the
   * sphere-revealed objects: the hidden objects are visible again and every
   * Hit gets all its positions back, in their order; Tracks and Jets keep
   * the state the traversal gave them.
   */
  lemma {:induction false} RevealRestores(objs: seq<SceneObject>, sphere: Sphere)
    requires HitsReady(objs) && Covers(objs, sphere)
    ensures var r := ApplyReveal(PreparedAll(objs), RevealTargets(objs), sphere);
      forall i :: 0 <= i < |objs| ==> r[i] == Restored(objs[i])
    decreases |objs|
  {
    if objs != [] {
      var n := |objs| - 1;
      var a := objs[..n];
      var x := objs[n];
      assert objs == a + [x];
      assert HitsReady(a);
      assert Covers(a, sphere) by {
        forall i | 0 <= i < |a| ensures objs[i] == a[i] { }
      }
      assert CoversObject(x, sphere);
      RevealRestores(a, sphere);
      RevealTargetsAt(a);
      PreparedAllSnoc(a, x);
      var init := RevealTargets(a);
      ApplyRevealSnoc(PreparedAll(a), Prepared(x), init, sphere);
      var z := ApplyReveal(PreparedAll(a), init, sphere);
      if RoleOf(x).SphereReveal? {
        var t := RevealTarget(n, TargetPosition(x));
        assert RevealTargets(objs) == init + [t];
        assert (init + [t])[..|init|] == init;
        RestoreLast(z, x, sphere);
      } else {
        assert RevealTargets(objs) == init;
      }
    }
  }

  /** onAnimationSphereUpdate: every entry of `objectsToAnimateWithSphere` checked against the sphere, in order. */
  method OnAnimationSphereUpdate(eventData: seq<SceneObject>, targets: seq<RevealTarget>, sphere: Sphere)
    returns (objs: seq<SceneObject>)
    ensures objs == ApplyReveal(eventData, targets, sphere)
  {
    objs := eventData;
    for k := 0 to |targets|
      invariant objs == ApplyReveal(eventData, targets[..k], sphere)
    {
      assert targets[..k + 1][..k] == targets[..k];
      var t := targets[k];
      if t.obj < |objs| {
        var o := objs[t.obj];
        if o.name == "Hit" {
          var hitsPositions := GetHitsPositions(t.position);
          var reachedHits := Reached(hitsPositions, sphere);
          if |reachedHits| > 0 && o.geometry.Some? {
            var flat := Flatten(reachedHits);
            var attribute := PositionAttribute(flat, |flat| / 3);
            objs := objs[t.obj := o.(geometry := Some(o.geometry.value.(position := Some(attribute))))];
          }
        } else if sphere(t.position) {
          objs := objs[t.obj := o.(visible := true)];
        }
      }
    }
    assert targets[..|targets|] == targets;
  }

  // ---------------------------------------------------------------------------
  // Tweens
  // ---------------------------------------------------------------------------

  datatype Easing = Linear | CubicOut | CubicIn | QuarticOut

  /**
   * A camera destination. `Orbit(i)` is the i-th point of the orbit,
   * (500 sin(i 3pi/24), 0, 500 cos(i 3pi/24)), kept symbolic.
   */
  datatype Waypoint = At(p: Vec3) | Orbit(step: nat)

  /** The object a tween animates and the end value it animates towards. */
  datatype Target =
    | CameraTo(to: Waypoint)
    | DrawCountTo(obj: nat, count: nat)
    | ScaleTo(obj: nat, scale: Vec3)
    | SphereRadiusTo(radius: real)
    | OpacityTo(material: nat, opacity: real)
    | ParticleZTo(particle: nat, z: real)

  /** Every closure the manager hands to tween.js, as data. */
  datatype Callback =
    | NoCallback                                                 // `undefined`
    | Caller(name: string)                                       // a callback supplied by the caller
    | RestoreDrawCount(obj: nat, count: DrawCount)               // a Track tween's onComplete
    | RevealUpdate(targets: seq<RevealTarget>)                   // onAnimationSphereUpdate
    | RescaleJet(obj: nat)                                       // a Jet tween's onUpdate
    | RemoveParticles(first: nat, second: nat, andThen: Callback) // the collision's onComplete
    | RevealEvent(duration: real, onEnd: Callback, onStart: Callback) // animateEvent, run after the collision
    | ShowEventData                                              // `allEventData.visible = true`

  /** A tween.js tween; `next` is the tween it is chained to. */
  datatype Tween = Tween(
    target: Target,
    duration: real,
    easing: Easing,
    delay: real,
    next: Option<nat>,
    onStart: Callback,
    onUpdate: Callback,
    onComplete: Callback)

  /** `new TWEEN.Tween(object).to(values, duration)`. */
  function NewTween(target: Target, duration: real): Tween {
    Tween(target, duration, Linear, 0.0, None, NoCallback, NoCallback, NoCallback)
  }

  /** `getCameraTween(pos, duration, easing)`; no easing leaves tween.js's linear one. */
  function CameraTween(to: Waypoint, duration: real, easing: Easing): Tween {
    NewTween(CameraTo(to), duration).(easing := easing)
  }

  /** Chain links point forward inside the registry (all links the manager makes do). */
  ghost predicate Forward(ts: seq<Tween>) {
    forall i :: 0 <= i < |ts| && ts[i].next.Some? ==> i < ts[i].next.value < |ts|
  }

  /** The tweens that run one after the other once tween `i` is started. */
  function ChainFrom(ts: seq<Tween>, i: nat): (ids: seq<nat>)
    requires Forward(ts) && i < |ts|
    ensures |ids| >= 1 && ids[0] == i
    decreases |ts| - i
  {
    match ts[i].next
    case None => [i]
    case Some(j) => [i] + ChainFrom(ts, j)
  }

  // ---------------------------------------------------------------------------
  // The camera fly-through (animateThroughEvent)
  // ---------------------------------------------------------------------------

  const OrbitSteps: nat := 24
  const OrbitRadius: real := 500.0
  const FlyThroughLength: nat := 29

  /** The destinations of the fly-through, in the order the chain visits them. */
  function FlyThroughWaypoints(startPos: Vec3): (w: seq<Waypoint>)
    ensures |w| == FlyThroughLength
  {
    [At(startPos), At(Vec3(0.0, 0.0, startPos.z)), At(Vec3(0.0, 0.0, OrbitRadius))]
    + seq(OrbitSteps, (i: nat) => Orbit(i + 1))
    + [At(Vec3(0.0, 0.0, -startPos.z)), At(startPos)]
  }

  /** Tween k of the fly-through, created as tween `base + k`. */
  function FlyThroughTween(startPos: Vec3, duration: real, onEnd: Callback, base: nat, k: nat): Tween
    requires k < FlyThroughLength
  {
    Tween(
      CameraTo(FlyThroughWaypoints(startPos)[k]),
      if k == 0 then 1000.0 else if 3 <= k < 27 then duration * 4.0 / (OrbitSteps as real) else duration,
      if k == 0 || k == 2 || k == 28 then CubicOut else if k == 27 then CubicIn else Linear,
      if k == 28 then 500.0 else 0.0,
      if k < 28 then Some(base + k + 1) else None,
      NoCallback,
      NoCallback,
      if k == 28 then onEnd else NoCallback)
  }

  function FlyThroughTweens(startPos: Vec3, duration: real, onEnd: Callback, base: nat): (r: seq<Tween>)
    ensures |r| == FlyThroughLength
  {
    seq(FlyThroughLength, k requires 0 <= k < FlyThroughLength => FlyThroughTween(startPos, duration, onEnd, base, k))
  }

  /** Tween k of the fly-through, spelled out by the part of the chain it belongs to. */
  lemma FlyThroughTweenAt(startPos: Vec3, duration: real, onEnd: Callback, base: nat, k: nat)
    requires k < FlyThroughLength
    ensures FlyThroughTweens(startPos, duration, onEnd, base)[k] == FlyThroughTween(startPos, duration, onEnd, base, k)
    ensures FlyThroughWaypoints(startPos)[k] ==
      if k == 0 || k == 28 then At(startPos)
      else if k == 1 then At(Vec3(0.0, 0.0, startPos.z))
      else if k == 2 then At(Vec3(0.0, 0.0, OrbitRadius))
      else if k == 27 then At(Vec3(0.0, 0.0, -startPos.z))
      else Orbit(k - 2)
  {
  }

  /** The first loop of animateThroughEvent: the orbit points 1 to 24. */
  method RotationPositions() returns (positions: seq<Waypoint>)
    ensures positions == seq(OrbitSteps, (j: nat) => Orbit(j + 1))
  {
    positions := [];
    var i: nat := 1;
    while i <= OrbitSteps
      invariant 1 <= i <= OrbitSteps + 1
      invariant positions == seq(i - 1, (j: nat) => Orbit(j + 1))
    {
      positions := positions + [Orbit(i)];
      i := i + 1;
    }
  }

  /**
   * The rotation loop of animateThroughEvent: a camera tween per position,
   * each chained to the one before, hung after tween `rotateStart`.
   */
  method ChainRotation(ts: seq<Tween>, rotateStart: nat, positions: seq<Waypoint>, duration: real)
    returns (ts': seq<Tween>, rotate: nat)
    requires rotateStart == |ts| - 1 && ts[rotateStart].next.None?
    ensures rotate == rotateStart + |positions| && |ts'| == rotate + 1
    ensures ts'[..rotateStart] == ts[..rotateStart]
    ensures ts'[rotateStart] == ts[rotateStart].(next := if positions == [] then None else Some(rotateStart + 1))
    ensures forall k :: 0 <= k < |positions| ==>
      ts'[rotateStart + 1 + k] == CameraTween(positions[k], duration, Linear).(next := if k + 1 < |positions| then Some(rotateStart + 2 + k) else None)
  {
    ts' := ts;
    rotate := rotateStart;
    for k := 0 to |positions|
      invariant rotate == rotateStart + k && |ts'| == rotate + 1
      invariant ts'[..rotateStart] == ts[..rotateStart]
      invariant ts'[rotateStart] == ts[rotateStart].(next := if k == 0 then None else Some(rotateStart + 1))
      invariant forall j :: 0 <= j < k ==>
        ts'[rotateStart + 1 + j] == CameraTween(positions[j], duration, Linear).(next := if j + 1 < k then Some(rotateStart + 2 + j) else None)
      invariant ts'[rotate].next.None?
    {
      var animation := |ts'|;
      ts' := ts' + [CameraTween(positions[k], duration, Linear)];
      ts' := ts'[rotate := ts'[rotate].(next := Some(animation))];
      rotate := animation;
    }
  }

  /** The tweens animateThroughEvent creates and links are exactly the fly-through plan. */
  lemma FlyThroughAssembled(prefix: seq<Tween>, unlinked: seq<Tween>, ts: seq<Tween>,
                            startPos: Vec3, duration: real, onEnd: Callback)
    requires |unlinked| == |prefix| + FlyThroughLength && unlinked[..|prefix|] == prefix
    requires unlinked[|prefix|] == CameraTween(At(startPos), 1000.0, CubicOut)
    requires unlinked[|prefix| + 1] == CameraTween(At(Vec3(0.0, 0.0, startPos.z)), duration, Linear)
    requires unlinked[|prefix| + 2] == CameraTween(At(Vec3(0.0, 0.0, OrbitRadius)), duration, CubicOut).(next := Some(|prefix| + 3))
    requires forall j :: |prefix| + 3 <= j < |prefix| + 27 ==>
      unlinked[j] == CameraTween(Orbit(j - |prefix| - 2), duration * 4.0 / (OrbitSteps as real), Linear)
                       .(next := if j < |prefix| + 26 then Some(j + 1) else None)
    requires unlinked[|prefix| + 27] == CameraTween(At(Vec3(0.0, 0.0, -startPos.z)), duration, CubicIn)
    requires unlinked[|prefix| + 28] == CameraTween(At(startPos), duration, CubicOut).(onComplete := onEnd, delay := 500.0)
    requires var b := |prefix|;
      ts == unlinked[b := unlinked[b].(next := Some(b + 1))]
                    [b + 1 := unlinked[b + 1].(next := Some(b + 2))]
                    [b + 26 := unlinked[b + 26].(next := Some(b + 27))]
                    [b + 27 := unlinked[b + 27].(next := Some(b + 28))]
    ensures ts == prefix + FlyThroughTweens(startPos, duration, onEnd, |prefix|)
  {
    var b := |prefix|;
    var plan := FlyThroughTweens(startPos, duration, onEnd, b);
    forall j | b <= j < |ts|
      ensures ts[j] == plan[j - b]
    {
      FlyThroughTweenAt(startPos, duration, onEnd, b, j - b);
    }
    assert ts == ts[..b] + ts[b..];
  }

  /** Appending the fly-through keeps every chain link pointing forward. */
  lemma FlyThroughForward(prefix: seq<Tween>, startPos: Vec3, duration: real, onEnd: Callback)
    requires Forward(prefix)
    ensures Forward(prefix + FlyThroughTweens(startPos, duration, onEnd, |prefix|))
  {
    var ts := prefix + FlyThroughTweens(startPos, duration, onEnd, |prefix|);
    forall i | 0 <= i < |ts| && ts[i].next.Some?
      ensures i < ts[i].next.value < |ts|
    {
      if i >= |prefix| {
        FlyThroughTweenAt(startPos, duration, onEnd, |prefix|, i - |prefix|);
      }
    }
  }

  /** From its k-th tween on, the fly-through runs the rest of its tweens in creation order. */
  lemma {:induction false} FlyThroughChainFrom(prefix: seq<Tween>, startPos: Vec3, duration: real, onEnd: Callback, k: nat)
    requires Forward(prefix) && k < FlyThroughLength
    ensures Forward(prefix + FlyThroughTweens(startPos, duration, onEnd, |prefix|))
    ensures ChainFrom(prefix + FlyThroughTweens(startPos, duration, onEnd, |prefix|), |prefix| + k)
            == seq(FlyThroughLength - k, j => |prefix| + k + j)
    decreases FlyThroughLength - k
  {
    FlyThroughForward(prefix, startPos, duration, onEnd);
    var ts := prefix + FlyThroughTweens(startPos, duration, onEnd, |prefix|);
    FlyThroughTweenAt(startPos, duration, onEnd, |prefix|, k);
    if k < FlyThroughLength - 1 {
      FlyThroughChainFrom(prefix, startPos, duration, onEnd, k + 1);
      assert ChainFrom(ts, |prefix| + k) == [|prefix| + k] + ChainFrom(ts, |prefix| + k + 1);
    }
  }

  /**
   * The fly-through is one linear chain of 29 camera tweens: started at its
   * first tween it visits the start position, the axis point, (0, 0, 500),
   * the 24 orbit points, the far point and the start position again, in that
   * order; the first takes 1000 ms, only the last waits 500 ms, and only the
   * last completes into onAnimationEnd.
   */
  lemma FlyThroughIsOneChain(prefix: seq<Tween>, startPos: Vec3, duration: real, onEnd: Callback)
    requires Forward(prefix)
    ensures var ts := prefix + FlyThroughTweens(startPos, duration, onEnd, |prefix|);
      && Forward(ts)
      && var chain := ChainFrom(ts, |prefix|);
      && chain == seq(FlyThroughLength, j => |prefix| + j)
      && (forall k :: 0 <= k < |chain| ==> ts[chain[k]].target == CameraTo(FlyThroughWaypoints(startPos)[k]))
      && ts[chain[0]].duration == 1000.0
      && (forall k :: 0 <= k < |chain| ==> (ts[chain[k]].delay == 500.0 <==> k == |chain| - 1))
      && (forall k :: 0 <= k < |chain| - 1 ==> ts[chain[k]].onComplete == NoCallback)
      && ts[chain[|chain| - 1]].onComplete == onEnd
  {
    FlyThroughChainFrom(prefix, startPos, duration, onEnd, 0);
    var ts := prefix + FlyThroughTweens(startPos, duration, onEnd, |prefix|);
    forall k | 0 <= k < FlyThroughLength
      ensures ts[|prefix| + k] == FlyThroughTween(startPos, duration, onEnd, |prefix|, k)
    {
      FlyThroughTweenAt(startPos, duration, onEnd, |prefix|, k);
    }
  }

  // ---------------------------------------------------------------------------
  // The reveal (animateEvent)
  // ---------------------------------------------------------------------------

  /** The object a Track or Jet tween animates. */
  function TweenedObject(t: Tween): Option<nat> {
    match t.target
    case DrawCountTo(obj, _) => Some(obj)
    case ScaleTo(obj, _) => Some(obj)
    case _ => None
  }

  /** The tween the traversal creates for object `i`, if any. */
  function TweenFor(i: nat, o: SceneObject, duration: real): seq<Tween> {
    match RoleOf(o)
    case DrawRangeReveal(count) =>
      [NewTween(DrawCountTo(i, count), duration).(easing := QuarticOut, onComplete := RestoreDrawCount(i, o.geometry.value.drawCount))]
    case ScaleReveal =>
      [NewTween(ScaleTo(i, o.scale), duration).(easing := QuarticOut, onUpdate := RescaleJet(i))]
    case _ => []
  }

  /** The Track and Jet tweens, in traversal order. */
  function ObjectTweens(objs: seq<SceneObject>, duration: real): seq<Tween>
    decreases |objs|
  {
    if objs == [] then []
    else
      var i := |objs| - 1;
      ObjectTweens(objs[..i], duration) + TweenFor(i, objs[i], duration)
  }

  /**
   * Every tween animateEvent creates, as tweens `base`, `base + 1`, ...: the
   * Track and Jet tweens, the sphere tween to radius 3000 chained to a second
   * one to radius 10000, the caller's onStart on the first tween pushed and
   * the caller's onEnd when the second sphere tween completes.
   */
  function RevealPlan(objs: seq<SceneObject>, duration: real, onEnd: Callback, onStart: Callback, base: nat): (r: seq<Tween>)
    requires HitsReady(objs)
    ensures |r| == |ObjectTweens(objs, duration * 0.75)| + 2
  {
    var objectTweens := ObjectTweens(objs, duration * 0.75);
    var targets := RevealTargets(objs);
    var sphere := NewTween(SphereRadiusTo(3000.0), duration * 0.75)
      .(easing := QuarticOut, next := Some(base + |objectTweens| + 1), onUpdate := RevealUpdate(targets));
    var sphereClone := NewTween(SphereRadiusTo(10000.0), duration * 0.25)
      .(onUpdate := RevealUpdate(targets), onComplete := onEnd);
    var plain := objectTweens + [sphere, sphereClone];
    plain[0 := plain[0].(onStart := onStart)]
  }

  /**
   * The callback animateEvent hands to `eventData.traverse` for the object
   * at traversal position `i`: the object as it leaves it, the tween it
   * pushes to `allTweens` and the entry it pushes for the sphere, if any.
   */
  method VisitObject(i: nat, o: SceneObject, duration: real)
    returns (prepared: SceneObject, tweens: seq<Tween>, entries: seq<RevealTarget>)
    requires o.name == "Hit" && o.geometry.Some? ==> o.geometry.value.position.Some?
    ensures prepared == Prepared(o)
    ensures tweens == TweenFor(i, o, duration)
    ensures entries == if RoleOf(o).SphereReveal? then [RevealTarget(i, TargetPosition(o))] else []
  {
    prepared, tweens, entries := o, [], [];
    if o.geometry.Some? {
      var g := o.geometry.value;
      if o.name == "Track" {
        if g.position.Some? && g.position.value.count != 0 {
          var geometryPosCount := g.position.value.count;
          if g.kind == TubeBuffer {
            geometryPosCount := geometryPosCount * 6;
          }
          if g.kind != Legacy {
            var oldDrawRangeCount := g.drawCount;
            prepared := o.(geometry := Some(g.(drawStart := 0, drawCount := Count(0))));
            var tween := NewTween(DrawCountTo(i, geometryPosCount), duration)
              .(onComplete := RestoreDrawCount(i, oldDrawRangeCount));
            tweens := [tween.(easing := QuarticOut)];
          }
        }
      } else if o.name == "Jet" {
        var scaleTween := NewTween(ScaleTo(i, o.scale), duration).(onUpdate := RescaleJet(i));
        tweens := [scaleTween.(easing := QuarticOut)];
      } else {
        var hasPosition := o.position != Vec3(0.0, 0.0, 0.0);
        var position := if hasPosition then o.position.Coords() else g.boundsCenter.Coords();
        if o.name == "Hit" {
          position := g.position.value.values;
          prepared := o.(geometry := Some(g.(position := None)));
        } else {
          prepared := o.(visible := false);
        }
        entries := [RevealTarget(i, position)];
      }
    }
  }

  /**
   * `eventData.traverse(...)` in animateEvent: each object as the traversal
   * leaves it, the Track and Jet tweens created on the way and the entries
   * pushed for the sphere.
   */
  method TraverseEventData(eventData: seq<SceneObject>, duration: real)
    returns (objs: seq<SceneObject>, objectTweens: seq<Tween>, targets: seq<RevealTarget>)
    requires HitsReady(eventData)
    ensures objs == PreparedAll(eventData)
    ensures objectTweens == ObjectTweens(eventData, duration)
    ensures targets == RevealTargets(eventData)
  {
    objs := eventData;
    objectTweens, targets := [], [];
    var i := 0;
    while i < |eventData|
      invariant 0 <= i <= |eventData| == |objs|
      invariant forall k :: 0 <= k < i ==> objs[k] == Prepared(eventData[k])
      invariant forall k :: i <= k < |objs| ==> objs[k] == eventData[k]
      invariant objectTweens == ObjectTweens(eventData[..i], duration)
      invariant targets == RevealTargets(eventData[..i])
    {
      assert eventData[..i + 1][..i] == eventData[..i];
      var prepared, tweens, entries := VisitObject(i, eventData[i], duration);
      objs := objs[i := prepared];
      objectTweens := objectTweens + tweens;
      targets := targets + entries;
      i := i + 1;
    }
    assert eventData[..i] == eventData;
  }

  /** `t` is the tween the traversal makes for the object it animates. */
  predicate MadeFor(objs: seq<SceneObject>, t: Tween, duration: real) {
    TweenedObject(t).Some? && TweenedObject(t).value < |objs|
    && [t] == TweenFor(TweenedObject(t).value, objs[TweenedObject(t).value], duration)
  }

  /** Both tweens animate objects, `a`'s one earlier in traversal order. */
  predicate Before(a: Tween, b: Tween) {
    TweenedObject(a).Some? && TweenedObject(b).Some? && TweenedObject(a).value < TweenedObject(b).value
  }

  /** Each of the traversal's tweens is the tween made for the object it animates. */
  lemma {:induction false} ObjectTweensAnimate(objs: seq<SceneObject>, duration: real)
    ensures forall k :: 0 <= k < |ObjectTweens(objs, duration)| ==> MadeFor(objs, ObjectTweens(objs, duration)[k], duration)
    decreases |objs|
  {
    if objs != [] {
      var n := |objs| - 1;
      var a := objs[..n];
      ObjectTweensAnimate(a, duration);
      var init := ObjectTweens(a, duration);
      var ot := ObjectTweens(objs, duration);
      assert ot == init + TweenFor(n, objs[n], duration);
      forall k | 0 <= k < |ot|
        ensures MadeFor(objs, ot[k], duration)
      {
        if k < |init| {
          assert MadeFor(a, init[k], duration);
          assert ot[k] == init[k] && objs[TweenedObject(init[k]).value] == a[TweenedObject(init[k]).value];
        }
      }
    }
  }

  /** The traversal's tweens follow traversal order, at most one per object. */
  lemma {:induction false} ObjectTweensOrdered(objs: seq<SceneObject>, duration: real)
    ensures forall k, l :: 0 <= k < l < |ObjectTweens(objs, duration)| ==>
      Before(ObjectTweens(objs, duration)[k], ObjectTweens(objs, duration)[l])
    decreases |objs|
  {
    if objs != [] {
      var n := |objs| - 1;
      var a := objs[..n];
      ObjectTweensOrdered(a, duration);
      ObjectTweensAnimate(a, duration);
      var init := ObjectTweens(a, duration);
      var ot := ObjectTweens(objs, duration);
      assert ot == init + TweenFor(n, objs[n], duration);
      forall k, l | 0 <= k < l < |ot|
        ensures Before(ot[k], ot[l])
      {
        assert ot[k] == init[k];
        assert MadeFor(a, init[k], duration);
        if l < |init| {
          assert ot[l] == init[l];
        }
      }
    }
  }

  /** Every object whose role animates it has its tween among the traversal's tweens. */
  lemma {:induction false} ObjectTweensComplete(objs: seq<SceneObject>, duration: real)
    ensures forall i :: 0 <= i < |objs| && TweenFor(i, objs[i], duration) != [] ==>
      TweenFor(i, objs[i], duration)[0] in ObjectTweens(objs, duration)
    decreases |objs|
  {
    if objs != [] {
      var n := |objs| - 1;
      var a := objs[..n];
      ObjectTweensComplete(a, duration);
      var ot := ObjectTweens(objs, duration);
      assert ot == ObjectTweens(a, duration) + TweenFor(n, objs[n], duration);
      forall i | 0 <= i < |objs| && TweenFor(i, objs[i], duration) != []
        ensures TweenFor(i, objs[i], duration)[0] in ot
      {
        if i < n {
          assert objs[i] == a[i];
        }
      }
    }
  }

  /** The traversal's tweens are not chained and have no onStart. */
  lemma ObjectTweensUnlinked(objs: seq<SceneObject>, duration: real)
    ensures forall k :: 0 <= k < |ObjectTweens(objs, duration)| ==>
      ObjectTweens(objs, duration)[k].next.None? && ObjectTweens(objs, duration)[k].onStart == NoCallback
  {
    ObjectTweensAnimate(objs, duration);
    var ot := ObjectTweens(objs, duration);
    forall k | 0 <= k < |ot|
      ensures ot[k].next.None? && ot[k].onStart == NoCallback
    {
      assert MadeFor(objs, ot[k], duration);
    }
  }

  /** The Track's geometry has a non-zero position count and is a BufferGeometry. */
  predicate AnimatedTrack(o: SceneObject) {
    var g := o.geometry;
    g.Some? && g.value.kind != Legacy && g.value.position.Some? && g.value.position.value.count != 0
  }

  /** A Track is animated exactly when its geometry has a non-zero position count and is a BufferGeometry. */
  lemma TrackTweened(objs: seq<SceneObject>, duration: real, i: nat)
    requires i < |objs| && objs[i].name == "Track"
    ensures (exists k :: 0 <= k < |ObjectTweens(objs, duration)| && TweenedObject(ObjectTweens(objs, duration)[k]) == Some(i))
      <==> AnimatedTrack(objs[i])
  {
    var ot := ObjectTweens(objs, duration);
    if exists k :: 0 <= k < |ot| && TweenedObject(ot[k]) == Some(i) {
      var k :| 0 <= k < |ot| && TweenedObject(ot[k]) == Some(i);
      ObjectTweensAnimate(objs, duration);
      assert MadeFor(objs, ot[k], duration);
      assert RoleOf(objs[i]).DrawRangeReveal?;
      assert AnimatedTrack(objs[i]);
      assert exists k' :: 0 <= k' < |ObjectTweens(objs, duration)| && TweenedObject(ObjectTweens(objs, duration)[k']) == Some(i);
    }
    if AnimatedTrack(objs[i]) {
      ObjectTweensComplete(objs, duration);
      assert TweenFor(i, objs[i], duration) != [];
      var t := TweenFor(i, objs[i], duration)[0];
      var k :| 0 <= k < |ot| && ot[k] == t;
      assert TweenedObject(ot[k]) == Some(i);
    }
  }

  /**
   * A Track's tween grows the draw range to its position count (six times
   * it for a tube) and on completion puts back the count the Track had.
   */
  lemma TrackTweenTargets(objs: seq<SceneObject>, duration: real, i: nat)
    requires i < |objs| && objs[i].name == "Track"
    ensures var ot := ObjectTweens(objs, duration);
      var g := objs[i].geometry;
      forall k :: 0 <= k < |ot| && TweenedObject(ot[k]) == Some(i) ==>
        && AnimatedTrack(objs[i])
        && var c := g.value.position.value.count;
        && ot[k].target == DrawCountTo(i, if g.value.kind == TubeBuffer then 6 * c else c)
        && ot[k].duration == duration
        && ot[k].onComplete == RestoreDrawCount(i, g.value.drawCount)
  {
    ObjectTweensAnimate(objs, duration);
    var ot := ObjectTweens(objs, duration);
    forall k | 0 <= k < |ot| && TweenedObject(ot[k]) == Some(i)
      ensures RoleOf(objs[i]).DrawRangeReveal? && [ot[k]] == TweenFor(i, objs[i], duration)
    {
      assert MadeFor(objs, ot[k], duration);
    }
  }

  /** A Track is never handed to the sphere, whatever its geometry. */
  lemma TrackNotRevealedBySphere(objs: seq<SceneObject>, i: nat)
    requires HitsReady(objs) && i < |objs| && objs[i].name == "Track"
    ensures forall k :: 0 <= k < |RevealTargets(objs)| ==> RevealTargets(objs)[k].obj != i
  {
    RevealTargetsAt(objs);
  }

  /**
   * The draw-range round trip: once a Track's tween completes, the Track has
   * the draw count it had before animateEvent again (the start of its range
   * stays at the 0 the traversal set); nothing else changes.
   */
  lemma DrawRangeRoundTrip(objs: seq<SceneObject>, duration: real, k: nat, sphere: Sphere, scale: real)
    requires k < |ObjectTweens(objs, duration)| && ObjectTweens(objs, duration)[k].target.DrawCountTo?
    ensures var t := ObjectTweens(objs, duration)[k];
      var i := t.target.obj;
      var prepared := PreparedAll(objs);
      && i < |objs| && objs[i].geometry.Some?
      && ObjectsAfter(prepared, t.onComplete, sphere, scale)
         == prepared[i := objs[i].(geometry := Some(objs[i].geometry.value.(drawStart := 0)))]
  {
    ObjectTweensAnimate(objs, duration);
    assert MadeFor(objs, ObjectTweens(objs, duration)[k], duration);
  }

  /** Appending the reveal plan keeps every chain link pointing forward. */
  lemma RevealPlanForward(prefix: seq<Tween>, objs: seq<SceneObject>, duration: real, onEnd: Callback, onStart: Callback)
    requires Forward(prefix) && HitsReady(objs)
    ensures Forward(prefix + RevealPlan(objs, duration, onEnd, onStart, |prefix|))
  {
    ObjectTweensUnlinked(objs, duration * 0.75);
    var ot := ObjectTweens(objs, duration * 0.75);
    var ts := prefix + RevealPlan(objs, duration, onEnd, onStart, |prefix|);
    forall j | |prefix| <= j < |prefix| + |ot|
      ensures ts[j].next.None?
    {
      assert ts[j].next == ot[j - |prefix|].next;
    }
  }

  /** The tweens animateEvent creates, with the callbacks it sets, are the reveal plan. */
  lemma RevealAssembled(objectTweens: seq<Tween>, plain: seq<Tween>, plan: seq<Tween>,
                        objs: seq<SceneObject>, duration: real, onEnd: Callback, onStart: Callback,
                        targets: seq<RevealTarget>, base: nat)
    requires HitsReady(objs)
    requires objectTweens == ObjectTweens(objs, duration * 0.75) && targets == RevealTargets(objs)
    requires plain == objectTweens
      + [NewTween(SphereRadiusTo(3000.0), duration * 0.75)
           .(easing := QuarticOut, next := Some(base + |objectTweens| + 1), onUpdate := RevealUpdate(targets)),
         NewTween(SphereRadiusTo(10000.0), duration * 0.25).(onUpdate := RevealUpdate(targets))]
    requires var started := plain[0 := plain[0].(onStart := onStart)];
      plan == started[|plain| - 1 := started[|plain| - 1].(onComplete := onEnd)]
    ensures plan == RevealPlan(objs, duration, onEnd, onStart, base)
  {
    var expected := RevealPlan(objs, duration, onEnd, onStart, base);
    assert |plan| == |expected|;
    forall k | 0 <= k < |plan|
      ensures plan[k] == expected[k]
    {
    }
  }

  /**
   * The tweens of animateEvent before any is started: the traversal's, then
   * the sphere tween chained to its clone, onAnimationStart on the first
   * tween pushed to `allTweens` and onEnd on the clone; `allTweens` lists the
   * tweens to start. Tween ids count from `base`.
   */
  method BuildReveal(eventData: seq<SceneObject>, tweenDuration: real, onEnd: Callback, onAnimationStart: Callback, base: nat)
    returns (objs: seq<SceneObject>, plan: seq<Tween>, allTweens: seq<nat>)
    requires HitsReady(eventData)
    ensures objs == PreparedAll(eventData)
    ensures plan == RevealPlan(eventData, tweenDuration, onEnd, onAnimationStart, base)
    ensures allTweens == RevealStarted(eventData, tweenDuration, base)
  {
    var extraAnimationSphereDuration := tweenDuration * 0.25;
    var duration := tweenDuration * 0.75;
    var objectTweens, targets;
    objs, objectTweens, targets := TraverseEventData(eventData, duration);
    allTweens := seq(|objectTweens|, k => base + k);
    var sphereId := base + |objectTweens|;
    var animationSphereTween := NewTween(SphereRadiusTo(3000.0), duration).(onUpdate := RevealUpdate(targets));
    var animationSphereTweenClone := NewTween(SphereRadiusTo(10000.0), extraAnimationSphereDuration)
      .(onUpdate := RevealUpdate(targets));
    animationSphereTween := animationSphereTween.(next := Some(sphereId + 1));
    allTweens := allTweens + [sphereId];
    animationSphereTween := animationSphereTween.(easing := QuarticOut);
    plan := objectTweens + [animationSphereTween, animationSphereTweenClone];
    ghost var plain := plan;
    var first := allTweens[0] - base;
    plan := plan[first := plan[first].(onStart := onAnimationStart)];
    var clone := |plan| - 1;
    plan := plan[clone := plan[clone].(onComplete := onEnd)];
    RevealAssembled(objectTweens, plain, plan, eventData, tweenDuration, onEnd, onAnimationStart, targets, base);
  }

  /** The ids animateEvent starts: every tween it pushed to `allTweens` (not the second sphere tween). */
  function RevealStarted(objs: seq<SceneObject>, duration: real, base: nat): seq<nat> {
    seq(|ObjectTweens(objs, duration * 0.75)| + 1, k => base + k)
  }
  /**
   * How the reveal runs once animateEvent has started its tweens: every
   * started tween is in the registry; the Track and Jet tweens each run
   * alone; the sphere tween to radius 3000 runs into its clone to radius
   * 10000, which nobody starts directly and which takes the remaining quarter
   * of the duration; both update the objects from the same entries;
   * onAnimationStart is on the first tween only and onEnd on the clone only.
   */
  lemma RevealPlanRuns(prefix: seq<Tween>, objs: seq<SceneObject>, duration: real, onEnd: Callback, onStart: Callback)
    requires Forward(prefix) && HitsReady(objs)
    ensures var ts := prefix + RevealPlan(objs, duration, onEnd, onStart, |prefix|);
      var b := |prefix|;
      var n := |ObjectTweens(objs, duration * 0.75)|;
      var started := RevealStarted(objs, duration, b);
      && Forward(ts) && |ts| == b + n + 2
      && (forall k :: 0 <= k < |started| ==> started[k] < b + n + 1)
      && (forall j :: b <= j < b + n ==> ChainFrom(ts, j) == [j])
      && ChainFrom(ts, b + n) == [b + n, b + n + 1]
      && ts[b + n].target == SphereRadiusTo(3000.0) && ts[b + n + 1].target == SphereRadiusTo(10000.0)
      && ts[b + n].duration + ts[b + n + 1].duration == duration
      && ts[b + n].onUpdate == ts[b + n + 1].onUpdate == RevealUpdate(RevealTargets(objs))
      && ts[b].onStart == onStart && (forall k :: b < k < |ts| ==> ts[k].onStart == NoCallback)
      && ts[b + n + 1].onComplete == onEnd && ts[b + n].onComplete == NoCallback
  {
    RevealPlanForward(prefix, objs, duration, onEnd, onStart);
    ObjectTweensUnlinked(objs, duration * 0.75);
    var ts := prefix + RevealPlan(objs, duration, onEnd, onStart, |prefix|);
    var b := |prefix|;
    var ot := ObjectTweens(objs, duration * 0.75);
    var n := |ot|;
    forall j | b <= j < b + n
      ensures ts[j].next.None? && ChainFrom(ts, j) == [j]
      ensures j > b ==> ts[j].onStart == NoCallback
    {
      assert ts[j].next == ot[j - b].next;
      if j > b {
        assert ts[j] == ot[j - b];
      }
    }
  }

  // ---------------------------------------------------------------------------
  // Properties of the sphere update
  // ---------------------------------------------------------------------------

  /**
   * The sphere update only ever shows things: it never hides an object; an
   * object that is not a Hit changes at most in visibility, and only once an
   * entry for it lies inside the sphere; a Hit changes at most in its
   * geometry, which it keeps.
   */
  lemma {:induction false} RevealNeverHides(objs: seq<SceneObject>, targets: seq<RevealTarget>, sphere: Sphere)
    ensures var r := ApplyReveal(objs, targets, sphere);
      forall i :: 0 <= i < |objs| ==>
        && (objs[i].visible ==> r[i].visible)
        && (objs[i].name != "Hit" ==> r[i] == objs[i].(visible := r[i].visible))
        && (objs[i].name == "Hit" ==> r[i] == objs[i].(geometry := r[i].geometry) && (r[i].geometry.Some? <==> objs[i].geometry.Some?))
        && (r[i].visible != objs[i].visible ==>
              exists k :: 0 <= k < |targets| && targets[k].obj == i && sphere(targets[k].position))
    decreases |targets|
  {
    if targets != [] {
      var init := targets[..|targets| - 1];
      var t := targets[|targets| - 1];
      RevealNeverHides(objs, init, sphere);
      var r0 := ApplyReveal(objs, init, sphere);
      var r := ApplyReveal(objs, targets, sphere);
      assert r == ApplyTarget(r0, t, sphere);
      forall i | 0 <= i < |objs| && r[i].visible != objs[i].visible
        ensures exists k :: 0 <= k < |targets| && targets[k].obj == i && sphere(targets[k].position)
      {
        if r0[i].visible != objs[i].visible {
          var k :| 0 <= k < |init| && init[k].obj == i && sphere(init[k].position);
          assert targets[k] == init[k];
        } else {
          assert targets[|targets| - 1].obj == i && sphere(t.position);
        }
      }
    }
  }

  // ---------------------------------------------------------------------------
  // Properties of the Jet rescale
  // ---------------------------------------------------------------------------

  /** After an update the Jet sits where its position stands to its scale as before. */
  lemma RescaledProportional(o: SceneObject, s: real)
    requires o.scale.x != 0.0
    ensures var r := Rescaled(o, s);
      && r.scale == Vec3(s, s, s)
      && r.position.x * o.scale.x == o.position.x * s
      && r.position.y * o.scale.x == o.position.y * s
      && r.position.z * o.scale.x == o.position.z * s
  {
    var x := o.scale.x;
    assert o.position.x / x * s * x == o.position.x * s;
    assert o.position.y / x * s * x == o.position.y * s;
    assert o.position.z / x * s * x == o.position.z * s;
  }

  lemma CancelFactor(q: real, s1: real, s2: real)
    requires s1 != 0.0
    ensures q * s1 / s1 * s2 == q * s2
  {
    assert q * s1 / s1 == q;
  }

  /** Updates do not accumulate: the position after two updates is the one the last alone gives. */
  lemma RescaledComposes(o: SceneObject, s1: real, s2: real)
    requires o.scale.x != 0.0 && s1 != 0.0
    ensures Rescaled(Rescaled(o, s1), s2) == Rescaled(o, s2)
  {
    var x := o.scale.x;
    var p := o.position;
    var r1 := Rescaled(o, s1);
    assert r1.scale.x == s1 && r1.position == Vec3(p.x / x * s1, p.y / x * s1, p.z / x * s1);
    CancelFactor(p.x / x, s1, s2);
    CancelFactor(p.y / x, s1, s2);
    CancelFactor(p.z / x, s1, s2);
    assert Rescaled(r1, s2).position == Rescaled(o, s2).position;
  }


  // ---------------------------------------------------------------------------
  // The particle collision
  // ---------------------------------------------------------------------------

  /**
   * A collision particle in the scene. `particle1.clone()` shares its material,
   * so both particles carry the material of the first.
   */
  datatype Particle = Particle(z: real, size: real, color: nat, material: nat)

  const White: nat := 0xffffff

  /** The four tweens collideParticles starts: a fade-in and a move to the origin per particle. */
  function ParticleTweens(p1: nat, p2: nat, duration: real): seq<Tween> {
    [ NewTween(OpacityTo(p1, 1.0), 300.0),
      NewTween(ParticleZTo(p1, 0.0), duration),
      NewTween(OpacityTo(p1, 1.0), 300.0),
      NewTween(ParticleZTo(p2, 0.0), duration) ]
  }

  /** The same, once the first particle's move is given its onComplete. */
  function CollisionTweens(p1: nat, p2: nat, duration: real, onEnd: Callback): seq<Tween> {
    var ts := ParticleTweens(p1, p2, duration);
    ts[1 := ts[1].(onComplete := RemoveParticles(p1, p2, onEnd))]
  }

  // ---------------------------------------------------------------------------
  // What a callback does when tween.js runs it
  // ---------------------------------------------------------------------------

  /** Effects that a callback makes observable outside the scene's state. */
  datatype Effect = Called(name: string) | ParticlesRemoved(first: nat, second: nat)

  /** Whether running the callback would start animateEvent (which needs `HitsReady`). */
  predicate Launches(cb: Callback) {
    match cb
    case RevealEvent(_, _, _) => true
    case RemoveParticles(_, _, next) => Launches(next)
    case _ => false
  }

  /** Whether running the callback makes the event-data group visible. */
  predicate ShowsEventData(cb: Callback) {
    match cb
    case ShowEventData => true
    case RemoveParticles(_, _, next) => ShowsEventData(next)
    case _ => false
  }

  function RemovedBy(cb: Callback): set<nat> {
    match cb
    case RemoveParticles(a, b, next) => {a, b} + RemovedBy(next)
    case _ => {}
  }

  function EffectsOf(cb: Callback): seq<Effect> {
    match cb
    case Caller(name) => [Called(name)]
    case RemoveParticles(a, b, next) => [ParticlesRemoved(a, b)] + EffectsOf(next)
    case _ => []
  }

  /**
   * A Jet after one update of its scale tween to `s`: the scale set to s on
   * all axes and the position divided by the previous x scale and multiplied
   * by s, so that the Jet keeps its direction from the origin.
   */
  function Rescaled(o: SceneObject, s: real): SceneObject {
    var p := o.position;
    var prev := o.scale.x;
    o.(scale := Vec3(s, s, s),
       position := if prev == 0.0 then p else Vec3(p.x / prev * s, p.y / prev * s, p.z / prev * s))
  }

  /**
   * The event-data objects after the callback runs; `sphere` and `scale` are
   * the values an onUpdate callback receives from its tween at this frame.
   */
  function ObjectsAfter(objs: seq<SceneObject>, cb: Callback, sphere: Sphere, scale: real): seq<SceneObject> {
    match cb
    case RestoreDrawCount(obj, count) =>
      if obj < |objs| && objs[obj].geometry.Some? then
        objs[obj := objs[obj].(geometry := Some(objs[obj].geometry.value.(drawCount := count)))]
      else objs
    case RevealUpdate(targets) => ApplyReveal(objs, targets, sphere)
    case RescaleJet(obj) => if obj < |objs| then objs[obj := Rescaled(objs[obj], scale)] else objs
    case RemoveParticles(_, _, next) => ObjectsAfter(objs, next, sphere, scale)
    case RevealEvent(_, _, _) => PreparedAll(objs)
    case _ => objs
  }

  /** The tween registry after the callback runs. */
  function TweensAfter(ts: seq<Tween>, objs: seq<SceneObject>, cb: Callback): seq<Tween>
    requires Launches(cb) ==> HitsReady(objs)
  {
    match cb
    case RemoveParticles(_, _, next) => TweensAfter(ts, objs, next)
    case RevealEvent(d, onEnd, onStart) => ts + RevealPlan(objs, d, onEnd, onStart, |ts|)
    case _ => ts
  }

  /** The started tweens after the callback runs. */
  function StartedAfter(started: seq<nat>, ts: seq<Tween>, objs: seq<SceneObject>, cb: Callback): seq<nat> {
    match cb
    case RemoveParticles(_, _, next) => StartedAfter(started, ts, objs, next)
    case RevealEvent(d, _, _) => started + RevealStarted(objs, d, |ts|)
    case _ => started
  }

  /**
   * The particles a collision adds are the ones its onComplete takes away
   * again (fresh ids are above every id in the scene).
   */
  lemma CollisionCleansUp(scene: map<nat, Particle>, count: nat, a: Particle, b: Particle, onEnd: Callback)
    requires forall id :: id in scene ==> id < count
    ensures scene[count := a][count + 1 := b] - RemovedBy(RemoveParticles(count, count + 1, onEnd)) == scene - RemovedBy(onEnd)
  {
    var added := scene[count := a][count + 1 := b];
    var removed := RemovedBy(RemoveParticles(count, count + 1, onEnd));
    assert count !in scene && count + 1 !in scene;
    assert forall id :: id in added - removed <==> id in scene - RemovedBy(onEnd);
  }

  /**
   * The hand-over of animateEventWithCollision: when the particles meet, the
   * callback removes them and starts the reveal; it does not show the event
   * data and does not run onEnd itself: the event data comes back when the
   * reveal's first tween starts, and onEnd runs when its last one completes.
   */
  lemma CollisionHandsOverToReveal(ts: seq<Tween>, objs: seq<SceneObject>, duration: real, onEnd: Callback, p1: nat, p2: nat)
    requires HitsReady(objs)
    ensures var cb := RemoveParticles(p1, p2, RevealEvent(duration, onEnd, ShowEventData));
      var plan := RevealPlan(objs, duration, onEnd, ShowEventData, |ts|);
      && Launches(cb) && !ShowsEventData(cb)
      && EffectsOf(cb) == [ParticlesRemoved(p1, p2)]
      && TweensAfter(ts, objs, cb) == ts + plan
      && plan[0].onStart == ShowEventData
      && plan[|plan| - 1].onComplete == onEnd
  {
  }

  // ---------------------------------------------------------------------------
  // The manager
  // ---------------------------------------------------------------------------

  /**
   * AnimationsManager with the state it reaches through the scene manager and
   * tween.js: the tween registry, the tweens started, the event-data group
   * (flattened in traversal order), the collision particles in the scene and
   * the record of effects callbacks had.
   */
  class AnimationsManager {
    var tweens: seq<Tween>
    var started: seq<nat>
    var eventData: seq<SceneObject>
    var eventDataVisible: bool
    var particles: map<nat, Particle>
    var particleCount: nat
    var trace: seq<Effect>

    ghost predicate Valid()
      reads this
    {
      && Forward(tweens)
      && (forall k :: 0 <= k < |started| ==> started[k] < |tweens|)
      && (forall id :: id in particles ==> id < particleCount)
    }

    constructor (eventData: seq<SceneObject>)
      ensures Valid()
      ensures this.eventData == eventData && eventDataVisible
      ensures tweens == [] && started == [] && particles == map[] && particleCount == 0 && trace == []
    {
      this.eventData := eventData;
      eventDataVisible := true;
      tweens, started := [], [];
      particles, particleCount := map[], 0;
      trace := [];
    }

    /**
     * animateThroughEvent: one chain start, along the axis, to (0, 0, 500),
     * round the 24 orbit points, to the far side and back to the start after
     * half a second; only its first tween is started.
     */
    method AnimateThroughEvent(startPos: Vec3, tweenDuration: real, onAnimationEnd: Callback)
      requires Valid()
      modifies this`tweens, this`started
      ensures Valid()
      ensures tweens == old(tweens) + FlyThroughTweens(startPos, tweenDuration, onAnimationEnd, |old(tweens)|)
      ensures started == old(started) + [|old(tweens)|]
    {
      var ts := tweens;
      var start := |ts|;
      ts := ts + [CameraTween(At(startPos), 1000.0, CubicOut)];
      var alongAxisPosition := Vec3(0.0, 0.0, startPos.z);
      var startXAxis := |ts|;
      ts := ts + [CameraTween(At(alongAxisPosition), tweenDuration, Linear)];
      var rotationPositions := RotationPositions();
      var rotateStart := |ts|;
      ts := ts + [CameraTween(At(Vec3(0.0, 0.0, OrbitRadius)), tweenDuration, CubicOut)];
      var rotationTime := tweenDuration * 4.0;
      var singleRotationTime := rotationTime / (OrbitSteps as real);
      var rotate;
      ts, rotate := ChainRotation(ts, rotateStart, rotationPositions, singleRotationTime);
      ghost var orbit := ts;
      var endPos := Vec3(0.0, 0.0, -startPos.z);
      var end := |ts|;
      ts := ts + [CameraTween(At(endPos), tweenDuration, CubicIn)];
      var startClone := |ts|;
      ts := ts + [CameraTween(At(startPos), tweenDuration, CubicOut)];
      ts := ts[startClone := ts[startClone].(onComplete := onAnimationEnd)];
      ts := ts[startClone := ts[startClone].(delay := 500.0)];
      ghost var unlinked := ts;
      assert unlinked[..startClone] == orbit + [CameraTween(At(endPos), tweenDuration, CubicIn)];
      forall j | rotateStart + 1 <= j < rotateStart + 25
        ensures unlinked[j] == CameraTween(Orbit(j - |tweens| - 2), tweenDuration * 4.0 / (OrbitSteps as real), Linear)
                                 .(next := if j < |tweens| + 26 then Some(j + 1) else None)
      {
        var k := j - rotateStart - 1;
        assert unlinked[j] == orbit[rotateStart + 1 + k];
        assert rotationPositions[k] == Orbit(k + 1);
      }
      ts := ts[start := ts[start].(next := Some(startXAxis))];
      ts := ts[startXAxis := ts[startXAxis].(next := Some(rotateStart))];
      ts := ts[rotate := ts[rotate].(next := Some(end))];
      ts := ts[end := ts[end].(next := Some(startClone))];
      FlyThroughAssembled(tweens, unlinked, ts, startPos, tweenDuration, onAnimationEnd);
      tweens := ts;
      started := started + [start];
    }

    /**
     * animateEvent: traverse the event data, hiding what the sphere is to
     * reveal and creating the Track and Jet tweens, then add the two sphere
     * tweens and start everything but the second one.
     */
    method AnimateEvent(tweenDuration: real, onEnd: Callback, onAnimationStart: Callback)
      requires Valid() && HitsReady(eventData)
      modifies this`tweens, this`started, this`eventData
      ensures Valid()
      ensures eventData == PreparedAll(old(eventData))
      ensures tweens == old(tweens) + RevealPlan(old(eventData), tweenDuration, onEnd, onAnimationStart, |old(tweens)|)
      ensures started == old(started) + RevealStarted(old(eventData), tweenDuration, |old(tweens)|)
    {
      var objs, plan, allTweens := BuildReveal(eventData, tweenDuration, onEnd, onAnimationStart, |tweens|);
      var st := started;
      for k := 0 to |allTweens|
        invariant st == started + allTweens[..k]
      {
        st := st + [allTweens[k]];
      }
      assert allTweens[..|allTweens|] == allTweens;
      RevealPlanForward(tweens, eventData, tweenDuration, onEnd, onAnimationStart);
      tweens, started, eventData := tweens + plan, st, objs;
    }

    /**
     * tween.js running a callback. `sphere` is the animation sphere an
     * onUpdate of a sphere tween receives and `scale` the value a Jet's scale
     * tween passes to its onUpdate; the other callbacks ignore them.
     */
    method Invoke(cb: Callback, sphere: Sphere, scale: real)
      requires Valid() && (Launches(cb) ==> HitsReady(eventData))
      modifies this
      ensures Valid()
      ensures eventData == ObjectsAfter(old(eventData), cb, sphere, scale)
      ensures tweens == TweensAfter(old(tweens), old(eventData), cb)
      ensures started == StartedAfter(old(started), old(tweens), old(eventData), cb)
      ensures eventDataVisible == (old(eventDataVisible) || ShowsEventData(cb))
      ensures particles == old(particles) - RemovedBy(cb) && particleCount == old(particleCount)
      ensures trace == old(trace) + EffectsOf(cb)
      decreases cb
    {
      match cb
      case NoCallback =>
      case Caller(name) =>
        trace := trace + [Called(name)];
      case RestoreDrawCount(obj, count) =>
        if obj < |eventData| && eventData[obj].geometry.Some? {
          var o := eventData[obj];
          eventData := eventData[obj := o.(geometry := Some(o.geometry.value.(drawCount := count)))];
        }
      case RevealUpdate(targets) =>
        eventData := OnAnimationSphereUpdate(eventData, targets, sphere);
      case RescaleJet(obj) =>
        if obj < |eventData| {
          var o := eventData[obj];
          var previousScale := o.scale.x;
          var position := o.position;
          if previousScale != 0.0 {
            position := Vec3(position.x / previousScale, position.y / previousScale, position.z / previousScale);
            position := Vec3(position.x * scale, position.y * scale, position.z * scale);
          }
          assert o.(scale := Vec3(scale, scale, scale), position := position) == Rescaled(o, scale);
          eventData := eventData[obj := o.(scale := Vec3(scale, scale, scale), position := position)];
        }
      case RemoveParticles(first, second, andThen) =>
        particles := particles - {first, second};
        trace := trace + [ParticlesRemoved(first, second)];
        Invoke(andThen, sphere, scale);
      case RevealEvent(duration, onEnd, onStart) =>
        AnimateEvent(duration, onEnd, onStart);
      case ShowEventData =>
        eventDataVisible := true;
    }

    /**
     * collideParticles: two particles of one material, at z = +distance and
     * z = -distance, each fading in over 300 ms and moving to the origin; the
     * first one's arrival removes both and runs onEnd.
     */
    method CollideParticles(tweenDuration: real, particleSize: real, distanceFromOrigin: real,
                            particleColor: Option<nat>, onEnd: Callback)
      requires Valid()
      modifies this`particles, this`particleCount, this`tweens, this`started
      ensures Valid()
      ensures var p1 := old(particleCount);
        var color := particleColor.GetOr(White);
        && particles == old(particles)[p1 := Particle(distanceFromOrigin, particleSize, color, p1)]
                                      [p1 + 1 := Particle(-distanceFromOrigin, particleSize, color, p1)]
        && particleCount == p1 + 2
        && tweens == old(tweens) + CollisionTweens(p1, p1 + 1, tweenDuration, onEnd)
        && started == old(started) + seq(4, k => |old(tweens)| + k)
    {
      var color := particleColor.GetOr(White);
      var particle1 := particleCount;
      var particle2 := particleCount + 1;
      particles := particles[particle1 := Particle(distanceFromOrigin, particleSize, color, particle1)];
      particles := particles[particle2 := Particle(-distanceFromOrigin, particleSize, color, particle1)];
      particleCount := particleCount + 2;
      var ps := [particle1, particle2];
      var scene := particles;
      var registry := tweens;
      var ts := tweens;
      var st := started;
      var particleTweens: seq<nat> := [];
      for k := 0 to |ps|
        invariant |ts| == |registry| + 2 * k
        invariant ts == registry + ParticleTweens(particle1, particle2, tweenDuration)[..2 * k]
        invariant st == old(started) + seq(2 * k, j => |registry| + j)
        invariant particleTweens == seq(k, j => |registry| + 2 * j + 1)
      {
        ghost var plan := ParticleTweens(particle1, particle2, tweenDuration);
        assert plan[..2 * k + 2] == plan[..2 * k] + [plan[2 * k], plan[2 * k + 1]];
        assert scene[ps[k]].material == particle1;
        var fadeIn := NewTween(OpacityTo(scene[ps[k]].material, 1.0), 300.0);
        st := st + [|ts|];
        ts := ts + [fadeIn];
        var particleToOrigin := NewTween(ParticleZTo(ps[k], 0.0), tweenDuration);
        st := st + [|ts|];
        particleTweens := particleTweens + [|ts|];
        ts := ts + [particleToOrigin];
      }
      var first := particleTweens[0];
      ts := ts[first := ts[first].(onComplete := RemoveParticles(particle1, particle2, onEnd))];
      assert ts == registry + CollisionTweens(particle1, particle2, tweenDuration, onEnd);
      tweens, started := ts, st;
    }

    /**
     * animateEventWithCollision: hide the event data, collide two particles
     * (1500 ms, size 20, 5000 from the origin, in the colour of the Track
     * material if one is found) and, once they meet, reveal the event, showing
     * the event data again when the reveal's first tween starts.
     */
    method AnimateEventWithCollision(tweenDuration: real, trackColor: Option<nat>, onEnd: Callback)
      requires Valid()
      modifies this`eventDataVisible, this`particles, this`particleCount, this`tweens, this`started
      ensures Valid()
      ensures !eventDataVisible
      ensures var p1 := old(particleCount);
        var color := trackColor.GetOr(White);
        && particles == old(particles)[p1 := Particle(5000.0, 20.0, color, p1)][p1 + 1 := Particle(-5000.0, 20.0, color, p1)]
        && particleCount == p1 + 2
        && tweens == old(tweens) + CollisionTweens(p1, p1 + 1, 1500.0, RevealEvent(tweenDuration, onEnd, ShowEventData))
        && started == old(started) + seq(4, k => |old(tweens)| + k)
    {
      eventDataVisible := false;
      CollideParticles(1500.0, 20.0, 5000.0, trackColor, RevealEvent(tweenDuration, onEnd, ShowEventData));
    }
  }
}
