/**
 * The AR target engine of the "Web AR Hunter" challenge: placing three
 * virtual objects around the player, tracking the device orientation,
 * projecting each object onto the camera view, and counting captures
 * until the challenge is complete.
 *
 * Angles are degrees, modelled as `real`. JavaScript's `%` on numbers is a
 * truncated remainder (its sign follows the dividend), written out here as
 * `JsRem360`; floating-point rounding is not modelled.
 */
module ArHunter {
  import opened Common

  /** Number of objects to capture. */
  const TARGET_COUNT: nat := 3
  /** Horizontal and vertical field of view of the camera view, in degrees. */
  const FOV_H: real := 50.0
  const FOV_V: real := 45.0

  // ---------------------------------------------------------------------
  // Angle arithmetic
  // ---------------------------------------------------------------------

  /** Integer part of `x`, rounding toward zero (the quotient JavaScript's `%` uses). */
  function Trunc(x: real): (n: int)
    ensures x >= 0.0 ==> 0 <= n && n as real <= x < n as real + 1.0
    ensures x < 0.0 ==> n <= 0 && n as real - 1.0 < x <= n as real
  {
    if x >= 0.0 then x.Floor else -((-x).Floor)
  }

  /** `a % 360` as JavaScript evaluates it on numbers. */
  function JsRem360(a: real): (r: real)
    ensures a >= 0.0 ==> 0.0 <= r < 360.0
    ensures a < 0.0 ==> -360.0 < r <= 0.0
    ensures Congruent360(r, a)
  {
    var t := Trunc(a / 360.0);
    var r := a - t as real * 360.0;
    assert (r - a) / 360.0 == (-t) as real;
    r
  }

  /** `x` and `y` differ by a whole number of turns. */
  ghost predicate Congruent360(x: real, y: real) {
    ((x - y) / 360.0).Floor as real == (x - y) / 360.0
  }

  lemma CongruentSymmetric(x: real, y: real)
    requires Congruent360(x, y)
    ensures Congruent360(y, x)
  {
    var q := (x - y) / 360.0;
    assert (y - x) / 360.0 == -q;
    assert (-q).Floor == -(q.Floor);
  }

  lemma {:induction false} CongruentTransitive(x: real, y: real, z: real)
    requires Congruent360(x, y) && Congruent360(y, z)
    ensures Congruent360(x, z)
  {
    var p, q := (x - y) / 360.0, (y - z) / 360.0;
    assert (x - z) / 360.0 == p + q;
    assert (p.Floor + q.Floor) as real == p + q;
    assert (p + q).Floor == p.Floor + q.Floor;
  }

  /** Two angles of one turn that differ by whole turns are equal. */
  lemma {:induction false} CongruentInTurnEqual(x: real, y: real)
    requires 0.0 <= x < 360.0 && 0.0 <= y < 360.0
    requires Congruent360(x, y)
    ensures x == y
  {
    var q := (x - y) / 360.0;
    assert -1.0 < q < 1.0;
    assert q.Floor == 0 || q.Floor == -1;
  }

  lemma CongruentShift(x: real, k: int)
    ensures Congruent360(x + k as real * 360.0, x)
  {
    assert (x + k as real * 360.0 - x) / 360.0 == k as real;
  }

  /** `wrapAngle`: the angle of one turn, [0, 360), that `a` points at. */
  function WrapAngle(a: real): (r: real)
    ensures 0.0 <= r < 360.0
    ensures Congruent360(r, a)
  {
    var inner := JsRem360(a);
    var r := JsRem360(inner + 360.0);
    CongruentShift(inner, 1);
    CongruentTransitive(r, inner + 360.0, inner);
    CongruentTransitive(r, inner, a);
    r
  }

  /** WrapAngle is the only angle of one turn congruent to its argument. */
  lemma {:induction false} WrapAngleUnique(a: real, r: real)
    requires 0.0 <= r < 360.0 && Congruent360(r, a)
    ensures WrapAngle(a) == r
  {
    CongruentSymmetric(r, a);
    CongruentTransitive(WrapAngle(a), a, r);
    CongruentInTurnEqual(WrapAngle(a), r);
  }

  /** An angle already within one turn is left as it is. */
  lemma WrapAngleIdentity(a: real)
    requires 0.0 <= a < 360.0
    ensures WrapAngle(a) == a
  {
    assert (a - a) / 360.0 == 0.0;
    WrapAngleUnique(a, a);
  }

  /** Adding whole turns does not change the wrapped angle. */
  lemma {:induction false} WrapAnglePeriodic(a: real, k: int)
    ensures WrapAngle(a + k as real * 360.0) == WrapAngle(a)
  {
    var w := WrapAngle(a);
    CongruentShift(a, k);
    CongruentSymmetric(a + k as real * 360.0, a);
    CongruentTransitive(w, a, a + k as real * 360.0);
    WrapAngleUnique(a + k as real * 360.0, w);
  }

  /** The heading difference normalised into (-180, 180]. */
  function Wrap180(d: real): (r: real)
    ensures -180.0 < r <= 180.0
    ensures Congruent360(r, d)
  {
    var w := WrapAngle(d);
    if w > 180.0 then
      CongruentShift(w, -1);
      CongruentTransitive(w - 360.0, w, d);
      w - 360.0
    else w
  }

  /** Normalising twice gives the same difference as normalising once. */
  lemma {:induction false} Wrap180Idempotent(d: real)
    ensures Wrap180(Wrap180(d)) == Wrap180(d)
  {
    Wrap180Identity(Wrap180(d));
  }

  /** A difference already within (-180, 180] is kept as it is. */
  lemma {:induction false} Wrap180Identity(d: real)
    requires -180.0 < d <= 180.0
    ensures Wrap180(d) == d
  {
    if d >= 0.0 {
      WrapAngleIdentity(d);
    } else {
      CongruentShift(d, 1);
      WrapAngleUnique(d, d + 360.0);
    }
  }

  // ---------------------------------------------------------------------
  // Object templates and placement
  // ---------------------------------------------------------------------

  /** A kind of object the hunt spawns. */
  datatype Template = Template(id: int, kind: string, icon: string, name: string)

  /** `OBJECT_TEMPLATES`, in the order objects are spawned. */
  const OBJECT_TEMPLATES: seq<Template> := [
    Template(1, "heritage", "\U{1F3DB}\U{FE0F}", "Monumen Bersejarah"),
    Template(2, "artifact", "\U{1F5FF}", "Artefak Kuno"),
    Template(3, "landmark", "\U{1F3F0}", "Landmark Kota")
  ]

  /** A spawned object: its template's fields plus a bearing and an elevation. */
  datatype ArObject = ArObject(id: int, kind: string, icon: string, name: string,
                               azimuth: real, elevation: real)

  /**
   * The random inputs of one placement step: the bearing of the random
   * offset as `atan2` returns it, converted to degrees, and the value of
   * `Math.random()` drawn for the elevation.
   */
  datatype Draw = Draw(offsetBearing: real, elevationRandom: real)

  /** `(bearing + 360) % 360`: a compass bearing in [0, 360). */
  function Azimuth(offsetBearing: real): (az: real)
    requires -180.0 <= offsetBearing <= 180.0
    ensures 0.0 <= az < 360.0
    ensures Congruent360(az, offsetBearing)
  {
    CongruentShift(offsetBearing, 1);
    CongruentTransitive(JsRem360(offsetBearing + 360.0), offsetBearing + 360.0, offsetBearing);
    JsRem360(offsetBearing + 360.0)
  }

  /** `(Math.random() - 0.5) * 20`: an elevation in [-10, 10). */
  function Elevation(random: real): (e: real)
    requires 0.0 <= random < 1.0
    ensures -10.0 <= e < 10.0
    ensures random < 0.5 <==> e < 0.0
  {
    (random - 0.5) * 20.0
  }

  /** The ids of a list of objects, in order. */
  function Ids(objects: seq<ArObject>): (ids: seq<int>)
    ensures |ids| == |objects|
    ensures forall i :: 0 <= i < |objects| ==> ids[i] == objects[i].id
  {
    seq(|objects|, i requires 0 <= i < |objects| => objects[i].id)
  }

  lemma IdOfMember(objects: seq<ArObject>, o: ArObject)
    requires o in objects
    ensures o.id in Ids(objects)
  {
    var i :| 0 <= i < |objects| && objects[i] == o;
    assert Ids(objects)[i] == o.id;
  }

  /** No two objects share an id. */
  predicate DistinctIds(objects: seq<ArObject>) {
    forall i, j :: 0 <= i < j < |objects| ==> objects[i].id != objects[j].id
  }

  /**
   * `placeObjectsAroundUser`: one object per template, in template order,
   * with the bearing and elevation taken from the i-th draw.
   */
  method PlaceObjectsAroundUser(draws: seq<Draw>) returns (objects: seq<ArObject>)
    requires |draws| >= TARGET_COUNT
    // what `atan2` (in degrees) and `Math.random` can return
    requires forall i :: 0 <= i < |draws| ==>
      -180.0 <= draws[i].offsetBearing <= 180.0 && 0.0 <= draws[i].elevationRandom < 1.0
    ensures |objects| == TARGET_COUNT
    ensures forall i :: 0 <= i < TARGET_COUNT ==>
      && objects[i].id == OBJECT_TEMPLATES[i].id
      && objects[i].kind == OBJECT_TEMPLATES[i].kind
      && objects[i].icon == OBJECT_TEMPLATES[i].icon
      && objects[i].name == OBJECT_TEMPLATES[i].name
      && objects[i].azimuth == Azimuth(draws[i].offsetBearing)
      && objects[i].elevation == Elevation(draws[i].elevationRandom)
    ensures forall i :: 0 <= i < |objects| ==>
      0.0 <= objects[i].azimuth < 360.0 && -10.0 <= objects[i].elevation < 10.0
    ensures Ids(objects) == [1, 2, 3] && DistinctIds(objects)
  {
    objects := [];
    for i := 0 to TARGET_COUNT
      invariant |objects| == i
      invariant forall j :: 0 <= j < i ==>
        && objects[j].id == OBJECT_TEMPLATES[j].id
        && objects[j].kind == OBJECT_TEMPLATES[j].kind
        && objects[j].icon == OBJECT_TEMPLATES[j].icon
        && objects[j].name == OBJECT_TEMPLATES[j].name
        && objects[j].azimuth == Azimuth(draws[j].offsetBearing)
        && objects[j].elevation == Elevation(draws[j].elevationRandom)
    {
      var t := OBJECT_TEMPLATES[i];
      var azimuth := Azimuth(draws[i].offsetBearing);
      var elevation := Elevation(draws[i].elevationRandom);
      objects := objects + [ArObject(t.id, t.kind, t.icon, t.name, azimuth, elevation)];
    }
    assert Ids(objects) == [1, 2, 3];
  }

  // ---------------------------------------------------------------------
  // Orientation tracking
  // ---------------------------------------------------------------------

  /** The last orientation kept: compass heading `alpha`, screen tilt `beta`. */
  datatype Orientation = Orientation(alpha: real, beta: real)

  /** A raw `deviceorientation` event; either angle may be missing. */
  datatype OrientationEvent = OrientationEvent(alpha: Option<real>, beta: Option<real>)

  /** The reading an event stands for: a missing alpha is 0, a missing beta is 90. */
  function Reading(e: OrientationEvent): (o: Orientation)
    ensures e.alpha.None? ==> o.alpha == 0.0
    ensures e.beta.None? ==> o.beta == 90.0
    ensures e.alpha.Some? ==> o.alpha == e.alpha.value
    ensures e.beta.Some? ==> o.beta == e.beta.value
  {
    Orientation(if e.alpha.Some? then e.alpha.value else 0.0,
                if e.beta.Some? then e.beta.value else 90.0)
  }

  /**
   * What the orientation updater returns: the previous state object itself
   * (so the view is not recomputed) or a fresh orientation.
   */
  datatype OrientationStep = KeepPrevious | Replace(next: Orientation)

  /** The updater given to `setOrientation` for one event. */
  function OrientationUpdate(prev: Option<Orientation>, e: OrientationEvent): (step: OrientationStep)
    ensures step.KeepPrevious? <==> prev == Some(Reading(e))
    ensures step.Replace? ==> step.next == Reading(e)
  {
    var a := if e.alpha.Some? then e.alpha.value else 0.0;
    var b := if e.beta.Some? then e.beta.value else 90.0;
    if prev.Some? && prev.value.alpha == a && prev.value.beta == b then KeepPrevious
    else Replace(Orientation(a, b))
  }

  /** The orientation state after a step. */
  function ApplyStep(prev: Option<Orientation>, step: OrientationStep): Option<Orientation> {
    match step
    case KeepPrevious => prev
    case Replace(o) => Some(o)
  }

  /** Whatever came before, the state afterwards holds the event's reading. */
  lemma LastReadingWins(prev: Option<Orientation>, e: OrientationEvent)
    ensures ApplyStep(prev, OrientationUpdate(prev, e)) == Some(Reading(e))
  {
  }

  // ---------------------------------------------------------------------
  // Visibility projection
  // ---------------------------------------------------------------------

  /** Where an object is drawn, in percent of the camera view, and whether it is drawn. */
  datatype ObjectView = ObjectView(inView: bool, x: real, y: real)

  /** `fallbackSpread`: the fixed position of each object when no orientation is known. */
  function FallbackPosition(id: int): (pos: (real, real))
    ensures 5.0 <= pos.0 <= 95.0 && 10.0 <= pos.1 <= 90.0
    ensures id !in {1, 2, 3} ==> pos == (50.0, 50.0)
    ensures id in {1, 2, 3} ==> pos != (50.0, 50.0)
  {
    if id == 1 then (20.0, 35.0)
    else if id == 2 then (50.0, 55.0)
    else if id == 3 then (80.0, 40.0)
    else (50.0, 50.0)
  }

  /** Without an orientation the three objects are spread out: no two share a fallback position. */
  lemma FallbackSpreadDistinct(i: int, j: int)
    requires i in {1, 2, 3} && j in {1, 2, 3} && i != j
    ensures FallbackPosition(i) != FallbackPosition(j)
  {
  }

  /** `Math.max(lo, Math.min(hi, v))`. */
  function Clamp(lo: real, hi: real, v: real): (r: real)
    requires lo <= hi
    ensures lo <= r <= hi
    ensures lo <= v <= hi ==> r == v
  {
    if v < lo then lo else if v > hi then hi else v
  }

  /** The heading difference from the view direction to the object, in (-180, 180]. */
  function HeadingDelta(o: Orientation, obj: ArObject): (d: real)
    ensures -180.0 < d <= 180.0
    ensures Congruent360(d, obj.azimuth - o.alpha)
  {
    Wrap180(obj.azimuth - o.alpha)
  }

  /**
   * The elevation difference from the view pitch `90 - beta` to the object:
   * positive when the object is above where the device points, zero when
   * level with it.
   */
  function PitchDelta(o: Orientation, obj: ArObject): (d: real)
    ensures d > 0.0 <==> obj.elevation > 90.0 - o.beta
    ensures d == 0.0 <==> obj.elevation == 90.0 - o.beta
  {
    obj.elevation - (90.0 - o.beta)
  }

  function Abs(x: real): real { if x < 0.0 then -x else x }

  /**
   * `getObjectView`: with no orientation, every object is shown at its
   * fallback position; otherwise an object is shown when both differences
   * are within half the field of view, and its position maps the
   * differences linearly onto the view, clamped to [5, 95] x [10, 90].
   */
  function GetObjectView(orientation: Option<Orientation>, obj: ArObject): (v: ObjectView)
    ensures 5.0 <= v.x <= 95.0 && 10.0 <= v.y <= 90.0
    ensures orientation.None? ==>
      v == ObjectView(true, FallbackPosition(obj.id).0, FallbackPosition(obj.id).1)
    ensures orientation.Some? ==>
      (v.inView <==> Abs(HeadingDelta(orientation.value, obj)) < FOV_H / 2.0
                     && Abs(PitchDelta(orientation.value, obj)) < FOV_V / 2.0)
    ensures orientation.Some? && v.inView ==>
      && v.x == 50.0 + HeadingDelta(orientation.value, obj) / (FOV_H / 2.0) * 45.0
      && v.y == 50.0 + PitchDelta(orientation.value, obj) / (FOV_V / 2.0) * 40.0
  {
    match orientation
    case None =>
      var pos := FallbackPosition(obj.id);
      ObjectView(true, pos.0, pos.1)
    case Some(o) =>
      var deltaH := HeadingDelta(o, obj);
      var deltaV := PitchDelta(o, obj);
      var inView := Abs(deltaH) < FOV_H / 2.0 && Abs(deltaV) < FOV_V / 2.0;
      var x := 50.0 + deltaH / (FOV_H / 2.0) * 45.0;
      var y := 50.0 + deltaV / (FOV_V / 2.0) * 40.0;
      ObjectView(inView, Clamp(5.0, 95.0, x), Clamp(10.0, 90.0, y))
  }

  /** An object straight ahead is shown at the centre of the view. */
  lemma DeadAheadIsCentred(o: Orientation, obj: ArObject)
    requires obj.azimuth == o.alpha && obj.elevation == 90.0 - o.beta
    ensures GetObjectView(Some(o), obj) == ObjectView(true, 50.0, 50.0)
  {
    Wrap180Identity(0.0);
  }

  /** The view of an object depends on the orientation only through the two differences. */
  lemma ViewDependsOnDeltas(o1: Orientation, o2: Orientation, obj: ArObject)
    requires HeadingDelta(o1, obj) == HeadingDelta(o2, obj)
    requires PitchDelta(o1, obj) == PitchDelta(o2, obj)
    ensures GetObjectView(Some(o1), obj) == GetObjectView(Some(o2), obj)
  {
  }

  /** Turning the device by whole turns shows the same picture. */
  lemma {:induction false} ViewPeriodicInHeading(alpha: real, beta: real, k: int, obj: ArObject)
    ensures GetObjectView(Some(Orientation(alpha + k as real * 360.0, beta)), obj)
         == GetObjectView(Some(Orientation(alpha, beta)), obj)
  {
    var turned, o := Orientation(alpha + k as real * 360.0, beta), Orientation(alpha, beta);
    var d := obj.azimuth - alpha;
    assert obj.azimuth - turned.alpha == d + (-k) as real * 360.0;
    WrapAnglePeriodic(d, -k);
    assert HeadingDelta(turned, obj) == HeadingDelta(o, obj);
    ViewDependsOnDeltas(turned, o, obj);
  }

  /**
   * Sweeping the heading finds every object whose elevation is within the
   * vertical field of view: facing its azimuth shows it.
   */
  lemma {:induction false} SweepFindsObject(beta: real, obj: ArObject)
    requires Abs(PitchDelta(Orientation(0.0, beta), obj)) < FOV_V / 2.0
    ensures GetObjectView(Some(Orientation(WrapAngle(obj.azimuth), beta)), obj).inView
  {
    var w := WrapAngle(obj.azimuth);
    var d := obj.azimuth - w;
    assert Congruent360(w, obj.azimuth);
    CongruentSymmetric(w, obj.azimuth);
    assert Congruent360(d, 0.0) by {
      assert (d - 0.0) / 360.0 == (obj.azimuth - w) / 360.0;
    }
    assert 0.0 <= 0.0 < 360.0;
    CongruentSymmetric(d, 0.0);
    WrapAngleUnique(d, 0.0);
    Wrap180Identity(0.0);
  }

  /** The objects drawn (and so tappable) for an orientation, in list order. */
  function VisibleObjects(orientation: Option<Orientation>, objects: seq<ArObject>): (shown: seq<ArObject>)
    ensures forall o :: o in shown <==> o in objects && GetObjectView(orientation, o).inView
    ensures orientation.None? ==> shown == objects
  {
    if objects == [] then []
    else (if GetObjectView(orientation, objects[0]).inView then [objects[0]] else [])
         + VisibleObjects(orientation, objects[1..])
  }

  // ---------------------------------------------------------------------
  // Capture
  // ---------------------------------------------------------------------

  /** `prev.filter((obj) => obj.id !== objectId)`. */
  function RemoveById(objects: seq<ArObject>, id: int): (rest: seq<ArObject>)
    ensures |rest| <= |objects|
    ensures forall o :: o in rest <==> o in objects && o.id != id
  {
    if objects == [] then []
    else (if objects[0].id == id then [] else [objects[0]]) + RemoveById(objects[1..], id)
  }

  /** The filter keeps the order of the objects it keeps: it distributes over concatenation. */
  lemma {:induction false} RemoveByIdAppend(a: seq<ArObject>, b: seq<ArObject>, id: int)
    ensures RemoveById(a + b, id) == RemoveById(a, id) + RemoveById(b, id)
  {
    if a == [] {
      assert a + b == b;
    } else {
      assert (a + b)[1..] == a[1..] + b;
      RemoveByIdAppend(a[1..], b, id);
    }
  }

  /** Removing an id no object carries changes nothing. */
  lemma {:induction false} RemoveAbsentId(objects: seq<ArObject>, id: int)
    requires id !in Ids(objects)
    ensures RemoveById(objects, id) == objects
  {
    if objects != [] {
      assert Ids(objects[1..]) == Ids(objects)[1..];
      RemoveAbsentId(objects[1..], id);
    }
  }

  /** With distinct ids, removing a present id removes exactly one object. */
  lemma {:induction false} RemovePresentId(objects: seq<ArObject>, id: int)
    requires DistinctIds(objects) && id in Ids(objects)
    ensures |RemoveById(objects, id)| == |objects| - 1
    ensures DistinctIds(RemoveById(objects, id))
  {
    assert Ids(objects[1..]) == Ids(objects)[1..];
    if objects[0].id == id {
      assert id !in Ids(objects[1..]);
      RemoveAbsentId(objects[1..], id);
    } else {
      RemovePresentId(objects[1..], id);
      DistinctAfterRemove(objects, id);
    }
  }

  /** Removing objects keeps the ids distinct. */
  lemma {:induction false} DistinctAfterRemove(objects: seq<ArObject>, id: int)
    requires DistinctIds(objects)
    ensures DistinctIds(RemoveById(objects, id))
  {
    if objects != [] {
      DistinctAfterRemove(objects[1..], id);
      var rest := RemoveById(objects[1..], id);
      assert forall o :: o in rest ==> o in objects[1..];
      assert forall o :: o in rest ==> o.id != objects[0].id;
    }
  }

  // ---------------------------------------------------------------------
  // The challenge view's state
  // ---------------------------------------------------------------------

  /** `status`: the camera is starting, streaming, or failed. */
  datatype CameraStatus = CameraLoading | CameraReady | CameraError

  /** How the camera request ended (the browser's answer is an input). */
  datatype CameraOutcome = Unsupported | StreamStarted | Rejected(notAllowedError: bool)

  /** The message shown for a camera outcome; empty when the stream started. */
  function CameraMessage(outcome: CameraOutcome): (msg: string)
    ensures msg == "" <==> outcome.StreamStarted?
  {
    match outcome
    case Unsupported => "Kamera tidak didukung oleh browser Anda."
    case StreamStarted => ""
    case Rejected(notAllowed) =>
      if notAllowed then "Akses kamera ditolak. Izinkan kamera di pengaturan browser."
      else "Tidak dapat mengakses kamera."
  }

  /** The objects spawned from `draws`, as `PlaceObjectsAroundUser` promises them. */
  ghost predicate PlacedFrom(objects: seq<ArObject>, draws: seq<Draw>) {
    && |objects| == TARGET_COUNT <= |draws|
    && Ids(objects) == [1, 2, 3]
    && forall i :: 0 <= i < TARGET_COUNT ==>
         && -180.0 <= draws[i].offsetBearing <= 180.0
         && 0.0 <= draws[i].elevationRandom < 1.0
         && objects[i].id == OBJECT_TEMPLATES[i].id
         && objects[i].kind == OBJECT_TEMPLATES[i].kind
         && objects[i].icon == OBJECT_TEMPLATES[i].icon
         && objects[i].name == OBJECT_TEMPLATES[i].name
         && objects[i].azimuth == Azimuth(draws[i].offsetBearing)
         && objects[i].elevation == Elevation(draws[i].elevationRandom)
  }

  /**
   * One mounted `WebARHunter` view. `completions` records, in order, the
   * score passed to every `onComplete` call; `streamOpen` says whether the
   * camera stream is held.
   */
  class HunterSession {
    var status: CameraStatus
    var errorMessage: string
    var capturedCount: nat
    var arObjects: seq<ArObject>
    var hasSpawned: bool
    var streamOpen: bool
    var orientation: Option<Orientation>
    var completions: seq<nat>

    /**
     * Objects exist only once spawned and their ids are distinct;
     * `onComplete` is first called on the capture that reaches
     * TARGET_COUNT, and once per capture from then on, always with TARGET_COUNT.
     */
    ghost predicate Valid()
      reads this
    {
      && (!hasSpawned ==> arObjects == [])
      && (hasSpawned ==> status == CameraReady)
      && DistinctIds(arObjects)
      && (capturedCount < TARGET_COUNT ==> completions == [])
      && (capturedCount >= TARGET_COUNT ==> |completions| == capturedCount - TARGET_COUNT + 1)
      && (forall k :: 0 <= k < |completions| ==> completions[k] == TARGET_COUNT)
    }

    /** The state of a freshly mounted view. */
    constructor ()
      ensures Valid()
      ensures status == CameraLoading && errorMessage == ""
      ensures capturedCount == 0 && arObjects == [] && !hasSpawned
      ensures !streamOpen && orientation == None && completions == []
    {
      status := CameraLoading;
      errorMessage := "";
      capturedCount := 0;
      arObjects := [];
      hasSpawned := false;
      streamOpen := false;
      orientation := None;
      completions := [];
    }

    /** The camera effect settles: ready with the stream held, or an error and its message. */
    method CameraSettled(outcome: CameraOutcome)
      requires Valid() && status == CameraLoading
      modifies this
      ensures Valid()
      ensures status == (if outcome.StreamStarted? then CameraReady else CameraError)
      ensures streamOpen == (outcome.StreamStarted? || old(streamOpen))
      ensures errorMessage == (if outcome.StreamStarted? then old(errorMessage) else CameraMessage(outcome))
      ensures capturedCount == old(capturedCount) && arObjects == old(arObjects)
      ensures hasSpawned == old(hasSpawned) && orientation == old(orientation)
      ensures completions == old(completions)
    {
      if outcome.StreamStarted? {
        streamOpen := true;
        status := CameraReady;
      } else {
        status := CameraError;
        errorMessage := CameraMessage(outcome);
      }
    }

    /** `handleOrientationRef`: apply one `deviceorientation` event. */
    method HandleOrientation(e: OrientationEvent)
      modifies this`orientation
      ensures orientation == ApplyStep(old(orientation), OrientationUpdate(old(orientation), e))
      ensures orientation == Some(Reading(e))
    {
      var step := OrientationUpdate(orientation, e);
      orientation := ApplyStep(orientation, step);
      LastReadingWins(old(orientation), e);
    }

    /**
     * The spawn effect, run on every status change: objects are placed
     * the first time the camera is ready, and never again.
     */
    method SpawnEffect(draws: seq<Draw>)
      requires Valid()
      requires |draws| >= TARGET_COUNT
      requires forall i :: 0 <= i < |draws| ==>
        -180.0 <= draws[i].offsetBearing <= 180.0 && 0.0 <= draws[i].elevationRandom < 1.0
      modifies this`arObjects, this`hasSpawned
      ensures Valid()
      ensures old(status) != CameraReady || old(hasSpawned) ==>
        arObjects == old(arObjects) && hasSpawned == old(hasSpawned)
      ensures old(status) == CameraReady && !old(hasSpawned) ==>
        hasSpawned && PlacedFrom(arObjects, draws)
    {
      if status != CameraReady || hasSpawned {
        return;
      }
      hasSpawned := true;
      arObjects := PlaceObjectsAroundUser(draws);
    }

    /**
     * `handleCaptureObject`: drop every object with this id, count one
     * capture (whether or not such an object was present) and, when the
     * count reaches TARGET_COUNT, stop the stream and report TARGET_COUNT.
     */
    method CaptureObject(id: int)
      requires Valid()
      modifies this`arObjects, this`capturedCount, this`streamOpen, this`completions
      ensures Valid()
      ensures arObjects == RemoveById(old(arObjects), id)
      ensures id in Ids(old(arObjects)) ==> |arObjects| == |old(arObjects)| - 1
      ensures id !in Ids(old(arObjects)) ==> arObjects == old(arObjects)
      ensures capturedCount == old(capturedCount) + 1
      ensures old(capturedCount) + 1 >= TARGET_COUNT ==>
        !streamOpen && completions == old(completions) + [TARGET_COUNT]
      ensures old(capturedCount) + 1 < TARGET_COUNT ==>
        streamOpen == old(streamOpen) && completions == old(completions)
    {
      arObjects := RemoveById(arObjects, id);
      DistinctAfterRemove(old(arObjects), id);
      if id in Ids(old(arObjects)) {
        RemovePresentId(old(arObjects), id);
      } else {
        RemoveAbsentId(old(arObjects), id);
      }
      capturedCount := capturedCount + 1;
      if capturedCount >= TARGET_COUNT {
        streamOpen := false;
        completions := completions + [TARGET_COUNT];
      }
    }

    /** The view unmounts: the camera stream is released. */
    method Unmount()
      modifies this`streamOpen
      ensures !streamOpen
    {
      streamOpen := false;
    }

    /** How one object is shown under the current orientation. */
    function ViewOf(obj: ArObject): (v: ObjectView)
      reads this
      ensures 5.0 <= v.x <= 95.0 && 10.0 <= v.y <= 90.0
      ensures orientation.None? ==> v.inView
    {
      GetObjectView(orientation, obj)
    }
  }

  /**
   * A whole challenge: the camera starts, the objects are spawned and the
   * player taps objects 1, 2 and 3. `onComplete` is called exactly once,
   * with TARGET_COUNT, no object is left and the stream is released.
   */
  method CaptureAllScenario(draws: seq<Draw>) returns (reported: seq<nat>, left: seq<ArObject>, streamHeld: bool)
    requires |draws| >= TARGET_COUNT
    requires forall i :: 0 <= i < |draws| ==>
      -180.0 <= draws[i].offsetBearing <= 180.0 && 0.0 <= draws[i].elevationRandom < 1.0
    ensures reported == [TARGET_COUNT]
    ensures left == []
    ensures !streamHeld
  {
    var session := new HunterSession();
    session.CameraSettled(StreamStarted);
    session.SpawnEffect(draws);
    ghost var spawned := session.arObjects;
    assert Ids(spawned) == [1, 2, 3];
    session.CaptureObject(1);
    assert spawned[1] in session.arObjects && spawned[2] in session.arObjects;
    IdOfMember(session.arObjects, spawned[1]);
    session.CaptureObject(2);
    assert spawned[2] in session.arObjects;
    IdOfMember(session.arObjects, spawned[2]);
    session.CaptureObject(3);
    reported, left, streamHeld := session.completions, session.arObjects, session.streamOpen;
  }
}
