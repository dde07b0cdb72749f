/** The location-based Three.js prototype (src/components/LocationBasedARThree.js): the
    reference location with its default fallback, the placement of every configured object in
    the scene, the nearest-object selection, and the "add object" button. The component's React
    state and its scene reference are the fields of `Component`. */
module LocationArThree {
  import opened ArTypes
  import opened JsRuntime
  import U = LocationArUtils

  /** The component's configuration: `config.defaultLocation` and `config.objects`. */
  datatype Config = Config(defaultLocation: Location, objects: seq<ArObject>)

  /** The geometry a configured object is drawn with. */
  datatype Shape = TextPanel(caption: Option<string>) | Cube | Sphere

  /** A mesh added to the scene: its geometry, position, scale and rotation. */
  datatype Mesh = Mesh(shape: Shape, position: Vec3, scale: Scale, rotation: Rotation)

  /** `{ ...obj, threeObject, position3D }`: the configured object unchanged, the index of its
      mesh in the scene, and its scene position. */
  datatype ArRecord = ArRecord(obj: ArObject, threeObject: nat, position3D: Vec3)

  const DEFAULT_LATITUDE: real := -23.978699193445298
  const DEFAULT_LONGITUDE: real := -46.31663867703862

  /** The component's built-in objects, used when no global configuration supplies any. */
  const DEFAULT_OBJECTS: seq<ArObject> := [
    ArObject("trozoba-model", "Trozoba", None, None, Some("/models/model-trozoba.glb"),
             GeoPoint(DEFAULT_LATITUDE, DEFAULT_LONGITUDE, 0.0),
             Uniform(5.0), Euler(0.0, 0.0, 0.0), None),
    ArObject("info-panel", "Painel de Informa\U{00E7}\U{00F5}es", Some("text"),
             Some("Bem-vindo ao AR Trozoba!"), None,
             GeoPoint(DEFAULT_LATITUDE, DEFAULT_LONGITUDE, 0.0),
             Uniform(2.0), Euler(0.0, 0.0, 0.0), None)
  ]

  /** The configuration the component builds: the built-in default location, and the objects
      of the global configuration when it defines any (an empty list included), the built-in
      objects otherwise. */
  function ComponentConfig(globalObjects: Option<seq<ArObject>>): Config
  {
    Config(Location(DEFAULT_LATITUDE, DEFAULT_LONGITUDE), globalObjects.GetOr(DEFAULT_OBJECTS))
  }

  /** The configuration when no global configuration is loaded. */
  const DEFAULT_CONFIG: Config := ComponentConfig(None)

  // ---------------------------------------------------------------------------
  // Placement

  /** The inline projection used when `LOCATION_AR_UTILS` is absent. It agrees with the
      utility's gpsTo3D. */
  function FallbackPosition3D(location: Location, position: GeoPoint): (p: Vec3)
    ensures p == U.GpsTo3D(location.latitude, location.longitude,
                           position.latitude, position.longitude, Some(position.altitude))
  {
    var relativeLat := position.latitude - location.latitude;
    var relativeLon := position.longitude - location.longitude;
    var x := relativeLon * 111000.0;
    var z := -relativeLat * 111000.0;
    var y := position.altitude;
    Vec3(x, y, z)
  }

  /** The scene position of an object: gpsTo3D when the utilities are loaded, the inline
      fallback otherwise. Both branches give the same point. */
  function Position3D(utilsLoaded: bool, location: Location, position: GeoPoint): (p: Vec3)
    ensures p == FallbackPosition3D(location, position)
    ensures position.latitude == location.latitude && position.longitude == location.longitude
            ==> p == Vec3(0.0, position.altitude, 0.0)
  {
    if utilsLoaded then
      U.GpsTo3D(location.latitude, location.longitude, position.latitude, position.longitude,
                Some(position.altitude))
    else
      FallbackPosition3D(location, position)
  }

  /** The mesh drawn for a configured object: a text panel for type "text", a placeholder cube
      for type "model" and for everything else, carrying the object's scale and rotation. */
  function MeshFor(obj: ArObject, position3D: Vec3): Mesh
  {
    var shape :=
      if obj.kind == Some("text") then TextPanel(obj.text)
      else if obj.kind == Some("model") then Cube
      else Cube;
    Mesh(shape, position3D, obj.scale, obj.rotation)
  }

  /** Every default object sits at the default location with altitude 0, so when geolocation
      fails each one is placed at the scene origin. */
  lemma DefaultObjectsAtOrigin(utilsLoaded: bool)
    ensures forall i :: 0 <= i < |DEFAULT_CONFIG.objects| ==>
              Position3D(utilsLoaded, DEFAULT_CONFIG.defaultLocation, DEFAULT_CONFIG.objects[i].position)
                == Vec3(0.0, 0.0, 0.0)
  {
  }

  // ---------------------------------------------------------------------------
  // Nearest object

  /** The reducer of the nearest-object selection: `current` replaces `closest` only when it
      is strictly nearer. */
  function Closer<T>(dist: T -> real, closest: T, current: T): (r: T)
    ensures r == closest || r == current
    ensures dist(r) <= dist(closest) && dist(r) <= dist(current)
    ensures dist(current) >= dist(closest) ==> r == closest
  {
    if dist(current) < dist(closest) then current else closest
  }

  /** `xs.reduce(Closer)`: the left fold of the reducer, seeded with the first element. */
  function Nearest<T>(xs: seq<T>, dist: T -> real): (r: T)
    requires |xs| > 0
    ensures r in xs
    ensures forall j :: 0 <= j < |xs| ==> dist(r) <= dist(xs[j])
    decreases |xs|
  {
    if |xs| == 1 then xs[0]
    else Closer(dist, Nearest(xs[..|xs| - 1], dist), xs[|xs| - 1])
  }

  /** Index `k` holds a nearest element and every element before it is strictly farther. */
  ghost predicate IsFirstNearest<T>(xs: seq<T>, dist: T -> real, k: int)
  {
    && 0 <= k < |xs|
    && (forall j :: 0 <= j < |xs| ==> dist(xs[k]) <= dist(xs[j]))
    && (forall j :: 0 <= j < k ==> dist(xs[j]) > dist(xs[k]))
  }

  /** The selection returns the earliest of the nearest elements: on equal distances the
      element seen first is kept. */
  lemma {:induction false} NearestIsFirstMinimum<T>(xs: seq<T>, dist: T -> real)
    requires |xs| > 0
    ensures exists k :: IsFirstNearest(xs, dist, k) && xs[k] == Nearest(xs, dist)
  {
    if |xs| == 1 {
      assert IsFirstNearest(xs, dist, 0);
    } else {
      var init := xs[..|xs| - 1];
      NearestIsFirstMinimum(init, dist);
      var k :| IsFirstNearest(init, dist, k) && init[k] == Nearest(init, dist);
      var last := xs[|xs| - 1];
      assert forall j :: 0 <= j < |xs| - 1 ==> xs[j] == init[j];
      if dist(last) < dist(init[k]) {
        assert IsFirstNearest(xs, dist, |xs| - 1);
      } else {
        assert IsFirstNearest(xs, dist, k);
      }
    }
  }

  /** When every element is equally near, the first one is selected. */
  lemma NearestOfEqualDistancesIsFirst<T>(xs: seq<T>, dist: T -> real)
    requires |xs| > 0
    requires forall j :: 0 <= j < |xs| ==> dist(xs[j]) == dist(xs[0])
    ensures Nearest(xs, dist) == xs[0]
  {
    NearestIsFirstMinimum(xs, dist);
    var k :| IsFirstNearest(xs, dist, k) && xs[k] == Nearest(xs, dist);
    assert k == 0;
  }

  /** Haversine distance from the reference location to a record's configured position. */
  function DistanceFrom(m: MathLib, location: Location): ArRecord -> real
  {
    (r: ArRecord) => U.CalculateDistance(m, location.latitude, location.longitude,
                                         r.obj.position.latitude, r.obj.position.longitude)
  }

  // ---------------------------------------------------------------------------
  // Added objects

  /** The object the "add" button creates: a cube named "Novo Objeto" whose id is
      "object-" followed by the clock reading, placed at the user's coordinates shifted by
      `(random - 0.5) * 0.001` degrees on each axis, altitude 0, scale 2. */
  function NewObject(now: nat, location: Location, random1: real, random2: real): (obj: ArObject)
    ensures obj.id == "object-" + NatToDecimal(now)
    ensures obj.position.altitude == 0.0 && obj.scale == Uniform(2.0)
    ensures 0.0 <= random1 < 1.0 ==>
              location.latitude - 0.0005 <= obj.position.latitude < location.latitude + 0.0005
    ensures 0.0 <= random2 < 1.0 ==>
              location.longitude - 0.0005 <= obj.position.longitude < location.longitude + 0.0005
  {
    ArObject("object-" + NatToDecimal(now), "Novo Objeto", Some("cube"), None, None,
             GeoPoint(location.latitude + (random1 - 0.5) * 0.001,
                      location.longitude + (random2 - 0.5) * 0.001, 0.0),
             Uniform(2.0), Euler(0.0, 0.0, 0.0), None)
  }

  /** The red sphere drawn for an added object (its rotation is left at the default). */
  function SphereFor(obj: ArObject, position3D: Vec3): Mesh
  {
    Mesh(Sphere, position3D, obj.scale, Euler(0.0, 0.0, 0.0))
  }

  // ---------------------------------------------------------------------------
  // The component

  class Component {
    const config: Config
    /** `userLocation` state. */
    var userLocation: Option<Location>
    /** `gpsAccuracy` state. */
    var gpsAccuracy: Option<real>
    /** `arObjects` state. */
    var arObjects: seq<ArRecord>
    /** `nearestObject` state. */
    var nearestObject: Option<ArRecord>
    /** `sceneRef.current`: None before the renderer is set up, otherwise the scene's meshes. */
    var scene: Option<seq<Mesh>>

    constructor (config: Config, scene: Option<seq<Mesh>>)
      ensures this.config == config && this.scene == scene
      ensures userLocation == None && gpsAccuracy == None
      ensures arObjects == [] && nearestObject == None
    {
      this.config := config;
      this.scene := scene;
      userLocation := None;
      gpsAccuracy := None;
      arObjects := [];
      nearestObject := None;
    }

    /** A GPS fix becomes the reference location and its accuracy is recorded; without a fix
        the configured default location is used and the accuracy is left as it was. */
    method RequestLocationPermission(reading: GpsReading) returns (location: Location, accuracy: Option<real>)
      modifies this`userLocation, this`gpsAccuracy
      ensures userLocation == Some(location)
      ensures reading.Reading? ==>
                && location == Location(reading.latitude, reading.longitude)
                && accuracy == Some(reading.accuracy)
                && gpsAccuracy == accuracy
      ensures reading.Unavailable? ==>
                location == config.defaultLocation && accuracy == None && gpsAccuracy == old(gpsAccuracy)
    {
      match reading
      case Reading(latitude, longitude, acc) =>
        location := Location(latitude, longitude);
        accuracy := Some(acc);
        userLocation := Some(location);
        gpsAccuracy := accuracy;
      case Unavailable =>
        location := config.defaultLocation;
        accuracy := None;
        userLocation := Some(location);
    }

    /** Places every configured object: one record per object, in configuration order, each
        with its mesh appended to the scene; then, when the utilities are loaded and there is
        at least one record, selects the nearest. Without a scene nothing happens. */
    method CreateArObjects(m: MathLib, utilsLoaded: bool, location: Location) returns (objects: seq<ArRecord>)
      modifies this`arObjects, this`nearestObject, this`scene
      ensures old(scene).None? ==>
                && objects == []
                && scene == old(scene) && arObjects == old(arObjects) && nearestObject == old(nearestObject)
      ensures old(scene).Some? ==>
                var before := old(scene).value;
                && |objects| == |config.objects|
                && (forall i :: 0 <= i < |objects| ==>
                      objects[i] == ArRecord(config.objects[i], |before| + i,
                                             Position3D(utilsLoaded, location, config.objects[i].position)))
                && scene.Some? && |scene.value| == |before| + |objects|
                && scene.value[..|before|] == before
                && (forall i :: 0 <= i < |objects| ==>
                      scene.value[objects[i].threeObject] == MeshFor(objects[i].obj, objects[i].position3D))
                && arObjects == objects
                && nearestObject == if |objects| > 0 && utilsLoaded
                                   then Some(Nearest(objects, DistanceFrom(m, location)))
                                   else old(nearestObject)
    {
      if scene.None? {
        return [];
      }
      var nodes := scene.value;
      ghost var before := nodes;
      objects := [];
      var i := 0;
      while i < |config.objects|
        invariant 0 <= i <= |config.objects|
        invariant |objects| == i && |nodes| == |before| + i
        invariant nodes[..|before|] == before
        invariant forall j :: 0 <= j < i ==>
                    objects[j] == ArRecord(config.objects[j], |before| + j,
                                           Position3D(utilsLoaded, location, config.objects[j].position))
        invariant forall j :: 0 <= j < i ==>
                    nodes[objects[j].threeObject] == MeshFor(objects[j].obj, objects[j].position3D)
      {
        var obj := config.objects[i];
        var position3D := Position3D(utilsLoaded, location, obj.position);
        var threeObject := MeshFor(obj, position3D);
        var handle := |nodes|;
        nodes := nodes + [threeObject];
        objects := objects + [ArRecord(obj, handle, position3D)];
        i := i + 1;
      }
      scene := Some(nodes);
      arObjects := objects;
      if |objects| > 0 && utilsLoaded {
        nearestObject := Some(Nearest(objects, DistanceFrom(m, location)));
      }
    }

    /** With a reference location and a scene, appends one new object near the user, with its
        sphere added to the scene; otherwise nothing changes. `now` is `Date.now()`, `random1`
        and `random2` the two `Math.random()` draws. */
    method AddArObject(utilsLoaded: bool, now: nat, random1: real, random2: real)
      modifies this`arObjects, this`scene
      ensures old(userLocation).None? || old(scene).None? ==>
                arObjects == old(arObjects) && scene == old(scene)
      ensures old(userLocation).Some? && old(scene).Some? ==>
                var obj := NewObject(now, old(userLocation).value, random1, random2);
                var position3D := Position3D(utilsLoaded, old(userLocation).value, obj.position);
                && arObjects == old(arObjects) + [ArRecord(obj, |old(scene).value|, position3D)]
                && scene == Some(old(scene).value + [SphereFor(obj, position3D)])
    {
      if userLocation.None? || scene.None? {
        return;
      }
      var location := userLocation.value;
      var newObject := NewObject(now, location, random1, random2);
      var position3D := Position3D(utilsLoaded, location, newObject.position);
      var threeObject := SphereFor(newObject, position3D);
      var handle := |scene.value|;
      scene := Some(scene.value + [threeObject]);
      arObjects := arObjects + [ArRecord(newObject, handle, position3D)];
    }
  }
}
