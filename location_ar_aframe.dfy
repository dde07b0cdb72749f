/** The location-based A-Frame prototype (src/components/LocationBasedAR.js): the reference
    location with its default fallback, the projection of the configured objects into scene
    positions, and the "add object" button. The component's React state is the fields of
    `Component`. */
module LocationArAFrame {
  import opened ArTypes
  import opened JsRuntime
  import U = LocationArUtils

  /** The component's configuration: `config.defaultLocation` and `config.objects`. */
  datatype Config = Config(defaultLocation: Location, objects: seq<ArObject>)

  /** An element of the `arObjects` state: a configured object with the `position3D` the
      projection added, or an object the "add" button appended, which carries none. */
  datatype Entry = Placed(obj: ArObject, position3D: Vec3) | Unplaced(obj: ArObject)

  const DEFAULT_LATITUDE: real := -23.978699193445298
  const DEFAULT_LONGITUDE: real := -46.31663867703862

  /** The component's configuration: both objects sit at the default location. */
  const DEFAULT_CONFIG: Config := Config(
    Location(DEFAULT_LATITUDE, DEFAULT_LONGITUDE),
    [ ArObject("trozoba-model", "Trozoba", None, None, Some("/models/model-trozoba.glb"),
               GeoPoint(DEFAULT_LATITUDE, DEFAULT_LONGITUDE, 0.0),
               ScaleAttribute("5 5 5"), RotationAttribute("0 0 0"), None),
      ArObject("info-panel", "Painel de Informa\U{00E7}\U{00F5}es", Some("text"),
               Some("Bem-vindo ao AR Trozoba!"), None,
               GeoPoint(DEFAULT_LATITUDE, DEFAULT_LONGITUDE, 0.0),
               ScaleAttribute("2 2 2"), RotationAttribute("0 0 0"), None) ])

  /** The inline projection of the `map` callback: `x` from the longitude difference, `z`
      from the negated latitude difference, both times 111000, and `y` the object's
      altitude. It agrees with the utility's gpsTo3D. */
  function RelativePosition3D(obj: ArObject, location: Location): (p: Vec3)
    ensures p == U.GpsTo3D(location.latitude, location.longitude,
                           obj.position.latitude, obj.position.longitude, Some(obj.position.altitude))
  {
    var relativeLat := obj.position.latitude - location.latitude;
    var relativeLon := obj.position.longitude - location.longitude;
    var x := relativeLon * 111000.0;
    var z := -relativeLat * 111000.0;
    Vec3(x, obj.position.altitude, z)
  }

  /** `objects.map(obj => ({ ...obj, position3D }))`: one entry per object, in order, each the
      object itself with its scene position added. */
  function ProjectObjects(objects: seq<ArObject>, location: Location): (r: seq<Entry>)
    ensures |r| == |objects|
    ensures forall i :: 0 <= i < |objects| ==>
              r[i] == Placed(objects[i], RelativePosition3D(objects[i], location))
  {
    if objects == [] then []
    else [Placed(objects[0], RelativePosition3D(objects[0], location))] + ProjectObjects(objects[1..], location)
  }

  /** An object at the reference coordinates is placed at (0, altitude, 0). */
  lemma ProjectionAtUser(objects: seq<ArObject>, location: Location, i: int)
    requires 0 <= i < |objects|
    requires objects[i].position.latitude == location.latitude
    requires objects[i].position.longitude == location.longitude
    ensures ProjectObjects(objects, location)[i].position3D == Vec3(0.0, objects[i].position.altitude, 0.0)
  {
  }

  /** With the default location as reference, both default objects are placed at the origin. */
  lemma DefaultObjectsAtOrigin()
    ensures forall e :: e in ProjectObjects(DEFAULT_CONFIG.objects, DEFAULT_CONFIG.defaultLocation) ==>
              e.Placed? && e.position3D == Vec3(0.0, 0.0, 0.0)
  {
    var r := ProjectObjects(DEFAULT_CONFIG.objects, DEFAULT_CONFIG.defaultLocation);
    assert forall i :: 0 <= i < |r| ==> r[i].position3D == Vec3(0.0, 0.0, 0.0);
  }

  /** The object the "add" button creates: a text object "Novo objeto AR!" whose id is
      "object-" followed by the clock reading, placed at the user's coordinates shifted by
      `(random - 0.5) * 0.001` degrees on each axis, altitude 0. */
  function NewObject(now: nat, location: Location, random1: real, random2: real): (obj: ArObject)
    ensures obj.id == "object-" + NatToDecimal(now)
    ensures obj.kind == Some("text") && obj.position.altitude == 0.0
    ensures 0.0 <= random1 < 1.0 ==>
              -0.0005 <= obj.position.latitude - location.latitude < 0.0005
    ensures 0.0 <= random2 < 1.0 ==>
              -0.0005 <= obj.position.longitude - location.longitude < 0.0005
  {
    ArObject("object-" + NatToDecimal(now), "Novo Objeto", Some("text"), Some("Novo objeto AR!"), None,
             GeoPoint(location.latitude + (random1 - 0.5) * 0.001,
                      location.longitude + (random2 - 0.5) * 0.001, 0.0),
             ScaleAttribute("2 2 2"), RotationAttribute("0 0 0"), None)
  }

  class Component {
    const config: Config
    /** `userLocation` state. */
    var userLocation: Option<Location>
    /** `arObjects` state. */
    var arObjects: seq<Entry>

    constructor (config: Config)
      ensures this.config == config && userLocation == None && arObjects == []
    {
      this.config := config;
      userLocation := None;
      arObjects := [];
    }

    /** A GPS fix becomes the reference location; without one the configured default is used. */
    method RequestLocationPermission(reading: GpsReading) returns (location: Location)
      modifies this`userLocation
      ensures userLocation == Some(location)
      ensures reading.Reading? ==> location == Location(reading.latitude, reading.longitude)
      ensures reading.Unavailable? ==> location == config.defaultLocation
    {
      match reading {
        case Reading(latitude, longitude, _) =>
          location := Location(latitude, longitude);
        case Unavailable =>
          location := config.defaultLocation;
      }
      userLocation := Some(location);
    }

    /** Obtains the reference location and replaces `arObjects` by the projected configuration. */
    method InitializeLocationAr(reading: GpsReading)
      modifies this`userLocation, this`arObjects
      ensures userLocation.Some?
      ensures reading.Reading? ==> userLocation == Some(Location(reading.latitude, reading.longitude))
      ensures reading.Unavailable? ==> userLocation == Some(config.defaultLocation)
      ensures arObjects == ProjectObjects(config.objects, userLocation.value)
    {
      var location := RequestLocationPermission(reading);
      arObjects := ProjectObjects(config.objects, location);
    }

    /** With a reference location, appends one new object (without a scene position) after
        the existing entries; otherwise nothing changes. `now` is `Date.now()`, `random1` and
        `random2` the two `Math.random()` draws. */
    method AddArObject(now: nat, random1: real, random2: real)
      modifies this`arObjects
      ensures old(userLocation).None? ==> arObjects == old(arObjects)
      ensures old(userLocation).Some? ==>
                arObjects == old(arObjects) + [Unplaced(NewObject(now, old(userLocation).value, random1, random2))]
    {
      if userLocation.None? {
        return;
      }
      var newObject := NewObject(now, userLocation.value, random1, random2);
      arObjects := arObjects + [Unplaced(newObject)];
    }
  }
}
