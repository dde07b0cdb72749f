/** Value types shared by the location utilities and the two location-based AR components. */
module ArTypes {

  /** A JavaScript value that may be `undefined`; used for optional fields and for
      parameters that carry a default value. */
  datatype Option<T> = None | Some(value: T) {
    /** The value, or `default` when undefined (JavaScript's `param = default`). */
    function GetOr(default: T): T {
      match this
      case Some(v) => v
      case None => default
    }
  }

  /** A point or offset of the 3D scene, `{ x, y, z }`, in metres. */
  datatype Vec3 = Vec3(x: real, y: real, z: real)

  /** An object's GPS position, `{ latitude, longitude, altitude }` (degrees, degrees, metres). */
  datatype GeoPoint = GeoPoint(latitude: real, longitude: real, altitude: real)

  /** The user's reference location, `{ latitude, longitude }`. */
  datatype Location = Location(latitude: real, longitude: real)

  /** The `scale` field: a number (Three.js prototype) or an A-Frame attribute string. */
  datatype Scale = Uniform(factor: real) | ScaleAttribute(text: string)

  /** The `rotation` field: `{ x, y, z }` (Three.js prototype) or an A-Frame attribute string. */
  datatype Rotation = Euler(rx: real, ry: real, rz: real) | RotationAttribute(text: string)

  /** One configured AR object. `kind` is the object's `type` field. */
  datatype ArObject = ArObject(
    id: string,
    name: string,
    kind: Option<string>,
    text: Option<string>,
    model: Option<string>,
    position: GeoPoint,
    scale: Scale,
    rotation: Rotation,
    description: Option<string>)

  /** What the browser's geolocation request delivers: a fix, or nothing (no geolocation
      support, permission denied, timeout). */
  datatype GpsReading = Reading(latitude: real, longitude: real, accuracy: real) | Unavailable
}
