/** The GPS placement helpers of `window.LOCATION_AR_UTILS`
    (public/location-ar-config.js): Haversine distance, the linear GPS-to-scene projection
    and its inverse, the radius test, the distance filter, the compass bearing and the two
    display formatters. Every helper is a pure function. */
module LocationArUtils {
  import opened ArTypes
  import opened JsRuntime

  /** Scene metres per degree, used for latitude and longitude alike (no cos(latitude) term). */
  const METERS_PER_DEGREE: real := 111000.0
  /** Earth radius of the Haversine formula, in metres. */
  const EARTH_RADIUS: real := 6371000.0
  /** Default `maxDistance` of isInFieldOfView. */
  const DEFAULT_VIEW_DISTANCE: real := 100.0
  /** Default `maxDistance` of filterObjectsByDistance. */
  const DEFAULT_FILTER_DISTANCE: real := 1000.0
  /** Default `precision` of formatCoordinates. */
  const DEFAULT_PRECISION: real := 6.0
  /** Default `altitude` of gpsTo3D and threeDToGPS. */
  const DEFAULT_ALTITUDE: real := 0.0

  // ---------------------------------------------------------------------------
  // calculateDistance

  /** Great-circle distance in metres between (lat1, lon1) and (lat2, lon2), by the Haversine
      formula, with the trigonometric functions taken from `m`. */
  function CalculateDistance(m: MathLib, lat1: real, lon1: real, lat2: real, lon2: real): real
  {
    var dLat := (lat2 - lat1) * PI / 180.0;
    var dLon := (lon2 - lon1) * PI / 180.0;
    var a := HaversineTerm(m, dLat, dLon, lat1 * PI / 180.0, lat2 * PI / 180.0);
    var c := 2.0 * m.atan2(m.sqrt(a), m.sqrt(1.0 - a));
    EARTH_RADIUS * c
  }

  /** The term `a` of the Haversine formula:
      sin(dLat/2)^2 + cos(phi1) * cos(phi2) * sin(dLon/2)^2. */
  function HaversineTerm(m: MathLib, dLat: real, dLon: real, phi1: real, phi2: real): real
  {
    m.sin(dLat / 2.0) * m.sin(dLat / 2.0) +
    m.cos(phi1) * m.cos(phi2) * m.sin(dLon / 2.0) * m.sin(dLon / 2.0)
  }

  /** `sqrt(0) = 0` and `sqrt(1) = 1` follow from sqrt being the non-negative root. */
  lemma SqrtAtZeroAndOne(m: MathLib)
    requires SqrtIsRoot(m)
    ensures m.sqrt(0.0) == 0.0 && m.sqrt(1.0) == 1.0
  {
    RootOfSquare(m.sqrt(0.0), 0.0, 0.0);
    RootOfSquare(m.sqrt(1.0), 1.0, 1.0);
  }

  /** A non-negative `r` with `r * r == s` is below a non-negative bound `b` exactly when `s`
      is below `b * b`; in particular it is determined by `s`. */
  lemma RootOfSquare(r: real, s: real, b: real)
    requires r >= 0.0 && r * r == s && b >= 0.0
    ensures r <= b <==> s <= b * b
    ensures s == b * b ==> r == b
  {
    if r < b {
      SquareIsStrictlyMonotone(r, b);
    } else if r > b {
      SquareIsStrictlyMonotone(b, r);
    }
  }

  lemma SquareIsStrictlyMonotone(a: real, b: real)
    requires 0.0 <= a < b
    ensures a * a < b * b
  {
    PositiveProduct(b - a, b + a);
    assert (b - a) * (b + a) == b * b - a * a;
  }

  lemma PositiveProduct(a: real, b: real)
    requires a > 0.0 && b > 0.0
    ensures a * b > 0.0
  {
  }

  /** The distance from a point to itself is zero. */
  lemma DistanceToSelfIsZero(m: MathLib, lat: real, lon: real)
    requires TrigAtZero(m) && SqrtIsRoot(m) && Atan2AtZero(m)
    ensures CalculateDistance(m, lat, lon, lat, lon) == 0.0
  {
    SqrtAtZeroAndOne(m);
    assert (lat - lat) * PI / 180.0 / 2.0 == 0.0;
    assert (lon - lon) * PI / 180.0 / 2.0 == 0.0;
    assert HaversineTerm(m, (lat - lat) * PI / 180.0, (lon - lon) * PI / 180.0, lat * PI / 180.0, lat * PI / 180.0) == 0.0;
  }

  /** The distance does not depend on the order of the two points. */
  lemma DistanceIsSymmetric(m: MathLib, lat1: real, lon1: real, lat2: real, lon2: real)
    requires SinIsOdd(m)
    ensures CalculateDistance(m, lat1, lon1, lat2, lon2) == CalculateDistance(m, lat2, lon2, lat1, lon1)
  {
    var dLat, dLon := (lat2 - lat1) * PI / 180.0, (lon2 - lon1) * PI / 180.0;
    var dLat', dLon' := (lat1 - lat2) * PI / 180.0, (lon1 - lon2) * PI / 180.0;
    var phi1, phi2 := lat1 * PI / 180.0, lat2 * PI / 180.0;
    assert dLat' / 2.0 == -(dLat / 2.0);
    assert dLon' / 2.0 == -(dLon / 2.0);
    assert m.sin(dLat' / 2.0) == -m.sin(dLat / 2.0);
    assert m.sin(dLon' / 2.0) == -m.sin(dLon / 2.0);
    SquareOfNegation(m.sin(dLat / 2.0));
    SquareOfNegation(m.sin(dLon / 2.0));
    ProductCommutes(m.cos(phi1), m.cos(phi2), m.sin(dLon / 2.0) * m.sin(dLon / 2.0));
    assert HaversineTerm(m, dLat, dLon, phi1, phi2) == HaversineTerm(m, dLat', dLon', phi2, phi1);
  }

  lemma SquareOfNegation(s: real)
    ensures (-s) * (-s) == s * s
  {
  }

  lemma ProductCommutes(a: real, b: real, c: real)
    ensures a * b * c == b * a * c
  {
  }

  // ---------------------------------------------------------------------------
  // gpsTo3D and threeDToGPS

  /** The scene position of an object relative to the user: metres east in `x`, the object's
      own altitude in `y`, metres north negated in `z`. */
  function GpsTo3D(userLat: real, userLon: real, objectLat: real, objectLon: real,
                   altitude: Option<real>): (p: Vec3)
    ensures p.y == altitude.GetOr(DEFAULT_ALTITUDE)
    ensures objectLon > userLon <==> p.x > 0.0
    ensures objectLon < userLon <==> p.x < 0.0
    ensures objectLat > userLat <==> p.z < 0.0
    ensures objectLat < userLat <==> p.z > 0.0
  {
    var relativeLat := objectLat - userLat;
    var relativeLon := objectLon - userLon;
    var x := relativeLon * METERS_PER_DEGREE;
    var z := -relativeLat * METERS_PER_DEGREE;
    var y := altitude.GetOr(DEFAULT_ALTITUDE);
    Vec3(x, y, z)
  }

  /** The GPS position of a scene point given relative to the user. */
  function ThreeDToGps(userLat: real, userLon: real, x: real, z: real,
                       altitude: Option<real>): (g: GeoPoint)
    ensures g.altitude == altitude.GetOr(DEFAULT_ALTITUDE)
    ensures x > 0.0 <==> g.longitude > userLon
    ensures z < 0.0 <==> g.latitude > userLat
    ensures x == 0.0 && z == 0.0 ==> g.latitude == userLat && g.longitude == userLon
  {
    var relativeLon := x / METERS_PER_DEGREE;
    var relativeLat := -z / METERS_PER_DEGREE;
    GeoPoint(userLat + relativeLat, userLon + relativeLon, altitude.GetOr(DEFAULT_ALTITUDE))
  }

  /** Projecting a GPS position and converting the scene point back gives the position again. */
  lemma GpsRoundTrip(userLat: real, userLon: real, objectLat: real, objectLon: real,
                     altitude: Option<real>)
    ensures var p := GpsTo3D(userLat, userLon, objectLat, objectLon, altitude);
            ThreeDToGps(userLat, userLon, p.x, p.z, Some(p.y))
              == GeoPoint(objectLat, objectLon, altitude.GetOr(DEFAULT_ALTITUDE))
  {
  }

  /** Converting a scene point to GPS and projecting it again gives the scene point again. */
  lemma SceneRoundTrip(userLat: real, userLon: real, x: real, z: real, altitude: Option<real>)
    ensures var g := ThreeDToGps(userLat, userLon, x, z, altitude);
            GpsTo3D(userLat, userLon, g.latitude, g.longitude, Some(g.altitude))
              == Vec3(x, altitude.GetOr(DEFAULT_ALTITUDE), z)
  {
  }

  /** `x` depends only on the longitude difference and `z` only on the latitude difference. */
  lemma GpsTo3DDependsOnDifferences(userLat: real, userLon: real, objectLat: real, objectLon: real,
                                   userLat': real, userLon': real, objectLat': real, objectLon': real,
                                   altitude: Option<real>)
    ensures objectLon - userLon == objectLon' - userLon' ==>
              GpsTo3D(userLat, userLon, objectLat, objectLon, altitude).x
                == GpsTo3D(userLat', userLon', objectLat', objectLon', altitude).x
    ensures objectLat - userLat == objectLat' - userLat' ==>
              GpsTo3D(userLat, userLon, objectLat, objectLon, altitude).z
                == GpsTo3D(userLat', userLon', objectLat', objectLon', altitude).z
  {
  }

  /** An object at the user's coordinates sits at (0, altitude, 0); altitude defaults to 0. */
  lemma GpsTo3DAtUser(userLat: real, userLon: real, altitude: Option<real>)
    ensures GpsTo3D(userLat, userLon, userLat, userLon, altitude)
              == Vec3(0.0, altitude.GetOr(0.0), 0.0)
    ensures GpsTo3D(userLat, userLon, userLat, userLon, None) == Vec3(0.0, 0.0, 0.0)
  {
  }

  // ---------------------------------------------------------------------------
  // isInFieldOfView

  /** `Math.pow(v, 2)`. */
  function Square(v: real): (r: real)
    ensures r >= 0.0
  {
    v * v
  }

  /** The sum of the squared coordinate differences of two scene points. */
  function SquaredDistance(a: Vec3, b: Vec3): (r: real)
    ensures r >= 0.0
  {
    Square(a.x - b.x) + Square(a.y - b.y) + Square(a.z - b.z)
  }

  /** Whether an object lies within `maxDistance` (default 100) scene metres of the camera. */
  predicate IsInFieldOfView(m: MathLib, cameraPosition: Vec3, objectPosition: Vec3,
                            maxDistance: Option<real>)
  {
    m.sqrt(SquaredDistance(cameraPosition, objectPosition)) <= maxDistance.GetOr(DEFAULT_VIEW_DISTANCE)
  }

  /** For a non-negative radius the test is a comparison of squared distances. */
  lemma FieldOfViewIsSquaredComparison(m: MathLib, cameraPosition: Vec3, objectPosition: Vec3,
                                       maxDistance: real)
    requires SqrtIsRoot(m) && maxDistance >= 0.0
    ensures IsInFieldOfView(m, cameraPosition, objectPosition, Some(maxDistance))
            <==> SquaredDistance(cameraPosition, objectPosition) <= maxDistance * maxDistance
  {
    var s := SquaredDistance(cameraPosition, objectPosition);
    RootOfSquare(m.sqrt(s), s, maxDistance);
  }

  /** The test is symmetric in its two positions. */
  lemma FieldOfViewIsSymmetric(m: MathLib, a: Vec3, b: Vec3, maxDistance: Option<real>)
    ensures IsInFieldOfView(m, a, b, maxDistance) == IsInFieldOfView(m, b, a, maxDistance)
  {
    assert Square(a.x - b.x) == Square(b.x - a.x);
    assert Square(a.y - b.y) == Square(b.y - a.y);
    assert Square(a.z - b.z) == Square(b.z - a.z);
  }

  /** A negative radius admits nothing. */
  lemma FieldOfViewNegativeRadius(m: MathLib, a: Vec3, b: Vec3, maxDistance: real)
    requires SqrtIsRoot(m) && maxDistance < 0.0
    ensures !IsInFieldOfView(m, a, b, Some(maxDistance))
  {
    assert m.sqrt(SquaredDistance(a, b)) >= 0.0;
  }

  /** Leaving out `maxDistance` means a radius of 100. */
  lemma FieldOfViewDefaultRadius(m: MathLib, a: Vec3, b: Vec3)
    ensures IsInFieldOfView(m, a, b, None) == IsInFieldOfView(m, a, b, Some(100.0))
  {
  }

  // ---------------------------------------------------------------------------
  // filterObjectsByDistance

  /** Whether `obj` is at most `limit` metres (Haversine) from the user. */
  predicate WithinDistance(m: MathLib, userLat: real, userLon: real, obj: ArObject, limit: real)
  {
    CalculateDistance(m, userLat, userLon, obj.position.latitude, obj.position.longitude) <= limit
  }

  /** `objects.filter(...)`: the objects at most `maxDistance` (default 1000) metres from the
      user, in their original order. */
  function FilterObjectsByDistance(m: MathLib, userLat: real, userLon: real,
                                   objects: seq<ArObject>, maxDistance: Option<real>): (r: seq<ArObject>)
    ensures |r| <= |objects|
    ensures forall o :: o in r <==>
              o in objects && WithinDistance(m, userLat, userLon, o, maxDistance.GetOr(DEFAULT_FILTER_DISTANCE))
    ensures forall o :: multiset(r)[o] ==
              if WithinDistance(m, userLat, userLon, o, maxDistance.GetOr(DEFAULT_FILTER_DISTANCE))
              then multiset(objects)[o] else 0
  {
    if objects == [] then []
    else
      var rest := FilterObjectsByDistance(m, userLat, userLon, objects[1..], maxDistance);
      assert multiset(objects) == multiset{objects[0]} + multiset(objects[1..]) by {
        assert objects == [objects[0]] + objects[1..];
      }
      if WithinDistance(m, userLat, userLon, objects[0], maxDistance.GetOr(DEFAULT_FILTER_DISTANCE))
      then [objects[0]] + rest
      else rest
  }

  /** `a` is `b` with zero or more elements removed, the rest kept in order. */
  ghost predicate IsSubsequence<T>(a: seq<T>, b: seq<T>)
    decreases |b|
  {
    if a == [] then true
    else if b == [] then false
    else (a[0] == b[0] && IsSubsequence(a[1..], b[1..])) || IsSubsequence(a, b[1..])
  }

  /** The filter keeps a subsequence of its input: order is preserved. */
  lemma {:induction false} FilterIsSubsequence(m: MathLib, userLat: real, userLon: real,
                                               objects: seq<ArObject>, maxDistance: Option<real>)
    ensures IsSubsequence(FilterObjectsByDistance(m, userLat, userLon, objects, maxDistance), objects)
  {
    if objects != [] {
      FilterIsSubsequence(m, userLat, userLon, objects[1..], maxDistance);
      var rest := FilterObjectsByDistance(m, userLat, userLon, objects[1..], maxDistance);
      if WithinDistance(m, userLat, userLon, objects[0], maxDistance.GetOr(DEFAULT_FILTER_DISTANCE)) {
        assert ([objects[0]] + rest)[1..] == rest;
      }
    }
  }

  /** Filtering a second time with the same threshold changes nothing. */
  lemma {:induction false} FilterIsIdempotent(m: MathLib, userLat: real, userLon: real,
                                              objects: seq<ArObject>, maxDistance: Option<real>)
    ensures var once := FilterObjectsByDistance(m, userLat, userLon, objects, maxDistance);
            FilterObjectsByDistance(m, userLat, userLon, once, maxDistance) == once
  {
    if objects != [] {
      FilterIsIdempotent(m, userLat, userLon, objects[1..], maxDistance);
      var rest := FilterObjectsByDistance(m, userLat, userLon, objects[1..], maxDistance);
      if WithinDistance(m, userLat, userLon, objects[0], maxDistance.GetOr(DEFAULT_FILTER_DISTANCE)) {
        var once := [objects[0]] + rest;
        assert once[0] == objects[0] && once[1..] == rest;
      }
    }
  }

  /** A larger threshold keeps everything a smaller one keeps, in the same order. */
  lemma {:induction false} FilterIsMonotone(m: MathLib, userLat: real, userLon: real,
                                            objects: seq<ArObject>, small: real, large: real)
    requires small <= large
    ensures var kept := FilterObjectsByDistance(m, userLat, userLon, objects, Some(small));
            var keptMore := FilterObjectsByDistance(m, userLat, userLon, objects, Some(large));
            IsSubsequence(kept, keptMore) && forall o :: o in kept ==> o in keptMore
  {
    if objects != [] {
      FilterIsMonotone(m, userLat, userLon, objects[1..], small, large);
      var o := objects[0];
      var rest1 := FilterObjectsByDistance(m, userLat, userLon, objects[1..], Some(small));
      var rest2 := FilterObjectsByDistance(m, userLat, userLon, objects[1..], Some(large));
      if WithinDistance(m, userLat, userLon, o, small) {
        assert ([o] + rest1)[1..] == rest1 && ([o] + rest2)[1..] == rest2;
      } else if WithinDistance(m, userLat, userLon, o, large) {
        assert ([o] + rest2)[1..] == rest2;
      }
    }
  }

  /** Leaving out `maxDistance` means a threshold of 1000 metres. */
  lemma {:induction false} FilterDefaultThreshold(m: MathLib, userLat: real, userLon: real,
                                                  objects: seq<ArObject>)
    ensures FilterObjectsByDistance(m, userLat, userLon, objects, None)
              == FilterObjectsByDistance(m, userLat, userLon, objects, Some(1000.0))
  {
    if objects != [] {
      FilterDefaultThreshold(m, userLat, userLon, objects[1..]);
    }
  }

  // ---------------------------------------------------------------------------
  // getDirectionToObject

  /** `(bearing + 360) % 360`: a raw bearing in degrees brought into [0, 360). */
  function NormalizeBearing(raw: real): (r: real)
    ensures -180.0 <= raw <= 180.0 ==> 0.0 <= r < 360.0
    ensures 0.0 <= raw <= 180.0 ==> r == raw
    ensures -180.0 <= raw < 0.0 ==> r == raw + 360.0
  {
    Remainder360(raw + 360.0)
  }

  /** Initial compass bearing in degrees from the user to the object (0 = north, 90 = east). */
  function GetDirectionToObject(m: MathLib, userLat: real, userLon: real,
                                objectLat: real, objectLon: real): (bearing: real)
    ensures Atan2InRange(m) ==> 0.0 <= bearing < 360.0
  {
    var dLon := (objectLon - userLon) * PI / 180.0;
    var lat1 := userLat * PI / 180.0;
    var lat2 := objectLat * PI / 180.0;
    var y := BearingY(m, dLon, lat2);
    var x := BearingX(m, dLon, lat1, lat2);
    var raw := m.atan2(y, x) * 180.0 / PI;
    NormalizeBearing(raw)
  }

  /** The `y` argument of the bearing's atan2, the eastward component: sin(dLon) * cos(phi2). */
  function BearingY(m: MathLib, dLon: real, phi2: real): real
  {
    m.sin(dLon) * m.cos(phi2)
  }

  /** The `x` argument of the bearing's atan2, the northward component:
      cos(phi1) * sin(phi2) - sin(phi1) * cos(phi2) * cos(dLon). */
  function BearingX(m: MathLib, dLon: real, phi1: real, phi2: real): real
  {
    m.cos(phi1) * m.sin(phi2) - m.sin(phi1) * m.cos(phi2) * m.cos(dLon)
  }

  /** The bearing from a point to itself is 0. */
  lemma DirectionToSelfIsZero(m: MathLib, lat: real, lon: real)
    requires TrigAtZero(m) && Atan2AtZero(m)
    ensures GetDirectionToObject(m, lat, lon, lat, lon) == 0.0
  {
    var phi := lat * PI / 180.0;
    assert (lon - lon) * PI / 180.0 == 0.0;
    assert BearingY(m, 0.0, phi) == 0.0 * m.cos(phi) == 0.0;
    assert m.sin(phi) * m.cos(phi) * 1.0 == m.cos(phi) * m.sin(phi);
    assert BearingX(m, 0.0, phi, phi) == 0.0;
    assert NormalizeBearing(m.atan2(0.0, 0.0) * 180.0 / PI) == 0.0;
  }

  // ---------------------------------------------------------------------------
  // formatCoordinates and formatDistance

  /** The degree sign. */
  const DEGREE: char := '\U{00B0}'

  /** One coordinate as formatCoordinates prints it: `toFixed` of the value followed by the
      degree sign and `positive`, or `toFixed` of its absolute value followed by the degree sign
      and `negative`. */
  function Hemisphere(nf: NumberFormat, v: real, precision: real, positive: char, negative: char): (r: Result<string>)
    ensures r.Ok? <==> -1.0 < precision < 101.0
    ensures r.Ok? ==>
              r.value == nf.toFixed(Abs(v), Trunc(precision)) + [DEGREE, if v >= 0.0 then positive else negative]
  {
    if v >= 0.0 then
      var digits :- ToFixed(nf, v, precision);
      Ok(digits + [DEGREE, positive])
    else
      var digits :- ToFixed(nf, Abs(v), precision);
      Ok(digits + [DEGREE, negative])
  }

  /** `"<lat>°N|S, <lon>°E|W"` with `precision` (default 6) decimals; `toFixed` raises a
      RangeError when the precision, truncated toward zero, falls outside [0, 100]. */
  function FormatCoordinates(nf: NumberFormat, lat: real, lon: real, precision: Option<real>): (r: Result<string>)
    ensures var p := precision.GetOr(DEFAULT_PRECISION);
            && (r.Ok? <==> -1.0 < p < 101.0)
            && (r.Ok? ==>
                  r.value == nf.toFixed(Abs(lat), Trunc(p)) + [DEGREE, if lat >= 0.0 then 'N' else 'S'] + ", " +
                             nf.toFixed(Abs(lon), Trunc(p)) + [DEGREE, if lon >= 0.0 then 'E' else 'W'])
  {
    var p := precision.GetOr(DEFAULT_PRECISION);
    match Hemisphere(nf, lat, p, 'N', 'S')
    case Throw(e) => Throw(e)
    case Ok(latStr) =>
      match Hemisphere(nf, lon, p, 'E', 'W')
      case Throw(e) => Throw(e)
      case Ok(lonStr) => Ok(latStr + ", " + lonStr)
  }

  /** Leaving out `precision` means six decimals. */
  lemma FormatCoordinatesDefaultPrecision(nf: NumberFormat, lat: real, lon: real)
    ensures FormatCoordinates(nf, lat, lon, None) == FormatCoordinates(nf, lat, lon, Some(6.0))
    ensures FormatCoordinates(nf, lat, lon, None).Ok?
  {
  }

  /** A fractional precision is truncated first: 100.5 and -0.5 are accepted, 101 and -1 are not. */
  lemma FormatCoordinatesFractionalPrecision(nf: NumberFormat, lat: real, lon: real)
    ensures FormatCoordinates(nf, lat, lon, Some(100.5)) == FormatCoordinates(nf, lat, lon, Some(100.0))
    ensures FormatCoordinates(nf, lat, lon, Some(-0.5)) == FormatCoordinates(nf, lat, lon, Some(0.0))
    ensures FormatCoordinates(nf, lat, lon, Some(-0.5)).Ok?
    ensures FormatCoordinates(nf, lat, lon, Some(101.0)) == Throw(RangeError)
    ensures FormatCoordinates(nf, lat, lon, Some(-1.0)) == Throw(RangeError)
  {
  }

  /** A distance for display: rounded metres below 1000 m, kilometres with one decimal from
      1000 m on. */
  function FormatDistance(nf: NumberFormat, meters: real): string
  {
    if meters < 1000.0 then
      nf.show(nf.round(meters)) + "m"
    else
      ToFixed(nf, meters / 1000.0, 1.0).value + "km"
  }

  /** The rendering of a number never contains the letter 'k' (digits, sign, point, exponent). */
  ghost predicate ShowHasNoK(nf: NumberFormat) {
    forall x, i :: 0 <= i < |nf.show(x)| ==> nf.show(x)[i] != 'k'
  }

  /** The output always ends in 'm', and carries the "km" suffix exactly when the distance is
      at least 1000 metres. */
  lemma FormatDistanceUnit(nf: NumberFormat, meters: real)
    requires ShowHasNoK(nf)
    ensures var r := FormatDistance(nf, meters);
            && |r| >= 1 && r[|r| - 1] == 'm'
            && ((|r| >= 2 && r[|r| - 2..] == "km") <==> meters >= 1000.0)
  {
    var r := FormatDistance(nf, meters);
    if meters < 1000.0 {
      var x := nf.round(meters);
      var digits := nf.show(x);
      assert r == digits + "m";
      if |r| >= 2 {
        var i := |digits| - 1;
        assert 0 <= i < |nf.show(x)|;
        assert nf.show(x)[i] != 'k';
        assert r[|r| - 2] == digits[i];
      }
    } else {
      assert r[|r| - 2..] == "km";
    }
  }

  /** `formatDistance(742)` is "742m" and `formatDistance(1234)` is "1.2km", given what
      `Math.round`, number rendering and `toFixed` produce for those arguments; 1000 m already
      takes the kilometre branch. */
  lemma FormatDistanceExamples(nf: NumberFormat)
    requires nf.round(742.0) == 742.0 && nf.show(742.0) == "742"
    requires nf.toFixed(1.234, 1) == "1.2" && nf.toFixed(1.0, 1) == "1.0"
    ensures FormatDistance(nf, 742.0) == "742m"
    ensures FormatDistance(nf, 1234.0) == "1.2km"
    ensures FormatDistance(nf, 1000.0) == "1.0km"
  {
  }
}
