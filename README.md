# Location-based AR placement helpers, modelled in Dafny

This project models the geometric core of a browser AR demo that anchors 3D objects at GPS
coordinates. The core has three parts.

- **The location utilities** (`window.LOCATION_AR_UTILS` in `public/location-ar-config.js`),
  module `LocationArUtils`. It covers:
  - the Haversine distance;
  - the linear GPS-to-scene projection and its inverse;
  - the Euclidean radius test `isInFieldOfView`;
  - the distance filter over an object list;
  - the compass bearing, normalised into [0, 360);
  - the coordinate and distance formatters.
- **The Three.js location prototype** (`src/components/LocationBasedARThree.js`), module
  `LocationArThree`. It covers:
  - the reference location with its default fallback;
  - the per-object placement, using either the utilities or the inline fallback projection;
  - the nearest-object `reduce`;
  - the "add object" button.

  The React state and the scene reference are the fields of the class `Component`. The scene is
  the sequence of meshes added to it.
- **The A-Frame location prototype** (`src/components/LocationBasedAR.js`), module
  `LocationArAFrame`. It covers:
  - the reference location with its default fallback;
  - the projection `map` over the configured objects;
  - the "add object" button.

Two support modules:
- `ArTypes` holds the value types: positions, objects, and the optional JavaScript value.
- `JsRuntime` holds what the code takes from the JavaScript runtime:
  - `Math.PI`;
  - `Math.sin`, `Math.cos`, `Math.atan2` and `Math.sqrt`, as uninterpreted function parameters
    (`MathLib`), with the facts each property needs stated as predicates (`SinIsOdd`,
    `SqrtIsRoot`, `Atan2InRange`, ...);
  - the truncating `%` operator;
  - `toFixed` with its RangeError;
  - `Math.round` and number rendering, as uninterpreted parameters (`NumberFormat`);
  - the decimal rendering of `Date.now()`.

Numbers are exact reals. So both round trips of the projection hold exactly.

JavaScript default parameters work by passing `undefined`: `altitude = 0`, `maxDistance = 100`,
`maxDistance = 1000` and `precision = 6`. These parameters are `Option` values, and a lemma per
default shows what leaving the argument out means.

`Date.now()` and `Math.random()` are parameters of the "add" operations. Each new-object function
states its offset bound under the hypothesis that the random draw lies in [0, 1).

The model follows the code:
- The scale factor is 111000 metres per degree on both axes, with no cos(latitude) correction.
- `y` is the object's own altitude, not the difference of object and user altitude.
- The distance filter keeps objects within a Haversine distance. The radius test uses the
  Euclidean distance between scene positions, with a default of 100.

`public/location-ar-config.js:79` writes `position: { x: 0, 10, 5 }`. That is not valid
JavaScript, so in a browser the script fails to load and `LOCATION_AR_UTILS` is missing.
- In the Three.js prototype the inline fallback projection therefore runs.
- The nearest-object selection, which is guarded on the utilities, never runs.

The model keeps the utilities' presence as a parameter (`utilsLoaded`).
`LocationArThree.Position3D` proves that both branches place an object at the same point.
`CreateArObjects` states that without the utilities `nearestObject` is left unchanged.

## Model

| member | source | states |
|---|---|---|
| `LocationArUtils.CalculateDistance` | public/location-ar-config.js:112-122 | The Haversine distance in metres, with sin, cos, atan2 and sqrt as parameters. It is a definition; DistanceToSelfIsZero and DistanceIsSymmetric state its properties. |
| `LocationArUtils.HaversineTerm` | public/location-ar-config.js:116-119 | The term `a` of the Haversine formula. It is a definition; DistanceToSelfIsZero (a is 0 at coinciding points) and DistanceIsSymmetric (a is unchanged by swapping the points) state its properties. |
| `LocationArUtils.DistanceToSelfIsZero` | public/location-ar-config.js:112-122 | The Haversine distance from a point to itself is 0, given sin(0)=0, cos(0)=1, sqrt as the non-negative root and atan2(0,1)=0. |
| `LocationArUtils.DistanceIsSymmetric` | public/location-ar-config.js:112-122 | Swapping the two points does not change the distance, given that sin is odd. |
| `LocationArUtils.GpsTo3D` | public/location-ar-config.js:125-136 | `y` is the altitude argument, or 0 when it is left out. `x` is positive (negative) exactly when the object is east (west) of the user. `z` is negative (positive) exactly when the object is north (south) of the user. |
| `LocationArUtils.ThreeDToGps` | public/location-ar-config.js:139-148 | The altitude is the argument, or 0 when it is left out. Positive `x` means a longitude east of the user. Negative `z` means a latitude north of the user. The scene origin maps to the user's coordinates. |
| `LocationArUtils.GpsRoundTrip` | public/location-ar-config.js:125-148 | Applying threeDToGPS to gpsTo3D's x, z and y returns the object's latitude, longitude and altitude exactly. |
| `LocationArUtils.SceneRoundTrip` | public/location-ar-config.js:125-148 | Applying gpsTo3D to threeDToGPS's result returns `{x, y: altitude, z}` exactly. |
| `LocationArUtils.GpsTo3DDependsOnDifferences` | public/location-ar-config.js:127-132 | `x` depends only on the longitude difference and `z` only on the latitude difference. |
| `LocationArUtils.GpsTo3DAtUser` | public/location-ar-config.js:125-135 | An object at the user's coordinates maps to (0, altitude, 0). With the altitude left out it maps to (0, 0, 0). |
| `LocationArUtils.IsInFieldOfView` | public/location-ar-config.js:151-158 | The radius test on scene positions. It is a definition; FieldOfViewIsSquaredComparison, FieldOfViewIsSymmetric, FieldOfViewNegativeRadius and FieldOfViewDefaultRadius state its properties. |
| `LocationArUtils.FieldOfViewIsSquaredComparison` | public/location-ar-config.js:151-158 | For maxDistance ≥ 0 the test holds exactly when the squared Euclidean distance is at most maxDistance². |
| `LocationArUtils.FieldOfViewIsSymmetric` | public/location-ar-config.js:151-158 | The test is symmetric in the camera and object positions. |
| `LocationArUtils.FieldOfViewNegativeRadius` | public/location-ar-config.js:151-158 | With a negative maxDistance the test is always false. |
| `LocationArUtils.FieldOfViewDefaultRadius` | public/location-ar-config.js:151 | Leaving out maxDistance means a radius of 100. |
| `LocationArUtils.FilterObjectsByDistance` | public/location-ar-config.js:161-169 | An object is in the result exactly when it is in the input and its Haversine distance from the user is at most maxDistance (default 1000). Each passing object occurs in the result as often as in the input, and each failing one not at all. The result is no longer than the input. |
| `LocationArUtils.FilterIsSubsequence` | public/location-ar-config.js:161-169 | The result is an order-preserving subsequence of the input. |
| `LocationArUtils.FilterIsIdempotent` | public/location-ar-config.js:161-169 | Filtering the result again with the same threshold returns it unchanged. |
| `LocationArUtils.FilterIsMonotone` | public/location-ar-config.js:161-169 | What a smaller threshold keeps is a subsequence, and so a subset, of what a larger threshold keeps. |
| `LocationArUtils.FilterDefaultThreshold` | public/location-ar-config.js:161 | Leaving out maxDistance means a threshold of 1000. |
| `LocationArUtils.NormalizeBearing` | public/location-ar-config.js:180-181 | For a raw bearing θ in [-180, 180], `(θ + 360) % 360` lies in [0, 360). It equals θ for θ in [0, 180] and θ + 360 for θ < 0. |
| `LocationArUtils.BearingY` | public/location-ar-config.js:177 | The source's `y`, sin(Δlon)·cos(φ2), the eastward component. It is a definition; DirectionToSelfIsZero (y is 0 at coinciding points) and GetDirectionToObject state its properties. |
| `LocationArUtils.BearingX` | public/location-ar-config.js:178 | The source's `x`, cos(φ1)·sin(φ2) − sin(φ1)·cos(φ2)·cos(Δlon), the northward component. It is a definition; DirectionToSelfIsZero (x is 0 at coinciding points) and GetDirectionToObject state its properties. |
| `LocationArUtils.GetDirectionToObject` | public/location-ar-config.js:172-184 | The bearing lies in [0, 360), given that atan2 returns an angle in [-π, π]. |
| `LocationArUtils.DirectionToSelfIsZero` | public/location-ar-config.js:172-184 | The bearing from a point to itself is 0, given sin(0)=0, cos(0)=1 and atan2(0,0)=0. |
| `LocationArUtils.Hemisphere` | public/location-ar-config.js:188-189 | One coordinate succeeds exactly when the precision lies strictly between -1 and 101 (its truncation toward zero lies in [0, 100]). Its text is toFixed of the absolute value, `°`, then the positive letter for v ≥ 0 and the negative letter otherwise. |
| `LocationArUtils.FormatCoordinates` | public/location-ar-config.js:187-191 | It succeeds exactly when the precision (default 6) lies strictly between -1 and 101, that is, when its truncation toward zero lies in [0, 100]; otherwise toFixed raises a RangeError. The digits are toFixed with the truncated precision. The text is the absolute latitude, `°`, then N if lat ≥ 0 and S otherwise; then `, `; then the absolute longitude, `°`, then E if lon ≥ 0 and W otherwise. |
| `LocationArUtils.FormatCoordinatesDefaultPrecision` | public/location-ar-config.js:187 | Leaving out the precision means 6 decimals, which always succeeds. |
| `LocationArUtils.FormatCoordinatesFractionalPrecision` | public/location-ar-config.js:187-191 | A precision of 100.5 behaves as 100 and -0.5 as 0, and both succeed. Precisions 101 and -1 raise a RangeError. |
| `LocationArUtils.FormatDistance` | public/location-ar-config.js:194-200 | The display text of a distance. It is a definition; FormatDistanceUnit and FormatDistanceExamples state its properties. |
| `LocationArUtils.FormatDistanceUnit` | public/location-ar-config.js:194-200 | The text always ends in `m`. It ends in `km` exactly when meters ≥ 1000, so 1000 takes the km branch. This assumes a rendered number never contains the letter k. |
| `LocationArUtils.FormatDistanceExamples` | public/location-ar-config.js:194-200 | 742 gives `742m`, 1234 gives `1.2km` and 1000 gives `1.0km`, given what rounding and toFixed produce for those inputs. |
| `JsRuntime.Remainder360` | public/location-ar-config.js:181 | The `%` operator with divisor 360 gives a result in [0, 360) for a non-negative dividend and in (-360, 0] for a non-positive one. |
| `JsRuntime.ToFixed` | public/location-ar-config.js:188-189 | The digit count is first truncated toward zero. toFixed succeeds exactly when the count lies strictly between -1 and 101 (so 100.5 and -0.5 are accepted), and otherwise throws a RangeError. On success the text is the conversion with the truncated count. |
| `JsRuntime.Abs` | public/location-ar-config.js:188-189 | Math.abs is non-negative and equals either the argument or its negation. |
| `JsRuntime.NatToDecimal` | src/components/LocationBasedARThree.js:407 | `${Date.now()}` renders as a non-empty string of decimal digits, with no leading zero, that denotes the clock value. |
| `LocationArThree.ComponentConfig` | src/components/LocationBasedARThree.js:21-62 | The configuration the component builds from the global object list, if any. It is a definition; DefaultObjectsAtOrigin states what its default instance places. |
| `LocationArThree.FallbackPosition3D` | src/components/LocationBasedARThree.js:221-227 | The inline fallback projection equals gpsTo3D called with the object's altitude. |
| `LocationArThree.Position3D` | src/components/LocationBasedARThree.js:211-228 | Whether or not the utilities are loaded, the position is the fallback projection's. An object at the user's coordinates is placed at (0, altitude, 0). |
| `LocationArThree.DefaultObjectsAtOrigin` | src/components/LocationBasedARThree.js:23-56 | At the default location both built-in objects are placed at the scene origin (0, 0, 0). |
| `LocationArThree.Closer` | src/components/LocationBasedARThree.js:292-302 | The reducer returns one of its two arguments, whichever is not farther. On equal distances it keeps `closest`. |
| `LocationArThree.Nearest` | src/components/LocationBasedARThree.js:291-303 | For a non-empty list the reduce returns an element of the list whose distance is at most every element's distance. |
| `LocationArThree.NearestIsFirstMinimum` | src/components/LocationBasedARThree.js:292-302 | The selected element is the first nearest one: every earlier element is strictly farther, because the comparison is a strict `<`. |
| `LocationArThree.NearestOfEqualDistancesIsFirst` | src/components/LocationBasedARThree.js:301 | When all distances are equal, the first element is selected. |
| `LocationArThree.DistanceFrom` | src/components/LocationBasedARThree.js:293-300 | The reducer's distance: the Haversine distance from the reference location to a record's configured position. It is a definition; Nearest, NearestIsFirstMinimum and CreateArObjects use it. |
| `LocationArThree.NewObject` | src/components/LocationBasedARThree.js:406-417 | The new object's id is `object-` followed by the clock value; its altitude is 0 and its scale 2. Its latitude and longitude each lie in [user − 0.0005, user + 0.0005) when the random draw is in [0, 1). |
| `LocationArThree.Component.constructor` | src/components/LocationBasedARThree.js:12-18 | The component starts with no location, no accuracy, no objects, no nearest object, and the given scene. |
| `LocationArThree.Component.RequestLocationPermission` | src/components/LocationBasedARThree.js:65-94 | A fix becomes the reference location and its accuracy is recorded and returned. Without a fix, `config.defaultLocation` is stored and returned, and the accuracy is unchanged. |
| `LocationArThree.Component.CreateArObjects` | src/components/LocationBasedARThree.js:203-307 | Without a scene it returns `[]` and changes nothing. Otherwise it gives one record per configured object, in order; each record keeps the object and adds its position and the index of its mesh. The meshes are appended to the scene after the existing nodes. `arObjects` becomes the list. `nearestObject` becomes the reduce's result only when the list is non-empty and the utilities are loaded. |
| `LocationArThree.Component.AddArObject` | src/components/LocationBasedARThree.js:403-455 | Without a user location or a scene nothing changes. Otherwise exactly one record, for the new object, is appended to `arObjects`, with earlier entries unchanged, and its sphere is appended to the scene. |
| `LocationArAFrame.RelativePosition3D` | src/components/LocationBasedAR.js:86-96 | The inline projection (`x = Δlon·111000`, `z = −Δlat·111000`, `y = altitude`) equals gpsTo3D. |
| `LocationArAFrame.ProjectObjects` | src/components/LocationBasedAR.js:85-98 | The `map` returns one entry per configured object, in the same order. Each entry is that object unchanged with only its `position3D` added. |
| `LocationArAFrame.ProjectionAtUser` | src/components/LocationBasedAR.js:87-96 | An object at the reference coordinates gets `position3D` (0, altitude, 0). |
| `LocationArAFrame.DefaultObjectsAtOrigin` | src/components/LocationBasedAR.js:13-44 | With the default location as reference, both default objects are placed at (0, 0, 0). |
| `LocationArAFrame.NewObject` | src/components/LocationBasedAR.js:266-278 | The new object's id is `object-` followed by the clock value; its type is text and its altitude 0. Its latitude and longitude offsets each lie in [−0.0005, 0.0005) when the random draw is in [0, 1). |
| `LocationArAFrame.Component.constructor` | src/components/LocationBasedAR.js:7-8 | The component starts with no user location and no objects. |
| `LocationArAFrame.Component.RequestLocationPermission` | src/components/LocationBasedAR.js:48-73 | A fix becomes the reference location. Without one, `config.defaultLocation` is stored and returned. |
| `LocationArAFrame.Component.InitializeLocationAr` | src/components/LocationBasedAR.js:76-100 | After the location request, `arObjects` is the projection of `config.objects` relative to the stored location. |
| `LocationArAFrame.Component.AddArObject` | src/components/LocationBasedAR.js:263-280 | Without a user location nothing changes. Otherwise exactly one new object, without a scene position, is appended, with earlier entries unchanged. |

## Left out

- Floating point: numbers are exact reals. The two projection round trips therefore hold exactly; in IEEE-754 doubles they hold only up to rounding. NaN, infinities and -0 are not modelled.
- LocationArUtils.FormatCoordinates: a precision of NaN or ±Infinity is not modelled. Numbers are reals, so every precision is finite. toFixed truncates NaN to 0 and raises a RangeError for an infinity.
- Exact values of the Haversine distance and the bearing: sin, cos, atan2 and sqrt are uninterpreted. Only the facts each lemma names are assumed, as hypotheses.
- `Math.PI` is the decimal literal 3.141592653589793 rather than the exact double.
- Number-to-string conversion (`toFixed`, `Math.round`, template rendering) is uninterpreted. Only the branch, the hemisphere letter, the absolute value, the separators and toFixed's RangeError are modelled.
- JsRuntime.Remainder360: the `%` operator is modelled only for the divisor 360, the only divisor the code uses.
- Geolocation acquisition and its options (`enableHighAccuracy`, `timeout`, `maximumAge`) are I/O. The model receives the outcome, a fix or nothing, as `GpsReading`.
- Camera access, permission queries and the renderer, light and camera setup (`initializeThreeJS`, `initializeCamera`) are browser I/O and rendering. The scene's initial contents are a constructor parameter.
- The Three.js `initializeLocationAR` orchestration is left out. It sequences the location request, renderer setup, camera start and `createARObjects`, and turns a renderer failure into an error message.
- Meshes: a mesh is represented only by its shape (text panel with its caption, cube or sphere), position, scale and rotation. The geometry sizes, materials and the text-panel canvas are rendering. LocationArThree.MeshFor and LocationArThree.SphereFor are definitions over that representation; CreateArObjects and AddArObject state which mesh each object gets.
- Materials, colours, the text-panel canvas texture, the render loop's rotation, resize handling and `recalibrateLocation` are rendering.
- The A-Frame scene markup (`createAFrameScene`), the script loading, and the delayed scene rebuild in `addARObject` are UI markup and timers. The delayed rebuild draws from the object list its callback captured.
- React asynchrony is not modelled: each operation runs to completion on the current state, and stale closures over old state are not represented.
- LocationArThree.FallbackPosition3D: the fallback reads `obj.position.altitude` directly, so in the source an object without an altitude would get `y = undefined`. Positions in the model always carry an altitude.
- The global configuration object `LOCATION_AR_CONFIG`, other than its object list, is not modelled: lighting, camera, rendering and debug settings.
- LocationArThree.ComponentConfig: the `...globalConfig` spread takes only the object list from the global configuration. The shipped `public/location-ar-config.js` defines no `defaultLocation` key, so the spread leaves the built-in default location in place; other keys it would copy are settings the model does not use.
