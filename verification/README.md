# CARLA simulator core, modelled in Dafny

This project models a set of core components of the CARLA driving simulator
and proves properties about them:

- **Geo-referencing (LibCarla).** The ellipsoid and projection parameter
  records, geographic locations, the projection value, the four map
  projections (transverse Mercator, UTM, Web Mercator, Lambert conformal
  conic) and their dispatch, and the OpenDRIVE geo-reference parser, which
  turns a PROJ string into a projection and a geo-reference.
- **Server synchronization.** The registry of synchronization windows that
  clients and participants use to block the simulation.
- **V2X sensors.** The mailboxes of the custom V2X sensor and of the CAM V2X
  sensor, and the radar detection buffer.
- **Cosmos static exporters.** Session ids, crosswalks, lane lines, road
  boundaries, traffic signs, wait lines and road markings exported as labels.
- **Map logic.** Parsing the traffic-light logic JSON, applying it to
  controllers, and finding the closest actor of a signal.
- **Digital-twin traffic lights.** Classifying emissive materials into the
  red, yellow and green lamp and the intensity they get for a state.
- **Mesh to landscape.** The Carla plugin (component filters, heightmap
  sizing, cell indexing, displacement and height encoding) and the CarlaTools
  variant (variance filter, bounds, position mapping, heightmap painting).
- **Wide-angle lens camera.** The camera models (polynomial, Kannala-Brandt
  Newton solver, focal distance, shader flags, distortion plan) and the
  wide-angle scene-capture sensor: its setters, the cubemap render mask, the
  captured faces and the face a direction falls on.

Doubles and floats are modelled as reals. Trigonometry, logarithms, the
projection series, string-to-number conversion and engine queries (class
checks, wildcard matching, transforms, traces) are function-valued
parameters, so every theorem holds for any implementation of them. Code that
changes state step by step is modelled by methods with loops; each loop is
proved against a recursive specification function, and the properties are
proved about that function.

## Model

| member | source | states |
|---|---|---|
| CosmosCommon.ToMeters | Unreal/CarlaUE4/Plugins/Carla/Source/Carla/Cosmos/Exporter/LaneLineExporter.cpp:164 | each coordinate in metres times 100 is the coordinate in centimetres |
| CosmosCommon.FindChar | Unreal/CarlaUE4/Plugins/Carla/Source/Carla/Cosmos/Exporter/CosmosStaticExporter.h:56 | the index found holds the character and none before it does; no index means the character does not occur |
| CosmosCommon.FindLastChar | Unreal/CarlaUE4/Plugins/Carla/Source/Carla/Cosmos/Exporter/CosmosStaticExporter.h:57 | the index found holds the character and none after it does; no index means the character does not occur |
| CosmosCommon.ParseSessionIdParts | Unreal/CarlaUE4/Plugins/Carla/Source/Carla/Cosmos/Exporter/CosmosStaticExporter.h:52-63 | on success the three parts are non-empty, joined by underscores they give back the input, and the uuid and end parts hold no underscore |
| CosmosCommon.NoUnderscoreFails | Unreal/CarlaUE4/Plugins/Carla/Source/Carla/Cosmos/Exporter/CosmosStaticExporter.h:56-57 | a text without an underscore is rejected |
| CosmosCommon.LeadingUnderscoreFails | Unreal/CarlaUE4/Plugins/Carla/Source/Carla/Cosmos/Exporter/CosmosStaticExporter.h:58 | a text starting with an underscore is rejected |
| CosmosCommon.TrailingUnderscoreFails | Unreal/CarlaUE4/Plugins/Carla/Source/Carla/Cosmos/Exporter/CosmosStaticExporter.h:58 | a text ending with an underscore is rejected |
| CosmosCommon.SingleUnderscoreFails | Unreal/CarlaUE4/Plugins/Carla/Source/Carla/Cosmos/Exporter/CosmosStaticExporter.h:58 | `uuid_end` with a single underscore is rejected |
| CosmosCommon.ParseRoundTrip | Unreal/CarlaUE4/Plugins/Carla/Source/Carla/Cosmos/Exporter/CosmosStaticExporter.h:52-63 | non-empty parts, the uuid and end without underscores, joined by underscores parse back to exactly those parts |
| CosmosCommon.FirstCharAt | Unreal/CarlaUE4/Plugins/Carla/Source/Carla/Cosmos/Exporter/CosmosStaticExporter.h:56 | an index holding the character with none before it is the one found |
| CosmosCommon.LastCharAt | Unreal/CarlaUE4/Plugins/Carla/Source/Carla/Cosmos/Exporter/CosmosStaticExporter.h:57 | an index holding the character with none after it is the one found |
| CosmosCommon.NatDigits | Unreal/CarlaUE4/Plugins/Carla/Source/Carla/Cosmos/Exporter/CosmosStaticExporter.h:35-38 | `%lld` of a non-negative number is a non-empty run of decimal digits |
| CosmosCommon.Decimal | Unreal/CarlaUE4/Plugins/Carla/Source/Carla/Cosmos/Exporter/CosmosStaticExporter.h:35-38 | `%lld` of any number is non-empty and holds no underscore |
| CosmosCommon.TruncateTowardZero | Unreal/CarlaUE4/Plugins/Carla/Source/Carla/Cosmos/Exporter/CosmosStaticExporter.h:32 | the cast to int64 truncates toward zero: the floor for non-negative values, the ceiling for negative ones |
| CosmosCommon.GeneratedSessionIdParses | Unreal/CarlaUE4/Plugins/Carla/Source/Carla/Cosmos/Exporter/CosmosStaticExporter.h:23-63 | every id built from a GUID and two time stamps parses back into that GUID and the decimal start and end stamps |
| CosmosCommon.GenerateSessionId | Unreal/CarlaUE4/Plugins/Carla/Source/Carla/Cosmos/Exporter/CosmosStaticExporter.h:23-39 | no contract of its own: `GeneratedSessionIdParses` states that, for a 36-character GUID text, the id splits back into the GUID and the decimal start and end stamps; the stamps themselves (seconds times 10^6, and the start plus the elapsed time in microseconds truncated toward zero) are stated only by the bodies |
| UnrealStrings.ContainsVerbatim | Unreal/CarlaUE4/Plugins/Carla/Source/Carla/Cosmos/Exporter/TrafficSignsExporter.cpp:309 | the case-insensitive `Contains` finds a text that occurs verbatim, whatever surrounds it |
| UnrealStrings.ContainsIgnoringCase | Unreal/CarlaUE4/Plugins/Carla/Source/Carla/Cosmos/Exporter/TrafficSignsExporter.cpp:309 | no contract of its own: `ContainsVerbatim` states that a text occurring verbatim is found; letters are compared case-insensitively by the definition |
| GeoProjectionsParams.FindIn | LibCarla/source/carla/geom/GeoProjectionsParams.h:10-20 | the lookup succeeds iff some entry has the name, and the result is that entry's ellipsoid |
| GeoProjectionsParams.FindEllipsoid | LibCarla/source/carla/geom/GeoProjectionsParams.h:10-20 | `custom_ellipsoids.find`: found iff the name is in the table, with that entry's ellipsoid |
| GeoProjectionsParams.EllipsoidTable | LibCarla/source/carla/geom/GeoProjectionsParams.h:9-20 | nine entries with distinct lower-case names; only the sphere has infinite inverse flattening, the others are finite |
| GeoProjectionsParams.F | LibCarla/source/carla/geom/GeoProjectionsParams.h:33-35 | the flattening is the inverse of f_inv, and zero when f_inv is infinite |
| GeoProjectionsParams.E2 | LibCarla/source/carla/geom/GeoProjectionsParams.h:40-42 | the first eccentricity squared satisfies e2·a² = a² − b² |
| GeoProjectionsParams.Ep2 | LibCarla/source/carla/geom/GeoProjectionsParams.h:43-45 | the second eccentricity squared satisfies ep2·b² = a² − b² |
| GeoProjectionsParams.FromB | LibCarla/source/carla/geom/GeoProjectionsParams.h:47-49 | `fromb` keeps the semi-major axis (IEEE division: b = a gives infinity, a = 0 gives zero or NaN) |
| GeoProjectionsParams.FromF | LibCarla/source/carla/geom/GeoProjectionsParams.h:50-52 | `fromf` keeps the semi-major axis (f = 0 gives infinity) |
| GeoProjectionsParams.FromBRoundTrip | LibCarla/source/carla/geom/GeoProjectionsParams.h:36-49 | after `fromb(b)` with a non-zero a, `b()` returns b |
| GeoProjectionsParams.FromFRoundTrip | LibCarla/source/carla/geom/GeoProjectionsParams.h:33-52 | after `fromf(f)`, `f()` returns f |
| GeoProjectionsParams.DefaultIsSphere | LibCarla/source/carla/geom/GeoProjectionsParams.h:30-42 | the default ellipsoid has zero flattening and eccentricity, and b = a |
| GeoProjectionsParams.EllipsoidEq | LibCarla/source/carla/geom/GeoProjectionsParams.h:54-56 | `==` holds iff the fields are equal and f_inv is not NaN |
| GeoProjectionsParams.TransverseMercatorEq | LibCarla/source/carla/geom/GeoProjectionsParams.h:78-81 | `==` holds iff the records are equal and the ellipsoid's f_inv is not NaN |
| GeoProjectionsParams.UniversalTransverseMercatorEq | LibCarla/source/carla/geom/GeoProjectionsParams.h:101-103 | `==` holds iff the records are equal and the ellipsoid's f_inv is not NaN |
| GeoProjectionsParams.WebMercatorEq | LibCarla/source/carla/geom/GeoProjectionsParams.h:120-122 | `==` holds iff the records are equal and the ellipsoid's f_inv is not NaN |
| GeoProjectionsParams.LambertConformalConicEq | LibCarla/source/carla/geom/GeoProjectionsParams.h:146-149 | `==` holds iff the records are equal and the ellipsoid's f_inv is not NaN |
| GeoProjectionsParams.NotEqualNegatesEqual | LibCarla/source/carla/geom/GeoProjectionsParams.h:54-154 | each `!=`, written as a disjunction of field comparisons, is the negation of the matching `==`, NaN included |
| GeoLocation.Equal | LibCarla/source/carla/geom/GeoLocation.h:47-49 | `==` holds iff the three coordinates are equal |
| GeoLocation.NotEqual | LibCarla/source/carla/geom/GeoLocation.h:51-53 | `!=` holds iff the locations differ |
| GeoProjection.TypeOfIndex | LibCarla/source/carla/geom/GeoProjection.h:24-29 | the enum value of each valid index has that index as its ordinal |
| GeoProjection.Make | LibCarla/source/carla/geom/GeoProjection.h:39-45 | `Make` stores the parameters and leaves the PROJ string empty |
| GeoProjection.GetType | LibCarla/source/carla/geom/GeoProjection.h:48-50 | the type names exactly the alternative held by the parameters |
| GeoProjection.SetPROJString | LibCarla/source/carla/geom/GeoProjection.h:58-60 | only the PROJ string is replaced |
| GeoProjection.SetThenGetPROJString | LibCarla/source/carla/geom/GeoProjection.h:58-65 | reading the PROJ string back returns what was set; the parameters and the type are unchanged |
| GeoProjectionTransforms.DegreesRadiansRoundTrip | LibCarla/source/carla/geom/GeoProjection.cpp:13-19 | over the reals, converting degrees to radians and back (and the reverse) returns the input |
| GeoProjectionTransforms.GeoLocationToTransform | LibCarla/source/carla/geom/GeoProjection.cpp:21-49 | the forward transform of any kind keeps the altitude as z |
| GeoProjectionTransforms.ConeSign | LibCarla/source/carla/geom/GeoProjection.cpp:350 | the sign is +1 or -1 and agrees with the sign of the cone constant (+1 for zero) |
| GeoProjectionTransforms.IterateLast | LibCarla/source/carla/geom/GeoProjection.cpp:359-366 | k+1 latitude steps are one more step after k steps |
| GeoProjectionTransforms.RefineStops | LibCarla/source/carla/geom/GeoProjection.cpp:358-366 | the latitude loop takes at most ten steps and returns the estimate after the steps it took; it stops early only right after a step that moved the estimate by less than 1e-12, keeping the new estimate, and no earlier step did |
| GeoProjectionTransforms.LambertConformalConicInverseLoop | LibCarla/source/carla/geom/GeoProjection.cpp:321-371 | the Lambert inverse with its loop equals the value-level inverse and keeps z as the altitude |
| GeoProjectionTransforms.RefineLatitude | LibCarla/source/carla/geom/GeoProjection.cpp:358-366 | the loop returns the latitude of the ten-step refinement with early exit |
| GeoProjectionTransforms.TransformToGeoLocation | LibCarla/source/carla/geom/GeoProjection.cpp:51-79 | the inverse transform of any kind keeps z as the altitude |
| GeoProjectionTransforms.DispatchFollowsKind | LibCarla/source/carla/geom/GeoProjection.cpp:21-79 | both directions run the routine of the kind whose parameters are stored |
| GeoProjectionTransforms.UtmIsTransverseMercator | LibCarla/source/carla/geom/GeoProjection.cpp:123-310 | UTM, forward and inverse, is transverse Mercator with latitude of origin 0, central meridian 6·zone − 183, scale 0.9996, false easting 500000 and false northing 0 (north) or 10000000 (south) |
| GeoProjectionTransforms.WebMercatorLongitudeRoundTrip | LibCarla/source/carla/geom/GeoProjection.cpp:160-319 | the Web Mercator inverse recovers the longitude and the altitude of the forward transform |
| GeoProjectionTransforms.InverseLongitudeNormalised | LibCarla/source/carla/geom/GeoProjection.cpp:257 | the transverse Mercator, UTM and Lambert inverses report longitudes in (−180, 180] |
| GeoProjectionTransforms.WebMercatorLongitudeNotNormalised | LibCarla/source/carla/geom/GeoProjection.cpp:312-319 | the Web Mercator inverse does not normalise: a point one turn east reads as longitude 360 |
| GeoProjectionTransforms.TransverseMercatorForward | LibCarla/source/carla/geom/GeoProjection.cpp:81-121 | no contract of its own; the formula is stated only by the body, over the uninterpreted `Numerics`. `DispatchFollowsKind` states for which stored kind it runs, and `GeoLocationToTransform` and `TransformToGeoLocation` that the altitude passes through |
| GeoProjectionTransforms.UniversalTransverseMercatorForward | LibCarla/source/carla/geom/GeoProjection.cpp:123-158 | no contract of its own; the formula is stated only by the body, over the uninterpreted `Numerics`. `DispatchFollowsKind` states for which stored kind it runs, and `GeoLocationToTransform` and `TransformToGeoLocation` that the altitude passes through; `UtmIsTransverseMercator` states it is transverse Mercator with the UTM constants |
| GeoProjectionTransforms.WebMercatorForward | LibCarla/source/carla/geom/GeoProjection.cpp:160-170 | no contract of its own; the formula is stated only by the body, over the uninterpreted `Numerics`. `DispatchFollowsKind` states for which stored kind it runs, and `GeoLocationToTransform` and `TransformToGeoLocation` that the altitude passes through; `WebMercatorLongitudeRoundTrip` states that the inverse recovers its longitude |
| GeoProjectionTransforms.LambertConformalConicForward | LibCarla/source/carla/geom/GeoProjection.cpp:172-208 | no contract of its own; the formula is stated only by the body, over the uninterpreted `Numerics`. `DispatchFollowsKind` states for which stored kind it runs, and `GeoLocationToTransform` and `TransformToGeoLocation` that the altitude passes through |
| GeoProjectionTransforms.TransverseMercatorInverse | LibCarla/source/carla/geom/GeoProjection.cpp:210-260 | no contract of its own; the formula is stated only by the body, over the uninterpreted `Numerics`. `DispatchFollowsKind` states for which stored kind it runs, and `GeoLocationToTransform` and `TransformToGeoLocation` that the altitude passes through; `InverseLongitudeNormalised` states the longitude lies in (−180, 180] |
| GeoProjectionTransforms.UniversalTransverseMercatorInverse | LibCarla/source/carla/geom/GeoProjection.cpp:262-310 | no contract of its own; the formula is stated only by the body, over the uninterpreted `Numerics`. `DispatchFollowsKind` states for which stored kind it runs, and `GeoLocationToTransform` and `TransformToGeoLocation` that the altitude passes through; `UtmIsTransverseMercator` and `InverseLongitudeNormalised` state the rest |
| GeoProjectionTransforms.WebMercatorInverse | LibCarla/source/carla/geom/GeoProjection.cpp:312-319 | no contract of its own; the formula is stated only by the body, over the uninterpreted `Numerics`. `DispatchFollowsKind` states for which stored kind it runs, and `GeoLocationToTransform` and `TransformToGeoLocation` that the altitude passes through; `WebMercatorLongitudeNotNormalised` states its longitude is not normalised |
| GeoProjectionTransforms.LambertConformalConicInverse | LibCarla/source/carla/geom/GeoProjection.cpp:321-371 | no contract of its own; the formula is stated only by the body, over the uninterpreted `Numerics`. `DispatchFollowsKind` states for which stored kind it runs, and `GeoLocationToTransform` and `TransformToGeoLocation` that the altitude passes through; `LambertConformalConicInverseLoop` states the loop computes it and `InverseLongitudeNormalised` bounds its longitude |
| GeoReferenceParser.KeyRun | LibCarla/source/carla/opendrive/parser/GeoReferenceParser.cpp:38 | the key run is the longest prefix of letters, digits and underscores |
| GeoReferenceParser.PlainRun | LibCarla/source/carla/opendrive/parser/GeoReferenceParser.cpp:38 | the unquoted value run is the longest prefix without blanks, tabs, line breaks or '+' |
| GeoReferenceParser.IndexOf | LibCarla/source/carla/opendrive/parser/GeoReferenceParser.cpp:38 | the index found holds the closing quote and none before it does; no index means there is none |
| GeoReferenceParser.ValueFront | LibCarla/source/carla/opendrive/parser/GeoReferenceParser.cpp:38 | a value matched after '=' is a non-empty prefix of the text, quotes kept |
| GeoReferenceParser.MatchFront | LibCarla/source/carla/opendrive/parser/GeoReferenceParser.cpp:38 | a match at the front exists iff the text starts with '+' and a key character, and it spans at least two characters |
| GeoReferenceParser.ParseProjectionParameters | LibCarla/source/carla/opendrive/parser/GeoReferenceParser.cpp:32-46 | the match loop fills exactly the map built from all matches of the text, in order |
| GeoReferenceParser.TakeToken | LibCarla/source/carla/opendrive/parser/GeoReferenceParser.cpp:42 | assigning one more match updates the map at its key only |
| GeoReferenceParser.CollectAppend | LibCarla/source/carla/opendrive/parser/GeoReferenceParser.cpp:42 | the map of the matches followed by one more is the previous map with that key set to that value |
| GeoReferenceParser.CollectLastWins | LibCarla/source/carla/opendrive/parser/GeoReferenceParser.cpp:39-43 | a key is in the map iff some match has it, and its value is that of its last match |
| GeoReferenceParser.KeyRunOfKey | LibCarla/source/carla/opendrive/parser/GeoReferenceParser.cpp:38 | a key followed by a non-key character is read whole |
| GeoReferenceParser.PlainRunOfValue | LibCarla/source/carla/opendrive/parser/GeoReferenceParser.cpp:38 | an unquoted value followed by a non-value character is read whole |
| GeoReferenceParser.MatchRenderedParameter | LibCarla/source/carla/opendrive/parser/GeoReferenceParser.cpp:38 | a written `+key` or `+key=value` followed by a blank is matched whole, with that key and value |
| GeoReferenceParser.RenderedText | LibCarla/source/carla/opendrive/parser/GeoReferenceParser.cpp:38 | a written parameter is '+' and the key, then '=' and the value when the value is not empty |
| GeoReferenceParser.MatchRenderedFlag | LibCarla/source/carla/opendrive/parser/GeoReferenceParser.cpp:38 | a bare `+key` is matched with the empty value |
| GeoReferenceParser.MatchRenderedAssignment | LibCarla/source/carla/opendrive/parser/GeoReferenceParser.cpp:38 | `+key=value` is matched with that key and value |
| GeoReferenceParser.ValueOfRendered | LibCarla/source/carla/opendrive/parser/GeoReferenceParser.cpp:38 | a well-formed value followed by a blank is read whole |
| GeoReferenceParser.TokensOfRender | LibCarla/source/carla/opendrive/parser/GeoReferenceParser.cpp:32-46 | reading a written list of well-formed parameters gives back the list |
| GeoReferenceParser.ReadReal | LibCarla/source/carla/opendrive/parser/GeoReferenceParser.cpp:66 | `std::stod(parameters[key])` succeeds iff the conversion of the stored text (or "" for a missing key) does, with its value; otherwise it reports the key and the text |
| GeoReferenceParser.ToLowerCase | LibCarla/source/carla/opendrive/parser/GeoReferenceParser.cpp:26-30 | the result has the same length and each character is the ASCII lower case of the input's |
| GeoReferenceParser.ToLowerCaseIdempotent | LibCarla/source/carla/opendrive/parser/GeoReferenceParser.cpp:26-30 | lowering twice is lowering once |
| GeoReferenceParser.EllipsoidNameIgnoresCase | LibCarla/source/carla/opendrive/parser/GeoReferenceParser.cpp:51-62 | the named ellipsoid does not depend on the case of the name |
| GeoReferenceParser.NamedEllipsoidTable | LibCarla/source/carla/opendrive/parser/GeoReferenceParser.cpp:51-62 | a known name (case folded) selects its table entry; any other name selects wgs84 |
| GeoReferenceParser.ShapeKeyPrecedence | LibCarla/source/carla/opendrive/parser/GeoReferenceParser.cpp:69-76 | `b` takes precedence over `f`, and `f` over `rf` |
| GeoReferenceParser.SemiAxesFromParameters | LibCarla/source/carla/opendrive/parser/GeoReferenceParser.cpp:64-71 | giving `a` and `b` yields an ellipsoid with exactly those semi-axes |
| GeoReferenceParser.FlatteningFromParameters | LibCarla/source/carla/opendrive/parser/GeoReferenceParser.cpp:72-73 | giving `f` without `b` yields an ellipsoid with that flattening |
| GeoReferenceParser.ProjectionKindAndString | LibCarla/source/carla/opendrive/parser/GeoReferenceParser.cpp:226-255 | a missing or unsupported `proj` gives the default transverse Mercator on the parsed ellipsoid with an empty PROJ string; a supported one gives its own kind on that ellipsoid and keeps the whole input as PROJ string |
| GeoReferenceParser.TransverseMercatorOffsets | LibCarla/source/carla/opendrive/parser/GeoReferenceParser.cpp:81-106 | false easting and northing are read only when `lat_0` is given; then a missing `x_0` is read as "" and the conversion fails |
| GeoReferenceParser.UtmZoneAndHemisphere | LibCarla/source/carla/opendrive/parser/GeoReferenceParser.cpp:108-124 | the zone is the converted `zone` or 31, the hemisphere is north unless `south` is given, and the ellipsoid is the parsed one |
| GeoReferenceParser.GeoReferenceByKind | LibCarla/source/carla/opendrive/parser/GeoReferenceParser.cpp:183-283 | tmerc and lcc give (lat_0, lon_0, 0); utm gives latitude 0 and, with a zone, the central meridian 6·zone − 183 in radians; merc, a missing or an unsupported projection give (0, 0, 0) |
| GeoReferenceParser.CreateEllipsoid | LibCarla/source/carla/opendrive/parser/GeoReferenceParser.cpp:48-79 | no contract of its own: `NamedEllipsoidTable`, `ShapeKeyPrecedence`, `SemiAxesFromParameters` and `FlatteningFromParameters` state the named base, the precedence b, f, rf and the resulting axes |
| GeoReferenceParser.CreateTransverseMercatorProjection | LibCarla/source/carla/opendrive/parser/GeoReferenceParser.cpp:81-106 | no contract of its own: `TransverseMercatorOffsets` states which keys are read and when the conversion fails; `ProjectionKindAndString` its kind, ellipsoid and PROJ string |
| GeoReferenceParser.CreateUniversalTransverseMercatorProjection | LibCarla/source/carla/opendrive/parser/GeoReferenceParser.cpp:108-124 | no contract of its own: `UtmZoneAndHemisphere` states the zone, the hemisphere and the ellipsoid |
| GeoReferenceParser.CreateWebMercatorProjection | LibCarla/source/carla/opendrive/parser/GeoReferenceParser.cpp:126-136 | no contract of its own: `ProjectionKindAndString` states it is the Web Mercator kind on the parsed ellipsoid with the input as PROJ string |
| GeoReferenceParser.CreateLambertConformalConicProjection | LibCarla/source/carla/opendrive/parser/GeoReferenceParser.cpp:138-172 | no contract of its own: `ProjectionKindAndString` states its kind, ellipsoid and PROJ string; which keys it reads and their defaults are stated only by the body |
| GeoReferenceParser.CreateDefaultProjection | LibCarla/source/carla/opendrive/parser/GeoReferenceParser.cpp:175-181 | no contract of its own: `ProjectionKindAndString` states it is the default transverse Mercator on the parsed ellipsoid with an empty PROJ string |
| GeoReferenceParser.ParseGeoProjection | LibCarla/source/carla/opendrive/parser/GeoReferenceParser.cpp:226-255 | no contract of its own: `ProjectionKindAndString` states the kind, the ellipsoid and the PROJ string for every value of `proj` |
| GeoReferenceParser.LatLonOrigin | LibCarla/source/carla/opendrive/parser/GeoReferenceParser.cpp:183-192 | no contract of its own: `GeoReferenceByKind` states the origin (lat_0, lon_0, 0) for tmerc and lcc |
| GeoReferenceParser.UtmOrigin | LibCarla/source/carla/opendrive/parser/GeoReferenceParser.cpp:194-203 | no contract of its own: `GeoReferenceByKind` states latitude 0 and, with a zone, the central meridian 6·zone − 183 in radians |
| GeoReferenceParser.ParseGeoReference | LibCarla/source/carla/opendrive/parser/GeoReferenceParser.cpp:257-283 | no contract of its own: `GeoReferenceByKind` states the origin for every value of `proj` |
| StringOrder.LessIrreflexive | Unreal/CarlaUE4/Plugins/Carla/Source/Carla/Server/ServerSynchronization.h:241 | no client id is ordered before itself (the multimap key order) |
| StringOrder.LessTransitive | Unreal/CarlaUE4/Plugins/Carla/Source/Carla/Server/ServerSynchronization.h:241 | the key order is transitive |
| StringOrder.LessTotal | Unreal/CarlaUE4/Plugins/Carla/Source/Carla/Server/ServerSynchronization.h:241 | any two different client ids are ordered one way or the other |
| StringOrder.LessAsymmetric | Unreal/CarlaUE4/Plugins/Carla/Source/Carla/Server/ServerSynchronization.h:241 | the key order is asymmetric |
| StringOrder.Incomparable | Unreal/CarlaUE4/Plugins/Carla/Source/Carla/Server/ServerSynchronization.h:241 | neither id is before the other exactly when they are equal |
| ServerSynchronization.InsertWindowContents | Unreal/CarlaUE4/Plugins/Carla/Source/Carla/Server/ServerSynchronization.h:45 | multimap insertion adds exactly the new window |
| ServerSynchronization.OfAbsentClient | Unreal/CarlaUE4/Plugins/Carla/Source/Carla/Server/ServerSynchronization.h:67 | a client without windows has an empty equal range |
| ServerSynchronization.SortedAfterFirst | Unreal/CarlaUE4/Plugins/Carla/Source/Carla/Server/ServerSynchronization.h:241 | a sorted multimap whose first client is after c holds only clients after c |
| ServerSynchronization.ConsSorted | Unreal/CarlaUE4/Plugins/Carla/Source/Carla/Server/ServerSynchronization.h:241 | a window no later than every window of a sorted multimap can go in front of it |
| ServerSynchronization.InsertWindowSorted | Unreal/CarlaUE4/Plugins/Carla/Source/Carla/Server/ServerSynchronization.h:45 | insertion keeps the multimap ordered by client |
| ServerSynchronization.InsertWindowOfClient | Unreal/CarlaUE4/Plugins/Carla/Source/Carla/Server/ServerSynchronization.h:45 | insertion puts the new window after every window of the same client and leaves the other clients' windows as they were |
| ServerSynchronization.SortedTail | Unreal/CarlaUE4/Plugins/Carla/Source/Carla/Server/ServerSynchronization.h:241 | the tail of a sorted multimap is sorted |
| ServerSynchronization.OfClientCons | Unreal/CarlaUE4/Plugins/Carla/Source/Carla/Server/ServerSynchronization.h:67 | the equal range of a client over a list with one more window in front |
| ServerSynchronization.OfLaterClient | Unreal/CarlaUE4/Plugins/Carla/Source/Carla/Server/ServerSynchronization.h:67 | a sorted multimap that starts after c has no window of c |
| ServerSynchronization.InsertWindowBounded | Unreal/CarlaUE4/Plugins/Carla/Source/Carla/Server/ServerSynchronization.h:35-54 | raising a client's maximum and inserting a window within it keeps every id within its client's maximum |
| ServerSynchronization.EraseContents | Unreal/CarlaUE4/Plugins/Carla/Source/Carla/Server/ServerSynchronization.h:67-77 | erasing removes every copy of the selected windows and keeps every copy of the others |
| ServerSynchronization.EraseDropsSelected | Unreal/CarlaUE4/Plugins/Carla/Source/Carla/Server/ServerSynchronization.h:88 | no selected window survives erasing |
| ServerSynchronization.EraseSorted | Unreal/CarlaUE4/Plugins/Carla/Source/Carla/Server/ServerSynchronization.h:67-88 | erasing keeps the relative order, so the multimap stays sorted |
| ServerSynchronization.EraseBounded | Unreal/CarlaUE4/Plugins/Carla/Source/Carla/Server/ServerSynchronization.h:67-88 | erasing keeps every id within its client's maximum |
| ServerSynchronization.RetargetAll | Unreal/CarlaUE4/Plugins/Carla/Source/Carla/Server/ServerSynchronization.h:105-201 | rewriting targets keeps the number of windows |
| ServerSynchronization.RetargetAllAt | Unreal/CarlaUE4/Plugins/Carla/Source/Carla/Server/ServerSynchronization.h:105-201 | only the windows the edit touches change, and only in their target, which becomes the edit's new target |
| ServerSynchronization.RetargetUntouched | Unreal/CarlaUE4/Plugins/Carla/Source/Carla/Server/ServerSynchronization.h:105-201 | an edit that touches nothing changes nothing |
| ServerSynchronization.RetargetSorted | Unreal/CarlaUE4/Plugins/Carla/Source/Carla/Server/ServerSynchronization.h:105-201 | retargeting keeps clients in place, so the multimap stays sorted |
| ServerSynchronization.RetargetBounded | Unreal/CarlaUE4/Plugins/Carla/Source/Carla/Server/ServerSynchronization.h:105-201 | retargeting keeps every id within its client's maximum |
| ServerSynchronization.RetargetWindows | Unreal/CarlaUE4/Plugins/Carla/Source/Carla/Server/ServerSynchronization.h:105-112 | the loop rewrites every window as the edit says and reports whether any window was touched |
| ServerSynchronization.RetargetStep | Unreal/CarlaUE4/Plugins/Carla/Source/Carla/Server/ServerSynchronization.h:105-112 | one more window seen by the loop extends the rewritten list and the touched flag by that window |
| ServerSynchronization.EnableActivates | Unreal/CarlaUE4/Plugins/Carla/Source/Carla/Server/ServerSynchronization.h:100-142 | enabling a client that has a selected window turns synchronous mode on |
| ServerSynchronization.DisableAllDeactivates | Unreal/CarlaUE4/Plugins/Carla/Source/Carla/Server/ServerSynchronization.h:116-130 | after disabling every participant of a client, none of its windows is in synchronous mode |
| ServerSynchronization.TargetTimeIsMinimum | Unreal/CarlaUE4/Plugins/Carla/Source/Carla/Server/ServerSynchronization.h:155-163 | the target time is at most the requested time and every positive window target, and it is one of them |
| ServerSynchronization.InactiveTargetTime | Unreal/CarlaUE4/Plugins/Carla/Source/Carla/Server/ServerSynchronization.h:155-167 | without synchronous mode the server advances by the requested step |
| ServerSynchronization.StatesOf | Unreal/CarlaUE4/Plugins/Carla/Source/Carla/Server/ServerSynchronization.h:216-226 | one reported state per window, in iteration order, with its client, participant and target |
| ServerSynchronization.NextId | Unreal/CarlaUE4/Plugins/Carla/Source/Carla/Server/ServerSynchronization.h:40-43 | a non-zero hint is used as given; for the all-participants hint the incremented maximum, which wraps from 2^32−1 to 0 |
| ServerSynchronization.Registry.constructor | Unreal/CarlaUE4/Plugins/Carla/Source/Carla/Server/ServerSynchronization.h:20 | an empty registry with no pending change |
| ServerSynchronization.Registry.RegisterSynchronizationParticipant | Unreal/CarlaUE4/Plugins/Carla/Source/Carla/Server/ServerSynchronization.h:28-59 | always succeeds with the new id; the client's maximum is raised to it; the window is inserted after the client's windows without synchronous mode; the change flag is set; a generated id is larger than every id of the client unless the maximum wraps |
| ServerSynchronization.Registry.DeregisterSynchronizationParticipant | Unreal/CarlaUE4/Plugins/Carla/Source/Carla/Server/ServerSynchronization.h:61-81 | erases exactly that participant's windows of the client, keeps the maxima, sets the change flag and returns true |
| ServerSynchronization.Registry.DisconnectClient | Unreal/CarlaUE4/Plugins/Carla/Source/Carla/Server/ServerSynchronization.h:83-98 | erases every window of the client and keeps the maxima, so ids are never reused; the change flag is set |
| ServerSynchronization.Registry.ApplyEdit | Unreal/CarlaUE4/Plugins/Carla/Source/Carla/Server/ServerSynchronization.h:105-201 | rewrites the windows as the edit says and reports whether any was touched; the maxima and the flag are kept |
| ServerSynchronization.Registry.EnableSynchronousMode | Unreal/CarlaUE4/Plugins/Carla/Source/Carla/Server/ServerSynchronization.h:100-114 | every selected window without synchronous mode gets the blocking target; the change flag is set iff some window was touched |
| ServerSynchronization.Registry.DisableSynchronousMode | Unreal/CarlaUE4/Plugins/Carla/Source/Carla/Server/ServerSynchronization.h:116-130 | every selected window in synchronous mode gets the no-sync target; the change flag is set iff some window was touched |
| ServerSynchronization.Registry.IsSynchronousModeActive | Unreal/CarlaUE4/Plugins/Carla/Source/Carla/Server/ServerSynchronization.h:132-142 | true iff some window has a positive target |
| ServerSynchronization.Registry.GetTargetSynchronizationTime | Unreal/CarlaUE4/Plugins/Carla/Source/Carla/Server/ServerSynchronization.h:144-168 | the requested time lowered to every positive window target below it: never past the requested time or an active target |
| ServerSynchronization.Registry.UpdateSynchronizationWindow | Unreal/CarlaUE4/Plugins/Carla/Source/Carla/Server/ServerSynchronization.h:170-205 | for a named client, fails iff no window of that participant exists, and then changes nothing; otherwise sets that participant's targets; for all clients sets every active window's target; success sets the change flag |
| ServerSynchronization.Registry.GetSynchronizationWindowParticipantStates | Unreal/CarlaUE4/Plugins/Carla/Source/Carla/Server/ServerSynchronization.h:216-230 | returns the previous change flag and the states in iteration order, clears the flag and keeps the windows |
| CustomV2XSensor.LessIrreflexive | Unreal/CarlaUE4/Plugins/Carla/Source/Carla/Sensor/CustomV2XSensor.h:31-38 | no sender id is ordered before itself |
| CustomV2XSensor.LessTransitive | Unreal/CarlaUE4/Plugins/Carla/Source/Carla/Sensor/CustomV2XSensor.h:31-38 | the sender id order is transitive |
| CustomV2XSensor.Incomparable | Unreal/CarlaUE4/Plugins/Carla/Source/Carla/Sensor/CustomV2XSensor.h:31-38 | two sender ids are equivalent as map keys exactly when actor and channel are equal |
| CustomV2XSensor.LessTotal | Unreal/CarlaUE4/Plugins/Carla/Source/Carla/Sensor/CustomV2XSensor.h:31-38 | two different ids are ordered one way or the other, by actor first |
| CustomV2XSensor.Queue | Unreal/CarlaUE4/Plugins/Carla/Source/Carla/Sensor/CustomV2XSensor.cpp:208 | the message goes to the end of the sender's next-frame list, created if missing; the other senders' lists are unchanged |
| CustomV2XSensor.Swap | Unreal/CarlaUE4/Plugins/Carla/Source/Carla/Sensor/CustomV2XSensor.cpp:104-128 | the sender's next-frame list, when there is one, replaces its current list and leaves the next-frame map; without one, its current entry is dropped; no other entry changes |
| CustomV2XSensor.QueueKeepsNonEmpty | Unreal/CarlaUE4/Plugins/Carla/Source/Carla/Sensor/CustomV2XSensor.cpp:208 | queuing keeps every list in the map non-empty |
| CustomV2XSensor.SwapKeepsNonEmpty | Unreal/CarlaUE4/Plugins/Carla/Source/Carla/Sensor/CustomV2XSensor.cpp:104-128 | the swap keeps every list in both maps non-empty, so `front()` in the post-physics tick is defined |
| CustomV2XSensor.QueuedThenSwapped | Unreal/CarlaUE4/Plugins/Carla/Source/Carla/Sensor/CustomV2XSensor.cpp:101-208 | a message queued by a sender is, after that sender's swap, the last message of its current list, behind the ones queued before it in the frame |
| CustomV2XSensor.CandidatesStep | Unreal/CarlaUE4/Plugins/Carla/Source/Carla/Sensor/CustomV2XSensor.cpp:145-156 | one more visited sender adds its actor and the power of its first message iff it is another sensor on the same channel |
| CustomV2XSensor.WithPower | Unreal/CarlaUE4/Plugins/Carla/Source/Carla/Sensor/CustomV2XSensor.cpp:172-181 | every message of the sender, in order, with the received power |
| CustomV2XSensor.DeliverFailurePropagates | Unreal/CarlaUE4/Plugins/Carla/Source/Carla/Sensor/CustomV2XSensor.cpp:170-182 | once a let-through sender has no current list (`at` throws), the whole delivery fails with it |
| CustomV2XSensor.DeliveredComeFromHeardSenders | Unreal/CarlaUE4/Plugins/Carla/Source/Carla/Sensor/CustomV2XSensor.cpp:170-182 | every delivered message was sent on this channel by a sender the propagation model let through, and carries that sender's received power |
| CustomV2XSensor.Mailboxes.constructor | Unreal/CarlaUE4/Plugins/Carla/Source/Carla/Sensor/CustomV2XSensor.h:73-74 | both shared maps start empty |
| CustomV2XSensor.Sensor.constructor | Unreal/CarlaUE4/Plugins/Carla/Source/Carla/Sensor/CustomV2XSensor.h:78-81 | a new sensor has station id 0 and its channel |
| CustomV2XSensor.Sensor.GetSenderId | Unreal/CarlaUE4/Plugins/Carla/Source/Carla/Sensor/CustomV2XSensor.h:67 | the sender id is this sensor on its channel |
| CustomV2XSensor.Sensor.UpdateStationId | Unreal/CarlaUE4/Plugins/Carla/Source/Carla/Sensor/CustomV2XSensor.cpp:44-53 | the station id is taken from the registry only while it is 0 and the actor is registered |
| CustomV2XSensor.Sensor.Send | Unreal/CarlaUE4/Plugins/Carla/Source/Carla/Sensor/CustomV2XSensor.cpp:193-209 | updates the station id, then queues one message with protocol version 2, the custom message id, the station id and the transmit power for the next frame; the current frame is unchanged |
| CustomV2XSensor.Sensor.PrePhysTick | Unreal/CarlaUE4/Plugins/Carla/Source/Carla/Sensor/CustomV2XSensor.cpp:101-129 | with an owner, performs this sender's swap; without one, nothing changes |
| CustomV2XSensor.Sensor.HeardSenders | Unreal/CarlaUE4/Plugins/Carla/Source/Carla/Sensor/CustomV2XSensor.cpp:142-157 | the list holds exactly the other senders on this channel, each with the power of its first message |
| CustomV2XSensor.Sensor.PostPhysTick | Unreal/CarlaUE4/Plugins/Carla/Source/Carla/Sensor/CustomV2XSensor.cpp:137-191 | with no heard sender nothing is received; otherwise the messages of the let-through senders are delivered; the data is sent iff it holds a message |
| V2XSensor.Publish | Unreal/CarlaUE4/Plugins/Carla/Source/Carla/Sensor/V2XSensor.cpp:100-116 | the sensor's old entry is erased and a triggered message is inserted; the other sensors' entries are unchanged |
| V2XSensor.CandidatesStep | Unreal/CarlaUE4/Plugins/Carla/Source/Carla/Sensor/V2XSensor.cpp:163-173 | one more visited entry adds its actor and power iff it is another sensor |
| V2XSensor.Receive | Unreal/CarlaUE4/Plugins/Carla/Source/Carla/Sensor/V2XSensor.cpp:188-199 | on success there is one received message per let-through sender |
| V2XSensor.ReceivedInOrder | Unreal/CarlaUE4/Plugins/Carla/Source/Carla/Sensor/V2XSensor.cpp:188-199 | the i-th received message is the CAM of the i-th let-through sender with its received power |
| V2XSensor.ReceiveFailurePropagates | Unreal/CarlaUE4/Plugins/Carla/Source/Carla/Sensor/V2XSensor.cpp:191 | once a let-through sender has no entry (`at` throws), the whole reception fails with it |
| V2XSensor.CamBoard.constructor | Unreal/CarlaUE4/Plugins/Carla/Source/Carla/Sensor/V2XSensor.cpp:20 | the shared CAM map starts empty |
| V2XSensor.Sensor.constructor | Unreal/CarlaUE4/Plugins/Carla/Source/Carla/Sensor/V2XSensor.cpp:22-33 | a new sensor has no CA-service actor |
| V2XSensor.Sensor.InitModel | Unreal/CarlaUE4/Plugins/Carla/Source/Carla/Sensor/V2XSensor.cpp:35-38 | the CA service now describes the given actor |
| V2XSensor.Sensor.PrePhysTick | Unreal/CarlaUE4/Plugins/Carla/Source/Carla/Sensor/V2XSensor.cpp:93-117 | the sensor becomes the CA-service actor when there is none, then publishes this frame's CAM with the transmit power |
| V2XSensor.Sensor.OtherSenders | Unreal/CarlaUE4/Plugins/Carla/Source/Carla/Sensor/V2XSensor.cpp:162-173 | the list holds exactly the other sensors' entries with their transmit power |
| V2XSensor.Sensor.PostPhysTick | Unreal/CarlaUE4/Plugins/Carla/Source/Carla/Sensor/V2XSensor.cpp:158-208 | with no other sender nothing is received; otherwise the CAMs of the let-through senders; the data is sent iff a message was received |
| RadioData.RadioData.constructor | LibCarla/source/carla/sensor/data/RadioData.h:35 | a new buffer is empty |
| RadioData.RadioData.SetResolution | LibCarla/source/carla/sensor/data/RadioData.h:45-51 | drops every detection and reserves room for the resolution |
| RadioData.RadioData.GetDetectionCount | LibCarla/source/carla/sensor/data/RadioData.h:54-56 | the count is the number of stored detections |
| RadioData.RadioData.Reset | LibCarla/source/carla/sensor/data/RadioData.h:60-62 | drops every detection and keeps the capacity |
| RadioData.RadioData.WriteDetection | LibCarla/source/carla/sensor/data/RadioData.h:65-67 | appends the detection; earlier ones are kept in order and the count grows by one |
| CrosswalksExporter.HexDigit | Unreal/CarlaUE4/Plugins/Carla/Source/Carla/Cosmos/Exporter/CrosswalksExporter.cpp:43 | a `%x` digit is a decimal digit or a lower-case letter a-f, and reads back as the value it was made from |
| CrosswalksExporter.Hex | Unreal/CarlaUE4/Plugins/Carla/Source/Carla/Cosmos/Exporter/CrosswalksExporter.cpp:43 | `%0<width>x` text has exactly `width` characters, each a lower-case hexadecimal digit |
| CrosswalksExporter.HexRoundTrip | Unreal/CarlaUE4/Plugins/Carla/Source/Carla/Cosmos/Exporter/CrosswalksExporter.cpp:43 | a number below 16^width is read back from its zero-padded hexadecimal text |
| CrosswalksExporter.Word | Unreal/CarlaUE4/Plugins/Carla/Source/Carla/Cosmos/Exporter/CrosswalksExporter.cpp:39-43 | a 32-bit CRC word is a number below 2^32 |
| CrosswalksExporter.WordInjective | Unreal/CarlaUE4/Plugins/Carla/Source/Carla/Cosmos/Exporter/CrosswalksExporter.cpp:39-43 | different 32-bit words give different numbers |
| CrosswalksExporter.Hex8 | Unreal/CarlaUE4/Plugins/Carla/Source/Carla/Cosmos/Exporter/CrosswalksExporter.cpp:43 | `%08x` of a 32-bit value is 8 lower-case hexadecimal digits that read back as that value |
| CrosswalksExporter.IdWords | Unreal/CarlaUE4/Plugins/Carla/Source/Carla/Cosmos/Exporter/CrosswalksExporter.cpp:39-43 | the four words (crc, crc xor 0xA5A5A5A5, crc times 2654435761 wrapping at 2^32, not crc) each fit in 32 bits |
| CrosswalksExporter.WrappingProduct | Unreal/CarlaUE4/Plugins/Carla/Source/Carla/Cosmos/Exporter/CrosswalksExporter.cpp:43 | the uint32 product is below 2^32 |
| CrosswalksExporter.MakeStableLabelId | Unreal/CarlaUE4/Plugins/Carla/Source/Carla/Cosmos/Exporter/CrosswalksExporter.cpp:37-47 | the id is 48 characters: the `mads:000:` prefix, 32 lower-case hexadecimal digits that read back as the four words in order, and the `:000000` suffix; the uuid argument plays no part |
| CrosswalksExporter.IdLayout | Unreal/CarlaUE4/Plugins/Carla/Source/Carla/Cosmos/Exporter/CrosswalksExporter.cpp:44-46 | taking the first 32 hexadecimal characters keeps all four 8-digit words at fixed offsets |
| CrosswalksExporter.LabelIdDeterminesCrc | Unreal/CarlaUE4/Plugins/Carla/Source/Carla/Cosmos/Exporter/CrosswalksExporter.cpp:37-47 | two vertex lists get the same label id only when their CRCs agree |
| CrosswalksExporter.HexTextDetermined | Unreal/CarlaUE4/Plugins/Carla/Source/Carla/Cosmos/Exporter/CrosswalksExporter.cpp:43 | two lower-case hexadecimal texts of one length that read as the same number are the same text |
| CrosswalksExporter.LabelIdFixedByCrc | Unreal/CarlaUE4/Plugins/Carla/Source/Carla/Cosmos/Exporter/CrosswalksExporter.cpp:37-47 | any 48-character text with the prefix, the suffix and 32 lower-case hexadecimal digits reading as the four words of the vertices' CRC is exactly the id made for them, whatever uuid is passed |
| CrosswalksExporter.BuildAttributes | Unreal/CarlaUE4/Plugins/Carla/Source/Carla/Cosmos/Exporter/CrosswalksExporter.cpp:103-137 | the attribute loop builds exactly the attribute list of the label |
| CrosswalksExporter.AppendOrdered | Unreal/CarlaUE4/Plugins/Carla/Source/Carla/Cosmos/Exporter/CrosswalksExporter.cpp:114-137 | appending an attribute of a later rank keeps the writing order |
| CrosswalksExporter.AddAttrTextOrdered | Unreal/CarlaUE4/Plugins/Carla/Source/Carla/Cosmos/Exporter/CrosswalksExporter.cpp:103-112 | one `AddAttrText` step keeps the writing order and raises the rank bound by one |
| CrosswalksExporter.AttributesOrdered | Unreal/CarlaUE4/Plugins/Carla/Source/Carla/Cosmos/Exporter/CrosswalksExporter.cpp:114-137 | the attributes are in writing order, so no attribute name appears twice |
| CrosswalksExporter.AttributesContent | Unreal/CarlaUE4/Plugins/Carla/Source/Carla/Cosmos/Exporter/CrosswalksExporter.cpp:103-137 | label_name and is_implicit are always present; a text attribute is present iff its text is non-empty, and then with that text |
| CrosswalksExporter.InAddAttrText | Unreal/CarlaUE4/Plugins/Carla/Source/Carla/Cosmos/Exporter/CrosswalksExporter.cpp:103-112 | `AddAttrText` adds its text attribute iff the text is non-empty and nothing else |
| CrosswalksExporter.AttributeMembership | Unreal/CarlaUE4/Plugins/Carla/Source/Carla/Cosmos/Exporter/CrosswalksExporter.cpp:114-137 | an attribute belongs to the label iff it is label_name, is_implicit or a non-empty text field |
| CrosswalksExporter.CrosswalkAttributes | Unreal/CarlaUE4/Plugins/Carla/Source/Carla/Cosmos/Exporter/CrosswalksExporter.cpp:175-187 | with the crosswalk constants and a start time, the attributes are coordinate_frame "rig", timestamp, label_name "crosswalk", type "PEDESTRIAN" and is_implicit false, in that order |
| CrosswalksExporter.AppendCrosswalkLabel | Unreal/CarlaUE4/Plugins/Carla/Source/Carla/Cosmos/Exporter/CrosswalksExporter.cpp:49-169 | appends exactly one label, whose id, attributes and vertices are those of the polygon |
| CrosswalksExporter.OneLabelPerCrosswalk | Unreal/CarlaUE4/Plugins/Carla/Source/Carla/Cosmos/Exporter/CrosswalksExporter.cpp:216-246 | one label per crosswalk with at least one location, in map order, each carrying that crosswalk's locations |
| CrosswalksExporter.NonEmptyKeepsOutlines | Unreal/CarlaUE4/Plugins/Carla/Source/Carla/Cosmos/Exporter/CrosswalksExporter.cpp:218-222 | the crosswalks kept are crosswalks of the map with at least one location |
| CrosswalksExporter.ExportCosmosCrosswalk | Unreal/CarlaUE4/Plugins/Carla/Source/Carla/Cosmos/Exporter/CrosswalksExporter.cpp:173-272 | the session id, the game mode and the map are checked in that order, each failing with its own message; otherwise the labels of all crosswalks |
| RoadSplines.RoadIdsExact | Unreal/CarlaUE4/Plugins/Carla/Source/Carla/Cosmos/Exporter/LaneLineExporter.cpp:88-98 | every road id is listed once, and exactly the ids of present splines are listed |
| RoadSplines.SplinesOfRoadExact | Unreal/CarlaUE4/Plugins/Carla/Source/Carla/Cosmos/Exporter/LaneLineExporter.cpp:88-98 | a road's group holds exactly the present splines with that road id |
| RoadSplines.ListedIffGrouped | Unreal/CarlaUE4/Plugins/Carla/Source/Carla/Cosmos/Exporter/LaneLineExporter.cpp:88-98 | a road is listed iff its group is non-empty |
| RoadSplines.GroupByRoad | Unreal/CarlaUE4/Plugins/Carla/Source/Carla/Cosmos/Exporter/LaneLineExporter.cpp:88-98 | the grouping loop gives the roads in first-appearance order and each road's splines in actor order |
| RoadSplines.AdjacentSplines | Unreal/CarlaUE4/Plugins/Carla/Source/Carla/Cosmos/Exporter/LaneLineExporter.cpp:120-124 | the filter keeps exactly the group's splines in the adjacent lane |
| RoadSplines.PolylineMeters | Unreal/CarlaUE4/Plugins/Carla/Source/Carla/Cosmos/Exporter/LaneLineExporter.cpp:157-165 | one point per spline point, each converted from centimetres to metres, in order |
| RoadSplines.Polyline | Unreal/CarlaUE4/Plugins/Carla/Source/Carla/Cosmos/Exporter/LaneLineExporter.cpp:157-165 | one point per spline point, each converted from centimetres to metres, in order |
| RoadSplines.SplineLabelsStep | Unreal/CarlaUE4/Plugins/Carla/Source/Carla/Cosmos/Exporter/LaneLineExporter.cpp:106-171 | one more spline adds its label after the earlier ones iff it has points and renders |
| RoadSplines.RoadLabelsStep | Unreal/CarlaUE4/Plugins/Carla/Source/Carla/Cosmos/Exporter/LaneLineExporter.cpp:105-172 | one more road adds its splines' labels after the earlier roads' |
| RoadSplines.SplineLabelsSound | Unreal/CarlaUE4/Plugins/Carla/Source/Carla/Cosmos/Exporter/LaneLineExporter.cpp:157-170 | every label comes from a rendered spline with points; its vertices are that spline's polyline |
| RoadSplines.SplineLabelsComplete | Unreal/CarlaUE4/Plugins/Carla/Source/Carla/Cosmos/Exporter/LaneLineExporter.cpp:157-170 | every rendered spline with at least one point gives its label |
| RoadSplines.RoadLabelsWellFormed | Unreal/CarlaUE4/Plugins/Carla/Source/Carla/Cosmos/Exporter/LaneLineExporter.cpp:167-170 | every label carries the session's start time and at least one vertex |
| RoadSplines.RoadLabelsSound | Unreal/CarlaUE4/Plugins/Carla/Source/Carla/Cosmos/Exporter/LaneLineExporter.cpp:105-172 | every label comes from a rendered spline of a listed road |
| LaneLineExporter.ShouldRenderLaneLine | Unreal/CarlaUE4/Plugins/Carla/Source/Carla/Cosmos/Exporter/LaneLineExporter.cpp:126-152 | the junction, left and right loops compute the lane-line decision |
| LaneLineExporter.LaneLineRule | Unreal/CarlaUE4/Plugins/Carla/Source/Carla/Cosmos/Exporter/LaneLineExporter.cpp:120-152 | a spline is drawn iff it is not in a junction, a driving spline lies in the adjacent lane, and it is a left lane numbered 2 or more or a right lane (negative number) |
| LaneLineExporter.LaneLineRendersRule | Unreal/CarlaUE4/Plugins/Carla/Source/Carla/Cosmos/Exporter/LaneLineExporter.cpp:114-152 | the same rule in terms of the road's splines, including the driving-lane filter |
| LaneLineExporter.AppendRoadLaneLines | Unreal/CarlaUE4/Plugins/Carla/Source/Carla/Cosmos/Exporter/LaneLineExporter.cpp:105-172 | the road loop appends exactly the road's lane-line labels |
| LaneLineExporter.ExportCosmosLaneLines | Unreal/CarlaUE4/Plugins/Carla/Source/Carla/Cosmos/Exporter/LaneLineExporter.cpp:75-172 | a malformed session id fails with its message; otherwise the labels of every road, stamped with the start time |
| LaneLineExporter.LaneLinesAreDrivingLines | Unreal/CarlaUE4/Plugins/Carla/Source/Carla/Cosmos/Exporter/LaneLineExporter.cpp:114-170 | every exported line is the polyline of a non-junction driving spline on the drawn side |
| RoadBoundaryExporter.ShouldRenderBoundary | Unreal/CarlaUE4/Plugins/Carla/Source/Carla/Cosmos/Exporter/RoadBoundaryExporter.cpp:128-192 | the junction, left and right loops compute the boundary decision |
| RoadBoundaryExporter.BoundaryRule | Unreal/CarlaUE4/Plugins/Carla/Source/Carla/Cosmos/Exporter/RoadBoundaryExporter.cpp:122-192 | only the last adjacent spline matters and must be driving or shoulder; a shoulder is never drawn, a median always, a sidewalk in a junction, on the left from lane 2 and on the right |
| RoadBoundaryExporter.AppendRoadBoundaries | Unreal/CarlaUE4/Plugins/Carla/Source/Carla/Cosmos/Exporter/RoadBoundaryExporter.cpp:105-213 | the road loop appends exactly the road's boundary labels |
| RoadBoundaryExporter.ExportCosmosRoadBoundaries | Unreal/CarlaUE4/Plugins/Carla/Source/Carla/Cosmos/Exporter/RoadBoundaryExporter.cpp:75-213 | a malformed session id fails with its message; otherwise the labels of every road, stamped with the start time |
| RoadBoundaryExporter.BoundariesAreSidewalksOrMedians | Unreal/CarlaUE4/Plugins/Carla/Source/Carla/Cosmos/Exporter/RoadBoundaryExporter.cpp:114-211 | every exported boundary is the polyline of a sidewalk or median spline; shoulders never appear |
| TrafficSignsExporter.PolePolyline | Unreal/CarlaUE4/Plugins/Carla/Source/Carla/Cosmos/Exporter/TrafficSignsExporter.cpp:33-54 | the top is the location raised by the half height; the base is under it, on the ground when the location is at most 250 cm up, else at the location; both in metres |
| TrafficSignsExporter.CuboidLayout | Unreal/CarlaUE4/Plugins/Carla/Source/Carla/Cosmos/Exporter/TrafficSignsExporter.cpp:56-81 | corners 0-3 are the top face and 4-7 the bottom face, corner i+4 is under corner i, and neighbouring corners of a face share an edge |
| TrafficSignsExporter.CornersOnTheBox | Unreal/CarlaUE4/Plugins/Carla/Source/Carla/Cosmos/Exporter/TrafficSignsExporter.cpp:56-81 | every corner is the centre plus or minus the half size on each axis |
| TrafficSignsExporter.LocalCorners | Unreal/CarlaUE4/Plugins/Carla/Source/Carla/Cosmos/Exporter/TrafficSignsExporter.cpp:56-81 | there are eight corners; `CuboidLayout` and `CornersOnTheBox` state their order and their positions |
| TrafficSignsExporter.BuildComponentCuboidMeters | Unreal/CarlaUE4/Plugins/Carla/Source/Carla/Cosmos/Exporter/TrafficSignsExporter.cpp:56-81 | the corner loop yields the eight transformed corners in metres |
| TrafficSignsExporter.AtMostOneList | Unreal/CarlaUE4/Plugins/Carla/Source/Carla/Cosmos/Exporter/TrafficSignsExporter.cpp:265-318 | a component lands in at most one of the three lists |
| TrafficSignsExporter.CollectSound | Unreal/CarlaUE4/Plugins/Carla/Source/Carla/Cosmos/Exporter/TrafficSignsExporter.cpp:227-319 | every label comes from a kept component with the list's tag: a cuboid for signs and lights, a two-point polyline for a pole that is not skipped |
| TrafficSignsExporter.CollectComplete | Unreal/CarlaUE4/Plugins/Carla/Source/Carla/Cosmos/Exporter/TrafficSignsExporter.cpp:227-319 | every kept component with a list's tag (a pole only when not skipped) has its label in that list |
| TrafficSignsExporter.PoleSkipped | Unreal/CarlaUE4/Plugins/Carla/Source/Carla/Cosmos/Exporter/TrafficSignsExporter.cpp:306-313 | no contract of its own: `CollectSound` and `CollectComplete` state that a skipped pole (wider than tall, its mesh missing or not named with "pole" in any case) gives no label and any other kept pole does |
| TrafficSignsExporter.LabelFor | Unreal/CarlaUE4/Plugins/Carla/Source/Carla/Cosmos/Exporter/TrafficSignsExporter.cpp:265-318 | no contract of its own: `CollectSound` and `CollectComplete` state which objects get a label in which list, and of which shape |
| TrafficSignsExporter.ScanComponents | Unreal/CarlaUE4/Plugins/Carla/Source/Carla/Cosmos/Exporter/TrafficSignsExporter.cpp:227-319 | the component loop fills the pole, sign and light lists |
| TrafficSignsExporter.ExportFiles | Unreal/CarlaUE4/Plugins/Carla/Source/Carla/Cosmos/Exporter/TrafficSignsExporter.cpp:327-337 | three files, poles then signs then lights, each in its own sub-directory |
| TrafficSignsExporter.WriteExports | Unreal/CarlaUE4/Plugins/Carla/Source/Carla/Cosmos/Exporter/TrafficSignsExporter.cpp:339-363 | success iff every file serialises and is saved, with the paths in order; otherwise the error of the first failing file |
| TrafficSignsExporter.ExportCosmosTrafficSigns | Unreal/CarlaUE4/Plugins/Carla/Source/Carla/Cosmos/Exporter/TrafficSignsExporter.cpp:198-364 | a malformed session id fails before anything is written; otherwise the three lists are written in order, stopping at the first failure |
| WaitLinesExporter.GroundPoint | Unreal/CarlaUE4/Plugins/Carla/Source/Carla/Cosmos/Exporter/WaitLinesExporter.cpp:100-102 | the box location dropped to z = 0 |
| WaitLinesExporter.WaitLineGeometry | Unreal/CarlaUE4/Plugins/Carla/Source/Carla/Cosmos/Exporter/WaitLinesExporter.cpp:104-115 | the line runs along the forward vector over twice the X half size, and its midpoint is the ground point moved 710 cm against the right vector |
| WaitLinesExporter.OneLabelPerBox | Unreal/CarlaUE4/Plugins/Carla/Source/Carla/Cosmos/Exporter/WaitLinesExporter.cpp:88-118 | one label per light with a box, in actor order, each the two points of its wait line |
| WaitLinesExporter.ExportCosmosWaitLines | Unreal/CarlaUE4/Plugins/Carla/Source/Carla/Cosmos/Exporter/WaitLinesExporter.cpp:75-119 | a malformed session id fails with its message; otherwise one label per light with a box |
| RoadMarkingExporter.RectangleLayout | Unreal/CarlaUE4/Plugins/Carla/Source/Carla/Cosmos/Exporter/RoadMarkingExporter.cpp:101-112 | the corners go once around a length by width rectangle in the stencil plane, centred on the stencil |
| RoadMarkingExporter.OneLabelPerStencil | Unreal/CarlaUE4/Plugins/Carla/Source/Carla/Cosmos/Exporter/RoadMarkingExporter.cpp:92-123 | one label per stencil that is set, in map order, each its four corners rotated, moved and in metres |
| RoadMarkingExporter.ExportCosmosRoadMarkings | Unreal/CarlaUE4/Plugins/Carla/Source/Carla/Cosmos/Exporter/RoadMarkingExporter.cpp:68-124 | the session id and then the game mode are checked, each with its own message; otherwise one label per stencil |
| MapLogicParser.TimingOverride | Unreal/CarlaUnreal/Plugins/Carla/Source/Carla/OpenDrive/MapLogicParser.cpp:186-218 | each duration is its field's number when the field is present and numeric, else the default (red 2, green 10, amber 3, blink 0.25) |
| MapLogicParser.TimingIgnoresOtherKeys | Unreal/CarlaUnreal/Plugins/Carla/Source/Carla/OpenDrive/MapLogicParser.cpp:186-218 | keys other than the four duration names do not change the timing |
| MapLogicParser.ParseTiming | Unreal/CarlaUnreal/Plugins/Carla/Source/Carla/OpenDrive/MapLogicParser.cpp:186-218 | no contract of its own: `TimingOverride` states each duration and `TimingIgnoresOtherKeys` that other keys play no part |
| MapLogicParser.ParseLaneIds | Unreal/CarlaUnreal/Plugins/Carla/Source/Carla/OpenDrive/MapLogicParser.cpp:166-176 | the lane id loop keeps the entries that read as numbers, in order |
| MapLogicParser.ParseModules | Unreal/CarlaUnreal/Plugins/Carla/Source/Carla/OpenDrive/MapLogicParser.cpp:157-180 | the module loop builds one module per object entry, in order |
| MapLogicParser.OneModulePerObject | Unreal/CarlaUnreal/Plugins/Carla/Source/Carla/OpenDrive/MapLogicParser.cpp:160-179 | the module count is the number of object entries; other entries are skipped |
| MapLogicParser.LaneIdsAreTheIntegers | Unreal/CarlaUnreal/Plugins/Carla/Source/Carla/OpenDrive/MapLogicParser.cpp:169-175 | one lane id per numeric entry, each taken from an entry of the array |
| MapLogicParser.ParseTrafficLightFromJson | Unreal/CarlaUnreal/Plugins/Carla/Source/Carla/OpenDrive/MapLogicParser.cpp:138-184 | a null object gives the default record; a missing Timing object keeps the default timing; a missing Modules array leaves no modules |
| MapLogicParser.TrafficLightOf | Unreal/CarlaUnreal/Plugins/Carla/Source/Carla/OpenDrive/MapLogicParser.cpp:138-184 | no contract of its own: `ParseTrafficLightFromJson` states the defaults for a null object, a missing Timing object and a missing Modules array |
| MapLogicParser.LoadMapLogic | Unreal/CarlaUnreal/Plugins/Carla/Source/Carla/OpenDrive/MapLogicParser.cpp:58-108 | a document that cannot be read or lacks the TrafficLights array gives no records; otherwise the records of its object entries |
| MapLogicParser.OneRecordPerObject | Unreal/CarlaUnreal/Plugins/Carla/Source/Carla/OpenDrive/MapLogicParser.cpp:95-103 | one record per object entry of TrafficLights; other entries are skipped |
| MapLogicParser.MapLogic | Unreal/CarlaUnreal/Plugins/Carla/Source/Carla/OpenDrive/MapLogicParser.cpp:58-108 | no contract of its own: `LoadMapLogic` and `OneRecordPerObject` state which document gives which records |
| MapLogicParser.ApplyTrafficLightLogic | Unreal/CarlaUnreal/Plugins/Carla/Source/Carla/OpenDrive/MapLogicParser.cpp:110-136 | successes and failures add up to the record count; a found controller takes the red, green and amber durations of the last record naming it; the others are unchanged |
| MapLogicParser.ParseAndApplyMapLogic | Unreal/CarlaUnreal/Plugins/Carla/Source/Carla/OpenDrive/MapLogicParser.cpp:30-56 | true iff the manager exists, the path is non-empty and the document yields records; on false nothing is applied; on true every controller named by a record takes the red, green and amber durations of the last record naming it, and the others keep their times |
| MapLogicParser.Closest | Unreal/CarlaUnreal/Plugins/Carla/Source/Carla/OpenDrive/MapLogicParser.cpp:274-291 | a match is the index of a non-null actor |
| MapLogicParser.ClosestIsFirstNearest | Unreal/CarlaUnreal/Plugins/Carla/Source/Carla/OpenDrive/MapLogicParser.cpp:274-297 | the match lies at a squared distance below 2500 (within 50 cm), no actor is closer, every earlier actor is strictly farther; no match only when no actor is in range |
| MapLogicParser.FindClosestActor | Unreal/CarlaUnreal/Plugins/Carla/Source/Carla/OpenDrive/MapLogicParser.cpp:276-291 | the actor loop computes the closest match |
| MapLogicParser.MatchSignals | Unreal/CarlaUnreal/Plugins/Carla/Source/Carla/OpenDrive/MapLogicParser.cpp:253-297 | the entries that reach the sign update, each with its actor, are exactly those with a signal id, a known signal and an actor in range, in entry order |
| DigitalTwinsTrafficLight.CollectCandidates | Unreal/CarlaUnreal/Plugins/Carla/Source/Carla/Traffic/DigitalTwinsTrafficLight.cpp:60-94 | the component and slot loops collect exactly the candidate light materials |
| DigitalTwinsTrafficLight.Brightest | Unreal/CarlaUnreal/Plugins/Carla/Source/Carla/Traffic/DigitalTwinsTrafficLight.cpp:96-103 | the green index is a candidate index |
| DigitalTwinsTrafficLight.Dimmest | Unreal/CarlaUnreal/Plugins/Carla/Source/Carla/Traffic/DigitalTwinsTrafficLight.cpp:104-110 | the red index is a candidate index |
| DigitalTwinsTrafficLight.BrightestIsFirstMaximum | Unreal/CarlaUnreal/Plugins/Carla/Source/Carla/Traffic/DigitalTwinsTrafficLight.cpp:96-103 | green is the first candidate with the largest green channel |
| DigitalTwinsTrafficLight.DimmestIsFirstMinimum | Unreal/CarlaUnreal/Plugins/Carla/Source/Carla/Traffic/DigitalTwinsTrafficLight.cpp:104-110 | red is the first candidate with the smallest green channel |
| DigitalTwinsTrafficLight.BrightestStep | Unreal/CarlaUnreal/Plugins/Carla/Source/Carla/Traffic/DigitalTwinsTrafficLight.cpp:99-103 | one more iteration of the green loop moves only to a strictly brighter candidate |
| DigitalTwinsTrafficLight.DimmestStep | Unreal/CarlaUnreal/Plugins/Carla/Source/Carla/Traffic/DigitalTwinsTrafficLight.cpp:106-110 | one more iteration of the red loop moves only to a strictly dimmer candidate |
| DigitalTwinsTrafficLight.FirstOther | Unreal/CarlaUnreal/Plugins/Carla/Source/Carla/Traffic/DigitalTwinsTrafficLight.cpp:112-120 | the yellow index is the first index that is neither green nor red, and none exists only when every index is one of them |
| DigitalTwinsTrafficLight.YellowExists | Unreal/CarlaUnreal/Plugins/Carla/Source/Carla/Traffic/DigitalTwinsTrafficLight.cpp:112-120 | with three candidates or more a yellow index exists and it is 0, 1 or 2 |
| DigitalTwinsTrafficLight.FirstOtherStable | Unreal/CarlaUnreal/Plugins/Carla/Source/Carla/Traffic/DigitalTwinsTrafficLight.cpp:112-120 | once the yellow loop has found an index, later iterations keep it |
| DigitalTwinsTrafficLight.ClassifyLights | Unreal/CarlaUnreal/Plugins/Carla/Source/Carla/Traffic/DigitalTwinsTrafficLight.cpp:96-120 | the three loops compute the green, red and yellow indices (-1 when there is no yellow) |
| DigitalTwinsTrafficLight.ClassifyMaterials | Unreal/CarlaUnreal/Plugins/Carla/Source/Carla/Traffic/DigitalTwinsTrafficLight.cpp:46-128 | the classification pass builds exactly the material-to-state map of the candidates |
| DigitalTwinsTrafficLight.ClassificationRule | Unreal/CarlaUnreal/Plugins/Carla/Source/Carla/Traffic/DigitalTwinsTrafficLight.cpp:96-127 | with fewer than three candidates nothing is mapped; otherwise the green, yellow and red materials are mapped, red to Red, and green and yellow keep their state unless a later insertion of the same material overwrote it |
| DigitalTwinsTrafficLight.EqualGreensMapToRed | Unreal/CarlaUnreal/Plugins/Carla/Source/Carla/Traffic/DigitalTwinsTrafficLight.cpp:96-127 | when all green channels are equal, green and red are both the first candidate, which ends up Red |
| DigitalTwinsTrafficLight.Classification | Unreal/CarlaUnreal/Plugins/Carla/Source/Carla/Traffic/DigitalTwinsTrafficLight.cpp:96-132 | no contract of its own: `ClassificationRule` and `EqualGreensMapToRed` state which materials are mapped to which state |
| DigitalTwinsTrafficLight.IntensityFor | Unreal/CarlaUnreal/Plugins/Carla/Source/Carla/Traffic/DigitalTwinsTrafficLight.cpp:140-141 | no contract of its own: `TrafficLight.UpdateDigitalTwinsMaterials` states that a mapped material gets 50000 iff its state is the current one and 0 otherwise |
| DigitalTwinsTrafficLight.TrafficLight.constructor | Unreal/CarlaUnreal/Plugins/Carla/Source/Carla/Traffic/DigitalTwinsTrafficLight.cpp:12-15 | a new light has no material map and no intensities set |
| DigitalTwinsTrafficLight.TrafficLight.UpdateDigitalTwinsMaterials | Unreal/CarlaUnreal/Plugins/Carla/Source/Carla/Traffic/DigitalTwinsTrafficLight.cpp:44-145 | the map is built only while empty; every mapped material is set to 50000 iff its state is the current one and to 0 otherwise; unmapped materials are untouched |
| DigitalTwinsTrafficLight.ColorForState | Unreal/CarlaUnreal/Plugins/Carla/Source/Carla/Traffic/DigitalTwinsTrafficLight.cpp:147-163 | every state colour is opaque |
| DigitalTwinsTrafficLight.ColorsMatchStates | Unreal/CarlaUnreal/Plugins/Carla/Source/Carla/Traffic/DigitalTwinsTrafficLight.cpp:147-163 | red is dominated by its red channel, green by its green channel, yellow mixes red and green without blue, any other state is a dark grey |
| MeshToLandscape.RemoveAtSwap | Unreal/CarlaUnreal/Plugins/Carla/Source/Carla/BlueprintLibary/MeshToLandscape.cpp:44 | removing slot i keeps the slots before it, moves the last element into slot i and shortens the list by one |
| MeshToLandscape.RemoveAtSwapMultiset | Unreal/CarlaUnreal/Plugins/Carla/Source/Carla/BlueprintLibary/MeshToLandscape.cpp:44 | a swap-removal takes exactly the removed element out of the bag of components |
| MeshToLandscape.RemoveAtSwapWhere | Unreal/CarlaUnreal/Plugins/Carla/Source/Carla/BlueprintLibary/MeshToLandscape.cpp:39-79 | the filter loop terminates; every component left is kept by the test, the result is a sub-bag and every kept component keeps its count (order is not preserved) |
| MeshToLandscape.FilterByClassList | Unreal/CarlaUnreal/Plugins/Carla/Source/Carla/BlueprintLibary/MeshToLandscape.cpp:39-79 | a whitelisted component keeps its count; any other component stays iff it is not blacklisted; nothing is added |
| MeshToLandscape.FilterInvalidStaticMeshComponents | Unreal/CarlaUnreal/Plugins/Carla/Source/Carla/BlueprintLibary/MeshToLandscape.cpp:81-124 | components that are not static meshes are kept; a static mesh is kept iff its mesh is set, has valid render data and, with Nanite enabled, valid Nanite data (the editor build) |
| MeshToLandscape.FilterComponentsByPatterns | Unreal/CarlaUnreal/Plugins/Carla/Source/Carla/BlueprintLibary/MeshToLandscape.cpp:172-245 | with both lists empty nothing changes; otherwise a component stays iff its component or owner name matches no blacklist pattern and some whitelist pattern, so an empty whitelist removes everything |
| MeshToLandscape.BoundsAreTheHull | Unreal/CarlaUnreal/Plugins/Carla/Source/Carla/BlueprintLibary/MeshToLandscape.cpp:272-292 | the bounds exist iff some component has a box; they contain every box, and each face is attained by a box |
| MeshToLandscape.AccumulateBounds | Unreal/CarlaUnreal/Plugins/Carla/Source/Carla/BlueprintLibary/MeshToLandscape.cpp:272-292 | the bounds loop computes the hull of the boxes |
| MeshToLandscape.CeilToInt | Unreal/CarlaUnreal/Plugins/Carla/Source/Carla/BlueprintLibary/MeshToLandscape.cpp:301-302 | the ceiling lies in [x, x + 1) |
| MeshToLandscape.DesiredVertexCount | Unreal/CarlaUnreal/Plugins/Carla/Source/Carla/BlueprintLibary/MeshToLandscape.cpp:298-302 | at least one vertex, and for a non-negative range one more than the ceiling of the range in metres times the sample frequency |
| MeshToLandscape.RequiredQuadCountIsLeastMultiple | Unreal/CarlaUnreal/Plugins/Carla/Source/Carla/BlueprintLibary/MeshToLandscape.cpp:304-308 | the quad count is the least multiple of the component size that is at least max(vertices - 1, 1) |
| MeshToLandscape.HeightmapExtent | Unreal/CarlaUnreal/Plugins/Carla/Source/Carla/BlueprintLibary/MeshToLandscape.cpp:304-311 | the extent is at least one component plus one, and the extent minus one is a multiple of the component size |
| MeshToLandscape.CellOfIndex | Unreal/CarlaUnreal/Plugins/Carla/Source/Carla/BlueprintLibary/MeshToLandscape.cpp:350-351 | a heightmap index maps to the cell (index mod X, index div X), inside the map, and back to the same index |
| MeshToLandscape.IndexOfCell | Unreal/CarlaUnreal/Plugins/Carla/Source/Carla/BlueprintLibary/MeshToLandscape.cpp:350-351 | every cell's row-major index lies in the map and maps back to the cell |
| MeshToLandscape.DisplacementIsFirstLargest | Unreal/CarlaUnreal/Plugins/Carla/Source/Carla/BlueprintLibary/MeshToLandscape.cpp:413-430 | the displacement has the largest magnitude among entries matching the component or owner name, and is the first such entry (0 when none matches) |
| MeshToLandscape.ComputeDisplacement | Unreal/CarlaUnreal/Plugins/Carla/Source/Carla/BlueprintLibary/MeshToLandscape.cpp:413-430 | the displacement loop computes that displacement |
| MeshToLandscape.Clamp01 | Unreal/CarlaUnreal/Plugins/Carla/Source/Carla/BlueprintLibary/MeshToLandscape.cpp:436 | the clamped value lies in [0, 1] |
| MeshToLandscape.RoundHalfUp | Unreal/CarlaUnreal/Plugins/Carla/Source/Carla/BlueprintLibary/MeshToLandscape.cpp:437 | rounding is within one half of the value |
| MeshToLandscape.EncodeHeight | Unreal/CarlaUnreal/Plugins/Carla/Source/Carla/BlueprintLibary/MeshToLandscape.cpp:431-438 | an encoded height lies in [0, 65535] |
| MeshToLandscape.EncodeHeightRoundTrip | Unreal/CarlaUnreal/Plugins/Carla/Source/Carla/BlueprintLibary/MeshToLandscape.cpp:431-438 | for a height within 256 m of the minimum, decoding the encoded value gives it back to within half a step, 25600/65535 cm |
| MeshToLandscape.EncodeHeightMonotone | Unreal/CarlaUnreal/Plugins/Carla/Source/Carla/BlueprintLibary/MeshToLandscape.cpp:431-438 | a higher hit never encodes lower |
| MeshToLandscape.CellHeight | Unreal/CarlaUnreal/Plugins/Carla/Source/Carla/BlueprintLibary/MeshToLandscape.cpp:370-446 | a cell's value lies in [0, 65535], and a miss or a failed trace writes 0 |
| MeshToLandscape.FillHeightmap | Unreal/CarlaUnreal/Plugins/Carla/Source/Carla/BlueprintLibary/MeshToLandscape.cpp:314-446 | the heightmap has X times Y entries, and each cell holds the encoded height of its trace |
| MeshToLandscape.RowMajorCells | Unreal/CarlaUnreal/Plugins/Carla/Source/Carla/BlueprintLibary/MeshToLandscape.cpp:350-351 | a list filled index by index holds each cell's value at the cell's row-major index |
| MeshToLandscape.ConvertMeshesToLandscape | Unreal/CarlaUnreal/Plugins/Carla/Source/Carla/BlueprintLibary/MeshToLandscape.cpp:247-446 | no landscape iff there are no components or the component size is 0; otherwise the sizing from the bounds and every cell's encoded height |
| MeshToLandscapeTools.FilterByVariance | Unreal/CarlaUnreal/Plugins/CarlaTools/Source/CarlaTools/Private/BlueprintLibrary/MeshToLandscape.cpp:12-42 | a negative maximum leaves the list unchanged; otherwise a component stays iff its variance is below the maximum or unknown (NaN), and kept components keep their counts |
| MeshToLandscapeTools.FlattenAppend | Unreal/CarlaUnreal/Plugins/CarlaTools/Source/CarlaTools/Private/BlueprintLibrary/MeshToLandscape.cpp:57-75 | the vertices of two component lists are those of the first followed by those of the second |
| MeshToLandscapeTools.FlattenStep | Unreal/CarlaUnreal/Plugins/CarlaTools/Source/CarlaTools/Private/BlueprintLibrary/MeshToLandscape.cpp:57-75 | one more component adds its vertices after the earlier ones |
| MeshToLandscapeTools.CornersBoundVertices | Unreal/CarlaUnreal/Plugins/CarlaTools/Source/CarlaTools/Private/BlueprintLibrary/MeshToLandscape.cpp:57-75 | Max and Min bound every vertex on every axis |
| MeshToLandscapeTools.CornersStep | Unreal/CarlaUnreal/Plugins/CarlaTools/Source/CarlaTools/Private/BlueprintLibrary/MeshToLandscape.cpp:69-74 | one more vertex updates each axis of Max and Min by a max and a min |
| MeshToLandscapeTools.CornersAttained | Unreal/CarlaUnreal/Plugins/CarlaTools/Source/CarlaTools/Private/BlueprintLibrary/MeshToLandscape.cpp:57-75 | for vertices within the start values, each axis of Max and Min is attained by some vertex |
| MeshToLandscapeTools.CornersSnoc | Unreal/CarlaUnreal/Plugins/CarlaTools/Source/CarlaTools/Private/BlueprintLibrary/MeshToLandscape.cpp:69-74 | one more vertex moves Max and Min componentwise |
| MeshToLandscapeTools.AccumulateBounds | Unreal/CarlaUnreal/Plugins/CarlaTools/Source/CarlaTools/Private/BlueprintLibrary/MeshToLandscape.cpp:57-75 | the nested loops compute the componentwise Max and Min of all vertices |
| MeshToLandscapeTools.AccumulateComponent | Unreal/CarlaUnreal/Plugins/CarlaTools/Source/CarlaTools/Private/BlueprintLibrary/MeshToLandscape.cpp:69-74 | the inner loop folds one component's vertices into Max and Min |
| MeshToLandscapeTools.MapPosition | Unreal/CarlaUnreal/Plugins/CarlaTools/Source/CarlaTools/Private/BlueprintLibrary/MeshToLandscape.cpp:79-90 | a mapped cell has non-negative coordinates; a zero range or a negative coordinate is an error |
| MeshToLandscapeTools.Zeroes | Unreal/CarlaUnreal/Plugins/CarlaTools/Source/CarlaTools/Private/BlueprintLibrary/MeshToLandscape.cpp:54-55 | the fresh heightmap holds zeros only |
| MeshToLandscapeTools.Paint | Unreal/CarlaUnreal/Plugins/CarlaTools/Source/CarlaTools/Private/BlueprintLibrary/MeshToLandscape.cpp:92-103 | a successful write pass keeps W times H entries |
| MeshToLandscapeTools.FailureIsFinal | Unreal/CarlaUnreal/Plugins/CarlaTools/Source/CarlaTools/Private/BlueprintLibrary/MeshToLandscape.cpp:92-103 | once a write fails, later vertices do not change the outcome |
| MeshToLandscapeTools.LastWriter | Unreal/CarlaUnreal/Plugins/CarlaTools/Source/CarlaTools/Private/BlueprintLibrary/MeshToLandscape.cpp:97-103 | the last vertex writing to a cell is found, and no later vertex writes there |
| MeshToLandscapeTools.LastWriteWins | Unreal/CarlaUnreal/Plugins/CarlaTools/Source/CarlaTools/Private/BlueprintLibrary/MeshToLandscape.cpp:97-103 | after a successful pass every cell holds the height of its last writer, or 0 when no vertex wrote to it |
| MeshToLandscapeTools.StoppedEarly | Unreal/CarlaUnreal/Plugins/CarlaTools/Source/CarlaTools/Private/BlueprintLibrary/MeshToLandscape.cpp:92-103 | a failure in one component ends the whole pass with that error |
| MeshToLandscapeTools.StopsAt | Unreal/CarlaUnreal/Plugins/CarlaTools/Source/CarlaTools/Private/BlueprintLibrary/MeshToLandscape.cpp:92-103 | a failure at one vertex ends the component's pass with that error |
| MeshToLandscapeTools.PaintComponent | Unreal/CarlaUnreal/Plugins/CarlaTools/Source/CarlaTools/Private/BlueprintLibrary/MeshToLandscape.cpp:92-103 | writing one component's vertices into the array gives the write pass's result, or its error |
| MeshToLandscapeTools.ConvertMeshesToLandscape | Unreal/CarlaUnreal/Plugins/CarlaTools/Source/CarlaTools/Private/BlueprintLibrary/MeshToLandscape.cpp:44-127 | empty input gives no landscape; otherwise the outcome of the write pass over all vertices with the mapping as written |
| CameraModelUtil.Div | Unreal/CarlaUE4/Plugins/Carla/Source/Carla/Util/CameraModelUtil.cpp:474 | a quotient exists iff the divisor is non-zero, and then times the divisor gives the dividend |
| CameraModelUtil.PowOfSquare | Unreal/CarlaUE4/Plugins/Carla/Source/Carla/Util/CameraModelUtil.cpp:417-423 | the n-th power of theta squared is theta to the power 2n |
| CameraModelUtil.PowOfSquareNonNegative | Unreal/CarlaUE4/Plugins/Carla/Source/Carla/Util/CameraModelUtil.cpp:417-423 | every power of theta squared is non-negative |
| CameraModelUtil.ComputeCameraPolynomial | Unreal/CarlaUE4/Plugins/Carla/Source/Carla/Util/CameraModelUtil.cpp:412-427 | the loop computes theta (1 + sum of k_i theta^(2i)) |
| CameraModelUtil.ComputeCameraPolynomialDerivative | Unreal/CarlaUE4/Plugins/Carla/Source/Carla/Util/CameraModelUtil.cpp:429-446 | the loop computes 1 + sum of (2i + 1) k_i theta^(2i) |
| CameraModelUtil.OddSeries | Unreal/CarlaUE4/Plugins/Carla/Source/Carla/Util/CameraModelUtil.cpp:412-427 | the odd-power series has one monomial more than there are coefficients |
| CameraModelUtil.Differentiate | Unreal/CarlaUE4/Plugins/Carla/Source/Carla/Util/CameraModelUtil.cpp:429-446 | differentiating keeps one monomial per monomial |
| CameraModelUtil.PolynomialIsOddSeries | Unreal/CarlaUE4/Plugins/Carla/Source/Carla/Util/CameraModelUtil.cpp:412-427 | the camera polynomial is the odd-power series theta + k_1 theta^3 + k_2 theta^5 + ... |
| CameraModelUtil.PolynomialSnoc | Unreal/CarlaUE4/Plugins/Carla/Source/Carla/Util/CameraModelUtil.cpp:420-424 | one more coefficient adds k_n theta^(2n+1) |
| CameraModelUtil.OddSeriesSnoc | Unreal/CarlaUE4/Plugins/Carla/Source/Carla/Util/CameraModelUtil.cpp:420-424 | one more coefficient adds the monomial k_n theta^(2n+1) to the series |
| CameraModelUtil.EvalSnoc | Unreal/CarlaUE4/Plugins/Carla/Source/Carla/Util/CameraModelUtil.cpp:412-427 | evaluating a series with one more monomial adds that monomial's value |
| CameraModelUtil.DifferentiateSnoc | Unreal/CarlaUE4/Plugins/Carla/Source/Carla/Util/CameraModelUtil.cpp:429-446 | differentiation works monomial by monomial |
| CameraModelUtil.DerivativeSnoc | Unreal/CarlaUE4/Plugins/Carla/Source/Carla/Util/CameraModelUtil.cpp:438-443 | one more coefficient adds (2n+1) k_n theta^(2n) to the derivative loop's result |
| CameraModelUtil.TermwiseSnoc | Unreal/CarlaUE4/Plugins/Carla/Source/Carla/Util/CameraModelUtil.cpp:429-446 | one more coefficient adds (2n+1) k_n theta^(2n) to the differentiated series |
| CameraModelUtil.EvalDifferentiatedOddTerm | Unreal/CarlaUE4/Plugins/Carla/Source/Carla/Util/CameraModelUtil.cpp:440 | the derivative of k theta^(2n+1) evaluates to (2n+1) k theta^(2n) |
| CameraModelUtil.DifferentiatedSeriesSnoc | Unreal/CarlaUE4/Plugins/Carla/Source/Carla/Util/CameraModelUtil.cpp:429-446 | the differentiated series of one more coefficient ends with the derivative of its monomial |
| CameraModelUtil.DifferentiateOddTerm | Unreal/CarlaUE4/Plugins/Carla/Source/Carla/Util/CameraModelUtil.cpp:440-441 | the derivative of k theta^(2n+1) is (2n+1) k theta^(2n) |
| CameraModelUtil.DerivativeIsTermwise | Unreal/CarlaUE4/Plugins/Carla/Source/Carla/Util/CameraModelUtil.cpp:429-446 | the derivative routine is the exact derivative of the camera polynomial, monomial by monomial |
| CameraModelUtil.DerivativeAtLeastOne | Unreal/CarlaUE4/Plugins/Carla/Source/Carla/Util/CameraModelUtil.cpp:429-446 | with non-negative coefficients the derivative is at least 1, so the Newton step never divides by zero |
| CameraModelUtil.SolveKannalaBrandt | Unreal/CarlaUE4/Plugins/Carla/Source/Carla/Util/CameraModelUtil.cpp:467-477 | the solver starts at theta = distance and performs 32 Newton steps |
| CameraModelUtil.NewtonKeepsRoot | Unreal/CarlaUE4/Plugins/Carla/Source/Carla/Util/CameraModelUtil.cpp:470-475 | a root of polynomial(theta) = distance with a non-zero derivative is a fixed point of every number of steps |
| CameraModelUtil.NewtonStaysFinite | Unreal/CarlaUE4/Plugins/Carla/Source/Carla/Util/CameraModelUtil.cpp:470-475 | with non-negative coefficients every step is defined |
| CameraModelUtil.NewtonSolvesIdentityInOneStep | Unreal/CarlaUE4/Plugins/Carla/Source/Carla/Util/CameraModelUtil.cpp:470-475 | without coefficients the polynomial is the identity and one step reaches theta = distance |
| CameraModelUtil.ComputeAngle | Unreal/CarlaUE4/Plugins/Carla/Source/Carla/Util/CameraModelUtil.cpp:450-482 | the angle of each camera model: atan, 2 atan(d/2), d, 2 asin(d/2), asin, or the Kannala-Brandt solver |
| CameraModelUtil.ComputeDistance | Unreal/CarlaUE4/Plugins/Carla/Source/Carla/Util/CameraModelUtil.cpp:484-520 | equidistant: the focal length exists iff the angle is non-zero, and times half the angle gives half the image height; Kannala-Brandt: it exists iff the polynomial of half the angle is non-zero, and times that value gives half the image height |
| CameraModelUtil.KannalaBrandtWithoutCoefficientsIsEquidistant | Unreal/CarlaUE4/Plugins/Carla/Source/Carla/Util/CameraModelUtil.cpp:503-514 | without coefficients the Kannala-Brandt focal length is the equidistant one |
| CameraModelUtil.EquidistantEdgeSeesHalfFOV | Unreal/CarlaUE4/Plugins/Carla/Source/Carla/Util/CameraModelUtil.cpp:461-505 | for the equidistant model, the image edge at that focal length maps back to half the field of view |
| CameraModelUtil.KannalaBrandtEdgeIsSolverRoot | Unreal/CarlaUE4/Plugins/Carla/Source/Carla/Util/CameraModelUtil.cpp:467-514 | for Kannala-Brandt, half the field of view is a fixed point of the solver at the image edge |
| CameraModelUtil.ShaderFlags | Unreal/CarlaUE4/Plugins/Carla/Source/Carla/Util/CameraModelUtil.cpp:14-18 | bit 0 is set iff equirectangular rendering is on, bit 1 iff the FOV mask is on, and no other bit is set |
| CameraModelUtil.DistortCubemapToImage | Unreal/CarlaUE4/Plugins/Carla/Source/Carla/Util/CameraModelUtil.cpp:522-735 | the distortion pass gets the camera model, the focal length on both axes, the image centre and the flags; the perspective pass runs iff perspective is on and equirectangular is off, with the perspective focal length |
| WideAngleLens.CubemapRenderMask | Unreal/CarlaUE4/Plugins/Carla/Source/Carla/Sensor/SceneCaptureSensor_WideAngleLens.cpp:420-449 | the front face always; top and bottom iff the vertical FOV exceeds pi/2; left and right iff the horizontal one does; the back face iff either exceeds pi; the FOV is widened by sqrt 2 without the mask |
| WideAngleLens.EffectiveFOVMonotone | Unreal/CarlaUE4/Plugins/Carla/Source/Carla/Sensor/SceneCaptureSensor_WideAngleLens.cpp:429 | a wider FOV stays wider after the mask scaling |
| WideAngleLens.WiderFOVRendersMoreFaces | Unreal/CarlaUE4/Plugins/Carla/Source/Carla/Sensor/SceneCaptureSensor_WideAngleLens.cpp:420-449 | widening either FOV never drops a face |
| WideAngleLens.FOVMaskNeverAddsFaces | Unreal/CarlaUE4/Plugins/Carla/Source/Carla/Sensor/SceneCaptureSensor_WideAngleLens.cpp:429 | turning the FOV mask on never adds a face |
| WideAngleLens.BackFaceComesWithSides | Unreal/CarlaUE4/Plugins/Carla/Source/Carla/Sensor/SceneCaptureSensor_WideAngleLens.cpp:431-446 | the back face is rendered only together with the side or the top and bottom faces |
| WideAngleLens.CapturedFaces | Unreal/CarlaUE4/Plugins/Carla/Source/Carla/Sensor/SceneCaptureSensor_WideAngleLens.cpp:463-465 | exactly the faces in the mask are captured, in face order |
| WideAngleLens.FindFaceIndex | Unreal/CarlaUE4/Plugins/Carla/Source/Carla/Sensor/SceneCaptureSensor_WideAngleLens.cpp:410-418 | the face whose forward vector best matches the direction, the first on ties |
| WideAngleLens.ToUInt32 | Unreal/CarlaUE4/Plugins/Carla/Source/Carla/Sensor/SceneCaptureSensor_WideAngleLens.cpp:207-212 | the int32-to-uint32 cast keeps non-negative values and adds 2^32 to negative ones |
| WideAngleLens.CoefficientsDiffer | Unreal/CarlaUE4/Plugins/Carla/Source/Carla/Sensor/SceneCaptureSensor_WideAngleLens.cpp:288-291 | the comparison loop reports a change iff the coefficient lists differ |
| WideAngleLens.WideAngleLensSensor.constructor | Unreal/CarlaUE4/Plugins/Carla/Source/Carla/Sensor/SceneCaptureSensor_WideAngleLens.cpp:69-101 | 1280 by 1280, the default camera model and coefficients, a vertical FOV of pi/2, its focal length and a mask in step with the settings: every face but the back |
| WideAngleLens.WideAngleLensSensor.VerticalToHorizontal | Unreal/CarlaUE4/Plugins/Carla/Source/Carla/Sensor/SceneCaptureSensor_WideAngleLens.cpp:653-659 | the horizontal angle times the height equals the vertical angle times the width |
| WideAngleLens.WideAngleLensSensor.SetImageSize | Unreal/CarlaUE4/Plugins/Carla/Source/Carla/Sensor/SceneCaptureSensor_WideAngleLens.cpp:196-205 | sets the size and recomputes the mask iff the size changes; a mask in step stays in step |
| WideAngleLens.WideAngleLensSensor.SetImageSizeSigned | Unreal/CarlaUE4/Plugins/Carla/Source/Carla/Sensor/SceneCaptureSensor_WideAngleLens.cpp:207-212 | casts both values to uint32 and sets the size as above |
| WideAngleLens.WideAngleLensSensor.SetCameraModel | Unreal/CarlaUE4/Plugins/Carla/Source/Carla/Sensor/SceneCaptureSensor_WideAngleLens.cpp:219-227 | sets the model and recomputes the mask iff it changes |
| WideAngleLens.WideAngleLensSensor.SetFOVAngle | Unreal/CarlaUE4/Plugins/Carla/Source/Carla/Sensor/SceneCaptureSensor_WideAngleLens.cpp:247-264 | sets the vertical FOV in radians, the horizontal one and the focal length; recomputes the mask only when the vertical FOV changes, so the mask stays in step only when the horizontal one does not change alone |
| WideAngleLens.WideAngleLensSensor.SetFOVAngleCorrected | Unreal/CarlaUE4/Plugins/Carla/Source/Carla/Sensor/SceneCaptureSensor_WideAngleLens.cpp:247-264 | as SetFOVAngle, but recomputes the mask when either FOV changes, so a mask in step stays in step |
| WideAngleLens.WideAngleLensSensor.SetTargetGamma | Unreal/CarlaUE4/Plugins/Carla/Source/Carla/Sensor/SceneCaptureSensor_WideAngleLens.cpp:266-269 | sets the gamma and nothing else |
| WideAngleLens.WideAngleLensSensor.SetFocalLength | Unreal/CarlaUE4/Plugins/Carla/Source/Carla/Sensor/SceneCaptureSensor_WideAngleLens.cpp:276-284 | sets the focal length and recomputes the mask iff it changes |
| WideAngleLens.WideAngleLensSensor.SetCameraCoefficients | Unreal/CarlaUE4/Plugins/Carla/Source/Carla/Sensor/SceneCaptureSensor_WideAngleLens.cpp:286-297 | sets the coefficients and recomputes the mask iff they change |
| WideAngleLens.WideAngleLensSensor.SetRenderPerspective | Unreal/CarlaUE4/Plugins/Carla/Source/Carla/Sensor/SceneCaptureSensor_WideAngleLens.cpp:324-332 | sets the flag and recomputes the mask iff it changes |
| WideAngleLens.WideAngleLensSensor.SetRenderEquirectangular | Unreal/CarlaUE4/Plugins/Carla/Source/Carla/Sensor/SceneCaptureSensor_WideAngleLens.cpp:339-347 | sets the flag and recomputes the mask iff it changes |
| WideAngleLens.WideAngleLensSensor.SetFOVMaskEnable | Unreal/CarlaUE4/Plugins/Carla/Source/Carla/Sensor/SceneCaptureSensor_WideAngleLens.cpp:354-362 | sets the flag and recomputes the mask iff it changes |
| WideAngleLens.WideAngleLensSensor.SetFOVFadeSize | Unreal/CarlaUE4/Plugins/Carla/Source/Carla/Sensor/SceneCaptureSensor_WideAngleLens.cpp:369-372 | sets the fade size and nothing else |
| WideAngleLens.WideAngleLensSensor.SetLongitudeOffsetDegrees | Unreal/CarlaUE4/Plugins/Carla/Source/Carla/Sensor/SceneCaptureSensor_WideAngleLens.cpp:374-383 | stores the offset in radians, and reading it back in degrees gives the value set |
| WideAngleLens.StaleMaskAfterResize | Unreal/CarlaUE4/Plugins/Carla/Source/Carla/Sensor/SceneCaptureSensor_WideAngleLens.cpp:247-264 | after a resize to 2560 by 1280 and SetFOVAngle(90) the horizontal FOV is pi but the back face is missing from the mask |
| WideAngleLens.CorrectedSetterKeepsMaskAfterResize | Unreal/CarlaUE4/Plugins/Carla/Source/Carla/Sensor/SceneCaptureSensor_WideAngleLens.cpp:247-264 | the same calls with the corrected setter leave the back face in the mask, in step with the settings |
| RoadSplines.AdjacentNeverZero | Unreal/CarlaUE4/Plugins/Carla/Source/Carla/Cosmos/Exporter/LaneLineExporter.cpp:120-124 | the adjacent lane is never lane 0, the reference line |
| MeshToLandscapeTools.MapPositionCorrected | Unreal/CarlaUnreal/Plugins/CarlaTools/Source/CarlaTools/Private/BlueprintLibrary/MeshToLandscape.cpp:79-90 | the corrected mapping, relative to Min and scaled by W - 1 and H - 1, gives cells with non-negative coordinates |
| MeshToLandscapeTools.MapPositionCorrectedInRange | Unreal/CarlaUnreal/Plugins/CarlaTools/Source/CarlaTools/Private/BlueprintLibrary/MeshToLandscape.cpp:79-101 | with positive ranges every vertex inside the bounds maps to a cell of the W by H map with a height in [0, 65535] |
| MeshToLandscapeTools.PaintInRange | Unreal/CarlaUnreal/Plugins/CarlaTools/Source/CarlaTools/Private/BlueprintLibrary/MeshToLandscape.cpp:92-103 | when every vertex maps into the map, the write pass succeeds and every value lies in [0, 65535] |
| MeshToLandscapeTools.CorrectedHeightmapSucceeds | Unreal/CarlaUnreal/Plugins/CarlaTools/Source/CarlaTools/Private/BlueprintLibrary/MeshToLandscape.cpp:44-103 | with the corrected mapping the write pass over vertices with positive ranges, within the 1e32 start values, succeeds, every value in [0, 65535] |
| MeshToLandscapeTools.MapPositionOverrunsHeightmap | Unreal/CarlaUnreal/Plugins/CarlaTools/Source/CarlaTools/Private/BlueprintLibrary/MeshToLandscape.cpp:79-101 | as written, the vertices (0,0,0) and (1,1,1) on a 2 by 2 map write at index 6, past the end of the 4-entry heightmap |
| MeshToLandscapeTools.CorrectedMappingFitsHeightmap | Unreal/CarlaUnreal/Plugins/CarlaTools/Source/CarlaTools/Private/BlueprintLibrary/MeshToLandscape.cpp:79-101 | with the corrected mapping the same vertices fill cells 0 and 3, giving [0, 0, 0, 65535] |

## Left out

- Floating point: `double` and `float` are real numbers, so rounding, overflow to infinity and float/double casts are not modelled. Two IEEE cases that decide a branch are explicit: the infinite inverse flattening of a sphere, and NaN in the ellipsoid comparison. A third, the infinities and NaN that a zero range produces in the CarlaTools `MapPosition`, is folded into one error; see the `MeshToLandscapeTools.MapPosition` line below.
- Transcendental functions and the projection series: sine, cosine, tangent, atan2, logarithm, power and the Snyder series of the Transverse Mercator, Mercator and Lambert Conformal Conic formulas are function values of a `Numerics` record. Only dispatch, constants, pass-through and the control of the Lambert loop are proved. Round-trip accuracy of the projections is out of reach over uninterpreted functions.
- Math.h is not part of this model: `Math::ToRadians` is written as the product with pi/180.
- Number parsing: `std::stod` and `std::stoi` are partial functions given as parameters, with `None` for an exception. No decimal parser is verified.
- XML extraction of the `<geoReference>` element, reading files, and JSON parsing and serialisation are not modelled. Parsed JSON documents and the written label files are values.
- Logging (`UE_LOG`, `log_warning`) is not modelled. Error paths return their error value instead.
- Mutexes in the synchronisation registry and the V2X mailboxes are not modelled: every method call is one atomic step.
- Engine objects and calls are inputs or function-valued parameters. These include components, bounds, transforms, quaternion rotation, `IsA`, wildcard matching, sweeps and line traces, actor registries, material instances and render targets. What the engine computes is not modelled.
- The retry loop of the line traces in the landscape conversion is folded into each cell's trace outcome (a hit, a miss or a failure after all retries). `ParallelFor` becomes a sequential loop; writes go to distinct cells.
- The Z-variance filter of the Carla plugin is not modelled: it is floating-point statistics, and it computes `1.0/(double)j` at j = 0. The CarlaTools variance filter takes each component's variance as an input.
- The component enumeration of the Carla plugin's landscape conversion (MeshToLandscape.cpp lines 548-590) is engine work and is not modelled.
- The path-loss model, the CA service and its triggering, the random engines, and the GUID and clock of `GenerateSesionId` are inputs. The radio sensor's parallel ray tracing is not modelled; only its detection buffer is.
- Station-id lookups through the actor registry are inputs to `UpdateStationId`.
- GPU passes, shaders, render-target setup and the capture calls of the wide-angle lens sensor are not modelled. Their run conditions and the per-face capture selection are modelled.
- The wide-angle lens constructor also enables post-processing and 16-bit output and fetches a sampler. Those engine settings are not modelled.
- Plain getters are read as fields.
- The `check(false)` default branches of `ComputeAngle` and `ComputeDistance` are unreachable over the closed enumeration of camera models and are not modelled.
- Spawning actors and building meshes after the closest-actor match in `ApplyLaneIdsFromMapLogic` is engine work and is not modelled.
- MeshToLandscape.FilterInvalidStaticMeshComponents: models the editor build. Outside the editor the source drops the `!IsNaniteEnabled()` disjunct and requires valid Nanite data of every static mesh; that build is not modelled.
- MeshToLandscape.ConvertMeshesToLandscape: requires non-negative subsection size and count. With negative values the source computes non-positive extents and calls into the engine with them.
- MeshToLandscapeTools.MapPosition: a zero range on any axis gives the error `ZeroRange`. In the source, dividing by that zero range gives NaN for a zero coordinate and -inf for a negative one, and both fail the `check`. A positive coordinate gives +inf instead, which passes the `check` and reaches the integer conversion of `FIntVector3`, whose result is undefined. For example, every vertex of a flat mesh lying at z = 100 does this. The model does not tell the failed check apart from the undefined conversion.
- MeshToLandscapeTools.ConvertMeshesToLandscape: requires non-negative width and height, since the heightmap array has W times H entries.
- WideAngleLens.FindFaceIndex: takes the view direction as input. Its computation from UV coordinates (SceneCaptureSensor_WideAngleLens.cpp lines 393-408) goes through trigonometry and is not modelled.
- WideAngleLens.WideAngleLensSensor.SetFOVAngle: requires a non-zero image height, where the source would divide by zero.
- WideAngleLens.WideAngleLensSensor.SetFOVAngleCorrected: requires a non-zero image height, as SetFOVAngle.
- WideAngleLens.WideAngleLensSensor.VerticalToHorizontal: requires a non-zero image height, where the source would divide by zero.
- WideAngleLens.WideAngleLensSensor.SetImageSizeSigned: requires int32 arguments, the type of the source's parameters.
- CameraModelUtil.ComputeDistance: the ensures states the focal distance only for the equidistant and Kannala-Brandt models. The other models go through trigonometric parameters.
- GeoProjectionsParams.F: requires an inverse flattening that is neither NaN nor zero, where the double division would not give a real number. B, E2 and Ep2 carry the same requirement, and Ep2 also needs e2 != 1.
- GeoProjectionTransforms.WebMercatorLongitudeRoundTrip: requires a non-zero semi-major axis, since the inverse divides by it.
- Integer widths: `int32` arithmetic is assumed not to overflow. Four exceptions are written out: the uint32 casts, the uint32 wrap of a participant id past its maximum, the 32-bit wrapping product of the crosswalk label id, and the uint16 store of a height into the CarlaTools heightmap (the value modulo 65536).

## Findings

| source | as written | input that shows it | evidently intended | confidence | as-written member | corrected member |
|---|---|---|---|---|---|---|
| Unreal/CarlaUnreal/Plugins/CarlaTools/Source/CarlaTools/Private/BlueprintLibrary/MeshToLandscape.cpp:79-101 | `MapPosition` divides the raw vertex, not its offset from Min, by Range, scales by W and H, and writes at Y*W+X with no bounds check | a 2 by 2 heightmap with the vertices (0,0,0) and (1,1,1): the second maps to (2,2) and writes at index 6 of a 4-entry array | the offset (v - Min) / Range scaled by W - 1 and H - 1, so every vertex lands in the map | not executed | MeshToLandscapeTools.MapPositionOverrunsHeightmap | MeshToLandscapeTools.CorrectedHeightmapSucceeds |
| Unreal/CarlaUE4/Plugins/Carla/Source/Carla/Sensor/SceneCaptureSensor_WideAngleLens.cpp:247-264 | `SetFOVAngle` recomputes the cubemap mask only when the vertical FOV changes, though the horizontal FOV also depends on the image size | a default sensor, `SetImageSize(2560, 1280)`, then `SetFOVAngle(90)`: the horizontal FOV becomes pi, but the mask still lacks the back face | recompute the mask whenever the vertical or the horizontal FOV changes | not executed | WideAngleLens.StaleMaskAfterResize | WideAngleLens.CorrectedSetterKeepsMaskAfterResize |
