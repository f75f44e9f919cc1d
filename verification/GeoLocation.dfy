/** A geographic position: latitude and longitude in degrees, altitude in metres. */
module GeoLocation {
  datatype GeoLocation = GeoLocation(latitude: real, longitude: real, altitude: real)

  /** A default-constructed GeoLocation. */
  const Origin: GeoLocation := GeoLocation(0.0, 0.0, 0.0)

  /** GeoLocation::operator==: the three fields compare equal. */
  predicate Equal(x: GeoLocation, y: GeoLocation)
    ensures Equal(x, y) <==> x == y
  {
    x.latitude == y.latitude && x.longitude == y.longitude && x.altitude == y.altitude
  }

  /** GeoLocation::operator!=, defined as the negation of operator==. */
  predicate NotEqual(x: GeoLocation, y: GeoLocation)
    ensures NotEqual(x, y) <==> x != y
  {
    !Equal(x, y)
  }
}
