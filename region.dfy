/** The geographic rectangle that scopes both the transaction query and the POI fetch. */
module Region {
  import opened Common

  /** Bounds in decimal degrees. */
  datatype Box = Box(north: real, south: real, west: real, east: real)

  /** Kilometres per degree in the pipeline's crude conversion of the POI radius. */
  const KmPerDegree: real := 111.0

  /** The box of the given height and width (in degrees) centred on (latitude, longitude). */
  function Centered(latitude: real, longitude: real, height: real, width: real): (b: Box)
    ensures b.north - b.south == height && b.east - b.west == width
    ensures (b.north + b.south) / 2.0 == latitude && (b.west + b.east) / 2.0 == longitude
    ensures height > 0.0 && width > 0.0 ==> b.south < b.north && b.west < b.east
  {
    Box(latitude + height / 2.0, latitude - height / 2.0, longitude - width / 2.0, longitude + width / 2.0)
  }

  /** Truthiness of an optional bound: a missing bound and a bound of exactly 0 both read as unset. */
  predicate IsSet(v: Option<real>) {
    v.Some? && v.value != 0.0
  }

  /** A box counts as present only when none of its four bounds is 0. */
  predicate NonZero(b: Box) {
    b.north != 0.0 && b.south != 0.0 && b.west != 0.0 && b.east != 0.0
  }

  /** Both ends of both ranges are inclusive, as with SQL BETWEEN. */
  predicate Inside(b: Box, latitude: real, longitude: real) {
    b.south <= latitude <= b.north && b.west <= longitude <= b.east
  }

  /** The box pushed outward by r degrees on every side. */
  function Widen(b: Box, r: real): (w: Box)
    ensures w.north - w.south == (b.north - b.south) + 2.0 * r
    ensures w.east - w.west == (b.east - b.west) + 2.0 * r
    ensures w.north + w.south == b.north + b.south && w.west + w.east == b.west + b.east
  {
    Box(b.north + r, b.south - r, b.west - r, b.east + r)
  }

  /** Widening by a non-negative radius never loses a point of the original box. */
  lemma WidenContains(b: Box, r: real, latitude: real, longitude: real)
    requires r >= 0.0 && Inside(b, latitude, longitude)
    ensures Inside(Widen(b, r), latitude, longitude)
  {
  }

  /** A point inside the widened box lies within r of the original box on each axis. */
  lemma WidenedNear(b: Box, r: real, latitude: real, longitude: real)
    requires Inside(Widen(b, r), latitude, longitude)
    ensures b.south - r <= latitude <= b.north + r && b.west - r <= longitude <= b.east + r
  {
  }
}
