/**
 The geometry helpers exported by util.js: region to WSEN bounding box, corner
 box back to region, and data item to GeoJSON point feature.
 */
module Util {
  import opened Types

  // ---------------------------------------------------------------------------
  // regionToBoundingBox
  // ---------------------------------------------------------------------------

  /**
   The WSEN box of a region: the centre plus and minus each delta. The deltas
   are used as they are; a negative delta is not normalised, so it yields a box
   whose west lies east of its east (see `RegionBoxOrdered`).
   */
  function RegionToBoundingBox(region: Region): (box: Wsen)
    ensures box[2] - box[0] == 2.0 * region.longitudeDelta
    ensures box[3] - box[1] == 2.0 * region.latitudeDelta
    ensures (box[0] + box[2]) / 2.0 == region.longitude
    ensures (box[1] + box[3]) / 2.0 == region.latitude
  {
    [ region.longitude - region.longitudeDelta,
      region.latitude - region.latitudeDelta,
      region.longitude + region.longitudeDelta,
      region.latitude + region.latitudeDelta ]
  }

  /** West <= east exactly when the longitude delta is not negative, and likewise south <= north. */
  lemma RegionBoxOrdered(region: Region)
    ensures RegionToBoundingBox(region)[0] <= RegionToBoundingBox(region)[2] <==> region.longitudeDelta >= 0.0
    ensures RegionToBoundingBox(region)[1] <= RegionToBoundingBox(region)[3] <==> region.latitudeDelta >= 0.0
  {
  }

  // ---------------------------------------------------------------------------
  // boundingBoxToRegion
  // ---------------------------------------------------------------------------

  /** `{ ws: { longitude: minLon, latitude: minLat }, en: { longitude: maxLon, latitude: maxLat } }` */
  datatype CornerBox = CornerBox(ws: LatLng, en: LatLng)

  /** The value of `Math.PI` as a decimal literal. */
  const PI: real := 3.141592653589793

  function ToRadians(degrees: real): real {
    degrees * PI / 180.0
  }

  function ToDegrees(radians: real): real {
    radians * 180.0 / PI
  }

  /**
   The spherical midpoint of util.js, computed with cos, sin, atan2 and sqrt on
   the radian corners `(minLon, minLat, maxLon, maxLat)`; it yields the pair
   `(latRad, lonRad)`. It is floating-point trigonometry and is a parameter of
   the model.
   */
  type SphericalMidpoint = (real, real, real, real) -> (real, real)

  /** A difference of two angles converted to radians and back is the difference of the angles. */
  lemma RadianSpanCancels(max: real, min: real)
    ensures ToDegrees(ToRadians(max) - ToRadians(min)) == max - min
  {
  }

  /**
   The region of a corner box. Its deltas are the full spans of the box: the
   conversions to radians and back cancel. Its centre is the spherical
   midpoint, converted back to degrees.
   */
  function BoundingBoxToRegion(box: CornerBox, midpoint: SphericalMidpoint): (region: Region)
    ensures region.latitudeDelta == box.en.latitude - box.ws.latitude
    ensures region.longitudeDelta == box.en.longitude - box.ws.longitude
    ensures var (latRad, lonRad) := midpoint(ToRadians(box.ws.longitude), ToRadians(box.ws.latitude),
                                             ToRadians(box.en.longitude), ToRadians(box.en.latitude));
            region.latitude == ToDegrees(latRad) && region.longitude == ToDegrees(lonRad)
  {
    var minLon, maxLon := ToRadians(box.ws.longitude), ToRadians(box.en.longitude);
    var minLat, maxLat := ToRadians(box.ws.latitude), ToRadians(box.en.latitude);
    var dLon, dLat := maxLon - minLon, maxLat - minLat;
    var (latRad, lonRad) := midpoint(minLon, minLat, maxLon, maxLat);
    RadianSpanCancels(box.en.latitude, box.ws.latitude);
    RadianSpanCancels(box.en.longitude, box.ws.longitude);
    Region(ToDegrees(latRad), ToDegrees(lonRad), ToDegrees(dLat), ToDegrees(dLon))
  }

  /** The corner box read off a WSEN array: `ws = (box[0], box[1])`, `en = (box[2], box[3])`. */
  function Corners(box: Wsen): CornerBox {
    CornerBox(LatLng(box[1], box[0]), LatLng(box[3], box[2]))
  }

  /**
   Going from a region to its box and back doubles both deltas: the box spans
   twice each delta, and the way back reads the span as the delta.
   */
  lemma BoxRoundTripDoublesDeltas(region: Region, midpoint: SphericalMidpoint)
    ensures BoundingBoxToRegion(Corners(RegionToBoundingBox(region)), midpoint).latitudeDelta == 2.0 * region.latitudeDelta
    ensures BoundingBoxToRegion(Corners(RegionToBoundingBox(region)), midpoint).longitudeDelta == 2.0 * region.longitudeDelta
  {
  }

  /** The round trip keeps the deltas only for a region whose deltas are both zero. */
  lemma BoxRoundTripKeepsDeltasIffZero(region: Region, midpoint: SphericalMidpoint)
    ensures var back := BoundingBoxToRegion(Corners(RegionToBoundingBox(region)), midpoint);
            back.latitudeDelta == region.latitudeDelta && back.longitudeDelta == region.longitudeDelta
            <==> region.latitudeDelta == 0.0 && region.longitudeDelta == 0.0
  {
  }

  // ---------------------------------------------------------------------------
  // itemToGeoJSONFeature
  // ---------------------------------------------------------------------------

  /**
   What util.js accepts as a data item: a single item, or an array of items
   at one address, whose first element gives the position.
   */
  datatype Entry<P> = Single(item: Item<P>) | Several(items: seq<Item<P>>)

  /** Reading `location` of `undefined` (the first element of an empty array) throws a TypeError. */
  datatype FeatureError = MissingLocation

  /** The item whose location places the entry, if there is one. */
  function Located<P>(entry: Entry<P>): Option<Item<P>> {
    match entry
    case Single(item) => Some(item)
    case Several(items) => if |items| == 0 then None else Some(items[0])
  }

  /**
   The leaf feature of an entry: `point_count` 0, coordinates in GeoJSON's
   `[longitude, latitude]` order (section 3.1.1 of RFC 7946) taken from the
   entry's first item, and `properties.item` the whole entry, array included.
   */
  function ItemToGeoJSONFeature<P>(entry: Entry<P>): (r: Result<Feature<Entry<P>>, FeatureError>)
    ensures r.Err? <==> entry.Several? && |entry.items| == 0
    ensures r.Ok? ==> IsLeaf(r.value)
    ensures r.Ok? ==> r.value.properties.item == Some(entry) && r.value.properties.clusterId == None
    ensures r.Ok? ==> var point := if entry.Single? then entry.item else entry.items[0];
                      r.value.geometry.coordinates == [point.location.longitude, point.location.latitude]
  {
    match Located(entry)
    case None => Err(MissingLocation)
    case Some(point) =>
      Ok(Feature(Point([point.location.longitude, point.location.latitude]), Properties(0, Some(entry), None)))
  }
}
