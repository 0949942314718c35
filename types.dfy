/**
 Values shared by the map view component and its helper module: geographic
 regions, WSEN bounding boxes and GeoJSON point features.

 All coordinates are degrees. JavaScript numbers are modelled as `real`, so the
 arithmetic below is exact (no double rounding).
 */
module Types {

  datatype Option<T> = None | Some(value: T)

  datatype Result<T, E> = Ok(value: T) | Err(error: E)

  /** A map viewport: a centre and the angular deltas the map library reports. */
  datatype Region = Region(latitude: real, longitude: real, latitudeDelta: real, longitudeDelta: real)

  /** A `{ latitude, longitude }` pair. */
  datatype LatLng = LatLng(latitude: real, longitude: real)

  /** A data item of the dataset: its `location` and whatever else the caller stored in it. */
  datatype Item<P> = Item(location: LatLng, payload: P)

  /** A bounding box as the four-element array `[west, south, east, north]`. */
  type Wsen = s: seq<real> | |s| == 4 witness [0.0, 0.0, 0.0, 0.0]

  /** A two-element number array: a GeoJSON position `[longitude, latitude]`, a centre or `[width, height]`. */
  type Pair = s: seq<real> | |s| == 2 witness [0.0, 0.0]

  /**
   The `properties` object of a feature. Leaves built from data items carry
   `point_count: 0` and the item; clusters returned by the clustering index
   carry a positive `point_count` and a `cluster_id`.
   */
  datatype Properties<I> = Properties(pointCount: nat, item: Option<I>, clusterId: Option<nat>)

  /** `{ type: 'Point', coordinates }` */
  datatype Point = Point(coordinates: Pair)

  /** `{ type: 'Feature', geometry, properties }` */
  datatype Feature<I> = Feature(geometry: Point, properties: Properties<I>)

  predicate IsLeaf<I>(f: Feature<I>) {
    f.properties.pointCount == 0
  }
}
