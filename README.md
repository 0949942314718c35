# Clustered map view: a Dafny model

This project models the core of a React Native map component that draws large
point datasets by grouping nearby points into clusters. The component turns
every data item into a GeoJSON leaf feature and loads the leaves into a
clustering index (supercluster). It then asks the index for the clusters and
leaves inside the visible region at a zoom level derived from that region.
It re-queries when the map stops moving. It rebuilds the index when the
parent passes a different dataset. When a cluster is pressed, it computes the
region to zoom the map to. A small helper module converts between regions
and bounding boxes and builds features.

Files:

- `types.dfy` (module `Types`): regions, the WSEN array `[west, south, east, north]`, data items and GeoJSON features.
- `util.dfy` (module `Util`): the three exports of `util.js`.
- `decimal.dfy` (module `Decimal`): how a cluster id is printed into a React key.
- `mapview.dfy` (module `MapView`): `ClusteredMapView.js`. Its pure helpers are functions. The component is the class `ClusteredMapView`. Its fields are the index, the region and the list of features, and its lifecycle handlers are methods that update them.

The two libraries the component calls are parameters of the model, held in
the `Libraries` datatype. The clustering index answers `getClusters` and
`getClusterExpansionZoom`. The viewport library (@mapbox/geo-viewport)
answers `viewport(...).zoom` and `bounds`. The spherical midpoint in
`boundingBoxToRegion` is a parameter too. Numbers are `real`, so the box
arithmetic is exact.

The class invariant `Valid()` of a mounted component says two things. The
index holds the leaves of the current `props.data`. The published list
`data` is the index's answer for the stored `region`. Every handler keeps it.

The model follows what the code does, including where it does less than a
clustering controller might be expected to:

- A negative `longitudeDelta` is not normalised by adding 360; the box is used as computed.
- There is no cluster-id reconciliation between queries. Keys come straight from the index.
- There is no clamping of the zoom to a minimum or maximum zoom; a zero viewport zoom becomes 1.
- A region change is applied when `longitudeDelta <= 80`, so a delta of exactly 80 re-queries.
- There is no function that builds a region from a set of points, and no `getLeaves` call on press.
- `boundingBoxToRegion` reads the full span of the box as the delta, while `regionToBoundingBox` reads the delta as a half-span. A round trip therefore doubles both deltas (`Util.BoxRoundTripDoublesDeltas`).

## Model

| member | source | states |
|---|---|---|
| `Util.RegionToBoundingBox` | util.js:8-13 | The box spans twice each delta on its axis, and the midpoint of each axis is the region's centre. |
| `Util.RegionBoxOrdered` | util.js:8-13 | West <= east iff the longitude delta is >= 0, and south <= north iff the latitude delta is >= 0; negative deltas are not normalised. |
| `Util.RadianSpanCancels` | util.js:26-48 | Converting two angles to radians, subtracting and converting back gives the plain difference of the angles; `BoundingBoxToRegion` rests its delta ensures on it. |
| `Util.BoundingBoxToRegion` | util.js:25-50 | The deltas are the full spans `en - ws` on each axis; the centre is the spherical midpoint of the radian corners, converted back to degrees. |
| `Util.BoxRoundTripDoublesDeltas` | util.js:8-48 | Region to box and back yields deltas exactly twice the region's deltas. |
| `Util.BoxRoundTripKeepsDeltasIffZero` | util.js:8-48 | The round trip keeps the deltas only when both deltas are zero. |
| `Util.ItemToGeoJSONFeature` | util.js:59-70 | Among entries whose items carry a `location`, fails exactly on an empty array (reading `location` of undefined); otherwise a leaf with point count 0, no cluster id, the whole input as `item`, and `[longitude, latitude]` of the first element (or of the item itself). |
| `MapView.ItemToGeoJSONFeature` | ClusteredMapView.js:19-26 | Always a leaf: point count 0, the item unchanged as `item`, no cluster id, coordinates `[longitude, latitude]`. |
| `MapView.ToFeatures` | ClusteredMapView.js:86 | One leaf per dataset item, same length and order, each carrying its item and its `[longitude, latitude]`. |
| `MapView.FeaturesAgree` | util.js:59-70 | For a single item the util.js feature succeeds and has the same geometry as the component's, and is a leaf. |
| `MapView.GetBoundingBox` | ClusteredMapView.js:28-33 | Spans twice each delta, centred on the region; west <= east and south <= north when the deltas are >= 0. |
| `MapView.BoundingBoxesAgree` | util.js:8-13 | The component's box and `regionToBoundingBox` agree element by element. |
| `MapView.ViewportZoom` | ClusteredMapView.js:109 | The viewport's `zoom` field is undefined exactly when `longitudeDelta >= 40` (the viewport is the number 1), else the library's fitted zoom for the region's box. |
| `MapView.QueryZoom` | ClusteredMapView.js:107-112 | The zoom passed to the index is never 0: it is 1 when `longitudeDelta >= 40`, else the fitted zoom, with 0 replaced by 1. |
| `MapView.ClusteredMapView.GetClusters` | ClusteredMapView.js:107-112 | The index is queried with the region's box at `QueryZoom`: the fitted viewport zoom (0 read as 1), and zoom 1 for a world-scale region; never at zoom 0. |
| `MapView.BuildIndex` | ClusteredMapView.js:80-89 | The index is created with the props' `maxZoom` and radius `floor(width / 22)`, and loaded with exactly the dataset's leaves. |
| `MapView.ClusteredMapView.constructor` | ClusteredMapView.js:37-56 | Empty list, no index yet, dimensions `[width, height]`, region from `region` or else `initialRegion`. |
| `MapView.ClusteredMapView.ComponentDidMount` | ClusteredMapView.js:58-60 | Builds the index from the initial dataset and establishes the invariant. |
| `MapView.ClusteredMapView.Clusterize` | ClusteredMapView.js:79-93 | A new index from all the dataset's leaves; the list becomes the clusters for the stored region, which does not change. |
| `MapView.ClusteredMapView.ComponentWillReceiveProps` | ClusteredMapView.js:62-65 | Rebuilds, with the previous props' options, only when the `data` reference differs; otherwise index and list are unchanged. The region never changes and the invariant is kept. |
| `MapView.ClusteredMapView.OnRegionChangeComplete` | ClusteredMapView.js:98-105 | With `longitudeDelta <= 80` region and list are replaced by the new region and its clusters; above 80 neither changes. The invariant is kept. |
| `MapView.ClusteredMapView.ClustersChanged` | ClusteredMapView.js:95-96 | True iff the old and new lists render a different number of children; false for the same list. |
| `MapView.ClusteredMapView.IsZoomLevelChanged` | ClusteredMapView.js:137-144 | False for the same region and for two world-scale regions; true when exactly one region is world-scale; otherwise true iff the fitted zooms differ. |
| `MapView.ClusteredMapView.OnClusterPress` | ClusteredMapView.js:114-135 | An expansion zoom of 1 becomes 2, any other is kept; the target region is centred at `(coordinates[1], coordinates[0])` with each delta a quarter of the bounds' span on that axis, so the target's own box is centred on the cluster and spans half of the bounds on each axis. |
| `MapView.RenderFeature` | ClusteredMapView.js:153-167 | A feature with point count 0 becomes the caller's marker for its `item`; any other becomes a cluster marker for that feature keyed `cluster-<cluster_id>`. |
| `MapView.Render` | ClusteredMapView.js:153-168 | One child per feature, in order, each the leaf/cluster dispatch of its feature. |
| `MapView.ClusterKey` | ClusteredMapView.js:164 | The key is `cluster-` followed by the decimal digits of the id, or by `undefined` exactly when the id is missing. |
| `MapView.ClusterKeyInjective` | ClusteredMapView.js:164 | Two cluster keys are equal only when their cluster ids are equal (a missing id prints as `undefined`). |
| `MapView.RenderedKeysDistinct` | ClusteredMapView.js:164 | Rendered clusters with different cluster ids get different React keys. |
| `Decimal.DecimalString` | ClusteredMapView.js:164 | The printed id is a non-empty string of decimal digits with no leading zero. |
| `Decimal.ReadDecimalString` | ClusteredMapView.js:164 | Reading the printed digits back gives the id. |
| `Decimal.DecimalStringInjective` | ClusteredMapView.js:164 | Distinct ids print differently. |

## Left out

- The spherical centre of `boundingBoxToRegion` (cos, sin, atan2, sqrt in floating point) is a parameter, `Util.SphericalMidpoint`, so no property of the centre is proved.
- supercluster's `load`, `getClusters` and `getClusterExpansionZoom` are uninterpreted functions. The model records which index, box and zoom each query receives, not what it returns.
- @mapbox/geo-viewport's `viewport` and `bounds` are uninterpreted functions. The centre handed to `bounds` is `[coordinates[1], coordinates[0]]`, exactly as the code builds it.
- Double rounding: all numbers are exact reals, and a NaN delta is not modelled.
- The user callbacks `onRegionChangeComplete` and `onClusterPress` given as props, and `mapview.animateToRegion`: `OnClusterPress` returns the region it would animate to, whether or not the map reference is set.
- `componentWillUpdate`'s `LayoutAnimation` trigger, `Platform` detection, `Dimensions` and the `defaultProps` values (`maxZoom` 20, window size): these are the caller's inputs here.
- React's `setState` batching and re-rendering. Each handler updates the fields at once, as the state after the update.
- An in-place mutation of the `data` array by the parent: `Dataset` items are immutable, so the model cannot show that such a mutation goes unnoticed.
- `this.props.children` in `render`, and the `ClusterMarker` component (ClusterMarker.js), which only reshapes props for the caller's render callback.
- `Decimal.DecimalString` prints every id in plain digits, as JavaScript does for integers below 10^21; larger ids are not distinguished.
- MapView.ClusteredMapView.constructor: requires `region` or `initialRegion`. With neither, the stored region is undefined and the first `clusterize` throws a TypeError; that failure is not modelled.
- MapView.ClusteredMapView.OnClusterPress: requires a built index. A cluster can only be pressed once it is rendered, which happens after the first `clusterize`; a press before that would throw a TypeError, which is not modelled.
- Util.ItemToGeoJSONFeature: every item is assumed to carry a `location`. The TypeError on a `null` entry or on an item without `location` (util.js:60,66) is not modelled.
- MapView.ItemToGeoJSONFeature: every item is assumed to carry a `location`. The TypeError on an item without one (ClusteredMapView.js:23), which aborts `clusterize` at ClusteredMapView.js:86, is not modelled.
