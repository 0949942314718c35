/**
 The clustering map view of ClusteredMapView.js: it turns its dataset into
 leaf features, loads them into a clustering index, and keeps the list of
 clusters and leaves the map shows in step with the visible region.

 The two libraries it calls are parameters of the model (`Libraries`): the
 clustering index (supercluster) answers `getClusters` and
 `getClusterExpansionZoom`, and the viewport library (@mapbox/geo-viewport)
 answers `viewport(...).zoom` and `bounds`.
 */
module MapView {
  import opened Types
  import Util
  import Decimal

  // ---------------------------------------------------------------------------
  // Pure helpers of the module
  // ---------------------------------------------------------------------------

  /**
   The leaf feature of a data item: `point_count` 0, the item unchanged as
   `properties.item`, and its location in `[longitude, latitude]` order.
   */
  function ItemToGeoJSONFeature<P>(item: Item<P>): (feature: Feature<Item<P>>)
    ensures IsLeaf(feature)
    ensures feature.properties.item == Some(item) && feature.properties.clusterId == None
    ensures feature.geometry.coordinates[0] == item.location.longitude
    ensures feature.geometry.coordinates[1] == item.location.latitude
  {
    Feature(Point([item.location.longitude, item.location.latitude]), Properties(0, Some(item), None))
  }

  /** `dataset.map(itemToGeoJSONFeature)`: one leaf per item, in order. */
  function ToFeatures<P>(dataset: seq<Item<P>>): (features: seq<Feature<Item<P>>>)
    ensures |features| == |dataset|
    ensures forall i :: 0 <= i < |dataset| ==> IsLeaf(features[i]) && features[i].properties.item == Some(dataset[i])
    ensures forall i :: 0 <= i < |dataset| ==>
              features[i].geometry.coordinates == [dataset[i].location.longitude, dataset[i].location.latitude]
  {
    seq(|dataset|, i requires 0 <= i < |dataset| => ItemToGeoJSONFeature(dataset[i]))
  }

  /** The WSEN box of a region: the centre plus and minus each delta, with no normalisation. */
  function GetBoundingBox(region: Region): (box: Wsen)
    ensures box[2] - box[0] == 2.0 * region.longitudeDelta
    ensures box[3] - box[1] == 2.0 * region.latitudeDelta
    ensures (box[0] + box[2]) / 2.0 == region.longitude
    ensures (box[1] + box[3]) / 2.0 == region.latitude
    ensures region.longitudeDelta >= 0.0 ==> box[0] <= box[2]
    ensures region.latitudeDelta >= 0.0 ==> box[1] <= box[3]
  {
    [ region.longitude - region.longitudeDelta,
      region.latitude - region.latitudeDelta,
      region.longitude + region.longitudeDelta,
      region.latitude + region.latitudeDelta ]
  }

  /** The component's box and the one util.js exports are the same array. */
  lemma BoundingBoxesAgree(region: Region)
    ensures GetBoundingBox(region) == Util.RegionToBoundingBox(region)
  {
  }

  /**
   For a single item, the component's feature and the one util.js builds are
   both leaves at the same position; only the stored item differs in shape
   (the item itself against the item wrapped as an entry).
   */
  lemma FeaturesAgree<P>(item: Item<P>)
    ensures Util.ItemToGeoJSONFeature(Util.Single(item)).Ok?
    ensures var f := Util.ItemToGeoJSONFeature(Util.Single(item)).value;
            f.geometry == ItemToGeoJSONFeature(item).geometry && IsLeaf(f)
  {
  }

  /** Longitude span (in degrees of delta) from which the whole world is queried at zoom 1. */
  const WORLD_SCALE_DELTA: real := 40.0

  /** Largest longitude delta for which a region change re-queries the index. */
  const MAX_QUERY_DELTA: real := 80.0

  /** `GeoViewport.viewport(bbox, dimensions).zoom` */
  type ViewportZoomFn = (Wsen, Pair) -> int

  /**
   The `zoom` field of the viewport the component computes for a region. For a
   world-scale region the "viewport" is the number 1, which has no `zoom`
   field, so the field is undefined (`None`).
   */
  function ViewportZoom(region: Region, dimensions: Pair, viewport: ViewportZoomFn): (zoom: Option<int>)
    ensures zoom.None? <==> region.longitudeDelta >= WORLD_SCALE_DELTA
    ensures zoom.Some? ==> zoom.value == viewport(GetBoundingBox(region), dimensions)
  {
    if region.longitudeDelta >= WORLD_SCALE_DELTA then None else Some(viewport(GetBoundingBox(region), dimensions))
  }

  /**
   The zoom passed to the index: `viewport.zoom || 1`. It is 1 for a
   world-scale region, the viewport zoom otherwise, except that a zero zoom
   (falsy) becomes 1; it is never 0.
   */
  function QueryZoom(region: Region, dimensions: Pair, viewport: ViewportZoomFn): (zoom: int)
    ensures zoom != 0
    ensures region.longitudeDelta >= WORLD_SCALE_DELTA ==> zoom == 1
    ensures region.longitudeDelta < WORLD_SCALE_DELTA ==>
              var fitted := viewport(GetBoundingBox(region), dimensions);
              (fitted != 0 ==> zoom == fitted) && (fitted == 0 ==> zoom == 1)
  {
    var field := ViewportZoom(region, dimensions, viewport);
    if field.None? || field.value == 0 then 1 else field.value
  }

  // ---------------------------------------------------------------------------
  // Rendering
  // ---------------------------------------------------------------------------

  /** What `render` produces for one feature: the caller's marker for a leaf, a cluster marker otherwise. */
  datatype Child<P> = Marker(item: Option<Item<P>>) | ClusterMarker(key: string, feature: Feature<Item<P>>)

  /** The React key `cluster-${cluster_id}`; a missing id prints as `undefined`. */
  function ClusterKey(clusterId: Option<nat>): (key: string)
    ensures |key| > 8 && key[..8] == "cluster-"
    ensures key[8..] == "undefined" <==> clusterId.None?
    ensures clusterId.Some? ==> forall i :: 8 <= i < |key| ==> '0' <= key[i] <= '9'
  {
    "cluster-" + match clusterId
                 case None => "undefined"
                 case Some(id) => Decimal.DecimalString(id)
  }

  /** Two cluster keys are equal only when they come from the same (possibly missing) cluster id. */
  lemma ClusterKeyInjective(a: Option<nat>, b: Option<nat>)
    ensures ClusterKey(a) == ClusterKey(b) ==> a == b
  {
    var keyA, keyB := ClusterKey(a), ClusterKey(b);
    match (a, b)
    case (None, None) =>
    case (Some(m), Some(n)) =>
      assert keyA[8..] == Decimal.DecimalString(m);
      assert keyB[8..] == Decimal.DecimalString(n);
      Decimal.DecimalStringInjective(m, n);
    case (Some(m), None) =>
      assert keyA[8] == Decimal.DecimalString(m)[0];
      assert keyA[8] != keyB[8];
    case (None, Some(n)) =>
      assert keyB[8] == Decimal.DecimalString(n)[0];
      assert keyA[8] != keyB[8];
  }

  /** The leaf/cluster split of `render` for one feature. */
  function RenderFeature<P>(feature: Feature<Item<P>>): (child: Child<P>)
    ensures child.Marker? <==> IsLeaf(feature)
    ensures child.Marker? ==> child.item == feature.properties.item
    ensures child.ClusterMarker? ==> child.feature == feature && child.key == ClusterKey(feature.properties.clusterId)
  {
    if feature.properties.pointCount == 0 then Marker(feature.properties.item)
    else ClusterMarker(ClusterKey(feature.properties.clusterId), feature)
  }

  /** `this.state.data.map(...)`: one child per feature, in order. */
  function Render<P>(data: seq<Feature<Item<P>>>): (children: seq<Child<P>>)
    ensures |children| == |data|
    ensures forall i :: 0 <= i < |data| ==> children[i] == RenderFeature(data[i])
  {
    seq(|data|, i requires 0 <= i < |data| => RenderFeature(data[i]))
  }

  /** Cluster markers of clusters with different ids get different React keys. */
  lemma RenderedKeysDistinct<P>(data: seq<Feature<Item<P>>>, i: nat, j: nat)
    requires i < |data| && j < |data|
    requires !IsLeaf(data[i]) && !IsLeaf(data[j])
    requires data[i].properties.clusterId != data[j].properties.clusterId
    ensures Render(data)[i].ClusterMarker? && Render(data)[j].ClusterMarker?
    ensures Render(data)[i].key != Render(data)[j].key
  {
    ClusterKeyInjective(data[i].properties.clusterId, data[j].properties.clusterId);
  }

  // ---------------------------------------------------------------------------
  // The component
  // ---------------------------------------------------------------------------

  /** A loaded clustering index: the options it was created with and the features loaded into it. */
  datatype Index<P> = Index(maxZoom: int, radius: int, points: seq<Feature<Item<P>>>)

  /** The library calls the component makes, as functions of their arguments. */
  datatype Libraries<!P> = Libraries(
    getClusters: (Index<P>, Wsen, int) -> seq<Feature<Item<P>>>,
    getClusterExpansionZoom: (Index<P>, Option<nat>) -> int,
    viewport: ViewportZoomFn,
    bounds: (Pair, int, Pair) -> Wsen)

  /** The `data` array a parent passes; its identity, not its contents, decides a rebuild. */
  class Dataset<P> {
    const items: seq<Item<P>>

    constructor (items: seq<Item<P>>)
      ensures this.items == items
    {
      this.items := items;
    }
  }

  /** The props the core reads. */
  datatype Props<P> = Props(data: Dataset<P>, maxZoom: int, width: real, height: real)

  /** `SuperCluster({ maxZoom, radius: Math.floor(width / 22) })` loaded with the dataset's leaves. */
  function BuildIndex<P>(props: Props<P>, dataset: seq<Item<P>>): (index: Index<P>)
    ensures index.points == ToFeatures(dataset)
    ensures index.maxZoom == props.maxZoom
    ensures index.radius as real <= props.width / 22.0 < index.radius as real + 1.0
  {
    Index(props.maxZoom, (props.width / 22.0).Floor, ToFeatures(dataset))
  }

  class ClusteredMapView<P> {
    const lib: Libraries<P>
    var props: Props<P>
    /** `[width, height]`, fixed when the component mounts. */
    var dimensions: Pair
    /** `this.index`: absent until the component has mounted. */
    var index: Option<Index<P>>
    /** `this.state.region` */
    var region: Region
    /** `this.state.data`: the clusters and leaves on the map. */
    var data: seq<Feature<Item<P>>>

    /**
     A mounted component: the index holds the leaves of the current dataset
     and the published list is the index's answer for the stored region.
     */
    ghost predicate Valid()
      reads this
    {
      && index.Some?
      && index.value.points == ToFeatures(props.data.items)
      && data == GetClusters(region)
    }

    /** `getClusters(region)`: the index queried with the region's box at `QueryZoom`. */
    function GetClusters(region: Region): (clusters: seq<Feature<Item<P>>>)
      reads this
      requires index.Some?
      ensures exists zoom :: zoom != 0 && clusters == lib.getClusters(index.value, GetBoundingBox(region), zoom)
      ensures region.longitudeDelta >= WORLD_SCALE_DELTA ==>
                clusters == lib.getClusters(index.value, GetBoundingBox(region), 1)
      ensures clusters == lib.getClusters(index.value, GetBoundingBox(region), QueryZoom(region, dimensions, lib.viewport))
    {
      lib.getClusters(index.value, GetBoundingBox(region), QueryZoom(region, dimensions, lib.viewport))
    }

    /**
     `constructor` and `componentWillMount`: empty list, no index yet, the
     dimensions from the props and the region from `region || initialRegion`.
     */
    constructor (lib: Libraries<P>, props: Props<P>, region: Option<Region>, initialRegion: Option<Region>)
      requires region.Some? || initialRegion.Some?
      ensures this.lib == lib && this.props == props
      ensures dimensions == [props.width, props.height]
      ensures this.region == if region.Some? then region.value else initialRegion.value
      ensures index.None? && data == []
    {
      this.lib := lib;
      this.props := props;
      dimensions := [props.width, props.height];
      this.region := if region.Some? then region.value else initialRegion.value;
      index := None;
      data := [];
    }

    /** `componentDidMount`: clusterize the initial dataset. */
    method ComponentDidMount()
      modifies this`index, this`data
      ensures Valid()
      ensures index == Some(BuildIndex(props, props.data.items))
    {
      Clusterize(props.data.items);
    }

    /**
     `clusterize(dataset)`: a new index with the dataset's leaves, and the list
     recomputed for the stored region, which does not change.
     */
    method Clusterize(dataset: seq<Item<P>>)
      modifies this`index, this`data
      ensures index == Some(BuildIndex(props, dataset))
      ensures data == GetClusters(region)
    {
      index := Some(BuildIndex(props, dataset));
      data := GetClusters(region);
    }

    /**
     `componentWillReceiveProps(nextProps)`: rebuild only when the `data`
     reference changes, with the options of the props in force before the
     update; then the new props replace the old.
     */
    method ComponentWillReceiveProps(nextProps: Props<P>)
      requires Valid()
      modifies this`props, this`index, this`data
      ensures Valid()
      ensures props == nextProps && region == old(region)
      ensures nextProps.data == old(props.data) ==> index == old(index) && data == old(data)
      ensures nextProps.data != old(props.data) ==> index == Some(BuildIndex(old(props), nextProps.data.items))
    {
      if props.data != nextProps.data {
        Clusterize(nextProps.data.items);
      }
      props := nextProps;
    }

    /**
     `onRegionChangeComplete(region)`: a region whose longitude delta is at
     most 80 becomes the stored region, with its clusters; a wider one changes
     nothing.
     */
    method OnRegionChangeComplete(newRegion: Region)
      requires Valid()
      modifies this`region, this`data
      ensures Valid()
      ensures newRegion.longitudeDelta <= MAX_QUERY_DELTA ==> region == newRegion && data == GetClusters(newRegion)
      ensures newRegion.longitudeDelta > MAX_QUERY_DELTA ==> region == old(region) && data == old(data)
    {
      if newRegion.longitudeDelta <= MAX_QUERY_DELTA {
        var clusters := GetClusters(newRegion);
        region, data := newRegion, clusters;
      }
    }

    /** `clustersChanged(nextState)`: whether the next list renders a different number of children. */
    function ClustersChanged(nextData: seq<Feature<Item<P>>>): (changed: bool)
      reads this
      ensures changed <==> |Render(data)| != |Render(nextData)|
      ensures nextData == data ==> !changed
    {
      |data| != |nextData|
    }

    /**
     `isZoomLevelChanged(prevRegion, region)`: whether the `zoom` fields of the
     two viewports differ. Two world-scale regions have the same (undefined)
     field; a world-scale and a narrower region always differ, even when both
     query the index at zoom 1.
     */
    function IsZoomLevelChanged(prevRegion: Region, region: Region): (changed: bool)
      reads this
      ensures prevRegion == region ==> !changed
      ensures prevRegion.longitudeDelta >= WORLD_SCALE_DELTA && region.longitudeDelta >= WORLD_SCALE_DELTA ==> !changed
      ensures (prevRegion.longitudeDelta >= WORLD_SCALE_DELTA) != (region.longitudeDelta >= WORLD_SCALE_DELTA) ==> changed
      ensures prevRegion.longitudeDelta < WORLD_SCALE_DELTA && region.longitudeDelta < WORLD_SCALE_DELTA ==>
                (changed <==> lib.viewport(GetBoundingBox(prevRegion), dimensions) != lib.viewport(GetBoundingBox(region), dimensions))
    {
      ViewportZoom(prevRegion, dimensions, lib.viewport) != ViewportZoom(region, dimensions, lib.viewport)
    }

    /**
     `onClusterPress(cluster)`: the expansion zoom (1 is bumped to 2) and the
     region the map is animated to, centred on the cluster with deltas a
     quarter of the spans of the viewport bounds at that zoom.
     */
    method OnClusterPress(cluster: Feature<Item<P>>) returns (expansionZoom: int, target: Region)
      requires index.Some?
      ensures var reported := lib.getClusterExpansionZoom(index.value, cluster.properties.clusterId);
              (reported == 1 ==> expansionZoom == 2) && (reported != 1 ==> expansionZoom == reported)
      ensures var position := cluster.geometry.coordinates;
              var box := lib.bounds([position[1], position[0]], expansionZoom, dimensions);
              && target.latitude == position[1] && target.longitude == position[0]
              && target.latitudeDelta == (box[3] - box[1]) / 4.0
              && target.longitudeDelta == (box[2] - box[0]) / 4.0
      ensures var position := cluster.geometry.coordinates;
              var box := lib.bounds([position[1], position[0]], expansionZoom, dimensions);
              var targetBox := GetBoundingBox(target);
              && targetBox[2] - targetBox[0] == (box[2] - box[0]) / 2.0
              && targetBox[3] - targetBox[1] == (box[3] - box[1]) / 2.0
              && (targetBox[0] + targetBox[2]) / 2.0 == position[0]
              && (targetBox[1] + targetBox[3]) / 2.0 == position[1]
    {
      expansionZoom := lib.getClusterExpansionZoom(index.value, cluster.properties.clusterId);
      if expansionZoom == 1 {
        expansionZoom := expansionZoom + 1;
      }
      var position := cluster.geometry.coordinates;
      var newBbox := lib.bounds([position[1], position[0]], expansionZoom, dimensions);
      var latitudeDelta, longitudeDelta := (newBbox[3] - newBbox[1]) / 2.0, (newBbox[2] - newBbox[0]) / 2.0;
      target := Region(position[1], position[0], latitudeDelta / 2.0, longitudeDelta / 2.0);
    }
  }
}
