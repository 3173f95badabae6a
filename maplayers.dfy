/**
 * The map wrapper's own logic around the third-party map: turning fixture
 * points into GeoJSON features, the colour tables of the river and flood
 * layers, adding each source and its layers only when the source is absent,
 * following the layer flags with per-layer visibility, and swapping the
 * rainfall data for the current replay frame. The map object is abstracted to
 * its sources and layers, keyed by id.
 */
module MapLayers {
  import opened Optional
  import opened Fixtures

  /** Feature properties, per fixture kind. */
  datatype Properties =
    | HeatProps(intensity: real, value: real)
    | RiverProps(name: string, level: real, status: string)
    | FloodProps(severity: string, depth: real)

  datatype Geometry = Point(coordinates: Position) | Polygon(rings: seq<seq<Position>>)

  datatype Feature = Feature(properties: Properties, geometry: Geometry)

  /** A GeoJSON source: its feature collection. */
  datatype Source = GeoJson(features: seq<Feature>)

  /** Which data-driven colour table a layer's paint uses, if any. */
  datatype ColorRule = NoRule | StatusMatch | SeverityMatch

  /** A style layer: the source it draws, its colour rule and its `visibility` layout property. */
  datatype Layer = Layer(source: string, rule: ColorRule, visible: bool)

  /** What the wrapper sees of the map: sources and layers by id. */
  datatype MapModel = MapModel(sources: map<string, Source>, layers: map<string, Layer>)

  const RainfallSource: string := "rainfall"
  const RiversSource: string := "rivers"
  const FloodSource: string := "flood-zones"
  const RainfallHeat: string := "rainfall-heat"
  const RiverGlow: string := "river-glow"
  const RiverCore: string := "river-core"
  const FloodFill: string := "flood-zones"

  const Green: string := "#4ADE80"
  const Yellow: string := "#FACC15"
  const RedColor: string := "#EF4444"

  // ---------------------------------------------------------------- features

  function HeatFeature(p: RainPoint): Feature
  {
    Feature(HeatProps(p.intensity, p.value), Point(Position(p.lng, p.lat)))
  }

  /** Rainfall points as heatmap features: same count and order, `[lng, lat]`, intensity and value copied. */
  function HeatFeatures(points: seq<RainPoint>): (fs: seq<Feature>)
    ensures |fs| == |points|
    ensures forall i :: 0 <= i < |points| ==>
      fs[i].geometry == Point(Position(points[i].lng, points[i].lat)) &&
      fs[i].properties == HeatProps(points[i].intensity, points[i].value)
  {
    MapSeq(HeatFeature, points)
  }

  function RiverFeature(r: RiverStation): Feature
  {
    Feature(RiverProps(r.name, r.currentLevel, r.status), Point(r.coordinates))
  }

  /** River gauges as point features carrying name, current level and status. */
  function RiverFeatures(rivers: seq<RiverStation>): (fs: seq<Feature>)
    ensures |fs| == |rivers|
    ensures forall i :: 0 <= i < |rivers| ==>
      fs[i].geometry == Point(rivers[i].coordinates) &&
      fs[i].properties == RiverProps(rivers[i].name, rivers[i].currentLevel, rivers[i].status)
  {
    MapSeq(RiverFeature, rivers)
  }

  function FloodFeature(z: FloodZone): Feature
  {
    Feature(FloodProps(z.severity, z.depth), Polygon([z.coordinates]))
  }

  /** Flood zones as polygons whose single ring is the zone's outline. */
  function FloodFeatures(zones: seq<FloodZone>): (fs: seq<Feature>)
    ensures |fs| == |zones|
    ensures forall i :: 0 <= i < |zones| ==>
      fs[i].geometry == Polygon([zones[i].coordinates]) &&
      fs[i].properties == FloodProps(zones[i].severity, zones[i].depth)
  {
    MapSeq(FloodFeature, zones)
  }

  // ----------------------------------------------------------- colour tables

  /** The `match` on a river's `status`, used by both river layers. */
  function StatusColor(status: string): (c: string)
    ensures c == Yellow <==> status == "warning"
    ensures c == RedColor <==> status == "alert"
    ensures c == Green <==> status != "warning" && status != "alert"
  {
    if status == "normal" then Green
    else if status == "warning" then Yellow
    else if status == "alert" then RedColor
    else Green
  }

  /** The `match` on a flood zone's `severity`. */
  function SeverityColor(severity: string): (c: string)
    ensures c == Yellow <==> severity == "medium"
    ensures c == Green <==> severity == "low"
    ensures c == RedColor <==> severity != "medium" && severity != "low"
  {
    if severity == "high" then RedColor
    else if severity == "medium" then Yellow
    else if severity == "low" then Green
    else RedColor
  }

  /**
   * The colour a layer's rule gives a feature. A feature without the matched
   * property reads as null, which no label matches, so it gets the fallback.
   */
  function RuleColor(rule: ColorRule, props: Properties): Option<string>
  {
    match rule
    case NoRule => None
    case StatusMatch => Some(StatusColor(if props.RiverProps? then props.status else ""))
    case SeverityMatch => Some(SeverityColor(if props.FloodProps? then props.severity else ""))
  }

  // ------------------------------------------------------------ initialisation

  /** The two documents fetched together at the start of `initializeLayers`. */
  datatype WeatherAndRivers = WeatherAndRivers(heatmapData: seq<RainPoint>, rivers: seq<RiverStation>)

  /** The rainfall source and its heatmap layer, visible. */
  function AddRainfall(m: MapModel, points: seq<RainPoint>): MapModel
  {
    MapModel(m.sources[RainfallSource := GeoJson(HeatFeatures(points))],
             m.layers[RainfallHeat := Layer(RainfallSource, NoRule, true)])
  }

  /** The rivers source with its glow and core layers, both visible and coloured by status. */
  function AddRivers(m: MapModel, rivers: seq<RiverStation>): MapModel
  {
    MapModel(m.sources[RiversSource := GeoJson(RiverFeatures(rivers))],
             m.layers[RiverGlow := Layer(RiversSource, StatusMatch, true)]
                     [RiverCore := Layer(RiversSource, StatusMatch, true)])
  }

  /** The flood source and its fill layer, hidden until the flags ask for it. */
  function AddFlood(m: MapModel, zones: seq<FloodZone>): MapModel
  {
    MapModel(m.sources[FloodSource := GeoJson(FloodFeatures(zones))],
             m.layers[FloodFill := Layer(FloodSource, SeverityMatch, false)])
  }

  /**
   * The first stage of `initializeLayers`, once the weather and river
   * documents have arrived: the rainfall source and then the rivers source,
   * each with its layers and each only when absent.
   */
  function InitFirstStage(m: MapModel, f: WeatherAndRivers): MapModel
  {
    var m1 := if RainfallSource in m.sources then m else AddRainfall(m, f.heatmapData);
    if RiversSource in m1.sources then m1 else AddRivers(m1, f.rivers)
  }

  /**
   * The second stage, after the prediction fetch that the first stage starts
   * when the flood source is absent: the flood source and its layer are added
   * unless the fetch failed. An id added meanwhile would make `addSource`
   * throw into the `catch`, which also adds nothing.
   */
  function PredictionStage(m: MapModel, predict: Option<seq<FloodZone>>): MapModel
  {
    if FloodSource in m.sources || predict.None? then m else AddFlood(m, predict.value)
  }

  /**
   * `initializeLayers` with nothing else running between its two stages. If
   * the first two fetches fail nothing is added; if the prediction fetch
   * fails the first stage's additions stay.
   */
  function InitLayers(m: MapModel, fetched: Option<WeatherAndRivers>, predict: Option<seq<FloodZone>>): MapModel
  {
    if fetched.None? then m
    else PredictionStage(InitFirstStage(m, fetched.value), predict)
  }

  /** A source already present keeps its data, and initialisation never removes anything. */
  lemma InitKeepsExisting(m: MapModel, fetched: Option<WeatherAndRivers>, predict: Option<seq<FloodZone>>, id: string)
    ensures id in m.sources ==>
      id in InitLayers(m, fetched, predict).sources && InitLayers(m, fetched, predict).sources[id] == m.sources[id]
    ensures m.layers.Keys <= InitLayers(m, fetched, predict).layers.Keys
  {
  }

  /** When all three sources exist, initialisation adds and changes nothing. */
  lemma InitWhenPresentIsIdle(m: MapModel, fetched: Option<WeatherAndRivers>, predict: Option<seq<FloodZone>>)
    requires RainfallSource in m.sources && RiversSource in m.sources && FloodSource in m.sources
    ensures InitLayers(m, fetched, predict) == m
  {
  }

  /** Running initialisation a second time, whatever it fetches, adds nothing twice. */
  lemma InitTwice(m: MapModel, f1: WeatherAndRivers, p1: seq<FloodZone>,
                  f2: Option<WeatherAndRivers>, p2: Option<seq<FloodZone>>)
    ensures InitLayers(InitLayers(m, Some(f1), Some(p1)), f2, p2) == InitLayers(m, Some(f1), Some(p1))
  {
    InitWhenPresentIsIdle(InitLayers(m, Some(f1), Some(p1)), f2, p2);
  }

  /** On a map with none of these sources, the heatmap and river layers start visible and the flood layer hidden. */
  lemma InitialVisibility(m: MapModel, f: WeatherAndRivers, p: seq<FloodZone>)
    requires RainfallSource !in m.sources && RiversSource !in m.sources && FloodSource !in m.sources
    ensures var r := InitLayers(m, Some(f), Some(p));
      && r.layers[RainfallHeat].visible
      && r.layers[RiverGlow].visible && r.layers[RiverCore].visible
      && !r.layers[FloodFill].visible
      && r.sources[RainfallSource] == GeoJson(HeatFeatures(f.heatmapData))
  {
  }

  /** Both river layers colour every feature identically. */
  lemma RiverLayersShareColors(m: MapModel, f: WeatherAndRivers, p: Option<seq<FloodZone>>, props: Properties)
    requires RiversSource !in m.sources
    ensures var r := InitLayers(m, Some(f), p);
      RuleColor(r.layers[RiverGlow].rule, props) == RuleColor(r.layers[RiverCore].rule, props)
  {
  }

  // --------------------------------------------------------------- visibility

  /** The `layers` prop: each flag may be missing. */
  datatype LayerFlags = LayerFlags(rainfall: Option<bool>, riverLevels: Option<bool>,
                                   floodZones: Option<bool>, clouds: Option<bool>)

  /** `!!flag`: a missing flag counts as false. */
  function Truthy(b: Option<bool>): bool { b == Some(true) }

  /** The visibility the effect asks of a layer id, or `None` for ids it does not touch. */
  function WantedVisibility(flags: LayerFlags, id: string): (v: Option<bool>)
    ensures v.Some? <==> id in {RainfallHeat, RiverGlow, RiverCore, FloodFill}
    ensures id == RainfallHeat ==> v == Some(Truthy(flags.rainfall))
    ensures id == RiverGlow || id == RiverCore ==> v == Some(Truthy(flags.riverLevels))
    ensures id == FloodFill ==> v == Some(Truthy(flags.floodZones))
  {
    if id == RainfallHeat then Some(Truthy(flags.rainfall))
    else if id == RiverGlow || id == RiverCore then Some(Truthy(flags.riverLevels))
    else if id == FloodFill then Some(Truthy(flags.floodZones))
    else None
  }

  /** The clouds flag drives no layer. */
  lemma CloudsAffectNoLayer(flags: LayerFlags, clouds: Option<bool>, id: string)
    ensures WantedVisibility(flags.(clouds := clouds), id) == WantedVisibility(flags, id)
  {
  }

  /** `toggleLayer` on the layer table: a layer that is not there is left out. */
  function SetIfPresent(ls: map<string, Layer>, id: string, visible: bool): (r: map<string, Layer>)
    ensures r.Keys == ls.Keys
    ensures forall k :: k in ls && k != id ==> r[k] == ls[k]
    ensures id in ls ==> r[id] == ls[id].(visible := visible)
  {
    if id in ls then ls[id := ls[id].(visible := visible)] else ls
  }

  /** The visibility effect applied to the map: `toggleLayer` for each of the four managed ids in turn. */
  function ApplyVisibility(m: MapModel, flags: LayerFlags): (r: MapModel)
    ensures r.sources == m.sources && r.layers.Keys == m.layers.Keys
  {
    var l1 := SetIfPresent(m.layers, RainfallHeat, Truthy(flags.rainfall));
    var l2 := SetIfPresent(l1, RiverGlow, Truthy(flags.riverLevels));
    var l3 := SetIfPresent(l2, RiverCore, Truthy(flags.riverLevels));
    var l4 := SetIfPresent(l3, FloodFill, Truthy(flags.floodZones));
    MapModel(m.sources, l4)
  }

  /**
   * Layer by layer, the effect gives every existing layer it manages the
   * visibility its flag asks for, changes nothing else about it, and leaves
   * every other layer as it was.
   */
  lemma ApplyVisibilityAt(m: MapModel, flags: LayerFlags, id: string)
    requires id in m.layers
    ensures var r := ApplyVisibility(m, flags).layers[id];
      && r.source == m.layers[id].source && r.rule == m.layers[id].rule
      && (WantedVisibility(flags, id).Some? ==> r.visible == WantedVisibility(flags, id).value)
      && (WantedVisibility(flags, id).None? ==> r == m.layers[id])
  {
    var l1 := SetIfPresent(m.layers, RainfallHeat, Truthy(flags.rainfall));
    var l2 := SetIfPresent(l1, RiverGlow, Truthy(flags.riverLevels));
    var l3 := SetIfPresent(l2, RiverCore, Truthy(flags.riverLevels));
    var l4 := SetIfPresent(l3, FloodFill, Truthy(flags.floodZones));
    assert ApplyVisibility(m, flags).layers == l4;
    if id == RainfallHeat {
      assert l4[id] == l1[id];
    } else if id == RiverGlow {
      assert l4[id] == l2[id] && l1[id] == m.layers[id];
    } else if id == RiverCore {
      assert l4[id] == l3[id] && l2[id] == m.layers[id];
    } else if id == FloodFill {
      assert l3[id] == m.layers[id];
    } else {
      assert l4[id] == m.layers[id];
    }
  }

  /** Whatever the flags, the two river layers end with the same visibility. */
  lemma RiverLayersShowTogether(m: MapModel, flags: LayerFlags)
    requires RiverGlow in m.layers && RiverCore in m.layers
    ensures ApplyVisibility(m, flags).layers[RiverGlow].visible
         == ApplyVisibility(m, flags).layers[RiverCore].visible
  {
    ApplyVisibilityAt(m, flags, RiverGlow);
    ApplyVisibilityAt(m, flags, RiverCore);
  }

  /** A missing flag hides its layers. */
  lemma MissingFlagHides(m: MapModel, flags: LayerFlags)
    requires flags.rainfall == None && flags.floodZones == None
    requires RainfallHeat in m.layers && FloodFill in m.layers
    ensures !ApplyVisibility(m, flags).layers[RainfallHeat].visible
    ensures !ApplyVisibility(m, flags).layers[FloodFill].visible
  {
    ApplyVisibilityAt(m, flags, RainfallHeat);
    ApplyVisibilityAt(m, flags, FloodFill);
  }

  /**
   * The ids the wrapper adds do not come with the style, so a layer of ours is
   * present only together with the source it draws.
   */
  predicate OwnLayersWithSources(m: MapModel)
  {
    && (RainfallHeat in m.layers ==> RainfallSource in m.sources)
    && (RiverGlow in m.layers ==> RiversSource in m.sources)
    && (RiverCore in m.layers ==> RiversSource in m.sources)
    && (FloodFill in m.layers ==> FloodSource in m.sources)
  }

  /**
   * The visibility effect can run while the prediction is being fetched. It
   * then finds no flood layer to set, and the layer the second stage adds stays
   * hidden even when the flags ask for flood zones, while the rainfall layer
   * follows its flag.
   */
  lemma VisibilityDuringPredictionFetch(m: MapModel, f: WeatherAndRivers, flags: LayerFlags, p: seq<FloodZone>)
    requires RainfallSource !in m.sources && RiversSource !in m.sources && FloodSource !in m.sources
    requires OwnLayersWithSources(m)
    ensures var r := PredictionStage(ApplyVisibility(InitFirstStage(m, f), flags), Some(p));
      && FloodSource in r.sources && FloodFill in r.layers && !r.layers[FloodFill].visible
      && r.layers[RainfallHeat].visible == Truthy(flags.rainfall)
  {
    var m1 := InitFirstStage(m, f);
    var mid := ApplyVisibility(m1, flags);
    assert FloodFill !in m1.layers;
    ApplyVisibilityAt(m1, flags, RainfallHeat);
    assert mid.layers[RainfallHeat].visible == Truthy(flags.rainfall);
  }

  // ------------------------------------------------------------------- replay

  /**
   * The replay effect: the rainfall source's data is replaced by the frame's
   * points when a frame is given, the source exists and the frame carries a
   * `rainfallLayer`; nothing else changes.
   */
  function ApplyReplayFrame(m: MapModel, frame: Option<ReplayFrame>): (r: MapModel)
    ensures r.layers == m.layers && r.sources.Keys == m.sources.Keys
    ensures forall id :: id in m.sources && id != RainfallSource ==> r.sources[id] == m.sources[id]
    ensures frame.Some? && RainfallSource in m.sources && frame.value.rainfallLayer.Some? ==>
      r.sources[RainfallSource] == GeoJson(HeatFeatures(frame.value.rainfallLayer.value))
    ensures !(frame.Some? && RainfallSource in m.sources && frame.value.rainfallLayer.Some?) ==> r == m
  {
    if frame.Some? && RainfallSource in m.sources && frame.value.rainfallLayer.Some? then
      m.(sources := m.sources[RainfallSource := GeoJson(HeatFeatures(frame.value.rainfallLayer.value))])
    else m
  }

  // ------------------------------------------------------ the map, imperatively

  /** The third-party map instance, reduced to its sources and layers. */
  class MapboxMap {
    var sources: map<string, Source>
    var layers: map<string, Layer>

    function Model(): MapModel
      reads this
    {
      MapModel(sources, layers)
    }

    /** A fresh map whose style brings the given sources and layers. */
    constructor (styleSources: map<string, Source>, styleLayers: map<string, Layer>)
      ensures sources == styleSources && layers == styleLayers
    {
      sources := styleSources;
      layers := styleLayers;
    }

    /** `getSource(id)`, as a presence test. */
    function HasSource(id: string): bool
      reads this
    {
      id in sources
    }

    /** `getLayer(id)`, as a presence test. */
    function HasLayer(id: string): bool
      reads this
    {
      id in layers
    }

    /** `addSource`: the map refuses an id it already has. */
    method AddSource(id: string, s: Source)
      requires id !in sources
      modifies this
      ensures sources == old(sources)[id := s] && layers == old(layers)
    {
      sources := sources[id := s];
    }

    /** `addLayer`: the id must be new and its source must exist. */
    method AddLayer(id: string, l: Layer)
      requires id !in layers && l.source in sources
      modifies this
      ensures layers == old(layers)[id := l] && sources == old(sources)
    {
      layers := layers[id := l];
    }

    /** `setLayoutProperty(id, 'visibility', ...)`. */
    method SetVisibility(id: string, visible: bool)
      requires id in layers
      modifies this
      ensures layers == old(layers)[id := old(layers)[id].(visible := visible)]
      ensures sources == old(sources)
    {
      layers := layers[id := layers[id].(visible := visible)];
    }

    /** `getSource(id).setData(...)`. */
    method SetData(id: string, s: Source)
      requires id in sources
      modifies this
      ensures sources == old(sources)[id := s] && layers == old(layers)
    {
      sources := sources[id := s];
    }
  }

  /**
   * `initializeLayers(mapInstance)` up to the `await` of the prediction
   * fetch, with the weather and river documents as a parameter (`None` when
   * either fetch fails). The result says whether the prediction is fetched.
   */
  method InitializeLayers(mapInstance: MapboxMap, fetched: Option<WeatherAndRivers>) returns (awaitingPrediction: bool)
    requires OwnLayersWithSources(mapInstance.Model())
    modifies mapInstance
    ensures fetched.None? ==> mapInstance.Model() == old(mapInstance.Model())
    ensures fetched.Some? ==> mapInstance.Model() == InitFirstStage(old(mapInstance.Model()), fetched.value)
    ensures awaitingPrediction <==> fetched.Some? && FloodSource !in mapInstance.sources
    ensures OwnLayersWithSources(mapInstance.Model())
  {
    if fetched.None? {
      return false;
    }
    if !mapInstance.HasSource(RainfallSource) {
      mapInstance.AddSource(RainfallSource, GeoJson(HeatFeatures(fetched.value.heatmapData)));
      mapInstance.AddLayer(RainfallHeat, Layer(RainfallSource, NoRule, true));
    }
    if !mapInstance.HasSource(RiversSource) {
      mapInstance.AddSource(RiversSource, GeoJson(RiverFeatures(fetched.value.rivers)));
      mapInstance.AddLayer(RiverGlow, Layer(RiversSource, StatusMatch, true));
      mapInstance.AddLayer(RiverCore, Layer(RiversSource, StatusMatch, true));
    }
    awaitingPrediction := !mapInstance.HasSource(FloodSource);
  }

  /**
   * The rest of `initializeLayers`, once the prediction fetch settles
   * (`None` when it fails); the effects may have run on the map meanwhile.
   */
  method PredictionArrived(mapInstance: MapboxMap, predict: Option<seq<FloodZone>>)
    requires OwnLayersWithSources(mapInstance.Model())
    modifies mapInstance
    ensures mapInstance.Model() == PredictionStage(old(mapInstance.Model()), predict)
  {
    if predict.None? || mapInstance.HasSource(FloodSource) {
      return;
    }
    mapInstance.AddSource(FloodSource, GeoJson(FloodFeatures(predict.value)));
    mapInstance.AddLayer(FloodFill, Layer(FloodSource, SeverityMatch, false));
  }

  /** `toggleLayer`: sets visibility only on a layer that exists. */
  method ToggleLayer(m: MapboxMap, id: string, visible: bool)
    modifies m
    ensures m.sources == old(m.sources)
    ensures m.layers == SetIfPresent(old(m.layers), id, visible)
  {
    if m.HasLayer(id) {
      m.SetVisibility(id, visible);
    }
  }

  /** The visibility effect: does nothing until the map is loaded and the flags are given. */
  method UpdateVisibility(m: MapboxMap?, mapLoaded: bool, flags: Option<LayerFlags>)
    modifies if m == null then {} else {m}
    ensures m != null && mapLoaded && flags.Some? ==>
      m.Model() == ApplyVisibility(old(m.Model()), flags.value)
    ensures m != null && !(mapLoaded && flags.Some?) ==> m.Model() == old(m.Model())
  {
    if m == null || !mapLoaded || flags.None? {
      return;
    }
    var f := flags.value;
    ToggleLayer(m, RainfallHeat, Truthy(f.rainfall));
    ToggleLayer(m, RiverGlow, Truthy(f.riverLevels));
    ToggleLayer(m, RiverCore, Truthy(f.riverLevels));
    ToggleLayer(m, FloodFill, Truthy(f.floodZones));
  }

  /** The replay effect on the map. */
  method UpdateReplayFrame(m: MapboxMap?, mapLoaded: bool, frame: Option<ReplayFrame>)
    modifies if m == null then {} else {m}
    ensures m != null && mapLoaded ==> m.Model() == ApplyReplayFrame(old(m.Model()), frame)
    ensures m != null && !mapLoaded ==> m.Model() == old(m.Model())
  {
    if m == null || !mapLoaded || frame.None? {
      return;
    }
    if m.HasSource(RainfallSource) && frame.value.rainfallLayer.Some? {
      m.SetData(RainfallSource, GeoJson(HeatFeatures(frame.value.rainfallLayer.value)));
    }
  }
}
