/**
 * The main dashboard page: four layer flags, a handler that flips one of them
 * by key, the rows it hands to the layer toggle panel, and the flags it hands
 * to the map.
 */
module Dashboard {
  import opened Optional
  import MapLayers

  datatype LayerId = Rainfall | RiverLevels | FloodZones | Clouds

  /** The `activeLayers` record. */
  datatype ActiveLayers = ActiveLayers(rainfall: bool, riverLevels: bool, floodZones: bool, clouds: bool)

  /** Rainfall and river levels on, flood zones and clouds off. */
  function InitialLayers(): ActiveLayers
  {
    ActiveLayers(true, true, false, false)
  }

  /** The record key of a layer. */
  function Key(id: LayerId): string
  {
    match id
    case Rainfall => "rainfall"
    case RiverLevels => "riverLevels"
    case FloodZones => "floodZones"
    case Clouds => "clouds"
  }

  /** The layer a key names, if any. */
  function ParseKey(key: string): (id: Option<LayerId>)
    ensures id.Some? ==> Key(id.value) == key
    ensures forall l :: Key(l) == key ==> id == Some(l)
  {
    if key == "rainfall" then Some(Rainfall)
    else if key == "riverLevels" then Some(RiverLevels)
    else if key == "floodZones" then Some(FloodZones)
    else if key == "clouds" then Some(Clouds)
    else None
  }

  /** `prev[layer]`. */
  function Flag(a: ActiveLayers, id: LayerId): bool
  {
    match id
    case Rainfall => a.rainfall
    case RiverLevels => a.riverLevels
    case FloodZones => a.floodZones
    case Clouds => a.clouds
  }

  /** `{...prev, [layer]: !prev[layer]}` for one of the four keys. */
  function Toggle(a: ActiveLayers, id: LayerId): (b: ActiveLayers)
    ensures Flag(b, id) == !Flag(a, id)
    ensures forall other :: other != id ==> Flag(b, other) == Flag(a, other)
  {
    match id
    case Rainfall => a.(rainfall := !a.rainfall)
    case RiverLevels => a.(riverLevels := !a.riverLevels)
    case FloodZones => a.(floodZones := !a.floodZones)
    case Clouds => a.(clouds := !a.clouds)
  }

  /** Two records that agree on every flag are the same record. */
  lemma FlagsDetermine(a: ActiveLayers, b: ActiveLayers)
    requires forall id :: Flag(a, id) == Flag(b, id)
    ensures a == b
  {
    assert Flag(a, Rainfall) == Flag(b, Rainfall);
    assert Flag(a, RiverLevels) == Flag(b, RiverLevels);
    assert Flag(a, FloodZones) == Flag(b, FloodZones);
    assert Flag(a, Clouds) == Flag(b, Clouds);
  }

  /** Toggling one layer twice restores the record. */
  lemma ToggleTwice(a: ActiveLayers, id: LayerId)
    ensures Toggle(Toggle(a, id), id) == a
  {
    FlagsDetermine(Toggle(Toggle(a, id), id), a);
  }

  /** Toggles of two layers commute. */
  lemma TogglesCommute(a: ActiveLayers, x: LayerId, y: LayerId)
    ensures Toggle(Toggle(a, x), y) == Toggle(Toggle(a, y), x)
  {
    FlagsDetermine(Toggle(Toggle(a, x), y), Toggle(Toggle(a, y), x));
  }

  /**
   * `handleLayerToggle(key)`. The toggle panel only sends the four keys; any
   * other key would add an extra property that nothing reads, so the four
   * flags stay as they were.
   */
  function HandleLayerToggle(a: ActiveLayers, key: string): (b: ActiveLayers)
    ensures forall id :: Flag(b, id) == (if Key(id) == key then !Flag(a, id) else Flag(a, id))
  {
    match ParseKey(key)
    case Some(id) => Toggle(a, id)
    case None => a
  }

  /** One entry handed to the toggle panel. */
  datatype Row = Row(id: string, caption: string, enabled: bool)

  /** The four rows of the toggle panel, in display order. */
  function Rows(a: ActiveLayers): (rows: seq<Row>)
    ensures |rows| == 4
    ensures forall i :: 0 <= i < 4 ==> rows[i].id == Key(Order[i]) && rows[i].enabled == Flag(a, Order[i])
  {
    [ Row("rainfall", "Rainfall", a.rainfall),
      Row("riverLevels", "River Levels", a.riverLevels),
      Row("floodZones", "Flood Zones", a.floodZones),
      Row("clouds", "Satellite Clouds", a.clouds) ]
  }

  /** The display order of the rows. */
  const Order: seq<LayerId> := [Rainfall, RiverLevels, FloodZones, Clouds]

  /** Clicking row `i` of the panel sends its id back and flips exactly that row's flag. */
  lemma ClickingRowFlipsIt(a: ActiveLayers, i: int)
    requires 0 <= i < 4
    ensures Flag(HandleLayerToggle(a, Rows(a)[i].id), Order[i]) == !Flag(a, Order[i])
    ensures Rows(HandleLayerToggle(a, Rows(a)[i].id))[i].enabled == !Rows(a)[i].enabled
    ensures forall j :: 0 <= j < 4 && j != i ==>
      Rows(HandleLayerToggle(a, Rows(a)[i].id))[j].enabled == Rows(a)[j].enabled
  {
  }

  /** The flags as the map receives them: every one given. */
  function MapFlags(a: ActiveLayers): MapLayers.LayerFlags
  {
    MapLayers.LayerFlags(Some(a.rainfall), Some(a.riverLevels), Some(a.floodZones), Some(a.clouds))
  }

  /** On the initial dashboard the map shows rainfall and rivers and hides the flood zones. */
  lemma InitialMapVisibility(m: MapLayers.MapModel)
    requires MapLayers.RainfallHeat in m.layers && MapLayers.RiverCore in m.layers
    requires MapLayers.FloodFill in m.layers
    ensures var r := MapLayers.ApplyVisibility(m, MapFlags(InitialLayers()));
      r.layers[MapLayers.RainfallHeat].visible && r.layers[MapLayers.RiverCore].visible
      && !r.layers[MapLayers.FloodFill].visible
  {
    MapLayers.ApplyVisibilityAt(m, MapFlags(InitialLayers()), MapLayers.RainfallHeat);
    MapLayers.ApplyVisibilityAt(m, MapFlags(InitialLayers()), MapLayers.RiverCore);
    MapLayers.ApplyVisibilityAt(m, MapFlags(InitialLayers()), MapLayers.FloodFill);
  }
}
