/**
 * The region picker: a dropdown over a fixed list of four monitored regions.
 * The `onRegionChange` calls it makes are recorded in order.
 */
module Regions {

  /** A region; `lng`/`lat` is its `[lng, lat]` centre. */
  datatype Region = Region(id: string, name: string, lng: real, lat: real, zoom: int)

  const AvailableRegions: seq<Region> := [
    Region("odisha", "Odisha, India", 85.0985, 20.9517, 7),
    Region("assam", "Assam, India", 92.9376, 26.2006, 7),
    Region("netherlands", "Rotterdam, NL", 4.4777, 51.9225, 11),
    Region("california", "Napa Valley, CA", -122.2869, 38.2975, 10)
  ]

  /** Four regions with distinct ids, each with a longitude/latitude on the globe and a positive zoom. */
  lemma RegionListWellFormed()
    ensures |AvailableRegions| == 4
    ensures forall i, j :: 0 <= i < j < 4 ==> AvailableRegions[i].id != AvailableRegions[j].id
    ensures forall i :: 0 <= i < 4 ==>
      && -180.0 <= AvailableRegions[i].lng <= 180.0
      && -90.0 <= AvailableRegions[i].lat <= 90.0
      && AvailableRegions[i].zoom > 0
  {
  }

  /** A row is highlighted when its id is the current region's. */
  predicate Highlighted(current: Region, r: Region) { current.id == r.id }

  /** At most one row is highlighted. */
  lemma AtMostOneHighlighted(current: Region, i: int, j: int)
    requires 0 <= i < 4 && 0 <= j < 4
    requires Highlighted(current, AvailableRegions[i]) && Highlighted(current, AvailableRegions[j])
    ensures i == j
  {
    RegionListWellFormed();
  }

  /** The dropdown component. */
  class RegionSwitcher {
    var isOpen: bool
    var changes: seq<Region>

    constructor ()
      ensures !isOpen && changes == []
    {
      isOpen := false;
      changes := [];
    }

    /** The header button flips the dropdown. */
    method HeaderClick()
      modifies this
      ensures isOpen == !old(isOpen) && changes == old(changes)
    {
      isOpen := !isOpen;
    }

    /** The backdrop, present only while open, closes the dropdown and reports nothing. */
    method BackdropClick()
      modifies this
      ensures !isOpen && changes == old(changes)
    {
      if isOpen {
        isOpen := false;
      }
    }

    /** Row `i`, present only while open: reports exactly that region, then closes. */
    method PickRegion(i: nat)
      requires i < |AvailableRegions|
      modifies this
      ensures !isOpen
      ensures changes == if old(isOpen) then old(changes) + [AvailableRegions[i]] else old(changes)
    {
      if isOpen {
        changes := changes + [AvailableRegions[i]];
        isOpen := false;
      }
    }
  }
}
