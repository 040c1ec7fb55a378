/** ZoneLoader: a listener that loads at most one zone of the map. A change of the geographic
    position resets the null point of the map and forgets the loaded zones; a change of the
    map position loads a zone for that position when none is loaded yet. */
module ZoneLoading {
  /** A position on the map, in metres relative to the null point. */
  datatype MapPoint = MapPoint(x: real, y: real)

  /** A geographic position in degrees. */
  datatype GeoCoordinate = GeoCoordinate(latitude: real, longitude: real)

  /** The tile the tile provider returns for a map position and a null point. */
  datatype Tile = Tile(center: MapPoint, relativeNullPoint: GeoCoordinate, id: int)

  /** A zone made of one tile; Zone.Build is not part of this model. */
  datatype Zone = Zone(tile: Tile)

  /** The two position events the loader listens to. */
  datatype PositionEvent = MapPositionChanged(position: MapPoint) | GeoPositionChanged(geo: GeoCoordinate)

  /** The loader's fields: the null point and the loaded zones. */
  datatype LoaderState = LoaderState(relativeNullPoint: GeoCoordinate, zones: seq<Zone>)

  /** CheckPosition: a zone is already loaded. */
  predicate IsLoaded(s: LoaderState) {
    |s.zones| > 0
  }

  /** The effect of one event, with the tile provider as the function getTile. */
  function Step(getTile: (MapPoint, GeoCoordinate) -> Tile, s: LoaderState, ev: PositionEvent): (r: LoaderState)
    ensures ev.GeoPositionChanged? ==> r.relativeNullPoint == ev.geo && r.zones == []
    ensures ev.MapPositionChanged? ==> r.relativeNullPoint == s.relativeNullPoint
    ensures ev.MapPositionChanged? && IsLoaded(s) ==> r == s
    ensures ev.MapPositionChanged? && !IsLoaded(s) ==>
              r.zones == [Zone(getTile(ev.position, s.relativeNullPoint))]
  {
    match ev
    case GeoPositionChanged(geo) => LoaderState(geo, [])
    case MapPositionChanged(position) =>
      if IsLoaded(s) then s
      else LoaderState(s.relativeNullPoint, s.zones + [Zone(getTile(position, s.relativeNullPoint))])
  }

  /** The state after a sequence of events, the first event first. */
  function Run(getTile: (MapPoint, GeoCoordinate) -> Tile, s: LoaderState, evs: seq<PositionEvent>): LoaderState
    decreases |evs|
  {
    if |evs| == 0 then s else Run(getTile, Step(getTile, s, evs[0]), evs[1..])
  }

  /** Whatever the events, a loader that starts with at most one zone never holds more. */
  lemma {:induction false} RunKeepsAtMostOneZone(getTile: (MapPoint, GeoCoordinate) -> Tile, s: LoaderState, evs: seq<PositionEvent>)
    requires |s.zones| <= 1
    ensures |Run(getTile, s, evs).zones| <= 1
    decreases |evs|
  {
    if |evs| > 0 {
      var next := Step(getTile, s, evs[0]);
      assert |next.zones| <= 1;
      RunKeepsAtMostOneZone(getTile, next, evs[1..]);
    }
  }

  /** Once a zone is loaded, map position events change nothing. */
  lemma {:induction false} MapEventsKeepLoadedZone(getTile: (MapPoint, GeoCoordinate) -> Tile, s: LoaderState, evs: seq<PositionEvent>)
    requires IsLoaded(s)
    requires forall i :: 0 <= i < |evs| ==> evs[i].MapPositionChanged?
    ensures Run(getTile, s, evs) == s
    decreases |evs|
  {
    if |evs| > 0 {
      assert Step(getTile, s, evs[0]) == s;
      MapEventsKeepLoadedZone(getTile, s, evs[1..]);
    }
  }

  /** A geographic position change followed by a map position change loads exactly the tile at
      that map position relative to the new null point. */
  lemma ReloadUsesNewNullPoint(getTile: (MapPoint, GeoCoordinate) -> Tile, s: LoaderState, geo: GeoCoordinate, position: MapPoint)
    ensures Run(getTile, s, [GeoPositionChanged(geo), MapPositionChanged(position)])
            == LoaderState(geo, [Zone(getTile(position, geo))])
  {
    var afterGeo := Step(getTile, s, GeoPositionChanged(geo));
    assert [GeoPositionChanged(geo), MapPositionChanged(position)][1..] == [MapPositionChanged(position)];
    assert [MapPositionChanged(position)][1..] == [];
    assert Run(getTile, s, [GeoPositionChanged(geo), MapPositionChanged(position)])
           == Run(getTile, afterGeo, [MapPositionChanged(position)]);
  }

  /** The listener object; the tile provider is a fixed function of the position and the null
      point. */
  class ZoneLoader {
    const tileProvider: (MapPoint, GeoCoordinate) -> Tile
    var relativeNullPoint: GeoCoordinate
    var zones: seq<Zone>

    function State(): LoaderState
      reads this
    {
      LoaderState(relativeNullPoint, zones)
    }

    /** _zones never holds more than one zone. */
    predicate Valid()
      reads this
    {
      |zones| <= 1
    }

    /** A new loader has no zone and the default (zero) null point. */
    constructor (tileProvider: (MapPoint, GeoCoordinate) -> Tile)
      ensures Valid()
      ensures this.tileProvider == tileProvider
      ensures relativeNullPoint == GeoCoordinate(0.0, 0.0) && zones == []
    {
      this.tileProvider := tileProvider;
      relativeNullPoint := GeoCoordinate(0.0, 0.0);
      zones := [];
    }

    /** CheckPosition: true when some zone is loaded. */
    function CheckPosition(position: MapPoint): (loaded: bool)
      reads this
      ensures loaded <==> IsLoaded(State())
    {
      |zones| != 0
    }

    method OnMapPositionChanged(position: MapPoint)
      requires Valid()
      modifies this
      ensures Valid()
      ensures State() == Step(tileProvider, old(State()), MapPositionChanged(position))
    {
      if CheckPosition(position) {
        return;
      }
      var tile := tileProvider(position, relativeNullPoint);
      var zone := Zone(tile);
      zones := zones + [zone];
    }

    method OnGeoPositionChanged(position: GeoCoordinate)
      modifies this
      ensures Valid()
      ensures State() == Step(tileProvider, old(State()), GeoPositionChanged(position))
    {
      relativeNullPoint := position;
      zones := [];
    }
  }
}
