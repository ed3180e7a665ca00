/**
 * The flat map view (src/components/FlatMap.tsx): the equirectangular projection, the
 * crosshair detection effect, drag-to-pan, tap-to-recentre and the wheel and pinch zoom.
 * Unlike the globe, every screen position here is computed from the map state; the distance
 * comparisons use squared distances against squared radii, which order markers the same way.
 */
module FlatMap {
  import opened Wrappers
  import opened Types
  import Utils
  import Store
  import Channels
  import Locator
  import Tuning

  const MIN_ZOOM: real := 1.0
  const MAX_ZOOM: real := 8.0
  const TAP_RADIUS: real := 20.0
  const CROSSHAIR_ENTER: real := 40.0
  const CROSSHAIR_EXIT: real := 100.0
  /** The map's pixel size at zoom 1. */
  const MAP_WIDTH: real := 1920.0
  const MAP_HEIGHT: real := 960.0
  const DRAG_SLOP: real := 3.0

  // ---------------------------------------------------------------------------------------------
  // Projection

  /** `latLngToXY`: longitude -180..180 maps to 0..width, latitude 90..-90 to 0..height. */
  function LatLngToXY(lat: real, lng: real, width: real, height: real): Point
  {
    Point((lng + 180.0) / 360.0 * width, (90.0 - lat) / 180.0 * height)
  }

  /** `xyToLatLng`. */
  function XYToLatLng(x: real, y: real, width: real, height: real): LatLng
    requires width != 0.0 && height != 0.0
  {
    LatLng(90.0 - y / height * 180.0, x / width * 360.0 - 180.0)
  }

  /** Projecting and unprojecting returns the coordinates. */
  lemma UnprojectProject(lat: real, lng: real, width: real, height: real)
    requires width != 0.0 && height != 0.0
    ensures var p := LatLngToXY(lat, lng, width, height);
            XYToLatLng(p.x, p.y, width, height) == LatLng(lat, lng)
  {
    var p := LatLngToXY(lat, lng, width, height);
    ScaleCancels((lng + 180.0) / 360.0, width);
    ScaleCancels((90.0 - lat) / 180.0, height);
  }

  lemma ScaleCancels(u: real, w: real)
    requires w != 0.0
    ensures u * w / w == u
  {
  }

  /** Unprojecting and projecting returns the point. */
  lemma ProjectUnproject(x: real, y: real, width: real, height: real)
    requires width != 0.0 && height != 0.0
    ensures var c := XYToLatLng(x, y, width, height);
            LatLngToXY(c.lat, c.lng, width, height) == Point(x, y)
  {
    var c := XYToLatLng(x, y, width, height);
    assert c.lng + 180.0 == x / width * 360.0;
    assert (c.lng + 180.0) / 360.0 == x / width;
    assert 90.0 - c.lat == y / height * 180.0;
    assert (90.0 - c.lat) / 180.0 == y / height;
  }

  /** Valid coordinates land on the map. */
  lemma ProjectionBounds(lat: real, lng: real, width: real, height: real)
    requires -90.0 <= lat <= 90.0 && -180.0 <= lng <= 180.0
    requires width >= 0.0 && height >= 0.0
    ensures var p := LatLngToXY(lat, lng, width, height);
            0.0 <= p.x <= width && 0.0 <= p.y <= height
  {
    var u := (lng + 180.0) / 360.0;
    var v := (90.0 - lat) / 180.0;
    assert 0.0 <= u <= 1.0 && 0.0 <= v <= 1.0;
    FractionWithin(u, width);
    FractionWithin(v, height);
    assert LatLngToXY(lat, lng, width, height) == Point(u * width, v * height);
  }

  lemma FractionWithin(u: real, w: real)
    requires 0.0 <= u <= 1.0 && w >= 0.0
    ensures 0.0 <= u * w <= w
  {
    assert (1.0 - u) * w >= 0.0;
  }

  /** A place's position on the map drawn at `zoom`. */
  function MapPosition(p: Place, zoom: real): Point
  {
    LatLngToXY(p.geo.1, p.geo.0, MAP_WIDTH * zoom, MAP_HEIGHT * zoom)
  }

  /**
   * A place's screen offset from the container's centre: the map is drawn at
   * `width/2 - zoomW/2 + offset`, so the container's width cancels out.
   */
  function CentreDelta(p: Place, zoom: real, offX: real, offY: real): Point
  {
    var pos := MapPosition(p, zoom);
    Point(offX + pos.x - MAP_WIDTH * zoom / 2.0, offY + pos.y - MAP_HEIGHT * zoom / 2.0)
  }

  function SquaredNorm(d: Point): real
  {
    d.x * d.x + d.y * d.y
  }

  /** The places with their squared distance from the container's centre. */
  function CrosshairMarkers(places: seq<Place>, zoom: real, offX: real, offY: real): (ms: seq<Locator.Marker>)
    ensures |ms| == |places|
    ensures forall i :: 0 <= i < |ms| ==> ms[i].place == places[i]
    ensures forall i :: 0 <= i < |ms| ==> ms[i].dist == Some(SquaredNorm(CentreDelta(places[i], zoom, offX, offY)))
  {
    seq(|places|, i requires 0 <= i < |places| =>
      Locator.Marker(places[i], Some(SquaredNorm(CentreDelta(places[i], zoom, offX, offY)))))
  }

  /** The container's position and size on the page. */
  datatype Viewport = Viewport(left: real, top: real, width: real, height: real)

  /** A place's screen offset from a client point, for the map drawn in `vp`. */
  function TapDelta(p: Place, zoom: real, offX: real, offY: real, vp: Viewport, clientX: real, clientY: real): Point
  {
    var pos := MapPosition(p, zoom);
    var drawX := vp.width / 2.0 - MAP_WIDTH * zoom / 2.0 + offX;
    var drawY := vp.height / 2.0 - MAP_HEIGHT * zoom / 2.0 + offY;
    Point(drawX + pos.x - (clientX - vp.left), drawY + pos.y - (clientY - vp.top))
  }

  /** The places with their squared distance from a client point. */
  function TapMarkers(places: seq<Place>, zoom: real, offX: real, offY: real, vp: Viewport, clientX: real, clientY: real)
    : (ms: seq<Locator.Marker>)
    ensures |ms| == |places|
    ensures forall i :: 0 <= i < |ms| ==> ms[i].place == places[i]
    ensures forall i :: 0 <= i < |ms| ==>
              ms[i].dist == Some(SquaredNorm(TapDelta(places[i], zoom, offX, offY, vp, clientX, clientY)))
  {
    seq(|places|, i requires 0 <= i < |places| =>
      Locator.Marker(places[i], Some(SquaredNorm(TapDelta(places[i], zoom, offX, offY, vp, clientX, clientY)))))
  }

  /**
   * A tap at the container's centre measures what the crosshair measures: the container's
   * position and size cancel out of the tap geometry.
   */
  lemma TapAtCentreIsCentreDelta(p: Place, zoom: real, offX: real, offY: real, vp: Viewport)
    ensures TapDelta(p, zoom, offX, offY, vp, vp.left + vp.width / 2.0, vp.top + vp.height / 2.0)
            == CentreDelta(p, zoom, offX, offY)
  {
  }

  /** Tapping the centre of the container finds the same markers as the crosshair. */
  lemma TapAtCentreMarkers(places: seq<Place>, zoom: real, offX: real, offY: real, vp: Viewport)
    ensures TapMarkers(places, zoom, offX, offY, vp, vp.left + vp.width / 2.0, vp.top + vp.height / 2.0)
            == CrosshairMarkers(places, zoom, offX, offY)
  {
    var cx := vp.left + vp.width / 2.0;
    var cy := vp.top + vp.height / 2.0;
    forall i | 0 <= i < |places|
      ensures TapMarkers(places, zoom, offX, offY, vp, cx, cy)[i] == CrosshairMarkers(places, zoom, offX, offY)[i]
    {
      TapAtCentreIsCentreDelta(places[i], zoom, offX, offY, vp);
    }
  }

  // ---------------------------------------------------------------------------------------------
  // Crosshair detection, as functions of its state

  /** The effect's locked-place ref and the three store fields it writes. */
  datatype FlatLock = FlatLock(lockedPlace: Option<string>, locked: bool, placeId: Option<string>, loading: bool)

  datatype FlatOutcome = FlatOutcome(next: FlatLock, fetchPlace: Option<string>)

  function Released(s: FlatLock): (r: FlatLock)
    ensures r.lockedPlace.None? && !r.locked && r.placeId.None? && !r.loading
  {
    FlatLock(None, false, None, false)
  }

  function Acquired(id: string): (r: FlatLock)
    ensures r.lockedPlace == Some(id) && r.locked && r.placeId == Some(id) && r.loading
  {
    FlatLock(Some(id), true, Some(id), true)
  }

  /**
   * One (debounced) crosshair check.  Nothing runs before the user has interacted, while the
   * station lock is on, before the map image has loaded, or without places.
   */
  function Check(s: FlatLock, ms: seq<Locator.Marker>, userHasInteracted: bool, stationLocked: bool, mapLoaded: bool)
    : FlatOutcome
  {
    if !userHasInteracted || stationLocked || !mapLoaded || |ms| == 0 then FlatOutcome(s, None)
    else
      match Locator.Decide(s.lockedPlace, ms, CROSSHAIR_ENTER * CROSSHAIR_ENTER, CROSSHAIR_EXIT * CROSSHAIR_EXIT)
      case Hold => FlatOutcome(s, None)
      case Move(release, acquire) =>
        var r := if release then Released(s) else s;
        if acquire.Some? then
          var id := ms[acquire.value].place.id;
          FlatOutcome(Acquired(id), Some(id))
        else FlatOutcome(r, None)
  }

  /** A closer lock candidate never displaces a lock still inside 100 px. */
  lemma LockHolds(s: FlatLock, ms: seq<Locator.Marker>)
    requires Truthy(s.lockedPlace) && |ms| > 0
    requires Locator.Holds(Locator.LockedDistance(ms, s.lockedPlace.value), CROSSHAIR_EXIT * CROSSHAIR_EXIT)
    ensures Check(s, ms, true, false, true) == FlatOutcome(s, None)
  {
  }

  /** A lock beyond 100 px, or on a place no longer listed, is released; a marker inside 40 px is locked at once. */
  lemma LockReleases(s: FlatLock, ms: seq<Locator.Marker>)
    requires Truthy(s.lockedPlace) && |ms| > 0
    requires !Locator.Holds(Locator.LockedDistance(ms, s.lockedPlace.value), CROSSHAIR_EXIT * CROSSHAIR_EXIT)
    ensures var o := Check(s, ms, true, false, true);
            match Locator.Nearest(ms, CROSSHAIR_ENTER * CROSSHAIR_ENTER)
            case None => o == FlatOutcome(Released(s), None)
            case Some(k) => o == FlatOutcome(Acquired(ms[k].place.id), Some(ms[k].place.id))
  {
  }

  /** The gate of the effect: any of its three conditions stops the check. */
  lemma GatedCheckIsIdle(s: FlatLock, ms: seq<Locator.Marker>, u: bool, sl: bool, loaded: bool)
    requires !u || sl || !loaded
    ensures Check(s, ms, u, sl, loaded) == FlatOutcome(s, None)
  {
  }

  /** A channel response: data is applied and clears loading; a failure only clears loading. */
  function ChannelArrived(s: FlatLock, pb: (Option<Channel>, Option<string>, bool), id: string, resp: Fetched<Option<Channel>>)
    : (FlatLock, (Option<Channel>, Option<string>, bool))
  {
    match resp
    case Failed => (s.(loading := false), pb)
    case Loaded(data) =>
      if data.Some? then (s.(loading := false), (data, Some(StreamUrl(id)), true)) else (s, pb)
  }

  /**
   * The flat map's channel response: data is played and clears loading, a failure only clears
   * loading, and a response without data changes nothing.  The lock itself is never touched.
   */
  lemma ChannelArrivedCases(s: FlatLock, pb: (Option<Channel>, Option<string>, bool), id: string,
                            resp: Fetched<Option<Channel>>)
    ensures var o := ChannelArrived(s, pb, id, resp);
            (resp.Loaded? && resp.body.Some? ==> o == (s.(loading := false), (resp.body, Some(StreamUrl(id)), true)))
            && (resp.Failed? ==> o == (s.(loading := false), pb))
            && (resp.Loaded? && resp.body.None? ==> o == (s, pb))
            && (o.1 != pb ==> resp.Loaded? && resp.body.Some?)
            && o.0.(loading := s.loading) == s
  {
  }

  /** There is no guard here: a result arriving after its lock was released is still played. */
  lemma ResultAfterReleaseStillPlays(s: FlatLock, pb: (Option<Channel>, Option<string>, bool), id: string, ch: Channel)
    ensures ChannelArrived(Released(s), pb, id, Loaded(Some(ch))).1 == (Some(ch), Some(StreamUrl(id)), true)
  {
  }

  // ---------------------------------------------------------------------------------------------
  // Pointer and zoom rules

  /** The drag record taken on pointer-down. */
  datatype Drag = Drag(startX: real, startY: real, startOffX: real, startOffY: real, moved: bool)

  function Abs(v: real): real { if v < 0.0 then -v else v }

  /** The `moved` flag after the pointer reaches (x, y): once set it stays set. */
  function MovedAfter(d: Drag, x: real, y: real): (m: bool)
    ensures d.moved ==> m
    ensures m <==> d.moved || Abs(x - d.startX) > DRAG_SLOP || Abs(y - d.startY) > DRAG_SLOP
  {
    d.moved || Abs(x - d.startX) > DRAG_SLOP || Abs(y - d.startY) > DRAG_SLOP
  }

  /** A pointer that never leaves the 3 px box around the press point is never a drag. */
  lemma {:induction false} StillPointerNeverMoves(d: Drag, xs: seq<real>, ys: seq<real>)
    requires !d.moved && |xs| == |ys|
    requires forall i :: 0 <= i < |xs| ==> Abs(xs[i] - d.startX) <= DRAG_SLOP && Abs(ys[i] - d.startY) <= DRAG_SLOP
    ensures !MovesAll(d, xs, ys).moved
    decreases |xs|
  {
    if |xs| > 0 {
      StillPointerNeverMoves(d.(moved := MovedAfter(d, xs[0], ys[0])), xs[1..], ys[1..]);
    }
  }

  /** The drag record after a series of pointer moves. */
  function MovesAll(d: Drag, xs: seq<real>, ys: seq<real>): Drag
    requires |xs| == |ys|
    decreases |xs|
  {
    if |xs| == 0 then d else MovesAll(d.(moved := MovedAfter(d, xs[0], ys[0])), xs[1..], ys[1..])
  }

  /** Wheel zoom: 6% per notch, out for a positive `deltaY`, kept within [1, 8]. */
  function WheelZoom(zoom: real, deltaY: real): (z: real)
    ensures MIN_ZOOM <= z <= MAX_ZOOM
  {
    var delta := if deltaY > 0.0 then -0.2 else 0.2;
    Utils.Max(MIN_ZOOM, Utils.Min(MAX_ZOOM, zoom + delta * zoom * 0.3))
  }

  /** Scrolling down never zooms in and scrolling up never zooms out. */
  lemma WheelDirection(zoom: real, deltaY: real)
    requires MIN_ZOOM <= zoom <= MAX_ZOOM
    ensures deltaY > 0.0 ==> WheelZoom(zoom, deltaY) <= zoom
    ensures deltaY <= 0.0 ==> WheelZoom(zoom, deltaY) >= zoom
    ensures deltaY > 0.0 && zoom * 0.94 >= MIN_ZOOM ==> WheelZoom(zoom, deltaY) == zoom * 0.94
    ensures deltaY <= 0.0 && zoom * 1.06 <= MAX_ZOOM ==> WheelZoom(zoom, deltaY) == zoom * 1.06
  {
  }

  /**
   * Pinch zoom by the ratio of the new finger distance to the previous one, kept within [1, 8].
   * A previous distance of 0 divides to Infinity in the source, which clamps to the maximum;
   * fingers brought together scale by 0, which clamps to the minimum.  Both distances 0 (NaN in
   * the source) is excluded.
   */
  function PinchZoom(zoom: real, last: real, dist: real): (z: real)
    requires last >= 0.0 && dist >= 0.0 && (last > 0.0 || dist > 0.0)
    ensures MIN_ZOOM <= z <= MAX_ZOOM
    ensures last == 0.0 ==> z == MAX_ZOOM
    ensures last > 0.0 && dist == 0.0 ==> z == MIN_ZOOM
    ensures last > 0.0 && MIN_ZOOM <= zoom * (dist / last) <= MAX_ZOOM ==> z == zoom * (dist / last)
  {
    if last == 0.0 then MAX_ZOOM
    else Utils.Max(MIN_ZOOM, Utils.Min(MAX_ZOOM, zoom * (dist / last)))
  }

  /** Spreading the fingers never zooms out; pinching them never zooms in. */
  lemma PinchDirection(zoom: real, last: real, dist: real)
    requires MIN_ZOOM <= zoom <= MAX_ZOOM && last > 0.0 && dist >= 0.0
    ensures dist >= last ==> PinchZoom(zoom, last, dist) >= zoom
    ensures dist <= last ==> PinchZoom(zoom, last, dist) <= zoom
  {
    var scale := dist / last;
    if dist >= last {
      assert scale >= 1.0;
      assert zoom * scale >= zoom;
    } else {
      assert scale <= 1.0;
      assert zoom * scale <= zoom;
    }
  }

  /** The recentring offset puts a place at the centre of the container. */
  function RecentreOffset(p: Place, zoom: real): (off: Point)
    ensures CentreDelta(p, zoom, off.x, off.y) == Point(0.0, 0.0)
  {
    var pos := MapPosition(p, zoom);
    Point(MAP_WIDTH * zoom / 2.0 - pos.x, MAP_HEIGHT * zoom / 2.0 - pos.y)
  }

  /**
   * Right after a tap the tapped place sits under the crosshair, so the next check keeps the
   * lock the tap set (when no other listed place shares its id).
   */
  lemma TapLockSurvivesNextCheck(places: seq<Place>, k: nat, zoom: real)
    requires k < |places| && places[k].id != ""
    requires forall j :: 0 <= j < |places| && j != k ==> places[j].id != places[k].id
    ensures var off := RecentreOffset(places[k], zoom);
            var ms := CrosshairMarkers(places, zoom, off.x, off.y);
            Check(Acquired(places[k].id), ms, true, false, true) == FlatOutcome(Acquired(places[k].id), None)
  {
    var off := RecentreOffset(places[k], zoom);
    var ms := CrosshairMarkers(places, zoom, off.x, off.y);
    var id := places[k].id;
    var last := Locator.LastVisible(ms, id);
    assert ms[k].place.id == id && ms[k].dist.Some?;
    assert last.Some?;
    assert last.value == k;
    assert ms[k].dist == Some(0.0);
  }

  // ---------------------------------------------------------------------------------------------
  // The component

  class FlatMapView {
    const store: Store.RadioStore
    var zoom: real
    var offsetX: real
    var offsetY: real
    var drag: Option<Drag>
    var lockedPlace: Option<string>
    var mapLoaded: bool
    var lastTouchDist: Option<real>

    /** The zoom stays in the range every handler clamps to. */
    predicate Valid()
      reads this`zoom
    {
      MIN_ZOOM <= zoom <= MAX_ZOOM
    }

    function State(): FlatLock
      reads this`lockedPlace, store`crosshairLocked, store`crosshairPlaceId, store`crosshairLoading
    {
      FlatLock(lockedPlace, store.crosshairLocked, store.crosshairPlaceId, store.crosshairLoading)
    }

    /** Zoom 1.5, no pan, no drag, no lock, the map image not yet loaded. */
    constructor (store: Store.RadioStore)
      ensures this.store == store && Valid()
      ensures zoom == 1.5 && offsetX == 0.0 && offsetY == 0.0
      ensures drag.None? && lockedPlace.None? && !mapLoaded && lastTouchDist.None?
    {
      this.store := store;
      zoom := 1.5;
      offsetX := 0.0;
      offsetY := 0.0;
      drag := None;
      lockedPlace := None;
      mapLoaded := false;
      lastTouchDist := None;
    }

    method MapImageLoaded()
      modifies this`mapLoaded
      ensures mapLoaded
    {
      mapLoaded := true;
    }

    /** The debounced crosshair check after a pan or zoom. */
    method CrosshairCheck() returns (fetchPlace: Option<string>)
      modifies this`lockedPlace, store`crosshairLocked, store`crosshairPlaceId, store`crosshairLoading
      ensures FlatOutcome(State(), fetchPlace)
              == Check(old(State()), CrosshairMarkers(store.places, zoom, offsetX, offsetY),
                       store.userHasInteracted, store.stationLocked, mapLoaded)
    {
      if !store.userHasInteracted || store.stationLocked || !mapLoaded {
        return None;
      }
      var ms := CrosshairMarkers(store.places, zoom, offsetX, offsetY);
      if |ms| == 0 {
        return None;
      }
      var closest, lockedDist := Locator.Scan(ms, CROSSHAIR_ENTER * CROSSHAIR_ENTER, lockedPlace);
      if Truthy(lockedPlace) {
        if lockedDist.Some? && lockedDist.value < CROSSHAIR_EXIT * CROSSHAIR_EXIT {
          return None;
        }
        ReleaseLock();
      }
      if closest.Some? && !Truthy(lockedPlace) {
        var id := ms[closest.value].place.id;
        AcquireLock(id);
        return Some(id);
      }
      return None;
    }

    /** Forgets the lock: the ref and the store's lock, place id and loading flag. */
    method ReleaseLock()
      modifies this`lockedPlace, store`crosshairLocked, store`crosshairPlaceId, store`crosshairLoading
      ensures State() == Released(old(State()))
    {
      lockedPlace := None;
      store.SetCrosshairLocked(false);
      store.SetCrosshairLoading(false);
    }

    /** Locks on a place: the ref, and the store's lock with the place id and loading set. */
    method AcquireLock(id: string)
      modifies this`lockedPlace, store`crosshairLocked, store`crosshairPlaceId, store`crosshairLoading
      ensures State() == Acquired(id)
    {
      lockedPlace := Some(id);
      store.SetCrosshairLocked(true, Some(id));
      store.SetCrosshairLoading(true);
    }

    /** Pressing records where the pointer and the map offset were. */
    method PointerDown(x: real, y: real)
      modifies this`drag
      ensures drag == Some(Drag(x, y, offsetX, offsetY, false))
    {
      drag := Some(Drag(x, y, offsetX, offsetY, false));
    }

    /** Moving while pressed pans by the pointer's displacement and may set `moved`. */
    method PointerMove(x: real, y: real)
      modifies this`drag, this`offsetX, this`offsetY
      ensures old(drag).None? ==> drag == old(drag) && offsetX == old(offsetX) && offsetY == old(offsetY)
      ensures old(drag).Some? ==>
                var d := old(drag).value;
                drag == Some(d.(moved := MovedAfter(d, x, y)))
                && offsetX == d.startOffX + (x - d.startX) && offsetY == d.startOffY + (y - d.startY)
    {
      if drag.None? {
        return;
      }
      var d := drag.value;
      var dx := x - d.startX;
      var dy := y - d.startY;
      if Abs(dx) > DRAG_SLOP || Abs(dy) > DRAG_SLOP {
        d := d.(moved := true);
      }
      drag := Some(d);
      offsetX := d.startOffX + dx;
      offsetY := d.startOffY + dy;
    }

    /**
     * Releasing ends the drag.  A press that did not move is a tap: the nearest place strictly
     * inside 20 px gets the popup at the window's centre, the map recentres on it, and the
     * crosshair locks on it (no enter-radius check) while its channels are fetched.  The
     * container is at `vp`; the window is `windowWidth` by `windowHeight`.
     */
    method PointerUp(x: real, y: real, vp: Viewport, windowWidth: real, windowHeight: real)
      returns (fetchPlace: Option<string>)
      modifies this`drag, this`offsetX, this`offsetY, this`lockedPlace
      modifies store`popupPlace, store`popupScreen, store`userHasInteracted, store`crosshairLocked,
        store`crosshairPlaceId, store`crosshairLoading
      ensures drag.None?
      ensures var hit := Locator.Nearest(TapMarkers(store.places, zoom, old(offsetX), old(offsetY), vp, x, y),
                                         TAP_RADIUS * TAP_RADIUS);
              if old(drag).Some? && !old(drag).value.moved && hit.Some? then
                var p := store.places[hit.value];
                fetchPlace == Some(p.id)
                && store.popupPlace == Some(p) && store.popupScreen == Some(Point(windowWidth / 2.0, windowHeight / 2.0))
                && Point(offsetX, offsetY) == RecentreOffset(p, zoom)
                && store.userHasInteracted && State() == Acquired(p.id)
              else
                fetchPlace.None? && offsetX == old(offsetX) && offsetY == old(offsetY)
                && State() == old(State())
                && store.popupPlace == old(store.popupPlace) && store.popupScreen == old(store.popupScreen)
                && store.userHasInteracted == old(store.userHasInteracted)
    {
      var d := drag;
      drag := None;
      if d.None? || d.value.moved {
        return None;
      }
      var ms := TapMarkers(store.places, zoom, offsetX, offsetY, vp, x, y);
      var nearest, _ := Locator.Scan(ms, TAP_RADIUS * TAP_RADIUS, None);
      if nearest.None? {
        return None;
      }
      var place := store.places[nearest.value];
      SnapTo(place, windowWidth, windowHeight);
      return Some(place.id);
    }

    /** The tap action: popup at the window centre, the place recentred, the crosshair locked on it. */
    method SnapTo(place: Place, windowWidth: real, windowHeight: real)
      modifies this`offsetX, this`offsetY, this`lockedPlace
      modifies store`popupPlace, store`popupScreen, store`userHasInteracted, store`crosshairLocked,
        store`crosshairPlaceId, store`crosshairLoading
      ensures store.popupPlace == Some(place) && store.popupScreen == Some(Point(windowWidth / 2.0, windowHeight / 2.0))
      ensures Point(offsetX, offsetY) == RecentreOffset(place, zoom)
      ensures store.userHasInteracted && State() == Acquired(place.id)
    {
      store.SetPopupPlace(Some(place), Some(Point(windowWidth / 2.0, windowHeight / 2.0)));
      var off := RecentreOffset(place, zoom);
      offsetX := off.x;
      offsetY := off.y;
      store.SetUserHasInteracted(true);
      AcquireLock(place.id);
    }

    /** The place-channels response of a lock or a tap (same pick as the globe). */
    method OnPlaceChannels(resp: Fetched<Option<seq<ChannelGroup>>>) returns (fetchChannel: Option<string>)
      modifies store`crosshairLoading
      ensures resp.Failed? || Tuning.PickOf(resp.body).NoChannel? ==> fetchChannel.None? && !store.crosshairLoading
      ensures resp.Loaded? && Tuning.PickOf(resp.body).EmptyId? ==>
                fetchChannel.None? && store.crosshairLoading == old(store.crosshairLoading)
      ensures resp.Loaded? && Tuning.PickOf(resp.body).PlayId? ==>
                fetchChannel == Some(Tuning.PickOf(resp.body).id) && store.crosshairLoading == old(store.crosshairLoading)
    {
      if resp.Failed? {
        store.SetCrosshairLoading(false);
        return None;
      }
      var pick := Tuning.PickChannel(resp.body);
      match pick
      case NoChannel =>
        store.SetCrosshairLoading(false);
        return None;
      case EmptyId =>
        return None;
      case PlayId(id) =>
        return Some(id);
    }

    /** The channel response: applied whenever it carries data. */
    method OnChannelResult(channelId: string, resp: Fetched<Option<Channel>>)
      modifies store`crosshairLoading, store`currentChannel, store`streamUrl, store`isPlaying
      ensures var r := ChannelArrived(old(State()), (old(store.currentChannel), old(store.streamUrl), old(store.isPlaying)), channelId, resp);
              store.crosshairLoading == r.0.loading
              && (store.currentChannel, store.streamUrl, store.isPlaying) == r.1
    {
      match resp
      case Failed =>
        store.SetCrosshairLoading(false);
      case Loaded(data) =>
        if data.Some? {
          Channels.ApplyChannel(store, channelId, data.value);
          store.SetCrosshairLoading(false);
        }
    }

    method Wheel(deltaY: real)
      modifies this`zoom
      ensures zoom == WheelZoom(old(zoom), deltaY) && Valid()
    {
      var delta := if deltaY > 0.0 then -0.2 else 0.2;
      zoom := Utils.Max(MIN_ZOOM, Utils.Min(MAX_ZOOM, zoom + delta * zoom * 0.3));
    }

    /**
     * A two-finger move at finger distance `dist` scales the zoom by the change since the last
     * one; other touch counts are ignored.
     */
    method TouchMove(touches: nat, dist: real)
      requires touches == 2 ==> dist >= 0.0 && (dist == 0.0 ==> lastTouchDist != Some(0.0))
      requires lastTouchDist.Some? ==> lastTouchDist.value >= 0.0
      modifies this`zoom, this`lastTouchDist
      ensures touches != 2 ==> zoom == old(zoom) && lastTouchDist == old(lastTouchDist)
      ensures touches == 2 ==> lastTouchDist == Some(dist)
      ensures touches == 2 && old(lastTouchDist).Some? ==> zoom == PinchZoom(old(zoom), old(lastTouchDist).value, dist)
      ensures touches == 2 && old(lastTouchDist).None? ==> zoom == old(zoom)
    {
      if touches == 2 {
        if lastTouchDist.Some? {
          zoom := PinchZoom(zoom, lastTouchDist.value, dist);
        }
        lastTouchDist := Some(dist);
      }
    }

    method TouchEnd()
      modifies this`lastTouchDist
      ensures lastTouchDist.None?
    {
      lastTouchDist := None;
    }
  }
}
