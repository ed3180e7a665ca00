/**
 * The 3D globe view (src/components/Globe.tsx): the crosshair detector with its sticky lock,
 * the tap-to-popup handler, the locate button's nearest place, the zoom buttons and the
 * crosshair overlay.  Screen distances come from the camera projection and are inputs.
 */
module Globe {
  import opened Wrappers
  import opened Types
  import Utils
  import Store
  import Channels
  import Locator
  import Tuning

  const CROSSHAIR_RADIUS: real := 40.0
  /** Radius to enter a lock. */
  const LOCK_ENTER: real := CROSSHAIR_RADIUS
  /** Radius to break a lock: 2.8 times the enter radius, that is 112 px. */
  const LOCK_EXIT: real := CROSSHAIR_RADIUS * 2.8
  /** A check runs on every eighth active frame. */
  const SCAN_INTERVAL: nat := 8
  const TAP_SCREEN_RADIUS: real := 30.0
  const TAP_MAX_MOVE: real := 12.0
  const TAP_MAX_MILLIS: int := 400

  // ---------------------------------------------------------------------------------------------
  // Crosshair detector, as functions of its state

  /**
   * The detector's state: its own refs (locked place, "playing from crosshair" guard, frame
   * counter) and the three store fields it writes.
   */
  datatype Lock = Lock(
    lockedPlace: Option<string>,
    guard: bool,
    cooldown: nat,
    locked: bool,
    placeId: Option<string>,
    loading: bool)

  /** What is playing: the store's current channel, stream url and playing flag. */
  datatype Playback = Playback(channel: Option<Channel>, streamUrl: Option<string>, playing: bool)

  /** A frame's new state and the place whose channels it starts fetching, if any. */
  datatype TickOutcome = TickOutcome(next: Lock, fetchPlace: Option<string>)

  /** A place-channels response's new state and the channel it starts fetching, if any. */
  datatype ChannelsOutcome = ChannelsOutcome(next: Lock, fetchChannel: Option<string>)

  /** A channel response's new state and playback. */
  datatype ResultOutcome = ResultOutcome(next: Lock, playback: Playback)

  const Initial: Lock := Lock(None, false, 0, false, None, false)

  /** The state of a detector that is consistent with its own writes. */
  predicate Inv(s: Lock)
  {
    (s.guard <==> s.lockedPlace.Some?)
    && (s.locked <==> s.lockedPlace.Some?)
    && s.placeId == s.lockedPlace
    && (s.loading ==> s.lockedPlace.Some?)
    && s.cooldown < SCAN_INTERVAL
  }

  /** Release: no locked place, the guard down, the store's lock and loading flags cleared. */
  function Released(s: Lock): (r: Lock)
    ensures r.lockedPlace.None? && !r.guard && !r.locked && r.placeId.None? && !r.loading
    ensures r.cooldown == s.cooldown
  {
    s.(lockedPlace := None, guard := false, locked := false, placeId := None, loading := false)
  }

  /** Acquire: the place is locked, the store shows it loading, and the guard is raised. */
  function Acquired(s: Lock, id: string): (r: Lock)
    ensures r.lockedPlace == Some(id) && r.guard && r.locked && r.placeId == Some(id) && r.loading
    ensures r.cooldown == s.cooldown
  {
    s.(lockedPlace := Some(id), guard := true, locked := true, placeId := Some(id), loading := true)
  }

  /** The check a scan frame runs (the counter already reset). */
  function Check(s: Lock, ms: seq<Locator.Marker>): TickOutcome
  {
    match Locator.Decide(s.lockedPlace, ms, LOCK_ENTER, LOCK_EXIT)
    case Hold => TickOutcome(s, None)
    case Move(release, acquire) =>
      var r := if release then Released(s) else s;
      if acquire.Some? then
        var id := ms[acquire.value].place.id;
        TickOutcome(Acquired(r, id), Some(id))
      else TickOutcome(r, None)
  }

  /**
   * One animation frame.  Nothing happens without places, before the user has interacted or
   * while the station lock is on; otherwise the counter advances and every eighth such frame
   * runs a check and resets it.
   */
  function Step(s: Lock, ms: seq<Locator.Marker>, userHasInteracted: bool, stationLocked: bool): TickOutcome
  {
    if |ms| == 0 || !userHasInteracted || stationLocked then TickOutcome(s, None)
    else if s.cooldown + 1 < SCAN_INTERVAL then TickOutcome(s.(cooldown := s.cooldown + 1), None)
    else Check(s.(cooldown := 0), ms)
  }

  /**
   * A place-channels response: a failed request or no usable group clears loading; a url whose
   * last segment is empty changes nothing (loading stays on); otherwise the channel is fetched.
   * The guard is not consulted here.
   */
  function ChannelsArrived(s: Lock, resp: Fetched<Option<seq<ChannelGroup>>>): ChannelsOutcome
  {
    match resp
    case Failed => ChannelsOutcome(s.(loading := false), None)
    case Loaded(content) =>
      match Tuning.PickOf(content)
      case NoChannel => ChannelsOutcome(s.(loading := false), None)
      case EmptyId => ChannelsOutcome(s, None)
      case PlayId(id) => ChannelsOutcome(s, Some(id))
  }

  /**
   * A channel response: a failed request clears loading; a response with data is applied, and
   * clears loading, only while the guard is up; a response without data changes nothing.
   */
  function ChannelArrived(s: Lock, pb: Playback, id: string, resp: Fetched<Option<Channel>>): ResultOutcome
  {
    match resp
    case Failed => ResultOutcome(s.(loading := false), pb)
    case Loaded(data) =>
      if data.Some? && s.guard
      then ResultOutcome(s.(loading := false), Playback(data, Some(StreamUrl(id)), true))
      else ResultOutcome(s, pb)
  }

  /** The lock-exit radius is exactly 112 px. */
  lemma ExitRadiusIs112()
    ensures LOCK_EXIT == 112.0 && LOCK_ENTER == 40.0
  {
  }

  /** The detector's own states stay consistent frame after frame. */
  lemma TickKeepsInv(s: Lock, ms: seq<Locator.Marker>, u: bool, sl: bool)
    requires Inv(s)
    ensures Inv(Step(s, ms, u, sl).next)
  {
  }

  /** Responses keep the detector consistent as well. */
  lemma ResponsesKeepInv(s: Lock, pb: Playback, id: string, channels: Fetched<Option<seq<ChannelGroup>>>, result: Fetched<Option<Channel>>)
    requires Inv(s)
    ensures Inv(ChannelsArrived(s, channels).next)
    ensures Inv(ChannelArrived(s, pb, id, result).next)
  {
  }

  /** A frame that is not active (no places, no interaction yet, station locked) changes nothing. */
  lemma InactiveFrameIsIdle(s: Lock, ms: seq<Locator.Marker>, u: bool, sl: bool)
    requires |ms| == 0 || !u || sl
    ensures Step(s, ms, u, sl) == TickOutcome(s, None)
  {
  }

  /** Runs frames one after another, from a state; gives the final state. */
  function Run(s: Lock, frames: seq<seq<Locator.Marker>>, u: bool, sl: bool): Lock
    decreases |frames|
  {
    if |frames| == 0 then s
    else Run(Step(s, frames[0], u, sl).next, frames[1..], u, sl)
  }

  /** Frames that only advance the counter: the counter grows by one per frame and nothing else moves. */
  lemma {:induction false} QuietFrames(s: Lock, frames: seq<seq<Locator.Marker>>)
    requires forall i :: 0 <= i < |frames| ==> |frames[i]| > 0
    requires s.cooldown + |frames| < SCAN_INTERVAL
    ensures Run(s, frames, true, false) == s.(cooldown := s.cooldown + |frames|)
    decreases |frames|
  {
    if |frames| > 0 {
      var t := Step(s, frames[0], true, false).next;
      assert t == s.(cooldown := s.cooldown + 1);
      QuietFrames(t, frames[1..]);
    }
  }

  /** From a reset counter, the first seven active frames never check; the eighth does. */
  lemma EighthFrameChecks(s: Lock, ms: seq<Locator.Marker>)
    requires s.cooldown == SCAN_INTERVAL - 1 && |ms| > 0
    ensures Step(s, ms, true, false) == Check(s.(cooldown := 0), ms)
  {
  }

  /**
   * A lock whose marker is still inside the exit radius holds: the check returns with nothing
   * changed but the counter, even when another marker sits right under the crosshair.
   */
  lemma LockHolds(s: Lock, ms: seq<Locator.Marker>)
    requires Truthy(s.lockedPlace)
    requires Locator.Holds(Locator.LockedDistance(ms, s.lockedPlace.value), LOCK_EXIT)
    ensures Check(s, ms) == TickOutcome(s, None)
  {
  }

  /**
   * A lock whose marker has left the exit radius, was culled or is gone is released, without
   * touching playback; the nearest marker inside the enter radius, if any, is locked at once.
   */
  lemma LockReleases(s: Lock, ms: seq<Locator.Marker>)
    requires Truthy(s.lockedPlace)
    requires !Locator.Holds(Locator.LockedDistance(ms, s.lockedPlace.value), LOCK_EXIT)
    ensures var o := Check(s, ms);
            var k := Locator.Nearest(ms, LOCK_ENTER);
            (k.None? ==> o == TickOutcome(Released(s), None))
            && (k.Some? ==> o == TickOutcome(Acquired(Released(s), ms[k.value].place.id), Some(ms[k.value].place.id)))
  {
  }

  /** Without a (truthy) lock the check locks the nearest marker strictly inside 40 px, if any. */
  lemma UnlockedAcquiresNearest(s: Lock, ms: seq<Locator.Marker>)
    requires !Truthy(s.lockedPlace)
    ensures var o := Check(s, ms);
            match Locator.Nearest(ms, LOCK_ENTER)
            case None => o == TickOutcome(s, None)
            case Some(k) =>
              Locator.IsNearest(ms, LOCK_ENTER, k)
              && o == TickOutcome(Acquired(s, ms[k].place.id), Some(ms[k].place.id))
  {
  }

  /**
   * A channel result changes playback exactly when it carries data and the guard is up, and
   * then clears loading; a failure only clears loading; any other result changes nothing.  No
   * result touches the lock itself.
   */
  lemma ResultAppliedIffGuarded(s: Lock, pb: Playback, id: string, resp: Fetched<Option<Channel>>)
    ensures var o := ChannelArrived(s, pb, id, resp);
            (resp.Loaded? && resp.body.Some? && s.guard ==>
               o == ResultOutcome(s.(loading := false), Playback(resp.body, Some(StreamUrl(id)), true)))
            && (resp.Failed? ==> o == ResultOutcome(s.(loading := false), pb))
            && (resp.Loaded? && !(resp.body.Some? && s.guard) ==> o == ResultOutcome(s, pb))
            && (o.playback != pb ==> resp.Loaded? && resp.body.Some? && s.guard)
            && o.next.(loading := s.loading) == s
  {
  }

  /**
   * The place-channels response: a failure or no deciding group clears loading and requests
   * nothing; a deciding url with an empty last segment changes nothing; otherwise the picked,
   * non-empty channel id is requested with the state unchanged.  The lock is never touched.
   */
  lemma ChannelsArrivedCases(s: Lock, resp: Fetched<Option<seq<ChannelGroup>>>)
    ensures var o := ChannelsArrived(s, resp);
            (resp.Failed? || Tuning.PickOf(resp.body).NoChannel? ==> o == ChannelsOutcome(s.(loading := false), None))
            && (resp.Loaded? && Tuning.PickOf(resp.body).EmptyId? ==> o == ChannelsOutcome(s, None))
            && (resp.Loaded? && Tuning.PickOf(resp.body).PlayId? ==>
                  o == ChannelsOutcome(s, Some(Tuning.PickOf(resp.body).id)) && Tuning.PickOf(resp.body).id != "")
            && o.next.(loading := s.loading) == s
  {
  }

  /** After a release nothing arriving for the old lock can start playback until a new lock. */
  lemma ReleasedIgnoresResults(s: Lock, pb: Playback, id: string, resp: Fetched<Option<Channel>>)
    ensures ChannelArrived(Released(s), pb, id, resp).playback == pb
  {
  }

  /**
   * The guard is a flag, not the place it was raised for: a result requested for place "a"
   * that arrives after the lock moved to place "b" is still applied, with a's channel.
   */
  lemma StaleResultAfterRelock(pb: Playback, a: Place, b: Place, ch: Channel)
    requires a.id == "a" && b.id == "b"
    ensures var first := Check(Initial, [Locator.Marker(a, Some(0.0))]);
            var moved := Check(first.next, [Locator.Marker(a, Some(200.0)), Locator.Marker(b, Some(1.0))]);
            var late := ChannelArrived(moved.next, pb, "ch-a", Loaded(Some(ch)));
            first.fetchPlace == Some("a")
            && moved.next.lockedPlace == Some("b")
            && late.playback == Playback(Some(ch), Some(StreamUrl("ch-a")), true)
  {
    var ms1 := [Locator.Marker(a, Some(0.0))];
    assert Locator.Nearest(ms1, LOCK_ENTER) == Some(0) by {
      assert ms1[..0] == [];
    }
    var s1 := Acquired(Initial, "a");
    var ms2 := [Locator.Marker(a, Some(200.0)), Locator.Marker(b, Some(1.0))];
    assert Locator.LastVisible(ms2, "a") == Some(0) by {
      assert ms2[..1] == [ms2[0]];
    }
    assert Locator.Nearest(ms2, LOCK_ENTER) == Some(1) by {
      assert ms2[..1] == [ms2[0]];
      assert ms2[..1][..0] == [];
    }
  }

  // ---------------------------------------------------------------------------------------------
  // Crosshair detector, as the component holds it

  /** The store's playback fields. */
  function PlaybackOf(store: Store.RadioStore): Playback
    reads store`currentChannel, store`streamUrl, store`isPlaying
  {
    Playback(store.currentChannel, store.streamUrl, store.isPlaying)
  }

  class CrosshairDetector {
    const store: Store.RadioStore
    var lockedPlace: Option<string>
    var playingFromCrosshair: bool
    var cooldown: nat

    /** The pure state this detector and its store fields are in. */
    function State(): Lock
      reads this, store`crosshairLocked, store`crosshairPlaceId, store`crosshairLoading
    {
      Lock(lockedPlace, playingFromCrosshair, cooldown, store.crosshairLocked, store.crosshairPlaceId, store.crosshairLoading)
    }

    constructor (store: Store.RadioStore)
      ensures this.store == store
      ensures lockedPlace.None? && !playingFromCrosshair && cooldown == 0
    {
      this.store := store;
      lockedPlace := None;
      playingFromCrosshair := false;
      cooldown := 0;
    }

    /** One frame (`useFrame`): `markers` are the places with their distance from the screen centre. */
    method Tick(markers: seq<Locator.Marker>) returns (fetchPlace: Option<string>)
      modifies this, store`crosshairLocked, store`crosshairPlaceId, store`crosshairLoading
      ensures TickOutcome(State(), fetchPlace)
              == Step(old(State()), markers, store.userHasInteracted, store.stationLocked)
    {
      if |markers| == 0 || !store.userHasInteracted || store.stationLocked {
        return None;
      }
      cooldown := cooldown + 1;
      if cooldown < SCAN_INTERVAL {
        return None;
      }
      cooldown := 0;
      var closest, lockedDist := Locator.Scan(markers, LOCK_ENTER, lockedPlace);
      if lockedPlace.Some? && lockedPlace.value != "" {
        if lockedDist.Some? && lockedDist.value < LOCK_EXIT {
          return None;
        }
        lockedPlace := None;
        playingFromCrosshair := false;
        store.SetCrosshairLocked(false);
        store.SetCrosshairLoading(false);
      }
      if closest.Some? && !Truthy(lockedPlace) {
        var id := markers[closest.value].place.id;
        lockedPlace := Some(id);
        store.SetCrosshairLocked(true, Some(id));
        store.SetCrosshairLoading(true);
        playingFromCrosshair := true;
        return Some(id);
      }
      return None;
    }

    /** The place-channels request completed (or failed). */
    method OnPlaceChannels(resp: Fetched<Option<seq<ChannelGroup>>>) returns (fetchChannel: Option<string>)
      modifies store`crosshairLoading
      ensures ChannelsOutcome(State(), fetchChannel) == ChannelsArrived(old(State()), resp)
    {
      if resp.Failed? {
        store.SetCrosshairLoading(false);
        return None;
      }
      var pick := Tuning.PickChannel(resp.body);
      match pick
      case NoChannel =>
        store.SetCrosshairLoading(false);
        return None;
      case EmptyId =>
        return None;
      case PlayId(id) =>
        return Some(id);
    }

    /** The channel request for `channelId` completed (or failed). */
    method OnChannelResult(channelId: string, resp: Fetched<Option<Channel>>)
      modifies store`crosshairLoading, store`currentChannel, store`streamUrl, store`isPlaying
      ensures ResultOutcome(State(), PlaybackOf(store))
              == ChannelArrived(old(State()), old(PlaybackOf(store)), channelId, resp)
    {
      match resp
      case Failed =>
        store.SetCrosshairLoading(false);
      case Loaded(data) =>
        if data.Some? && playingFromCrosshair {
          Channels.ApplyChannel(store, channelId, data.value);
          store.SetCrosshairLoading(false);
        }
    }
  }

  // ---------------------------------------------------------------------------------------------
  // Tap to open a place's popup

  datatype PointerSample = PointerSample(x: real, y: real, time: int)

  /** A press and release form a tap when the pointer moved at most 12 px within 400 ms. */
  predicate IsTap(down: PointerSample, x: real, y: real, now: int)
  {
    var dx := x - down.x;
    var dy := y - down.y;
    // the distance exceeds 12 exactly when its square exceeds 144
    dx * dx + dy * dy <= TAP_MAX_MOVE * TAP_MAX_MOVE && now - down.time <= TAP_MAX_MILLIS
  }

  /** A press released on the spot at once is a tap; a 13 px slide or a 401 ms hold is not. */
  lemma TapBoundaries(down: PointerSample)
    ensures IsTap(down, down.x, down.y, down.time)
    ensures IsTap(down, down.x + 12.0, down.y, down.time + 400)
    ensures !IsTap(down, down.x + 13.0, down.y, down.time)
    ensures !IsTap(down, down.x, down.y, down.time + 401)
  {
  }

  class StationMarkers {
    const store: Store.RadioStore
    var pointerDown: Option<PointerSample>

    constructor (store: Store.RadioStore)
      ensures this.store == store && pointerDown.None?
    {
      this.store := store;
      pointerDown := None;
    }

    method PointerDown(x: real, y: real, now: int)
      modifies this`pointerDown
      ensures pointerDown == Some(PointerSample(x, y, now))
    {
      pointerDown := Some(PointerSample(x, y, now));
    }

    /**
     * Release at (x, y): `markers` are the places with their distance from the release point.
     * A tap opens the popup, anchored at the release point, for the nearest marker strictly
     * inside 30 px; anything else changes only the press record, which is always cleared.
     */
    method PointerUp(x: real, y: real, now: int, markers: seq<Locator.Marker>)
      modifies this`pointerDown, store`popupPlace, store`popupScreen
      ensures pointerDown.None?
      ensures var hit := Locator.Nearest(markers, TAP_SCREEN_RADIUS);
              if old(pointerDown).Some? && IsTap(old(pointerDown).value, x, y, now) && hit.Some?
              then store.popupPlace == Some(markers[hit.value].place) && store.popupScreen == Some(Point(x, y))
              else store.popupPlace == old(store.popupPlace) && store.popupScreen == old(store.popupScreen)
    {
      var down := pointerDown;
      pointerDown := None;
      if down.None? {
        return;
      }
      if !IsTap(down.value, x, y, now) {
        return;
      }
      var nearest, _ := Locator.Scan(markers, TAP_SCREEN_RADIUS, None);
      if nearest.Some? {
        store.SetPopupPlace(Some(markers[nearest.value].place), Some(Point(x, y)));
      }
    }
  }

  // ---------------------------------------------------------------------------------------------
  // Locate button

  /** Squared distance in degrees between a place and (lat, lng). */
  function DegreeDistance(p: Place, lat: real, lng: real): real
  {
    var dlat := p.geo.1 - lat;
    var dlng := p.geo.0 - lng;
    dlat * dlat + dlng * dlng
  }

  /** `k` is the first place at the least squared degree distance. */
  predicate IsClosestPlace(places: seq<Place>, lat: real, lng: real, k: nat)
  {
    k < |places|
    && (forall j :: 0 <= j < |places| ==> DegreeDistance(places[k], lat, lng) <= DegreeDistance(places[j], lat, lng))
    && (forall j :: 0 <= j < k ==> DegreeDistance(places[k], lat, lng) < DegreeDistance(places[j], lat, lng))
  }

  /** `findNearestPlace`: a place exists exactly when the list is non-empty. */
  method FindNearestPlace(places: seq<Place>, lat: real, lng: real) returns (best: Option<nat>)
    ensures best.None? <==> |places| == 0
    ensures best.Some? ==> IsClosestPlace(places, lat, lng, best.value)
  {
    if |places| == 0 {
      return None;
    }
    best := None;
    var bestDist: real := 0.0;
    var i := 0;
    while i < |places|
      invariant 0 <= i <= |places|
      invariant best.None? <==> i == 0
      invariant best.Some? ==> best.value < i && bestDist == DegreeDistance(places[best.value], lat, lng)
      invariant best.Some? ==> forall j :: 0 <= j < i ==> bestDist <= DegreeDistance(places[j], lat, lng)
      invariant best.Some? ==> forall j :: 0 <= j < best.value ==> bestDist < DegreeDistance(places[j], lat, lng)
    {
      var d := DegreeDistance(places[i], lat, lng);
      if best.None? || d < bestDist {
        best := Some(i);
        bestDist := d;
      }
      i := i + 1;
    }
  }

  class LocateButton {
    const store: Store.RadioStore

    constructor (store: Store.RadioStore)
      ensures this.store == store
    {
      this.store := store;
    }

    /**
     * `navigateTo(lat, lng)`: with places loaded, the globe turns to the nearest place's own
     * coordinates, which becomes selected with the sidebar open and the crosshair locked on it,
     * and its channels are fetched (`fetchPlace`); with none, the globe turns to (lat, lng).
     */
    method NavigateTo(lat: real, lng: real) returns (fetchPlace: Option<string>)
      modifies store`globeTarget, store`selectedPlace, store`sidebarOpen, store`crosshairLocked, store`crosshairPlaceId
      ensures |store.places| == 0 ==>
                fetchPlace.None? && store.globeTarget == Some(LatLng(lat, lng))
                && store.selectedPlace == old(store.selectedPlace) && store.sidebarOpen == old(store.sidebarOpen)
                && store.crosshairLocked == old(store.crosshairLocked) && store.crosshairPlaceId == old(store.crosshairPlaceId)
      ensures |store.places| > 0 ==>
                exists k: nat :: IsClosestPlace(store.places, lat, lng, k)
                  && store.globeTarget == Some(TargetOf(store.places[k]))
                  && store.selectedPlace == Some(store.places[k]) && store.sidebarOpen
                  && store.crosshairLocked && store.crosshairPlaceId == Some(store.places[k].id)
                  && fetchPlace == Some(store.places[k].id)
    {
      var nearest := FindNearestPlace(store.places, lat, lng);
      if nearest.Some? {
        var place := store.places[nearest.value];
        store.SetGlobeTarget(Some(LatLng(place.geo.1, place.geo.0)));
        store.SetSelectedPlace(Some(place));
        store.SetSidebarOpen(true);
        store.SetCrosshairLocked(true, Some(place.id));
        return Some(place.id);
      }
      store.SetGlobeTarget(Some(LatLng(lat, lng)));
      return None;
    }

    /** `autoPlayPlace`'s channels response: the same pick, with no loading flag to clear. */
    method OnAutoPlayChannels(resp: Fetched<Option<seq<ChannelGroup>>>) returns (fetchChannel: Option<string>)
      ensures fetchChannel.Some? <==> resp.Loaded? && Tuning.PickOf(resp.body).PlayId?
      ensures fetchChannel.Some? ==> fetchChannel.value == Tuning.PickOf(resp.body).id
    {
      if resp.Failed? {
        return None;
      }
      var pick := Tuning.PickChannel(resp.body);
      if pick.PlayId? {
        return Some(pick.id);
      }
      return None;
    }

    /** `autoPlayPlace`'s channel response: data plays, with no guard; anything else is ignored. */
    method OnAutoPlayResult(channelId: string, resp: Fetched<Option<Channel>>)
      modifies store`currentChannel, store`streamUrl, store`isPlaying
      ensures resp.Loaded? && resp.body.Some? ==>
                PlaybackOf(store) == Playback(resp.body, Some(StreamUrl(channelId)), true)
      ensures !(resp.Loaded? && resp.body.Some?) ==> PlaybackOf(store) == old(PlaybackOf(store))
    {
      if resp.Loaded? && resp.body.Some? {
        Channels.ApplyChannel(store, channelId, resp.body.value);
      }
    }
  }

  // ---------------------------------------------------------------------------------------------
  // Zoom buttons and overlay

  const MIN_CAMERA_DISTANCE: real := 2.8
  const MAX_CAMERA_DISTANCE: real := 10.0

  /** The camera distance after a zoom button: half a unit in or out, kept within [2.8, 10]. */
  function ZoomStep(distance: real, zoomIn: bool): (r: real)
    ensures MIN_CAMERA_DISTANCE <= r <= MAX_CAMERA_DISTANCE
    ensures r == Utils.Clamp(distance + (if zoomIn then -0.5 else 0.5), MIN_CAMERA_DISTANCE, MAX_CAMERA_DISTANCE)
  {
    Utils.Max(MIN_CAMERA_DISTANCE, Utils.Min(MAX_CAMERA_DISTANCE, distance + (if zoomIn then -0.5 else 0.5)))
  }

  /** Away from the limits, zooming out then in returns to the same distance. */
  lemma ZoomOutThenIn(distance: real)
    requires MIN_CAMERA_DISTANCE <= distance <= MAX_CAMERA_DISTANCE - 0.5
    ensures ZoomStep(ZoomStep(distance, false), true) == distance
  {
  }

  /** Zooming in from the nearest distance stays there; zooming out from the farthest stays there. */
  lemma ZoomAtLimits()
    ensures ZoomStep(MIN_CAMERA_DISTANCE, true) == MIN_CAMERA_DISTANCE
    ensures ZoomStep(MAX_CAMERA_DISTANCE, false) == MAX_CAMERA_DISTANCE
  {
  }

  /** The crosshair drawn: idle (neither flag), spinning (`isLoading`) or solid green (`isLocked`). */
  datatype Overlay = Overlay(isLocked: bool, isLoading: bool)

  function OverlayOf(crosshairLocked: bool, crosshairLoading: bool): (o: Overlay)
    ensures !(o.isLocked && o.isLoading)
    ensures o.isLocked || o.isLoading <==> crosshairLocked
    ensures o.isLoading <==> crosshairLocked && crosshairLoading
  {
    Overlay(crosshairLocked && !crosshairLoading, crosshairLocked && crosshairLoading)
  }

  /** The detector's own states never show the spinner without a lock: a consistent state with the lock off is idle. */
  lemma UnlockedOverlayIsIdle(s: Lock)
    requires Inv(s) && s.lockedPlace.None?
    ensures OverlayOf(s.locked, s.loading) == Overlay(false, false)
  {
  }
}
