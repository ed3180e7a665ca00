/**
 * The nearest-marker search and the sticky lock rule shared by the globe's and the flat map's
 * crosshair detectors and tap handlers (src/components/Globe.tsx, src/components/FlatMap.tsx).
 * A marker carries the distance the component measured for it, or `None` when the globe culled
 * it (a marker on the far side).  The rule only compares distances with each other and with a
 * radius, so a caller may pass any strictly increasing function of the distance (its square)
 * together with the same function of the radius.
 */
module Locator {
  import opened Wrappers
  import opened Types

  datatype Marker = Marker(place: Place, dist: Option<real>)

  /** A visible marker strictly inside the radius. */
  predicate Within(m: Marker, radius: real)
  {
    m.dist.Some? && m.dist.value < radius
  }

  /**
   * Index `k` is what the search loop returns: inside the radius, no visible marker strictly
   * closer, and every earlier visible marker strictly farther (the first one wins ties).
   */
  predicate IsNearest(ms: seq<Marker>, radius: real, k: nat)
  {
    k < |ms| && Within(ms[k], radius)
    && (forall j :: 0 <= j < |ms| && ms[j].dist.Some? ==> ms[k].dist.value <= ms[j].dist.value)
    && (forall j :: 0 <= j < k && ms[j].dist.Some? ==> ms[k].dist.value < ms[j].dist.value)
  }

  /**
   * The loop `if (dist < radius && dist < closestDist) { closestDist = dist; closest = i }`
   * over the markers, as a function of its prefix.
   */
  function Nearest(ms: seq<Marker>, radius: real): (r: Option<nat>)
    ensures r.Some? ==> IsNearest(ms, radius, r.value)
    ensures r.None? <==> forall j :: 0 <= j < |ms| ==> !Within(ms[j], radius)
  {
    if |ms| == 0 then None
    else
      var r := Nearest(ms[..|ms| - 1], radius);
      var last := ms[|ms| - 1];
      if Within(last, radius) && (r.None? || last.dist.value < ms[r.value].dist.value)
      then Some(|ms| - 1)
      else r
  }

  /** Nearest on a prefix extended by one marker. */
  lemma NearestSnoc(ms: seq<Marker>, m: Marker, radius: real)
    ensures var r := Nearest(ms, radius);
            Nearest(ms + [m], radius)
            == if Within(m, radius) && (r.None? || m.dist.value < ms[r.value].dist.value)
               then Some(|ms|) else r
  {
    assert (ms + [m])[..|ms|] == ms;
  }

  /** The last visible marker of the place with that id: the one whose distance the loop keeps. */
  function LastVisible(ms: seq<Marker>, id: string): (k: Option<nat>)
    ensures k.None? <==> forall j :: 0 <= j < |ms| && ms[j].place.id == id ==> ms[j].dist.None?
    ensures k.Some? ==> k.value < |ms| && ms[k.value].place.id == id && ms[k.value].dist.Some?
    ensures k.Some? ==> forall j :: k.value < j < |ms| && ms[j].place.id == id ==> ms[j].dist.None?
  {
    if |ms| == 0 then None
    else if ms[|ms| - 1].place.id == id && ms[|ms| - 1].dist.Some? then Some(|ms| - 1)
    else LastVisible(ms[..|ms| - 1], id)
  }

  /** The distance recorded for the locked place, or `None` (the loop's Infinity). */
  function LockedDistance(ms: seq<Marker>, id: string): Option<real>
  {
    var k := LastVisible(ms, id);
    if k.Some? then ms[k.value].dist else None
  }

  lemma LockedDistanceSnoc(ms: seq<Marker>, m: Marker, id: string)
    ensures LockedDistance(ms + [m], id)
            == if m.place.id == id && m.dist.Some? then m.dist else LockedDistance(ms, id)
  {
    assert (ms + [m])[..|ms|] == ms;
    var k := LastVisible(ms, id);
    if k.Some? {
      assert (ms + [m])[k.value] == ms[k.value];
    }
  }

  /** The lock is kept only while the locked place was measured strictly inside the exit radius. */
  predicate Holds(lockedDist: Option<real>, exitRadius: real)
  {
    lockedDist.Some? && lockedDist.value < exitRadius
  }

  /**
   * One crosshair check: with a (truthy) lock whose marker is inside the exit radius nothing
   * changes; otherwise a lock is released and the nearest marker inside the enter radius, if
   * any, is acquired in the same check.
   */
  datatype Decision = Hold | Move(release: bool, acquire: Option<nat>)

  function Decide(locked: Option<string>, ms: seq<Marker>, enterRadius: real, exitRadius: real): (d: Decision)
    ensures d.Hold? <==> Truthy(locked) && Holds(LockedDistance(ms, locked.value), exitRadius)
    ensures d.Move? ==> (d.release <==> Truthy(locked))
    ensures d.Move? && d.acquire.Some? ==> IsNearest(ms, enterRadius, d.acquire.value)
    ensures d.Move? && d.acquire.None? ==> forall j :: 0 <= j < |ms| ==> !Within(ms[j], enterRadius)
  {
    if Truthy(locked) && Holds(LockedDistance(ms, locked.value), exitRadius) then Hold
    else Move(Truthy(locked), Nearest(ms, enterRadius))
  }

  /**
   * The detection loop itself: one pass that tracks the nearest marker inside the enter radius
   * and the distance of the locked place (only looked up while the lock id is truthy).
   */
  method Scan(ms: seq<Marker>, enterRadius: real, locked: Option<string>)
    returns (closest: Option<nat>, lockedDist: Option<real>)
    ensures closest == Nearest(ms, enterRadius)
    ensures lockedDist == if Truthy(locked) then LockedDistance(ms, locked.value) else None
  {
    closest := None;
    lockedDist := None;
    var closestDist: real := 0.0;
    var i := 0;
    while i < |ms|
      invariant 0 <= i <= |ms|
      invariant closest == Nearest(ms[..i], enterRadius)
      invariant closest.Some? ==> closest.value < i && ms[closest.value].dist == Some(closestDist)
      invariant lockedDist == if Truthy(locked) then LockedDistance(ms[..i], locked.value) else None
    {
      NearestSnoc(ms[..i], ms[i], enterRadius);
      assert ms[..i + 1] == ms[..i] + [ms[i]];
      if Truthy(locked) {
        LockedDistanceSnoc(ms[..i], ms[i], locked.value);
      }
      var m := ms[i];
      if m.dist.Some? {
        var dist := m.dist.value;
        if Truthy(locked) && m.place.id == locked.value {
          lockedDist := Some(dist);
        }
        if dist < enterRadius && (closest.None? || dist < closestDist) {
          closestDist := dist;
          closest := Some(i);
        }
      }
      i := i + 1;
    }
    assert ms[..i] == ms;
  }
}
