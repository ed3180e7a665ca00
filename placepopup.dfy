/**
 * The place popup (src/components/PlacePopup.tsx): the first five listed channels of the
 * popup's place, its on-screen position, and playing a station from it.
 */
module PlacePopup {
  import opened Wrappers
  import opened Types
  import Utils
  import Seqs
  import Store
  import Channels

  const MAX_STATIONS: nat := 5
  const HALF_WIDTH: real := 160.0
  const TOP_MARGIN: real := 20.0
  const BOTTOM_MARGIN: real := 200.0

  /** `items.slice(0, n)`. */
  function Take<T>(s: seq<T>, n: nat): (r: seq<T>)
    ensures |r| == if |s| < n then |s| else n
    ensures r == s[..|r|]
  {
    if |s| <= n then s else s[..n]
  }

  /** The stations the popup lists for a channel list: the first five listed items. */
  function PopupStations(content: seq<ChannelGroup>): (r: seq<ChannelRef>)
    ensures var n := |Seqs.Filter(Channels.AllItems(content), Channels.Listed)|;
            |r| == if n < MAX_STATIONS then n else MAX_STATIONS
    ensures forall ch :: ch in r ==> ch in Channels.AllItems(content) && Channels.Listed(ch)
    ensures r == Seqs.Filter(Channels.AllItems(content), Channels.Listed)[..|r|]
  {
    var all := Seqs.Filter(Channels.AllItems(content), Channels.Listed);
    Seqs.FilterMembers(Channels.AllItems(content), Channels.Listed);
    var r := Take(all, MAX_STATIONS);
    assert forall ch :: ch in r ==> ch in all;
    r
  }

  /** With five or fewer listed items, the popup shows them all: the cap only cuts longer lists. */
  lemma ShortListsAreWhole(content: seq<ChannelGroup>)
    requires |Seqs.Filter(Channels.AllItems(content), Channels.Listed)| <= MAX_STATIONS
    ensures PopupStations(content) == Seqs.Filter(Channels.AllItems(content), Channels.Listed)
  {
  }

  /** The point the popup is drawn at: kept 160 px from the side edges and 20 / 200 px from top / bottom. */
  function PopupPosition(screen: Point, innerWidth: real, innerHeight: real): (p: Point)
    ensures innerWidth >= 2.0 * HALF_WIDTH ==> HALF_WIDTH <= p.x <= innerWidth - HALF_WIDTH
    ensures innerHeight >= TOP_MARGIN + BOTTOM_MARGIN ==> TOP_MARGIN <= p.y <= innerHeight - BOTTOM_MARGIN
    ensures HALF_WIDTH <= screen.x <= innerWidth - HALF_WIDTH ==> p.x == screen.x
    ensures TOP_MARGIN <= screen.y <= innerHeight - BOTTOM_MARGIN ==> p.y == screen.y
  {
    Point(Utils.Min(Utils.Max(screen.x, HALF_WIDTH), innerWidth - HALF_WIDTH),
          Utils.Min(Utils.Max(screen.y, TOP_MARGIN), innerHeight - BOTTOM_MARGIN))
  }

  /** The popup position agrees with `clamp` of src/lib/utils.ts on each axis. */
  lemma PopupPositionIsClamp(screen: Point, innerWidth: real, innerHeight: real)
    ensures PopupPosition(screen, innerWidth, innerHeight)
            == Point(Utils.Clamp(screen.x, HALF_WIDTH, innerWidth - HALF_WIDTH),
                     Utils.Clamp(screen.y, TOP_MARGIN, innerHeight - BOTTOM_MARGIN))
  {
  }

  /** Where the popup is drawn: nowhere unless both a place and an anchor are set. */
  function Rendered(place: Option<Place>, screen: Option<Point>, innerWidth: real, innerHeight: real): (r: Option<Point>)
    ensures r.Some? <==> place.Some? && screen.Some?
    ensures r.Some? ==> r.value == PopupPosition(screen.value, innerWidth, innerHeight)
  {
    if place.None? || screen.None? then None
    else Some(PopupPosition(screen.value, innerWidth, innerHeight))
  }

  class PlacePopupView {
    const store: Store.RadioStore
    var channels: seq<ChannelRef>
    var loading: bool

    constructor (store: Store.RadioStore)
      ensures this.store == store && channels == [] && !loading
    {
      this.store := store;
      channels := [];
      loading := false;
    }

    /** The popup's place changed: no place empties the list, a place starts loading its channels. */
    method PopupPlaceChanged() returns (fetchPlace: Option<string>)
      modifies this`channels, this`loading
      ensures store.popupPlace.None? ==> fetchPlace.None? && channels == [] && loading == old(loading)
      ensures store.popupPlace.Some? ==>
                fetchPlace == Some(store.popupPlace.value.id) && loading && channels == old(channels)
    {
      if store.popupPlace.None? {
        channels := [];
        return None;
      }
      loading := true;
      return Some(store.popupPlace.value.id);
    }

    /**
     * The channel list arrived: an array `content` gives the first five listed items; a failure
     * empties the list; anything else keeps it.  Loading ends in every case.
     */
    method OnChannels(resp: Fetched<Option<seq<ChannelGroup>>>)
      modifies this`channels, this`loading
      ensures !loading
      ensures resp.Loaded? && resp.body.Some? ==> channels == PopupStations(resp.body.value)
      ensures resp.Failed? ==> channels == []
      ensures resp.Loaded? && resp.body.None? ==> channels == old(channels)
    {
      if resp.Failed? {
        channels := [];
      } else if resp.body.Some? {
        var items := Channels.CollectChannels(resp.body.value);
        channels := Take(items, MAX_STATIONS);
      }
      loading := false;
    }

    /** A click outside the popup closes it. */
    method OutsideClick()
      modifies store`popupPlace, store`popupScreen
      ensures store.popupPlace.None? && store.popupScreen.None?
    {
      store.SetPopupPlace(None);
    }

    /** `playStation`: the same guards as the sidebar's rows. */
    method PlayStation(ch: ChannelRef) returns (fetchChannel: Option<string>)
      modifies store`userHasInteracted
      ensures fetchChannel == Channels.PlayTarget(ch)
      ensures fetchChannel.None? ==> store.userHasInteracted == old(store.userHasInteracted)
      ensures fetchChannel.Some? ==> store.userHasInteracted
    {
      fetchChannel := Channels.PlayTarget(ch);
      if fetchChannel.Some? {
        store.SetUserHasInteracted(true);
      }
    }

    /** The station's response: with data it plays and the popup closes; otherwise nothing changes. */
    method OnPlayResult(channelId: string, resp: Fetched<Option<Channel>>)
      modifies store`currentChannel, store`streamUrl, store`isPlaying, store`popupPlace, store`popupScreen
      ensures resp.Loaded? && resp.body.Some? ==>
                store.currentChannel == resp.body && store.streamUrl == Some(StreamUrl(channelId)) && store.isPlaying
                && store.popupPlace.None? && store.popupScreen.None?
      ensures !(resp.Loaded? && resp.body.Some?) ==>
                store.currentChannel == old(store.currentChannel) && store.streamUrl == old(store.streamUrl)
                && store.isPlaying == old(store.isPlaying)
                && store.popupPlace == old(store.popupPlace) && store.popupScreen == old(store.popupScreen)
    {
      if resp.Loaded? && resp.body.Some? {
        Channels.ApplyChannel(store, channelId, resp.body.value);
        store.SetPopupPlace(None);
      }
    }
  }
}
