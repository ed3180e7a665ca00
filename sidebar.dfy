/**
 * The place sidebar (src/components/Sidebar.tsx): loading a place's channel list into the
 * store, the rows it shows, playing a row and a row's favourite button.
 */
module Sidebar {
  import opened Wrappers
  import opened Types
  import Utils
  import Seqs
  import Store
  import Channels
  import Favorites
  import Player

  /** A row is shown when its url is truthy. */
  predicate Shown(ch: ChannelRef)
  {
    Truthy(Channels.ChannelUrl(ch))
  }

  /** A shown row is active when the current channel's id is the id its url ends with. */
  predicate IsActive(current: Option<Channel>, ch: ChannelRef)
  {
    Shown(ch) && current.Some? && current.value.id == Utils.ExtractChannelId(Channels.ChannelUrl(ch))
  }

  /** The row the sidebar highlights is the row the player's skip buttons start from. */
  lemma ActiveRowIsSkipOrigin(current: Channel, channels: seq<ChannelRef>, i: nat)
    requires i < |channels| && IsActive(Some(current), channels[i])
    requires forall j :: 0 <= j < i ==> !IsActive(Some(current), channels[j])
    ensures Seqs.FindFirst(channels, Player.RowMatcher(current.id)) == Some(i)
  {
    var p := Player.RowMatcher(current.id);
    var r := Seqs.FindFirst(channels, p);
    MatcherIsActive(current, channels[i]);
    assert r.Some? && r.value <= i;
    MatcherIsActive(current, channels[r.value]);
  }

  /** The player's row test and the sidebar's highlight agree on every row. */
  lemma MatcherIsActive(current: Channel, ch: ChannelRef)
    ensures Player.RowMatcher(current.id)(ch) == IsActive(Some(current), ch)
  {
  }

  /** The favourite a row's heart stores: the row's title and the sidebar place's names. */
  function RowFavorite(ch: ChannelRef, place: Option<Place>, now: int): (f: FavoriteStation)
    ensures f.channelId == Utils.ExtractChannelId(Channels.ChannelUrl(ch))
    ensures f.title == Channels.ChannelTitle(ch, "Unknown station")
    ensures f.placeName == (if place.Some? then place.value.title else "")
    ensures f.country == (if place.Some? then place.value.country else "")
  {
    FavoriteStation(
      Utils.ExtractChannelId(Channels.ChannelUrl(ch)),
      Channels.ChannelTitle(ch, "Unknown station"),
      if place.Some? then place.value.title else "",
      if place.Some? then place.value.country else "",
      now)
  }

  class SidebarPanel {
    const store: Store.RadioStore

    constructor (store: Store.RadioStore)
      ensures this.store == store
    {
      this.store := store;
    }

    /**
     * A place was selected: the list is emptied and marked loading, and the place's channels
     * are requested; with no place selected nothing happens.
     */
    method StartFetch() returns (fetchPlace: Option<string>)
      modifies store`channels, store`channelsLoading
      ensures store.selectedPlace.None? ==>
                fetchPlace.None? && store.channels == old(store.channels) && store.channelsLoading == old(store.channelsLoading)
      ensures store.selectedPlace.Some? ==>
                fetchPlace == Some(store.selectedPlace.value.id) && store.channels == [] && store.channelsLoading
    {
      if store.selectedPlace.None? {
        return None;
      }
      store.SetChannelsLoading(true);
      store.SetChannels([]);
      return Some(store.selectedPlace.value.id);
    }

    /**
     * The channel list arrived: an array `content` becomes the merged list; a failure empties
     * it; anything else leaves it as it was.  Loading ends in every case.
     */
    method OnChannels(resp: Fetched<Option<seq<ChannelGroup>>>)
      modifies store`channels, store`channelsLoading
      ensures !store.channelsLoading
      ensures resp.Loaded? && resp.body.Some? ==>
                store.channels == Seqs.Filter(Channels.AllItems(resp.body.value), Channels.Listed)
      ensures resp.Failed? ==> store.channels == []
      ensures resp.Loaded? && resp.body.None? ==> store.channels == old(store.channels)
    {
      if resp.Failed? {
        store.SetChannels([]);
      } else if resp.body.Some? {
        var items := Channels.CollectChannels(resp.body.value);
        store.SetChannels(items);
      }
      store.SetChannelsLoading(false);
    }

    /**
     * `playChannel`: a row without a url or with an empty id does nothing; otherwise the user
     * counts as having interacted and the channel is requested.
     */
    method PlayChannel(ch: ChannelRef) returns (fetchChannel: Option<string>)
      modifies store`userHasInteracted
      ensures fetchChannel == Channels.PlayTarget(ch)
      ensures fetchChannel.None? ==> store.userHasInteracted == old(store.userHasInteracted)
      ensures fetchChannel.Some? ==> store.userHasInteracted
    {
      var url := Channels.ChannelUrl(ch);
      if !Truthy(url) {
        return None;
      }
      var channelId := Utils.ExtractChannelId(url);
      if channelId == "" {
        return None;
      }
      store.SetUserHasInteracted(true);
      return Some(channelId);
    }

    /** The played channel's response: applied when it carries data. */
    method OnPlayResult(channelId: string, resp: Fetched<Option<Channel>>)
      modifies store`currentChannel, store`streamUrl, store`isPlaying
      ensures resp.Loaded? && resp.body.Some? ==>
                store.currentChannel == resp.body && store.streamUrl == Some(StreamUrl(channelId)) && store.isPlaying
      ensures !(resp.Loaded? && resp.body.Some?) ==>
                store.currentChannel == old(store.currentChannel) && store.streamUrl == old(store.streamUrl)
                && store.isPlaying == old(store.isPlaying)
    {
      if resp.Loaded? && resp.body.Some? {
        Channels.ApplyChannel(store, channelId, resp.body.value);
      }
    }

    /** A row's heart: removes the row's id from the favourites, or adds the row. */
    method ToggleRowFavorite(ch: ChannelRef, now: int)
      modifies store`favorites
      ensures var id := Utils.ExtractChannelId(Channels.ChannelUrl(ch));
              if Favorites.Has(old(store.favorites), id)
              then store.favorites == Favorites.Remove(old(store.favorites), id) && !store.IsFavorite(id)
              else store.favorites == Favorites.Add(old(store.favorites), RowFavorite(ch, store.selectedPlace, now))
                   && store.IsFavorite(id)
    {
      var id := Utils.ExtractChannelId(Channels.ChannelUrl(ch));
      if Favorites.Has(store.favorites, id) {
        store.RemoveFavorite(id);
      } else {
        var f := RowFavorite(ch, store.selectedPlace, now);
        assert f.channelId == id;
        store.AddFavorite(f);
      }
    }
  }
}
