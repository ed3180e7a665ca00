/**
 * The player bar's rules (src/components/Player.tsx): skipping to the neighbouring channel of
 * the list, muting and restoring the volume, play/pause, and the favourite toggle.
 */
module Player {
  import opened Wrappers
  import opened Types
  import Utils
  import Seqs
  import Store
  import Channels
  import Favorites

  /** Whether a list row is the current channel: its url is truthy and ends with the channel's id. */
  predicate IsCurrentRow(ch: ChannelRef, channelId: string)
  {
    var url := Channels.ChannelUrl(ch);
    Truthy(url) && Utils.ExtractChannelId(url) == channelId
  }

  function RowMatcher(channelId: string): ChannelRef -> bool
  {
    (ch: ChannelRef) => IsCurrentRow(ch, channelId)
  }

  /**
   * The index skipped to: 0 when the current channel is not in the list, otherwise one step
   * in `direction` (1 or -1) with wrap-around.
   */
  function NextIndex(current: Option<nat>, direction: int, n: nat): (r: nat)
    requires n > 0 && (direction == 1 || direction == -1)
    requires current.Some? ==> current.value < n
    ensures r < n
    ensures current.None? ==> r == 0
  {
    if current.None? then 0 else (current.value + direction + n) % n
  }

  /** `%` on a value below three times the modulus is at most two subtractions. */
  lemma ModOnce(a: int, n: nat)
    requires n > 0 && 0 <= a < 3 * n
    ensures a % n == if a < n then a else if a < 2 * n then a - n else a - 2 * n
  {
  }

  /** Forward from the last row wraps to the first; back from the first wraps to the last. */
  lemma NextIndexWraps(n: nat)
    requires n > 0
    ensures NextIndex(Some(n - 1), 1, n) == 0
    ensures NextIndex(Some(0), -1, n) == n - 1
  {
    ModOnce(n - 1 + 1 + n, n);
    ModOnce(0 - 1 + n, n);
  }

  /** Inside the list a step moves by exactly one. */
  lemma NextIndexSteps(i: nat, n: nat)
    requires i < n
    ensures i + 1 < n ==> NextIndex(Some(i), 1, n) == i + 1
    ensures i > 0 ==> NextIndex(Some(i), -1, n) == i - 1
  {
    ModOnce(i + 1 + n, n);
    if i > 0 {
      ModOnce(i - 1 + n, n);
    }
  }

  /** A step forward and a step back return to the same row. */
  lemma NextIndexForwardBack(i: nat, n: nat)
    requires i < n
    ensures NextIndex(Some(NextIndex(Some(i), 1, n)), -1, n) == i
  {
    NextIndexSteps(i, n);
    if i + 1 < n {
      NextIndexSteps(i + 1, n);
    } else {
      NextIndexWraps(n);
    }
  }

  /**
   * The channel id `skipStation(direction)` requests: none without a current channel or rows,
   * or when the target row has no url or an empty id.
   */
  function SkipTarget(current: Option<Channel>, channels: seq<ChannelRef>, direction: int): (id: Option<string>)
    requires direction == 1 || direction == -1
    ensures current.None? || |channels| == 0 ==> id.None?
    ensures id.Some? ==> id.value != "" && '/' !in id.value
    ensures current.Some? && |channels| > 0 ==>
              id == Channels.PlayTarget(channels[NextIndex(Seqs.FindFirst(channels, RowMatcher(current.value.id)), direction, |channels|)])
  {
    if current.None? || |channels| == 0 then None
    else
      var k := Seqs.FindFirst(channels, RowMatcher(current.value.id));
      Channels.PlayTarget(channels[NextIndex(k, direction, |channels|)])
  }

  /** A current channel missing from the list skips to the first row, whichever the direction. */
  lemma SkipFromUnlistedGoesToFirst(current: Channel, channels: seq<ChannelRef>, direction: int)
    requires direction == 1 || direction == -1
    requires |channels| > 0
    requires forall i :: 0 <= i < |channels| ==> !IsCurrentRow(channels[i], current.id)
    ensures SkipTarget(Some(current), channels, direction) == Channels.PlayTarget(channels[0])
  {
    assert Seqs.FindFirst(channels, RowMatcher(current.id)).None?;
  }

  /** `toggleMute`'s result: the new volume and the new saved volume. */
  datatype MuteState = MuteState(volume: real, saved: real)

  /**
   * A positive volume is saved and muted; otherwise the saved volume is restored, or 0.8 when
   * the saved value is 0 (JavaScript's `||`).
   */
  function ToggleMuteStep(s: MuteState): (r: MuteState)
    ensures s.volume > 0.0 ==> r.volume == 0.0 && r.saved == s.volume
    ensures s.volume <= 0.0 ==> r.saved == s.saved && r.volume == (if s.saved != 0.0 then s.saved else 0.8)
  {
    if s.volume > 0.0 then MuteState(0.0, s.volume)
    else MuteState(if s.saved != 0.0 then s.saved else 0.8, s.saved)
  }

  /** Muting then unmuting restores the volume the user had. */
  lemma MuteThenRestore(s: MuteState)
    requires s.volume > 0.0
    ensures ToggleMuteStep(ToggleMuteStep(s)).volume == s.volume
  {
  }

  /** Unmuting always makes the stream audible again, since a saved volume of 0 is replaced by 0.8. */
  lemma UnmuteIsAudible(s: MuteState)
    requires s.volume <= 0.0 && s.saved >= 0.0
    ensures ToggleMuteStep(s).volume > 0.0
  {
  }

  /** `isFav`: the current channel is among the favourites. */
  predicate IsFav(current: Option<Channel>, favorites: seq<FavoriteStation>)
  {
    current.Some? && Favorites.Has(favorites, current.value.id)
  }

  /** The favourite record `toggleFavorite` stores for a channel. */
  function FavoriteOf(ch: Channel, now: int): (f: FavoriteStation)
    ensures f.channelId == ch.id && f.title == ch.title && f.addedAt == now
    ensures f.placeName == (if ch.place.Some? then ch.place.value.title else "")
    ensures f.country == (if ch.country.Some? then ch.country.value.title else "")
  {
    FavoriteStation(ch.id, ch.title,
      if ch.place.Some? then ch.place.value.title else "",
      if ch.country.Some? then ch.country.value.title else "",
      now)
  }

  /** The favourites after `toggleFavorite`: removed when it was a favourite, added otherwise. */
  function ToggledFavorites(current: Option<Channel>, favorites: seq<FavoriteStation>, now: int): seq<FavoriteStation>
  {
    if current.None? then favorites
    else if IsFav(current, favorites) then Favorites.Remove(favorites, current.value.id)
    else Favorites.Add(favorites, FavoriteOf(current.value, now))
  }

  /** Toggling flips whether the current channel is a favourite. */
  lemma ToggleFlipsFavorite(current: Channel, favorites: seq<FavoriteStation>, now: int)
    ensures IsFav(Some(current), ToggledFavorites(Some(current), favorites, now)) == !IsFav(Some(current), favorites)
  {
  }

  /** Toggling twice gives back the list, when the channel was a favourite only once, in front. */
  lemma ToggleTwiceRestoresAdded(current: Channel, favorites: seq<FavoriteStation>, now: int)
    requires !IsFav(Some(current), favorites)
    ensures ToggledFavorites(Some(current), ToggledFavorites(Some(current), favorites, now), now) == favorites
  {
    var added := Favorites.Add(favorites, FavoriteOf(current, now));
    assert added == [FavoriteOf(current, now)] + favorites;
    Favorites.RemoveConcat([FavoriteOf(current, now)], favorites, current.id);
    assert Favorites.Remove([FavoriteOf(current, now)], current.id) == [] by {
      assert Favorites.Has([FavoriteOf(current, now)], current.id);
      assert forall f :: f in Favorites.Remove([FavoriteOf(current, now)], current.id) ==> f.channelId != current.id;
    }
    assert [] + Favorites.Remove(favorites, current.id) == Favorites.Remove(favorites, current.id);
  }

  class PlayerBar {
    const store: Store.RadioStore
    var savedVolume: real

    constructor (store: Store.RadioStore)
      ensures this.store == store && savedVolume == 0.8
    {
      this.store := store;
      savedVolume := 0.8;
    }

    /** `togglePlay`: flips playing, only when a stream is set. */
    method TogglePlay()
      modifies store`isPlaying
      ensures Truthy(store.streamUrl) ==> store.isPlaying == !old(store.isPlaying)
      ensures !Truthy(store.streamUrl) ==> store.isPlaying == old(store.isPlaying)
    {
      if store.streamUrl.None? || store.streamUrl.value == "" {
        return;
      }
      store.SetIsPlaying(!store.isPlaying);
    }

    method ToggleMute()
      modifies this`savedVolume, store`volume
      ensures MuteState(store.volume, savedVolume) == ToggleMuteStep(MuteState(old(store.volume), old(savedVolume)))
    {
      if store.volume > 0.0 {
        savedVolume := store.volume;
        store.SetVolume(0.0);
      } else {
        store.SetVolume(if savedVolume != 0.0 then savedVolume else 0.8);
      }
    }

    /** `skipStation`'s decision: the channel id to request, read from the store. */
    method SkipStation(direction: int) returns (fetchChannel: Option<string>)
      requires direction == 1 || direction == -1
      ensures fetchChannel == SkipTarget(store.currentChannel, store.channels, direction)
    {
      var current := store.currentChannel;
      var channels := store.channels;
      if current.None? || |channels| == 0 {
        return None;
      }
      var index := Seqs.FindFirst(channels, RowMatcher(current.value.id));
      var next := NextIndex(index, direction, |channels|);
      return Channels.PlayTarget(channels[next]);
    }

    /** The skipped-to channel's response: played when it carries data, otherwise ignored. */
    method OnSkipResult(channelId: string, resp: Fetched<Option<Channel>>)
      modifies store`currentChannel, store`streamUrl, store`isPlaying
      ensures resp.Loaded? && resp.body.Some? ==>
                store.currentChannel == resp.body && store.streamUrl == Some(StreamUrl(channelId)) && store.isPlaying
      ensures !(resp.Loaded? && resp.body.Some?) ==>
                store.currentChannel == old(store.currentChannel) && store.streamUrl == old(store.streamUrl)
                && store.isPlaying == old(store.isPlaying)
    {
      if resp.Loaded? && resp.body.Some? {
        Channels.ApplyChannel(store, channelId, resp.body.value);
      }
    }

    /** `toggleFavorite` at time `now` (milliseconds). */
    method ToggleFavorite(now: int)
      modifies store`favorites
      ensures store.favorites == ToggledFavorites(store.currentChannel, old(store.favorites), now)
    {
      var current := store.currentChannel;
      if current.None? {
        return;
      }
      if store.IsFavorite(current.value.id) {
        store.RemoveFavorite(current.value.id);
      } else {
        store.AddFavorite(FavoriteOf(current.value, now));
      }
    }
  }
}
