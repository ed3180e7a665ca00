/**
 * The search panel (src/components/SearchPanel.tsx): the blank-query rule, the result getters,
 * dispatch by result type, and what selecting a channel, place or country does.
 */
module Search {
  import opened Wrappers
  import opened Types
  import Utils
  import Seqs
  import Text
  import Store
  import Channels
  import Browse

  /** `r._source.page?.url ?? r._source.url ?? ""`. */
  function ResultUrl(r: SearchResult): (u: string)
    ensures r.page.Some? && r.page.value.url.Some? ==> u == r.page.value.url.value
    ensures (r.page.None? || r.page.value.url.None?) ==> u == r.url.GetOr("")
  {
    if r.page.Some? && r.page.value.url.Some? then r.page.value.url.value else r.url.GetOr("")
  }

  /** `r._source.page?.title ?? r._source.title ?? "Unknown"`. */
  function ResultTitle(r: SearchResult): (t: string)
    ensures r.page.Some? && r.page.value.title.Some? ==> t == r.page.value.title.value
    ensures (r.page.None? || r.page.value.title.None?) ==> t == r.title.GetOr("Unknown")
  {
    if r.page.Some? && r.page.value.title.Some? then r.page.value.title.value else r.title.GetOr("Unknown")
  }

  /** `r._source.page?.subtitle ?? r._source.subtitle ?? ""`. */
  function ResultSubtitle(r: SearchResult): (t: string)
    ensures r.page.Some? && r.page.value.subtitle.Some? ==> t == r.page.value.subtitle.value
    ensures (r.page.None? || r.page.value.subtitle.None?) ==> t == r.subtitle.GetOr("")
  {
    if r.page.Some? && r.page.value.subtitle.Some? then r.page.value.subtitle.value else r.subtitle.GetOr("")
  }

  /** Which handler a click on a result runs. */
  datatype Handler = ChannelHandler | CountryHandler | PlaceHandler

  function HandlerOf(kind: string): (h: Handler)
    ensures h == ChannelHandler <==> kind == "channel"
    ensures h == CountryHandler <==> kind == "country"
    ensures h == PlaceHandler <==> kind != "channel" && kind != "country"
  {
    if kind == "channel" then ChannelHandler
    else if kind == "country" then CountryHandler
    else PlaceHandler
  }

  /** A query is blank when trimming JavaScript white space leaves nothing. */
  predicate Blank(q: string)
  {
    Text.Trim(q) == ""
  }

  /** Blank means white space only (or nothing). */
  lemma BlankMeansWhiteSpace(q: string)
    ensures Blank(q) <==> forall i :: 0 <= i < |q| ==> Text.IsSpace(q[i])
  {
    Text.BlankIffAllSpace(q);
  }

  // ---------------------------------------------------------------------------------------------
  // Place and country selection

  function IdMatcher(id: string): Place -> bool
  {
    (p: Place) => p.id == id
  }

  function TitleMatcher(title: string): Place -> bool
  {
    (p: Place) => Text.Lower(p.title) == Text.Lower(title)
  }

  /**
   * The place a place result selects: the first place whose id is the url's last segment;
   * failing that, the first place whose title matches the result's title ignoring case.
   */
  function PlaceForResult(places: seq<Place>, r: SearchResult): (k: Option<nat>)
    ensures var id := Utils.ExtractPlaceId(Some(ResultUrl(r)));
            (k.Some? ==> k.value < |places|)
            && ((exists j :: 0 <= j < |places| && places[j].id == id) ==>
                  k.Some? && places[k.value].id == id && forall j :: 0 <= j < k.value ==> places[j].id != id)
            && ((forall j :: 0 <= j < |places| ==> places[j].id != id) ==>
                  (k.Some? ==> Text.Lower(places[k.value].title) == Text.Lower(ResultTitle(r))
                               && forall j :: 0 <= j < k.value ==> Text.Lower(places[j].title) != Text.Lower(ResultTitle(r)))
                  && (k.None? <==> forall j :: 0 <= j < |places| ==> Text.Lower(places[j].title) != Text.Lower(ResultTitle(r))))
  {
    var id := Utils.ExtractPlaceId(Some(ResultUrl(r)));
    var byId := Seqs.FindFirst(places, IdMatcher(id));
    if byId.Some? then byId
    else
      assert forall j :: 0 <= j < |places| ==> !IdMatcher(id)(places[j]);
      Seqs.FindFirst(places, TitleMatcher(ResultTitle(r)))
  }

  /** A place of the result's country, ignoring case. */
  predicate InCountry(p: Place, title: string)
  {
    Text.Lower(p.country) == Text.Lower(title)
  }

  /**
   * `filter(country).sort(by size descending)[0]`: a largest place of the country; among equally
   * large ones the first in list order, which is what the stable sort puts first.
   */
  function LargestInCountry(places: seq<Place>, title: string): (k: Option<nat>)
    ensures k.None? <==> forall j :: 0 <= j < |places| ==> !InCountry(places[j], title)
    ensures k.Some? ==> k.value < |places| && InCountry(places[k.value], title)
    ensures k.Some? ==> forall j :: 0 <= j < |places| && InCountry(places[j], title) ==> places[j].size <= places[k.value].size
    ensures k.Some? ==> forall j :: 0 <= j < k.value && InCountry(places[j], title) ==> places[j].size < places[k.value].size
  {
    if |places| == 0 then None
    else
      var k := LargestInCountry(places[..|places| - 1], title);
      var last := places[|places| - 1];
      if InCountry(last, title) && (k.None? || last.size > places[k.value].size) then Some(|places| - 1)
      else k
  }

  function CountryMatcher(title: string): Place -> bool
  {
    (p: Place) => InCountry(p, title)
  }

  /**
   * `LargestInCountry` agrees with the source's expression: whatever order the size-descending
   * sort leaves the country's places in, its head is exactly as large as the pick, and there is
   * no head exactly when there is no pick.
   */
  lemma SortedHeadIsLargest(places: seq<Place>, title: string, sorted: seq<Place>)
    requires Browse.LargestFirst(sorted)
    requires multiset(sorted) == multiset(Seqs.Filter(places, CountryMatcher(title)))
    ensures LargestInCountry(places, title).None? <==> sorted == []
    ensures sorted != [] ==> sorted[0].size == places[LargestInCountry(places, title).value].size
  {
    var k := LargestInCountry(places, title);
    SameElements(sorted, Seqs.Filter(places, CountryMatcher(title)));
    if k.Some? {
      FromCountryIsKept(places, title, k.value);
      var i :| 0 <= i < |sorted| && sorted[i] == places[k.value];
      assert sorted[0].size >= sorted[i].size;
    }
    if sorted != [] {
      var j := KeptIsFromCountry(places, title, sorted[0]);
      assert places[j].size <= places[k.value].size;
    }
  }

  /** Two sequences with the same multiset have the same elements. */
  lemma SameElements(a: seq<Place>, b: seq<Place>)
    requires multiset(a) == multiset(b)
    ensures forall x :: x in a <==> x in b
  {
    forall x ensures x in a <==> x in b {
      assert x in a <==> x in multiset(a);
      assert x in b <==> x in multiset(b);
    }
  }

  /** A place of the country passes the country filter. */
  lemma FromCountryIsKept(places: seq<Place>, title: string, j: nat)
    requires j < |places| && InCountry(places[j], title)
    ensures places[j] in Seqs.Filter(places, CountryMatcher(title))
  {
    Seqs.FilterMembers(places, CountryMatcher(title));
  }

  /** Whatever passes the country filter is a place of the country, at some index. */
  lemma KeptIsFromCountry(places: seq<Place>, title: string, x: Place) returns (j: nat)
    requires x in Seqs.Filter(places, CountryMatcher(title))
    ensures j < |places| && places[j] == x && InCountry(x, title)
  {
    Seqs.FilterMembers(places, CountryMatcher(title));
    j :| 0 <= j < |places| && places[j] == x;
  }

  // ---------------------------------------------------------------------------------------------
  // The panel

  class SearchPanel {
    const store: Store.RadioStore
    var query: string
    var results: seq<SearchResult>
    var loading: bool

    constructor (store: Store.RadioStore)
      ensures this.store == store && query == "" && results == [] && !loading
    {
      this.store := store;
      query := "";
      results := [];
      loading := false;
    }

    /**
     * Typing: the query is stored and, once the typing pauses, searched.  A blank query clears
     * the results without a request; otherwise the request for `value` starts.
     */
    method Input(value: string) returns (request: Option<string>)
      modifies this`query, this`results, this`loading
      ensures query == value
      ensures Blank(value) ==> request.None? && results == [] && loading == old(loading)
      ensures !Blank(value) ==> request == Some(value) && loading && results == old(results)
    {
      query := value;
      if Text.Trim(value) == "" {
        results := [];
        return None;
      }
      loading := true;
      return Some(value);
    }

    /** The search response: its hits, or none when `hits` is missing or the request failed. */
    method OnResults(resp: Fetched<Option<seq<SearchResult>>>)
      modifies this`results, this`loading
      ensures !loading
      ensures results == if resp.Loaded? && resp.body.Some? then resp.body.value else []
    {
      if resp.Loaded? && resp.body.Some? {
        results := resp.body.value;
      } else {
        results := [];
      }
      loading := false;
    }

    /** Every selection ends by closing the panel and clearing the query and the results. */
    method Close()
      modifies this`query, this`results, store`searchOpen
      ensures !store.searchOpen && query == "" && results == []
    {
      store.SetSearchOpen(false);
      query := "";
      results := [];
    }

    /** Turns the globe to a place, selects it and opens the sidebar. */
    method ShowPlace(place: Place)
      modifies store`globeTarget, store`selectedPlace, store`sidebarOpen
      ensures store.globeTarget == Some(TargetOf(place)) && store.selectedPlace == Some(place) && store.sidebarOpen
    {
      store.SetGlobeTarget(Some(LatLng(place.geo.1, place.geo.0)));
      store.SetSelectedPlace(Some(place));
      store.SetSidebarOpen(true);
    }

    /** A place result: the place found by id, else by title, is shown; the panel closes either way. */
    method SelectPlace(r: SearchResult)
      modifies this`query, this`results, store`searchOpen, store`globeTarget, store`selectedPlace, store`sidebarOpen
      ensures !store.searchOpen && query == "" && results == []
      ensures var k := PlaceForResult(store.places, r);
              if k.Some?
              then store.globeTarget == Some(TargetOf(store.places[k.value])) && store.selectedPlace == Some(store.places[k.value])
                   && store.sidebarOpen
              else store.globeTarget == old(store.globeTarget) && store.selectedPlace == old(store.selectedPlace)
                   && store.sidebarOpen == old(store.sidebarOpen)
    {
      var k := PlaceForResult(store.places, r);
      if k.Some? {
        ShowPlace(store.places[k.value]);
      }
      Close();
    }

    /** A country result: its largest place is shown; the panel closes either way. */
    method SelectCountry(r: SearchResult)
      modifies this`query, this`results, store`searchOpen, store`globeTarget, store`selectedPlace, store`sidebarOpen
      ensures !store.searchOpen && query == "" && results == []
      ensures var k := LargestInCountry(store.places, ResultTitle(r));
              if k.Some?
              then store.globeTarget == Some(TargetOf(store.places[k.value])) && store.selectedPlace == Some(store.places[k.value])
                   && store.sidebarOpen
              else store.globeTarget == old(store.globeTarget) && store.selectedPlace == old(store.selectedPlace)
                   && store.sidebarOpen == old(store.sidebarOpen)
    {
      var k := LargestInCountry(store.places, ResultTitle(r));
      if k.Some? {
        ShowPlace(store.places[k.value]);
      }
      Close();
    }

    /**
     * A channel result: an empty id does nothing at all, the panel staying open; otherwise the
     * channel is requested (and the panel closes when the response is handled).
     */
    method SelectChannel(r: SearchResult) returns (fetchChannel: Option<string>)
      ensures var id := Utils.ExtractChannelId(Some(ResultUrl(r)));
              fetchChannel == if id == "" then None else Some(id)
    {
      var id := Utils.ExtractChannelId(Some(ResultUrl(r)));
      if id == "" {
        return None;
      }
      return Some(id);
    }

    /**
     * The channel's response: with data it plays and, when its place is loaded, that place is
     * shown; the panel closes whatever the response.
     */
    method OnChannelSelected(channelId: string, resp: Fetched<Option<Channel>>)
      modifies this`query, this`results, store`searchOpen, store`globeTarget, store`selectedPlace, store`sidebarOpen,
        store`currentChannel, store`streamUrl, store`isPlaying
      ensures !store.searchOpen && query == "" && results == []
      ensures resp.Loaded? && resp.body.Some? ==>
                store.currentChannel == resp.body && store.streamUrl == Some(StreamUrl(channelId)) && store.isPlaying
      ensures !(resp.Loaded? && resp.body.Some?) ==>
                store.currentChannel == old(store.currentChannel) && store.streamUrl == old(store.streamUrl)
                && store.isPlaying == old(store.isPlaying)
      ensures var k := if resp.Loaded? && resp.body.Some? && resp.body.value.place.Some?
                       then Seqs.FindFirst(store.places, IdMatcher(resp.body.value.place.value.id)) else None;
              if k.Some?
              then store.globeTarget == Some(TargetOf(store.places[k.value])) && store.selectedPlace == Some(store.places[k.value])
                   && store.sidebarOpen
              else store.globeTarget == old(store.globeTarget) && store.selectedPlace == old(store.selectedPlace)
                   && store.sidebarOpen == old(store.sidebarOpen)
    {
      if resp.Loaded? && resp.body.Some? {
        var ch := resp.body.value;
        Channels.ApplyChannel(store, channelId, ch);
        if ch.place.Some? {
          var k := Seqs.FindFirst(store.places, IdMatcher(ch.place.value.id));
          if k.Some? {
            ShowPlace(store.places[k.value]);
          }
        }
      }
      Close();
    }

    /**
     * A click on a result: dispatch on its type.  A country shows its largest place, any other
     * non-channel type the place found for it, and both close the panel; a channel result only
     * requests the channel.
     */
    method Select(r: SearchResult) returns (fetchChannel: Option<string>)
      modifies this`query, this`results, store`searchOpen, store`globeTarget, store`selectedPlace, store`sidebarOpen
      ensures HandlerOf(r.kind) != ChannelHandler ==>
                fetchChannel.None? && !store.searchOpen && query == "" && results == []
      ensures HandlerOf(r.kind) != ChannelHandler ==>
                var k := if HandlerOf(r.kind) == CountryHandler then LargestInCountry(store.places, ResultTitle(r))
                         else PlaceForResult(store.places, r);
                if k.Some?
                then store.globeTarget == Some(TargetOf(store.places[k.value])) && store.selectedPlace == Some(store.places[k.value])
                     && store.sidebarOpen
                else store.globeTarget == old(store.globeTarget) && store.selectedPlace == old(store.selectedPlace)
                     && store.sidebarOpen == old(store.sidebarOpen)
      ensures HandlerOf(r.kind) == ChannelHandler ==>
                fetchChannel == (var id := Utils.ExtractChannelId(Some(ResultUrl(r))); if id == "" then None else Some(id))
                && store.searchOpen == old(store.searchOpen) && query == old(query) && results == old(results)
                && store.globeTarget == old(store.globeTarget) && store.selectedPlace == old(store.selectedPlace)
                && store.sidebarOpen == old(store.sidebarOpen)
    {
      match HandlerOf(r.kind)
      case ChannelHandler =>
        fetchChannel := SelectChannel(r);
      case CountryHandler =>
        SelectCountry(r);
        fetchChannel := None;
      case PlaceHandler =>
        SelectPlace(r);
        fetchChannel := None;
    }
  }
}
