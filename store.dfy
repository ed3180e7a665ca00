/** The application store of src/lib/store.ts: one object whose fields the setters overwrite. */
module Store {
  import opened Wrappers
  import opened Types
  import Favorites

  /** The view mode `toggleViewMode` switches to. */
  function Toggled(m: ViewMode): (r: ViewMode)
    ensures r != m
  {
    match m
    case GlobeMode => FlatMode
    case FlatMode => GlobeMode
  }

  /** Toggling twice returns to the starting mode. */
  lemma ToggleTwice(m: ViewMode)
    ensures Toggled(Toggled(m)) == m
  {
  }

  class RadioStore {
    var places: seq<Place>
    var placesLoading: bool
    var selectedPlace: Option<Place>
    var popupPlace: Option<Place>
    var popupScreen: Option<Point>
    var channels: seq<ChannelRef>
    var channelsLoading: bool
    var currentChannel: Option<Channel>
    var streamUrl: Option<string>
    var isPlaying: bool
    var volume: real
    var globeTarget: Option<LatLng>
    var searchOpen: bool
    var sidebarOpen: bool
    var activeTab: NavTab
    var settingsOpen: bool
    var userHasInteracted: bool
    var stationLocked: bool
    var viewMode: ViewMode
    var crosshairLocked: bool
    var crosshairLoading: bool
    var crosshairPlaceId: Option<string>
    var favorites: seq<FavoriteStation>

    /** The store's channel ids stay unique under add and remove. */
    predicate FavoritesUnique()
      reads this`favorites
    {
      Favorites.UniqueIds(favorites)
    }

    /** `isFavorite(channelId)`. */
    function IsFavorite(channelId: string): (b: bool)
      reads this`favorites
      ensures b <==> exists f :: f in favorites && f.channelId == channelId
    {
      assert forall f :: f in favorites ==> exists i :: 0 <= i < |favorites| && favorites[i] == f;
      Favorites.Has(favorites, channelId)
    }

    /** The initial state: places still loading, volume 0.8, the explore tab, the globe view. */
    constructor ()
      ensures places == [] && placesLoading
      ensures selectedPlace.None? && popupPlace.None? && popupScreen.None?
      ensures channels == [] && !channelsLoading
      ensures currentChannel.None? && streamUrl.None? && !isPlaying && volume == 0.8
      ensures globeTarget.None? && !searchOpen && !sidebarOpen && activeTab == Explore && !settingsOpen
      ensures !userHasInteracted && !stationLocked && viewMode == GlobeMode
      ensures !crosshairLocked && !crosshairLoading && crosshairPlaceId.None?
      ensures favorites == []
      ensures FavoritesUnique()
    {
      places := [];
      placesLoading := true;
      selectedPlace := None;
      popupPlace := None;
      popupScreen := None;
      channels := [];
      channelsLoading := false;
      currentChannel := None;
      streamUrl := None;
      isPlaying := false;
      volume := 0.8;
      globeTarget := None;
      searchOpen := false;
      sidebarOpen := false;
      activeTab := Explore;
      settingsOpen := false;
      userHasInteracted := false;
      stationLocked := false;
      viewMode := GlobeMode;
      crosshairLocked := false;
      crosshairLoading := false;
      crosshairPlaceId := None;
      favorites := [];
    }

    method SetPlaces(ps: seq<Place>)
      modifies this`places
      ensures places == ps
    {
      places := ps;
    }

    method SetPlacesLoading(v: bool)
      modifies this`placesLoading
      ensures placesLoading == v
    {
      placesLoading := v;
    }

    method SetSelectedPlace(p: Option<Place>)
      modifies this`selectedPlace
      ensures selectedPlace == p
    {
      selectedPlace := p;
    }

    /** `setPopupPlace(place, screen = null)`: the anchor is cleared when none is passed. */
    method SetPopupPlace(place: Option<Place>, screen: Option<Point> := None)
      modifies this`popupPlace, this`popupScreen
      ensures popupPlace == place && popupScreen == screen
    {
      popupPlace := place;
      popupScreen := screen;
    }

    method SetChannels(cs: seq<ChannelRef>)
      modifies this`channels
      ensures channels == cs
    {
      channels := cs;
    }

    method SetChannelsLoading(v: bool)
      modifies this`channelsLoading
      ensures channelsLoading == v
    {
      channelsLoading := v;
    }

    method SetCurrentChannel(c: Option<Channel>)
      modifies this`currentChannel
      ensures currentChannel == c
    {
      currentChannel := c;
    }

    method SetStreamUrl(u: Option<string>)
      modifies this`streamUrl
      ensures streamUrl == u
    {
      streamUrl := u;
    }

    method SetIsPlaying(v: bool)
      modifies this`isPlaying
      ensures isPlaying == v
    {
      isPlaying := v;
    }

    /** `setVolume`: stored as given, with no range check. */
    method SetVolume(v: real)
      modifies this`volume
      ensures volume == v
    {
      volume := v;
    }

    method SetGlobeTarget(t: Option<LatLng>)
      modifies this`globeTarget
      ensures globeTarget == t
    {
      globeTarget := t;
    }

    method SetSearchOpen(v: bool)
      modifies this`searchOpen
      ensures searchOpen == v
    {
      searchOpen := v;
    }

    method SetSidebarOpen(v: bool)
      modifies this`sidebarOpen
      ensures sidebarOpen == v
    {
      sidebarOpen := v;
    }

    /** `setActiveTab`: switching tabs also closes search, the sidebar and the popup. */
    method SetActiveTab(tab: NavTab)
      modifies this`activeTab, this`searchOpen, this`sidebarOpen, this`popupPlace, this`popupScreen
      ensures activeTab == tab
      ensures !searchOpen && !sidebarOpen && popupPlace.None? && popupScreen.None?
    {
      activeTab := tab;
      searchOpen := false;
      sidebarOpen := false;
      popupPlace := None;
      popupScreen := None;
    }

    method SetSettingsOpen(v: bool)
      modifies this`settingsOpen
      ensures settingsOpen == v
    {
      settingsOpen := v;
    }

    /** `closeAllPanels`: every panel closed and the explore tab selected; settings too. */
    method CloseAllPanels()
      modifies this`searchOpen, this`sidebarOpen, this`settingsOpen, this`popupPlace, this`popupScreen, this`activeTab
      ensures !searchOpen && !sidebarOpen && !settingsOpen
      ensures popupPlace.None? && popupScreen.None? && activeTab == Explore
    {
      searchOpen := false;
      sidebarOpen := false;
      settingsOpen := false;
      popupPlace := None;
      popupScreen := None;
      activeTab := Explore;
    }

    method SetUserHasInteracted(v: bool)
      modifies this`userHasInteracted
      ensures userHasInteracted == v
    {
      userHasInteracted := v;
    }

    method SetStationLocked(v: bool)
      modifies this`stationLocked
      ensures stationLocked == v
    {
      stationLocked := v;
    }

    method SetViewMode(m: ViewMode)
      modifies this`viewMode
      ensures viewMode == m
    {
      viewMode := m;
    }

    /** `toggleViewMode`: globe becomes flat and flat becomes globe. */
    method ToggleViewMode()
      modifies this`viewMode
      ensures viewMode == Toggled(old(viewMode))
      ensures viewMode != old(viewMode)
    {
      viewMode := Toggled(viewMode);
    }

    /** `setCrosshairLocked(locked, placeId = null)`: the id is cleared when none is passed. */
    method SetCrosshairLocked(locked: bool, placeId: Option<string> := None)
      modifies this`crosshairLocked, this`crosshairPlaceId
      ensures crosshairLocked == locked && crosshairPlaceId == placeId
    {
      crosshairLocked := locked;
      crosshairPlaceId := placeId;
    }

    method SetCrosshairLoading(v: bool)
      modifies this`crosshairLoading
      ensures crosshairLoading == v
    {
      crosshairLoading := v;
    }

    /** `addFavorite`: a station already present (by channel id) is not added again; else it goes first. */
    method AddFavorite(station: FavoriteStation)
      modifies this`favorites
      ensures favorites == Favorites.Add(old(favorites), station)
      ensures IsFavorite(station.channelId)
      ensures old(FavoritesUnique()) ==> FavoritesUnique()
    {
      if FavoritesUnique() {
        Favorites.AddKeepsUnique(favorites, station);
      }
      favorites := Favorites.Add(favorites, station);
    }

    /** `removeFavorite`: every entry with the channel id dropped, the others kept in order. */
    method RemoveFavorite(channelId: string)
      modifies this`favorites
      ensures favorites == Favorites.Remove(old(favorites), channelId)
      ensures !IsFavorite(channelId)
      ensures old(FavoritesUnique()) ==> FavoritesUnique()
    {
      if FavoritesUnique() {
        Favorites.RemoveKeepsUnique(favorites, channelId);
      }
      favorites := Favorites.Remove(favorites, channelId);
    }

    /**
     * `initFavorites`: the list read back from browser storage; `stored` is `None` when there is
     * nothing stored, the stored text does not parse, or there is no browser.
     */
    method InitFavorites(stored: Option<seq<FavoriteStation>>)
      modifies this`favorites
      ensures favorites == (if stored.Some? then stored.value else [])
    {
      favorites := if stored.Some? then stored.value else [];
    }
  }
}
