# Ritmo client core in Dafny

Ritmo is a web radio explorer. Listening places are drawn on a 3D globe or a flat map, and the
user tunes in by moving a place under the crosshair, tapping a marker, or picking a channel from
the sidebar, the place popup, the search panel or the browse panel. This project models the
client logic behind those interactions and proves what the code promises about them:

- the identifier helpers and `clamp` (`Utils`), and the JavaScript string operations they use:
  `split`, `trim`, `toLowerCase` and `includes` (`Text`);
- the application store (`Store.RadioStore`): one object whose setters overwrite fields, plus the
  favourites list transforms (`Favorites`);
- channel lists (`Channels`): the url, title and subtitle getters; the merge of every channel
  group into one list of listed items; and the play target of a row;
- the crosshair lock shared by both views (`Locator`, `Tuning`):
  - nearest marker within a radius, earliest on ties;
  - the sticky lock with separate enter and exit radii;
  - the first group whose first item has a url supplies the channel;
- the globe (`Globe`):
  - the throttled crosshair detector as a pure state machine and as a class with the source's refs;
  - the tap test;
  - the locate button's nearest place;
  - the camera zoom clamp and the overlay states;
- the flat map (`FlatMap`): the equirectangular projection and its inverse, crosshair check and
  tap selection on computed screen positions, drag, wheel and pinch zoom, and tap recentring;
- the player bar (`Player`): the wrapping skip index, mute/restore, and the favourite toggle;
- the sidebar, the place popup, the search panel and the browse panel (`Sidebar`, `PlacePopup`,
  `Search`, `Browse`).

Network requests become explicit events. A handler that starts a request returns the id it would
fetch, and its completion is a separate method taking the response as a `Fetched` value:
`Loaded(body)`, where an absent `data` field is `None`, or `Failed`. The screen distance of each
globe marker is an input: `None` when the marker is culled, `Some(d)` otherwise.

Two behaviours of the code are kept as written:

- Globe crosshair guard. The channel result is applied only while `playingFromCrosshairRef` is
  true (src/components/Globe.tsx:399), but that flag is a boolean: a release clears it
  (Globe.tsx:371) and every acquisition sets it again (Globe.tsx:383), whichever place it was
  raised for. A result requested for one place that arrives after a release and a re-lock on
  another place is therefore still applied. `Globe.StaleResultAfterRelock` exhibits this.
- Empty channel id. When a place's first usable url has an empty last segment, the globe and flat
  map handlers return without clearing the loading flag.

## Model

| member | source | states |
|---|---|---|
| Utils.Split | src/lib/utils.ts:24 | `split` always yields at least one part |
| Utils.SplitPartsOmitSep | src/lib/utils.ts:24-25 | no part of a split contains the separator |
| Utils.SplitWithoutSep | src/lib/utils.ts:24-25 | a string without the separator splits into itself alone |
| Utils.SplitAround | src/lib/utils.ts:24 | splitting `a + sep + b` yields the parts of `a` followed by those of `b` |
| Utils.LastSlashExists | src/lib/utils.ts:24-25 | a string containing `/` has a last `/` with none after it |
| Utils.LastSegmentAfterSlash | src/lib/utils.ts:24-25 | for any prefix and any id without `/`, the last segment of `prefix/id` is `id` |
| Utils.LastSegmentAfterTrailingSlash | src/lib/utils.ts:24-25 | a trailing `/` yields the empty segment |
| Utils.LastSegmentIsFinalSuffix | src/lib/utils.ts:24-25 | the last segment is the suffix after the last `/`, or the whole string when there is none |
| Utils.ExtractChannelId | src/lib/utils.ts:22-26 | never contains `/`; is `""` for a missing or empty href; returns an href without `/` unchanged; is a suffix of the href |
| Utils.ExtractPlaceId | src/lib/utils.ts:31-35 | never contains `/`; is `""` for a missing or empty url |
| Utils.PlaceIdAgreesWithChannelId | src/lib/utils.ts:22-35 | `extractPlaceId` and `extractChannelId` agree on every input |
| Utils.DocumentedExample | src/lib/utils.ts:20-26 | `/listen/kutx-98-9/vbFsCngB` yields `vbFsCngB` |
| Utils.Clamp | src/lib/utils.ts:54-56 | in `[lo, hi]` when `lo <= hi`; the value itself when already in range; `lo` below and `hi` above |
| Utils.ClampIdempotent | src/lib/utils.ts:54-56 | clamping twice equals clamping once |
| Text.TrimStart | src/components/SearchPanel.tsx:32 | the result is a suffix of the input, does not start with white space, and only white space was removed |
| Text.TrimEnd | src/components/SearchPanel.tsx:32 | the result is a prefix of the input, does not end with white space, and only white space was removed |
| Text.BlankIffAllSpace | src/components/SearchPanel.tsx:32 | `trim()` is empty exactly when every character is white space |
| Text.LowerChar | src/components/SearchPanel.tsx:119-120 | the result is never an ASCII capital, and lower-case letters are kept |
| Text.Lower | src/components/SearchPanel.tsx:119-120 | keeps the length and leaves no ASCII capital |
| Text.LowerIdempotent | src/components/SearchPanel.tsx:119-120 | lower-casing twice equals lower-casing once |
| Seqs.FindFirst | src/components/SearchPanel.tsx:115 | `find`/`findIndex`: the first index satisfying the test, none exactly when no element does |
| Seqs.Filter | src/lib/store.ts:202 | `filter`: never longer than its input |
| Seqs.FilterMembers | src/lib/store.ts:202 | `filter` keeps an element exactly when it is in the input and passes the test |
| Seqs.FilterConcat | src/lib/store.ts:202 | filtering distributes over concatenation, so relative order is kept |
| Seqs.FilterAllPass | src/lib/store.ts:202 | a list whose elements all pass is returned unchanged |
| Favorites.Add | src/lib/store.ts:194-200 | an already present channel id leaves the list unchanged; otherwise the station is prepended at index 0, the rest in order; the id is a favourite afterwards |
| Favorites.Remove | src/lib/store.ts:201-205 | every entry with the id is removed and exactly the others are kept; the id is no favourite afterwards; a list without it is unchanged |
| Favorites.RemoveConcat | src/lib/store.ts:202 | removal keeps the other entries in their order |
| Favorites.AddKeepsUnique | src/lib/store.ts:194-200 | unique channel ids stay unique after an add |
| Favorites.RemoveKeepsUnique | src/lib/store.ts:201-205 | unique channel ids stay unique after a remove |
| Store.Toggled | src/lib/store.ts:182 | the toggled view mode differs from the given one |
| Store.ToggleTwice | src/lib/store.ts:182 | toggling the view mode twice is the identity |
| Store.RadioStore.IsFavorite | src/lib/store.ts:206-208 | true exactly when some favourite has the channel id |
| Store.RadioStore.constructor | src/lib/store.ts:117-193 | the initial state: places loading, volume 0.8, explore tab, globe view, every flag false (user interaction, station lock, crosshair lock among them), everything else empty |
| Store.RadioStore.SetPlaces | src/lib/store.ts:120 | sets `places` and nothing else |
| Store.RadioStore.SetPlacesLoading | src/lib/store.ts:121 | sets `placesLoading` and nothing else |
| Store.RadioStore.SetSelectedPlace | src/lib/store.ts:124 | sets `selectedPlace` and nothing else |
| Store.RadioStore.SetPopupPlace | src/lib/store.ts:128 | sets the popup place; the screen point defaults to none |
| Store.RadioStore.SetChannels | src/lib/store.ts:132 | sets `channels` and nothing else |
| Store.RadioStore.SetChannelsLoading | src/lib/store.ts:133 | sets `channelsLoading` and nothing else |
| Store.RadioStore.SetCurrentChannel | src/lib/store.ts:139 | sets `currentChannel` and nothing else |
| Store.RadioStore.SetStreamUrl | src/lib/store.ts:140 | sets `streamUrl` and nothing else |
| Store.RadioStore.SetIsPlaying | src/lib/store.ts:141 | sets `isPlaying` and nothing else |
| Store.RadioStore.SetVolume | src/lib/store.ts:142 | sets `volume` and nothing else |
| Store.RadioStore.SetGlobeTarget | src/lib/store.ts:145 | sets `globeTarget` and nothing else |
| Store.RadioStore.SetSearchOpen | src/lib/store.ts:148 | sets `searchOpen` and nothing else |
| Store.RadioStore.SetSidebarOpen | src/lib/store.ts:151 | sets `sidebarOpen` and nothing else |
| Store.RadioStore.SetActiveTab | src/lib/store.ts:154-163 | sets the tab and closes search, sidebar and popup; the settings panel is untouched |
| Store.RadioStore.SetSettingsOpen | src/lib/store.ts:166 | sets `settingsOpen` and nothing else |
| Store.RadioStore.CloseAllPanels | src/lib/store.ts:184-191 | closes search, sidebar, settings and popup and returns to explore |
| Store.RadioStore.SetUserHasInteracted | src/lib/store.ts:169 | sets `userHasInteracted` and nothing else |
| Store.RadioStore.SetStationLocked | src/lib/store.ts:172 | sets `stationLocked` and nothing else |
| Store.RadioStore.SetViewMode | src/lib/store.ts:181 | sets `viewMode` and nothing else |
| Store.RadioStore.ToggleViewMode | src/lib/store.ts:182 | switches globe and flat |
| Store.RadioStore.SetCrosshairLocked | src/lib/store.ts:177 | sets the lock flag; the place id defaults to none, so unlocking resets it |
| Store.RadioStore.SetCrosshairLoading | src/lib/store.ts:178 | sets `crosshairLoading` and nothing else |
| Store.RadioStore.AddFavorite | src/lib/store.ts:194-200 | the favourites become `Favorites.Add` of the old list; the id is a favourite afterwards; uniqueness is kept |
| Store.RadioStore.RemoveFavorite | src/lib/store.ts:201-205 | the favourites become `Favorites.Remove` of the old list; the id is no favourite afterwards; uniqueness is kept |
| Store.RadioStore.InitFavorites | src/lib/store.ts:209-211 | the favourites become the stored list, or empty when nothing is stored |
| Types.TargetOf | src/components/SearchPanel.tsx:87 | the globe target of a place has `lat = geo[1]` and `lng = geo[0]` |
| Channels.ChannelUrl | src/components/Sidebar.tsx:27-28 | `page.url` when present, otherwise `href` |
| Channels.ChannelTitle | src/components/Sidebar.tsx:31-32 | `page.title`, else `title`, else the fallback |
| Channels.ChannelSubtitle | src/components/Sidebar.tsx:35-36 | `page.country.title` when present, otherwise `subtitle` |
| Channels.AllItems | src/components/Sidebar.tsx:53-60 | every item of every array-valued group is in the merged list |
| Channels.AllItemsSnoc | src/components/Sidebar.tsx:53-60 | merging one more group appends its items, in group-then-item order |
| Channels.AppendListed | src/components/Sidebar.tsx:55-59 | the inner loop appends exactly the listed items of a group |
| Channels.CollectChannels | src/components/Sidebar.tsx:49-62 | the merge loop yields exactly the items with `href` or `page.url`, in group-then-item order |
| Channels.PlayTarget | src/components/Sidebar.tsx:75-78 | a row plays exactly when its url is truthy and its id non-empty; the id is the url's last segment and has no `/` |
| Channels.PlayTargetOfListenUrl | src/components/Sidebar.tsx:75-78 | a `/listen/<slug>/<id>` url plays `id` |
| Channels.ListedButNotPlayable | src/components/Sidebar.tsx:56-78 | a row listed through its `href` whose `page.url` is `""` is shown yet does not play |
| Channels.ListedWithoutPagePlays | src/components/Sidebar.tsx:56-78 | a listed row without a page plays exactly when its href's last segment is non-empty |
| Channels.ApplyChannel | src/components/Sidebar.tsx:84-88 | a channel result sets the channel, the stream `/api/stream/<id>` and playing |
| Locator.Nearest | src/components/Globe.tsx:355-362 | the marker strictly within the radius with the least distance, earliest on ties; none exactly when no marker is within |
| Locator.NearestSnoc | src/components/Globe.tsx:359-362 | one more marker replaces the best only when strictly closer |
| Locator.LastVisible | src/components/Globe.tsx:355-357 | the last visible marker of the locked place, none when every such marker is culled or absent |
| Locator.LockedDistanceSnoc | src/components/Globe.tsx:355-357 | a later visible marker of the locked place overwrites its distance |
| Locator.Decide | src/components/Globe.tsx:366-383 | hold exactly when locked and the locked distance is below the exit radius; otherwise release when locked, and acquire the nearest marker within the enter radius if any |
| Locator.Scan | src/components/Globe.tsx:329-363 | the scan loop computes `Nearest` and the locked place's distance |
| Tuning.PickFor | src/components/Globe.tsx:391-396 | a url plays its non-empty, `/`-free last segment; an empty segment is the empty-id case |
| Tuning.PickOf | src/components/Globe.tsx:386-413 | the first group whose first item has a truthy url decides; no channel exactly when there is no content or no group decides |
| Tuning.PickChannel | src/components/Globe.tsx:386-413 | the group loop with its early return computes `PickOf` |
| Tuning.OnlyFirstItemCounts | src/components/Globe.tsx:391-392 | a group whose first item has no url is skipped even if a later item has one |
| Globe.Released | src/components/Globe.tsx:369-373 | release clears the ref, the guard, the lock, the place id and loading, and keeps the counter |
| Globe.Acquired | src/components/Globe.tsx:378-383 | acquisition locks with the place id, loading and the guard set |
| Globe.ExitRadiusIs112 | src/components/Globe.tsx:279-280 | the enter radius is 40 px and the exit radius 40 × 2.8 = 112 px |
| Globe.TickKeepsInv | src/components/Globe.tsx:314-384 | a frame keeps the lock state consistent (the ref set exactly when locked, with the same id, and the counter below 8) |
| Globe.ResponsesKeepInv | src/components/Globe.tsx:386-415 | both responses keep the lock state consistent |
| Globe.InactiveFrameIsIdle | src/components/Globe.tsx:315-318 | with no places, no interaction or a station lock a frame changes nothing |
| Globe.QuietFrames | src/components/Globe.tsx:320-321 | active frames before the eighth only advance the counter |
| Globe.EighthFrameChecks | src/components/Globe.tsx:320-322 | the eighth active frame resets the counter and runs a check |
| Globe.LockHolds | src/components/Globe.tsx:366-368 | while the locked marker is within the exit radius the check changes nothing, even with a closer marker |
| Globe.LockReleases | src/components/Globe.tsx:369-383 | beyond the exit radius, or culled or absent, the lock is released and the nearest marker within 40 px may be acquired in the same check |
| Globe.UnlockedAcquiresNearest | src/components/Globe.tsx:378-383 | unlocked, the check acquires exactly the nearest marker within 40 px, or stays unlocked |
| Globe.ResultAppliedIffGuarded | src/components/Globe.tsx:396-406 | a result with data while the guard is set plays and clears loading; a failure only clears loading; any other result changes nothing; playback changes only in the first case, and the lock is never touched |
| Globe.ChannelsArrivedCases | src/components/Globe.tsx:386-415 | a failure or no deciding group clears loading with no request; an empty last segment changes nothing and requests nothing; otherwise the picked non-empty id is requested with the state unchanged |
| Globe.ReleasedIgnoresResults | src/components/Globe.tsx:371 | after a release no result changes playback |
| Globe.StaleResultAfterRelock | src/components/Globe.tsx:371-404 | lock on A, release, lock on B: the result of A's request is still applied |
| Globe.CrosshairDetector.constructor | src/components/Globe.tsx:292-294 | no lock, no guard, counter zero |
| Globe.CrosshairDetector.Tick | src/components/Globe.tsx:314-384 | a frame updates the refs and the store as `Step` does and requests the acquired place's channels |
| Globe.CrosshairDetector.OnPlaceChannels | src/components/Globe.tsx:386-415 | the channels response updates loading and requests a channel as `ChannelsArrived` does |
| Globe.CrosshairDetector.OnChannelResult | src/components/Globe.tsx:398-406 | the channel response updates playback and loading as `ChannelArrived` does |
| Globe.TapBoundaries | src/components/Globe.tsx:179-183 | a movement of 12 px and 400 ms still count as a tap; 13 px or 401 ms do not |
| Globe.StationMarkers.PointerDown | src/components/Globe.tsx:169-171 | records position and time |
| Globe.StationMarkers.PointerUp | src/components/Globe.tsx:173-190 | clears the record; a tap opens the popup at the pointer for the nearest marker strictly within 30 px, otherwise nothing changes |
| Globe.FindNearestPlace | src/components/Globe.tsx:537-554 | none exactly when there are no places; otherwise a place with least squared degree distance, earliest on ties |
| Globe.LocateButton.NavigateTo | src/components/Globe.tsx:594-609 | with places, targets, selects and opens the nearest one, locks the crosshair on it and requests its channels; without, targets the raw position |
| Globe.LocateButton.OnAutoPlayChannels | src/components/Globe.tsx:562-583 | requests the channel `PickOf` yields, if any |
| Globe.LocateButton.OnAutoPlayResult | src/components/Globe.tsx:569-575 | a result with data plays, with no guard; otherwise playback is unchanged |
| Globe.ZoomStep | src/components/Globe.tsx:427-432 | the new camera distance is the stepped distance clamped to [2.8, 10] |
| Globe.ZoomOutThenIn | src/components/Globe.tsx:431 | away from the far limit, zooming out then in returns to the distance |
| Globe.ZoomAtLimits | src/components/Globe.tsx:431 | zooming past either limit stays at the limit |
| Globe.OverlayOf | src/components/Globe.tsx:486-487 | locked and loading overlays are never both on; one of them is on exactly when the crosshair is locked |
| Globe.UnlockedOverlayIsIdle | src/components/Globe.tsx:486-487 | without a lock the overlay is idle |
| FlatMap.UnprojectProject | src/components/FlatMap.tsx:15-25 | unprojecting a projected point returns its latitude and longitude |
| FlatMap.ProjectUnproject | src/components/FlatMap.tsx:15-25 | projecting an unprojected point returns it |
| FlatMap.ProjectionBounds | src/components/FlatMap.tsx:15-19 | coordinates in range project into `[0, w] × [0, h]` |
| FlatMap.CrosshairMarkers | src/components/FlatMap.tsx:235-250 | one marker per place, in order, at the squared distance of its screen position from the centre |
| FlatMap.TapMarkers | src/components/FlatMap.tsx:323-343 | one marker per place, in order, whose distance is the squared offset of the place's drawn position from the tapped point |
| FlatMap.TapAtCentreIsCentreDelta | src/components/FlatMap.tsx:323-342 | at the container's centre the tap offset equals the crosshair offset: the container's position and size cancel out |
| FlatMap.TapAtCentreMarkers | src/components/FlatMap.tsx:323-343 | tapping the container's centre yields exactly the crosshair's markers |
| FlatMap.Released | src/components/FlatMap.tsx:267-269 | release clears the ref, the lock, the place id and loading |
| FlatMap.Acquired | src/components/FlatMap.tsx:275-277 | acquisition locks on the place with loading set |
| FlatMap.LockHolds | src/components/FlatMap.tsx:263-265 | while the locked place is within 100 px the check changes nothing |
| FlatMap.LockReleases | src/components/FlatMap.tsx:263-277 | otherwise the lock is released, and the nearest place within 40 px may be acquired in the same check |
| FlatMap.GatedCheckIsIdle | src/components/FlatMap.tsx:224 | no check runs without interaction, with a station lock, or before the map is loaded |
| FlatMap.ResultAfterReleaseStillPlays | src/components/FlatMap.tsx:293-299 | the flat map has no guard: a result with data plays even after the lock was released |
| FlatMap.ChannelArrivedCases | src/components/FlatMap.tsx:291-301 | a result with data plays and clears loading; a failure only clears loading; a result without data changes nothing; the lock is never touched |
| FlatMap.MovedAfter | src/components/FlatMap.tsx:376-378 | `moved` is set once a coordinate moves more than 3 px and never resets |
| FlatMap.StillPointerNeverMoves | src/components/FlatMap.tsx:376-378 | a pointer that stays within 3 px never marks the drag as moved |
| FlatMap.WheelZoom | src/components/FlatMap.tsx:453-454 | the zoom stays within [1, 8] |
| FlatMap.WheelDirection | src/components/FlatMap.tsx:453-454 | scrolling down never zooms in and up never out; unclamped steps are × 0.94 and × 1.06 |
| FlatMap.PinchZoom | src/components/FlatMap.tsx:462-471 | the zoom stays within [1, 8]; a previous distance of 0 gives the maximum, a current distance of 0 the minimum, and an in-range ratio scales the zoom exactly |
| FlatMap.PinchDirection | src/components/FlatMap.tsx:469-470 | spreading the fingers never zooms out and pinching never zooms in |
| FlatMap.RecentreOffset | src/components/FlatMap.tsx:398-404 | after the tap's offset the tapped place sits exactly at the viewport centre |
| FlatMap.TapLockSurvivesNextCheck | src/components/FlatMap.tsx:397-410 | the recentred tapped place is at distance 0, so the next check keeps its lock |
| FlatMap.FlatMapView.constructor | src/components/FlatMap.tsx:45-50 | zoom 1.5, offset 0, no drag, no lock, map not loaded |
| FlatMap.FlatMapView.MapImageLoaded | src/components/FlatMap.tsx:69-71 | the map is loaded |
| FlatMap.FlatMapView.CrosshairCheck | src/components/FlatMap.tsx:223-311 | the debounced check updates lock and store as `Check` does on the computed screen distances |
| FlatMap.FlatMapView.ReleaseLock | src/components/FlatMap.tsx:267-269 | the ref and the store's lock are released as `Released` |
| FlatMap.FlatMapView.AcquireLock | src/components/FlatMap.tsx:275-277 | the ref and the store's lock are set as `Acquired` |
| FlatMap.FlatMapView.SnapTo | src/components/FlatMap.tsx:393-410 | the popup opens at the window centre, the place is recentred, interaction is marked and the crosshair locks on it |
| FlatMap.FlatMapView.PointerDown | src/components/FlatMap.tsx:356-366 | records the start point and offset, not moved |
| FlatMap.FlatMapView.PointerMove | src/components/FlatMap.tsx:370-381 | without a drag nothing changes; during one the offset is the start offset plus the pointer delta |
| FlatMap.FlatMapView.PointerUp | src/components/FlatMap.tsx:383-447 | ends the drag; a tap opens the popup at the window centre for the nearest place within 20 px, recentres on it and locks on it with no enter-radius check |
| FlatMap.FlatMapView.OnPlaceChannels | src/components/FlatMap.tsx:281-309 | failure or no usable url clears loading; an empty id leaves loading set; otherwise the channel is requested |
| FlatMap.FlatMapView.OnChannelResult | src/components/FlatMap.tsx:293-301 | a result with data plays and clears loading; a failure only clears loading |
| FlatMap.FlatMapView.Wheel | src/components/FlatMap.tsx:450-457 | zoom becomes `WheelZoom` of the old zoom |
| FlatMap.FlatMapView.TouchMove | src/components/FlatMap.tsx:462-474 | two fingers record their distance and, after a first move, scale the zoom as `PinchZoom`; other touch counts change nothing, whatever the distance |
| FlatMap.FlatMapView.TouchEnd | src/components/FlatMap.tsx:476-478 | forgets the finger distance |
| Player.NextIndex | src/components/Player.tsx:221-224 | the next index is in [0, n) and 0 when the current channel is not found |
| Player.NextIndexWraps | src/components/Player.tsx:221-224 | forward from the last row wraps to 0 and back from 0 to n − 1 |
| Player.NextIndexSteps | src/components/Player.tsx:221-224 | away from the ends a skip moves one row |
| Player.NextIndexForwardBack | src/components/Player.tsx:221-224 | forward then back returns to the row |
| Player.SkipTarget | src/components/Player.tsx:210-230 | nothing without a current channel or rows; otherwise the play target of the row after (or before) the current one, the first row when it is not found |
| Player.SkipFromUnlistedGoesToFirst | src/components/Player.tsx:215-224 | when the current channel is in no row, both directions go to row 0 |
| Player.ToggleMuteStep | src/components/Player.tsx:201-208 | a positive volume is saved and muted; a zero volume is restored to the saved value, or 0.8 when that is 0 |
| Player.MuteThenRestore | src/components/Player.tsx:201-208 | mute then unmute restores the volume |
| Player.UnmuteIsAudible | src/components/Player.tsx:206 | unmuting always gives a positive volume |
| Player.FavoriteOf | src/components/Player.tsx:252-258 | the entry carries the channel id and title, place and country titles or `""`, and the time |
| Player.ToggleFlipsFavorite | src/components/Player.tsx:247-260 | the toggle flips whether the current channel is a favourite |
| Player.ToggleTwiceRestoresAdded | src/components/Player.tsx:247-260 | adding then removing restores the list |
| Player.PlayerBar.constructor | src/components/Player.tsx:200 | the saved volume starts at 0.8 |
| Player.PlayerBar.TogglePlay | src/components/Player.tsx:195-198 | flips playing when there is a stream, otherwise nothing |
| Player.PlayerBar.ToggleMute | src/components/Player.tsx:201-208 | volume and saved volume change as `ToggleMuteStep` |
| Player.PlayerBar.SkipStation | src/components/Player.tsx:210-231 | requests the channel `SkipTarget` yields |
| Player.PlayerBar.OnSkipResult | src/components/Player.tsx:232-242 | a result with data plays, otherwise nothing changes |
| Player.PlayerBar.ToggleFavorite | src/components/Player.tsx:247-260 | the favourites become `ToggledFavorites` of the old list |
| Sidebar.ActiveRowIsSkipOrigin | src/components/Sidebar.tsx:173-176 | the first active row is where the player's skip starts from |
| Sidebar.RowFavorite | src/components/Sidebar.tsx:236-246 | the entry carries the row's id and title ("Unknown station" fallback) and the selected place's title and country |
| Sidebar.SidebarPanel.StartFetch | src/components/Sidebar.tsx:39-43 | without a place nothing happens; otherwise the list is cleared, loading set and the place's channels requested |
| Sidebar.SidebarPanel.OnChannels | src/components/Sidebar.tsx:49-68 | content gives the merged listed items, failure an empty list, no content the old list; loading ends false |
| Sidebar.SidebarPanel.PlayChannel | src/components/Sidebar.tsx:73-79 | requests `PlayTarget`; marks interaction exactly when it does |
| Sidebar.SidebarPanel.OnPlayResult | src/components/Sidebar.tsx:80-91 | a result with data plays, otherwise nothing changes |
| Sidebar.SidebarPanel.ToggleRowFavorite | src/components/Sidebar.tsx:236-247 | removes the row's id when a favourite, otherwise adds `RowFavorite` |
| PlacePopup.Take | src/components/PlacePopup.tsx:48 | `slice(0, n)`: the first `min(n, length)` elements |
| PlacePopup.PopupStations | src/components/PlacePopup.tsx:37-48 | the first five listed items, in order |
| PlacePopup.ShortListsAreWhole | src/components/PlacePopup.tsx:48 | with at most five listed items all of them are kept |
| PlacePopup.PopupPosition | src/components/PlacePopup.tsx:98-99 | x in [160, width − 160] when width ≥ 320, y in [20, height − 200] when height ≥ 220; in-range points are kept |
| PlacePopup.PopupPositionIsClamp | src/components/PlacePopup.tsx:98-99 | each axis is `clamp` of its coordinate |
| PlacePopup.Rendered | src/components/PlacePopup.tsx:95-99 | rendered exactly when both the popup place and the screen point are set |
| PlacePopup.PlacePopupView.constructor | src/components/PlacePopup.tsx:20-21 | empty list, not loading |
| PlacePopup.PlacePopupView.PopupPlaceChanged | src/components/PlacePopup.tsx:25-34 | without a place the list is cleared; otherwise loading is set and its channels requested |
| PlacePopup.PlacePopupView.OnChannels | src/components/PlacePopup.tsx:36-54 | content gives `PopupStations`, failure an empty list, no content the old list; loading ends false |
| PlacePopup.PlacePopupView.OutsideClick | src/components/PlacePopup.tsx:61-64 | closes the popup |
| PlacePopup.PlacePopupView.PlayStation | src/components/PlacePopup.tsx:74-79 | requests `PlayTarget`; marks interaction exactly when it does |
| PlacePopup.PlacePopupView.OnPlayResult | src/components/PlacePopup.tsx:81-89 | a result with data plays and closes the popup, otherwise nothing changes |
| Search.ResultUrl | src/components/SearchPanel.tsx:58-59 | `page.url`, else `url`, else `""` |
| Search.ResultTitle | src/components/SearchPanel.tsx:62-63 | `page.title`, else `title`, else "Unknown" |
| Search.ResultSubtitle | src/components/SearchPanel.tsx:66-67 | `page.subtitle`, else `subtitle`, else `""` |
| Search.HandlerOf | src/components/SearchPanel.tsx:220-226 | `channel` and `country` have their own handlers; every other type goes to the place handler |
| Search.BlankMeansWhiteSpace | src/components/SearchPanel.tsx:32 | a query is blank exactly when it is all white space |
| Search.PlaceForResult | src/components/SearchPanel.tsx:113-121 | the first place whose id is the url's last segment; failing that, the first whose title matches ignoring case; none exactly when neither exists |
| Search.LargestInCountry | src/components/SearchPanel.tsx:137-144 | none exactly when no place is of the country; otherwise a place of the country of maximal size, earliest among equals |
| Search.SortedHeadIsLargest | src/components/SearchPanel.tsx:139-144 | the head of any size-descending arrangement of the country's places is as large as `LargestInCountry`'s pick, and exists exactly when the pick does |
| Search.FromCountryIsKept | src/components/SearchPanel.tsx:139-140 | a place whose country matches the result's title, ignoring case, passes the country filter |
| Search.KeptIsFromCountry | src/components/SearchPanel.tsx:139-140 | whatever passes the country filter is one of the places, and its country matches |
| Search.SearchPanel.constructor | src/components/SearchPanel.tsx:10-12 | empty query and results, not loading |
| Search.SearchPanel.Input | src/components/SearchPanel.tsx:31-55 | stores the query; a blank query clears the results with no request and leaves loading alone; otherwise loading is set and the query requested |
| Search.SearchPanel.OnResults | src/components/SearchPanel.tsx:36-45 | results are the hits, or empty when missing or failed; loading ends false |
| Search.SearchPanel.Close | src/components/SearchPanel.tsx:95-97 | closes search and clears query and results |
| Search.SearchPanel.ShowPlace | src/components/SearchPanel.tsx:87-89 | targets, selects the place and opens the sidebar |
| Search.SearchPanel.SelectPlace | src/components/SearchPanel.tsx:111-131 | shows `PlaceForResult` when found, and closes in every case |
| Search.SearchPanel.SelectCountry | src/components/SearchPanel.tsx:135-152 | shows `LargestInCountry` when found, and closes in every case |
| Search.SearchPanel.SelectChannel | src/components/SearchPanel.tsx:69-73 | an empty channel id does nothing (the panel stays open); otherwise the channel is requested |
| Search.SearchPanel.OnChannelSelected | src/components/SearchPanel.tsx:74-97 | data plays and shows the channel's place when loaded; the panel closes whatever the response |
| Search.SearchPanel.Select | src/components/SearchPanel.tsx:220-226 | a country shows `LargestInCountry`'s pick and any other non-channel type `PlaceForResult`'s, both closing the panel and clearing the query and results; a channel only requests its id and changes nothing else |
| Browse.GroupByCountry | src/components/BrowsePanel.tsx:8-17 | the push loop builds `Groups` |
| Browse.GroupKeys | src/components/BrowsePanel.tsx:8-17 | the keys are exactly the countries that occur |
| Browse.GroupIsFilter | src/components/BrowsePanel.tsx:14 | a group is the input filtered by its country: exactly its places, in input order |
| Browse.GroupsNonEmpty | src/components/BrowsePanel.tsx:11-14 | no group is empty, and a place is in a group exactly when it is of that country |
| Browse.KeyOrderIsKeys | src/components/BrowsePanel.tsx:38-39 | the keys in insertion order are distinct and are the group keys |
| Browse.GroupSizesSum | src/components/BrowsePanel.tsx:8-17 | the group sizes sum to the number of places |
| Browse.StrLeTotal | src/components/BrowsePanel.tsx:39 | the string order is total |
| Browse.StrLeTransitive | src/components/BrowsePanel.tsx:39 | the string order is transitive |
| Browse.StrLeAntisymmetric | src/components/BrowsePanel.tsx:39 | the string order is antisymmetric |
| Browse.Insert | src/components/BrowsePanel.tsx:39 | inserting into a sorted list keeps it sorted and adds the element |
| Browse.SortStrings | src/components/BrowsePanel.tsx:39 | `sort()` yields a sorted permutation |
| Browse.SortedPairwise | src/components/BrowsePanel.tsx:39 | a sorted list is ordered between any two positions |
| Browse.Countries | src/components/BrowsePanel.tsx:38-39 | the country list is sorted, without duplicates, and holds exactly the group keys |
| Browse.FilterCountries | src/components/BrowsePanel.tsx:40-42 | an empty query keeps all countries; otherwise exactly those containing it, ignoring case |
| Browse.FilteredStaysSorted | src/components/BrowsePanel.tsx:39-42 | the filtered list is still sorted |
| Browse.SortBySize | src/components/BrowsePanel.tsx:142-143 | the in-place sort leaves the cities largest first, a permutation of the group |
| Browse.SiftUp | src/components/BrowsePanel.tsx:142-143 | one insertion step extends the sorted prefix and keeps the elements |
| Browse.BrowsePanel.OnActiveTabChanged | src/components/BrowsePanel.tsx:31-36 | leaving the browse tab resets the selected country and the query; on browse nothing changes |
| Browse.BrowsePanel.SetSearchQuery | src/components/BrowsePanel.tsx:104 | stores the query |
| Browse.BrowsePanel.SelectCountry | src/components/BrowsePanel.tsx:123 | stores the selected country |
| Browse.BrowsePanel.ShownCountries | src/components/BrowsePanel.tsx:38-42 | the shown list is the filtered country list, and sorted |
| Browse.BrowsePanel.Cities | src/components/BrowsePanel.tsx:142-143 | the selected country's places, largest first |
| Browse.BrowsePanel.SelectPlace | src/components/BrowsePanel.tsx:44-56 | returns to explore (closing the other panels), then targets, selects the place and opens the sidebar |

## Left out

- 3D projection, back-face culling and the camera fly-to are left out: they are trigonometric floating point. Each globe marker's screen distance is an input, `None` when culled.
- Square roots are left out: the flat map compares squared distances with squared radii (40², 100², 20²), and the globe tap compares the squared movement with 12². For non-negative reals these give the same answers.
- Floating-point rounding is left out; arithmetic is on exact reals. (40 × 2.8 is exactly 112 in IEEE doubles too.)
- FlatMap.PinchZoom: a previous and a current finger distance both 0 divide 0 by 0, giving NaN in the source; the model excludes exactly that case.
- Network requests, JSON parsing and the API route handlers are left out; requests are returned ids and responses are events.
- Requests that overlap are left out: every response is applied in the order given.
- The audio element, its retries and its events are left out: they are browser objects.
- Timers and debounce are left out: the 300 ms search delay, the 150 ms flat-map delay, the 50 ms browse delay and `debounce` itself. A debounced call is a single call.
- `localStorage` loading and saving of favourites is left out: the stored list is a parameter of `InitFavorites`.
- Geolocation, the IP fallback and share/clipboard are left out: they are browser calls. `NavigateTo` takes the position they would yield.
- Canvas drawing, label layout and all JSX rendering are left out.
- `LocalTime` is left out: its timezone lookup is not part of this model.
- The header, settings, favourites, welcome and app-shell components are left out: they only wire store setters already modelled.
- Text.Lower: lower-cases ASCII letters only; `toLowerCase` also maps other scripts.
- Browse.StrLe: compares by code point, while `sort()` compares UTF-16 code units. They differ only for characters outside the Basic Multilingual Plane.
- Browse.Groups: a JavaScript object is not a map. A country named like an `Object.prototype` member (`constructor`, `__proto__`) starts with a truthy value, and `Object.keys` lists integer-like keys first. Neither is modelled; after `sort()` the key order does not matter.
- Browse.SortBySize: stability is not proved, only largest-first order and permutation. `Search.LargestInCountry` takes the earliest of equally large places, which is what the stable `sort` puts first.
- Search.SearchPanel.Input: the entered value is searched directly. A later keystroke cancelling the timer is left out.
