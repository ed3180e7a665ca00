/**
 * The records the client works on (src/lib/types.ts and the store's own
 * record types).  Fields the modelled code never reads are left out.
 * Strings are sequences of characters; numbers are reals, except counts.
 */
module Types {
  import opened Wrappers

  /** A geographic place with radio channels.  `geo` is [lng, lat] in degrees. */
  datatype Place = Place(
    id: string,
    geo: (real, real),
    url: string,
    size: int,
    title: string,
    country: string)

  /** A `{ id, title }` reference as the directory returns it. */
  datatype NamedRef = NamedRef(id: string, title: string)

  /** The `page` part of a channel reference. */
  datatype ChannelPage = ChannelPage(
    url: Option<string>,
    title: Option<string>,
    country: Option<NamedRef>)

  /** One item of a place's channel list; old records carry `href`, new ones `page.url`. */
  datatype ChannelRef = ChannelRef(
    href: Option<string>,
    title: Option<string>,
    subtitle: Option<string>,
    page: Option<ChannelPage>)

  /** A group of a place's channel list; `items` is `None` when it is missing or not an array. */
  datatype ChannelGroup = ChannelGroup(items: Option<seq<ChannelRef>>)

  /** Channel metadata. */
  datatype Channel = Channel(
    id: string,
    title: string,
    place: Option<NamedRef>,
    country: Option<NamedRef>)

  datatype LatLng = LatLng(lat: real, lng: real)

  /** A screen position in CSS pixels. */
  datatype Point = Point(x: real, y: real)

  datatype NavTab = Explore | Favorites | Browse | Search | Settings

  datatype ViewMode = GlobeMode | FlatMode

  datatype FavoriteStation = FavoriteStation(
    channelId: string,
    title: string,
    placeName: string,
    country: string,
    addedAt: int)

  /** The `page` part of a search hit. */
  datatype SearchPage = SearchPage(
    url: Option<string>,
    title: Option<string>,
    subtitle: Option<string>)

  /** The `_source` of a search hit; `kind` is its `type` field. */
  datatype SearchResult = SearchResult(
    kind: string,
    page: Option<SearchPage>,
    title: Option<string>,
    subtitle: Option<string>,
    url: Option<string>)

  /** How a request ended: a parsed body, or a rejected fetch / unparsable JSON. */
  datatype Fetched<T> = Loaded(body: T) | Failed

  /** JavaScript truthiness of an optional string: present and not empty. */
  predicate Truthy(s: Option<string>)
  {
    s.Some? && s.value != ""
  }

  /** The stream endpoint the client plays for a channel id. */
  function StreamUrl(channelId: string): string
  {
    "/api/stream/" + channelId
  }

  /** The globe target for a place: `geo` is [lng, lat], the target is (lat, lng). */
  function TargetOf(p: Place): (t: LatLng)
    ensures t.lat == p.geo.1 && t.lng == p.geo.0
  {
    LatLng(p.geo.1, p.geo.0)
  }
}
