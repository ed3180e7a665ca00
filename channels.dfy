/**
 * A place's channel list as the sidebar and the place popup read it
 * (src/components/Sidebar.tsx, src/components/PlacePopup.tsx): the merge of all groups,
 * the url / title / subtitle getters, and the channel id a row plays.
 */
module Channels {
  import opened Wrappers
  import opened Types
  import Utils
  import Seqs
  import Store

  /** `ch.page?.url ?? ch.href`: `page.url` wins whenever it is present, even when empty. */
  function ChannelUrl(ch: ChannelRef): (u: Option<string>)
    ensures ch.page.Some? && ch.page.value.url.Some? ==> u == ch.page.value.url
    ensures ch.page.None? || ch.page.value.url.None? ==> u == ch.href
  {
    if ch.page.Some? && ch.page.value.url.Some? then ch.page.value.url else ch.href
  }

  /** `ch.page?.title ?? ch.title ?? fallback`. */
  function ChannelTitle(ch: ChannelRef, fallback: string): (t: string)
    ensures ch.page.Some? && ch.page.value.title.Some? ==> t == ch.page.value.title.value
    ensures (ch.page.None? || ch.page.value.title.None?) && ch.title.Some? ==> t == ch.title.value
    ensures (ch.page.None? || ch.page.value.title.None?) && ch.title.None? ==> t == fallback
  {
    if ch.page.Some? && ch.page.value.title.Some? then ch.page.value.title.value
    else ch.title.GetOr(fallback)
  }

  /** `ch.page?.country?.title ?? ch.subtitle`. */
  function ChannelSubtitle(ch: ChannelRef): (s: Option<string>)
    ensures ch.page.Some? && ch.page.value.country.Some? ==> s == Some(ch.page.value.country.value.title)
    ensures ch.page.None? || ch.page.value.country.None? ==> s == ch.subtitle
  {
    if ch.page.Some? && ch.page.value.country.Some? then Some(ch.page.value.country.value.title)
    else ch.subtitle
  }

  /** The merge keeps an item when `item.href || item.page?.url` is truthy. */
  predicate Listed(ch: ChannelRef)
  {
    Truthy(ch.href) || (ch.page.Some? && Truthy(ch.page.value.url))
  }

  /** A group's items, or nothing when `items` is missing or not an array. */
  function GroupItems(g: ChannelGroup): seq<ChannelRef>
  {
    if g.items.Some? then g.items.value else []
  }

  /** Every group's items, in group order. */
  function AllItems(content: seq<ChannelGroup>): (r: seq<ChannelRef>)
    ensures forall ch :: (exists g :: g in content && ch in GroupItems(g)) ==> ch in r
  {
    if |content| == 0 then []
    else
      var init := content[..|content| - 1];
      assert forall g :: g in content ==> g in init || g == content[|content| - 1];
      AllItems(init) + GroupItems(content[|content| - 1])
  }

  lemma AllItemsSnoc(content: seq<ChannelGroup>, g: ChannelGroup)
    ensures AllItems(content + [g]) == AllItems(content) + GroupItems(g)
  {
    assert (content + [g])[..|content|] == content;
  }

  /** The inner merge loop: one group's listed items appended to those kept so far. */
  method AppendListed(items: seq<ChannelRef>, ghost before: seq<ChannelRef>, group: seq<ChannelRef>)
    returns (r: seq<ChannelRef>)
    requires items == Seqs.Filter(before, Listed)
    ensures r == Seqs.Filter(before + group, Listed)
  {
    r := items;
    var j := 0;
    assert before + group[..0] == before;
    while j < |group|
      invariant 0 <= j <= |group|
      invariant r == Seqs.Filter(before + group[..j], Listed)
    {
      ghost var seen := before + group[..j];
      assert before + group[..j + 1] == seen + [group[j]] by {
        assert group[..j + 1] == group[..j] + [group[j]];
      }
      Seqs.FilterSnoc(seen, group[j], Listed);
      if Listed(group[j]) {
        r := r + [group[j]];
      }
      j := j + 1;
    }
    assert group[..j] == group;
  }

  /** The merge loop: each group in turn, each of its items in turn, kept when listed. */
  method CollectChannels(content: seq<ChannelGroup>) returns (items: seq<ChannelRef>)
    ensures items == Seqs.Filter(AllItems(content), Listed)
  {
    items := [];
    var i := 0;
    while i < |content|
      invariant 0 <= i <= |content|
      invariant items == Seqs.Filter(AllItems(content[..i]), Listed)
    {
      items := AppendListed(items, AllItems(content[..i]), GroupItems(content[i]));
      assert AllItems(content[..i + 1]) == AllItems(content[..i]) + GroupItems(content[i]) by {
        assert content[..i + 1] == content[..i] + [content[i]];
        AllItemsSnoc(content[..i], content[i]);
      }
      i := i + 1;
    }
    assert content[..i] == content;
  }

  /**
   * The channel id a row plays: `None` when its url is missing or empty, or when the url's
   * last path segment is empty (the row is then ignored).
   */
  function PlayTarget(ch: ChannelRef): (id: Option<string>)
    ensures id.Some? <==> Truthy(ChannelUrl(ch)) && Utils.ExtractChannelId(ChannelUrl(ch)) != ""
    ensures id.Some? ==> id.value == Utils.ExtractChannelId(ChannelUrl(ch))
    ensures id.Some? ==> id.value != "" && '/' !in id.value
  {
    var url := ChannelUrl(ch);
    if !Truthy(url) then None
    else
      var cid := Utils.ExtractChannelId(url);
      if cid == "" then None else Some(cid)
  }

  /** A row in the directory's own format plays the channel its url ends with. */
  lemma PlayTargetOfListenUrl(ch: ChannelRef, slug: string, id: string)
    requires ChannelUrl(ch) == Some("/listen/" + slug + "/" + id)
    requires id != "" && '/' !in id
    ensures PlayTarget(ch) == Some(id)
  {
    Utils.LastSegmentAfterSlash("/listen/" + slug, id);
  }

  /**
   * The merge and the player read different fields: an item whose `page.url` is present but empty
   * is listed because of its `href`, yet playing it does nothing, since `??` keeps the empty url.
   */
  lemma ListedButNotPlayable()
    ensures var ch := ChannelRef(Some("/listen/x/abc"), None, None, Some(ChannelPage(Some(""), None, None)));
            Listed(ch) && PlayTarget(ch).None?
  {
  }

  /** A listed item with no `page` plays exactly when its href does not end with a slash. */
  lemma ListedWithoutPagePlays(ch: ChannelRef)
    requires Listed(ch) && ch.page.None?
    ensures PlayTarget(ch).Some? <==> Utils.ExtractChannelId(ch.href) != ""
  {
  }

  /**
   * What a successful channel request does to the store in every player entry point:
   * the channel becomes current, its stream url is set and playback starts.
   */
  method ApplyChannel(store: Store.RadioStore, id: string, channel: Channel)
    modifies store`currentChannel, store`streamUrl, store`isPlaying
    ensures store.currentChannel == Some(channel)
    ensures store.streamUrl == Some(StreamUrl(id))
    ensures store.isPlaying
  {
    store.SetCurrentChannel(Some(channel));
    store.SetStreamUrl(Some(StreamUrl(id)));
    store.SetIsPlaying(true);
  }
}
