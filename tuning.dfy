/**
 * Tuning in to a place from a crosshair lock or the locate button (src/components/Globe.tsx,
 * src/components/FlatMap.tsx): the first group whose first item has a url supplies the channel.
 */
module Tuning {
  import opened Wrappers
  import opened Types
  import Utils
  import Channels
  import Seqs

  /** Outcome of the channel pick: nothing found, a url whose last segment is empty, or an id. */
  datatype Pick = NoChannel | EmptyId | PlayId(id: string)

  /** `group.items[0]?.page?.url ?? group.items[0]?.href`, for an array-valued `items`. */
  function FirstUrl(g: ChannelGroup): Option<string>
  {
    if g.items.Some? && |g.items.value| > 0 then Channels.ChannelUrl(g.items.value[0]) else None
  }

  /** The group decides the pick when its first item's url is truthy. */
  predicate Decides(g: ChannelGroup)
  {
    Truthy(FirstUrl(g))
  }

  /** `url.split("/").pop()`, checked for truthiness. */
  function PickFor(url: string): (p: Pick)
    ensures p != NoChannel
    ensures p.PlayId? ==> p.id != "" && '/' !in p.id && p.id == Utils.LastSegment(url)
    ensures p.EmptyId? <==> Utils.LastSegment(url) == ""
  {
    var id := Utils.LastSegment(url);
    Utils.SplitPartsOmitSep(url, '/');
    if id == "" then EmptyId else PlayId(id)
  }

  /**
   * The pick: `NoChannel` for a non-array `content` or when no group decides; otherwise the
   * first deciding group's url ends the search, whatever its last segment is.
   */
  function PickOf(content: Option<seq<ChannelGroup>>): (pick: Pick)
    ensures pick.NoChannel? <==> content.None? || forall i :: 0 <= i < |content.value| ==> !Decides(content.value[i])
    ensures !pick.NoChannel? ==>
              content.Some? &&
              exists i :: 0 <= i < |content.value| && Decides(content.value[i])
                && (forall j :: 0 <= j < i ==> !Decides(content.value[j]))
                && pick == PickFor(FirstUrl(content.value[i]).value)
  {
    if content.None? then NoChannel
    else
      match Seqs.FindFirst(content.value, Decides)
      case None => NoChannel
      case Some(i) => PickFor(FirstUrl(content.value[i]).value)
  }

  /** The pick loop over the groups, returning from inside the loop at the first deciding group. */
  method PickChannel(content: Option<seq<ChannelGroup>>) returns (pick: Pick)
    ensures pick == PickOf(content)
  {
    if content.None? {
      return NoChannel;
    }
    var groups := content.value;
    var i := 0;
    while i < |groups|
      invariant 0 <= i <= |groups|
      invariant forall j :: 0 <= j < i ==> !Decides(groups[j])
    {
      var g := groups[i];
      if g.items.Some? {
        var first: Option<ChannelRef> := if |g.items.value| > 0 then Some(g.items.value[0]) else None;
        var url := if first.Some? then Channels.ChannelUrl(first.value) else None;
        if url.Some? && url.value != "" {
          assert Decides(groups[i]);
          return PickFor(url.value);
        }
      }
      i := i + 1;
    }
    return NoChannel;
  }

  /** Only the first item of a group is looked at: a later item with a url does not help. */
  lemma OnlyFirstItemCounts()
    ensures var hit := ChannelRef(Some("/listen/a/abc"), None, None, None);
            var blank := ChannelRef(None, None, None, None);
            !Decides(ChannelGroup(Some([blank, hit]))) && Decides(ChannelGroup(Some([hit, blank])))
  {
  }
}
