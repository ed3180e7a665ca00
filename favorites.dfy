/** The favourites list transforms of src/lib/store.ts (de-duplicated prepend, filter-out, some). */
module Favorites {
  import opened Types
  import Seqs

  /** `favorites.some((f) => f.channelId === id)`. */
  predicate Has(favs: seq<FavoriteStation>, id: string)
  {
    exists i :: 0 <= i < |favs| && favs[i].channelId == id
  }

  /** No two entries share a channel id. */
  predicate UniqueIds(favs: seq<FavoriteStation>)
  {
    forall i, j :: 0 <= i < j < |favs| ==> favs[i].channelId != favs[j].channelId
  }

  /** The list `addFavorite(station)` stores: unchanged when the id is present, else prepended. */
  function Add(favs: seq<FavoriteStation>, station: FavoriteStation): (r: seq<FavoriteStation>)
    ensures Has(r, station.channelId)
    ensures Has(favs, station.channelId) ==> r == favs
    ensures !Has(favs, station.channelId) ==> |r| == |favs| + 1 && r[0] == station && r[1..] == favs
  {
    if Has(favs, station.channelId) then favs
    else assert ([station] + favs)[0] == station; [station] + favs
  }

  function KeepOthers(id: string): FavoriteStation -> bool
  {
    (f: FavoriteStation) => f.channelId != id
  }

  /** The list `removeFavorite(id)` stores: every entry with that id dropped, the rest in order. */
  function Remove(favs: seq<FavoriteStation>, id: string): (r: seq<FavoriteStation>)
    ensures !Has(r, id)
    ensures forall f :: f in r <==> f in favs && f.channelId != id
    ensures !Has(favs, id) ==> r == favs
  {
    var r := Seqs.Filter(favs, KeepOthers(id));
    Seqs.FilterMembers(favs, KeepOthers(id));
    assert forall i :: 0 <= i < |r| ==> r[i] in r;
    if !Has(favs, id) then Seqs.FilterAllPass(favs, KeepOthers(id)); r else r
  }

  /** Removal keeps order: it acts on each part of a concatenation separately. */
  lemma RemoveConcat(a: seq<FavoriteStation>, b: seq<FavoriteStation>, id: string)
    ensures Remove(a + b, id) == Remove(a, id) + Remove(b, id)
  {
    Seqs.FilterConcat(a, b, KeepOthers(id));
  }

  /** Adding keeps channel ids unique. */
  lemma AddKeepsUnique(favs: seq<FavoriteStation>, station: FavoriteStation)
    requires UniqueIds(favs)
    ensures UniqueIds(Add(favs, station))
  {
    var r := Add(favs, station);
    if !Has(favs, station.channelId) {
      forall i, j | 0 <= i < j < |r| ensures r[i].channelId != r[j].channelId {
        if i == 0 {
          assert r[j] == favs[j - 1];
        } else {
          assert r[i] == favs[i - 1] && r[j] == favs[j - 1];
        }
      }
    }
  }

  /** Appending an entry whose id no earlier entry has keeps ids unique. */
  lemma UniqueSnoc(favs: seq<FavoriteStation>, f: FavoriteStation)
    requires UniqueIds(favs)
    requires forall g :: g in favs ==> g.channelId != f.channelId
    ensures UniqueIds(favs + [f])
  {
    var r := favs + [f];
    forall i, j | 0 <= i < j < |r| ensures r[i].channelId != r[j].channelId {
      assert r[i] == favs[i];
      if j == |favs| {
        assert r[i] in favs;
      } else {
        assert r[j] == favs[j];
      }
    }
  }

  /** Removing keeps channel ids unique. */
  lemma {:induction false} RemoveKeepsUnique(favs: seq<FavoriteStation>, id: string)
    requires UniqueIds(favs)
    ensures UniqueIds(Remove(favs, id))
    decreases |favs|
  {
    if |favs| > 0 {
      var init := favs[..|favs| - 1];
      var last := favs[|favs| - 1];
      assert UniqueIds(init);
      RemoveKeepsUnique(init, id);
      var ri := Remove(init, id);
      assert Remove(favs, id) == ri + (if last.channelId != id then [last] else []);
      if last.channelId != id {
        forall g | g in ri ensures g.channelId != last.channelId {
          assert g in init;
          var k :| 0 <= k < |init| && init[k] == g;
          assert favs[k] == g;
        }
        UniqueSnoc(ri, last);
      } else {
        assert ri + [] == ri;
      }
    }
  }
}
