/** The Zustand watch-list store: a list of movies the user appends to and
    removes from by id. */
module Watchlist {
  import opened Keyed

  /** The record the store keeps. */
  datatype WatchItem = WatchItem(id: int, title: string, posterPath: string, releaseDate: string)

  function ItemId(m: WatchItem): int { m.id }

  class WatchlistStore {
    var items: seq<WatchItem>

    /** The store starts empty. */
    constructor ()
      ensures items == []
    {
      items := [];
    }

    /** `addItem`: append at the end, with no check for an id already there. */
    method AddItem(movie: WatchItem)
      modifies this
      ensures items == old(items) + [movie]
      ensures |items| == |old(items)| + 1
    {
      items := items + [movie];
    }

    /** `removeItem`: keep the items whose id differs. */
    method RemoveItem(id: int)
      modifies this
      ensures items == WithoutKey(old(items), id, ItemId)
      ensures !HasKey(items, id, ItemId)
      ensures !HasKey(old(items), id, ItemId) ==> items == old(items)
    {
      items := WithoutKey(items, id, ItemId);
      if !HasKey(old(items), id, ItemId) {
        WithoutAbsentKey(old(items), id, ItemId);
      }
    }
  }

  /** Adding one movie twice keeps both copies. */
  lemma AddKeepsDuplicates(items: seq<WatchItem>, movie: WatchItem)
    ensures multiset((items + [movie]) + [movie])[movie] == multiset(items)[movie] + 2
  {
  }

  /** Removing an id twice is removing it once, and what is left keeps its
      order: removal distributes over any split of the list. */
  lemma RemoveIdempotentAndOrdered(items: seq<WatchItem>, id: int, a: seq<WatchItem>, b: seq<WatchItem>)
    requires items == a + b
    ensures WithoutKey(WithoutKey(items, id, ItemId), id, ItemId) == WithoutKey(items, id, ItemId)
    ensures WithoutKey(items, id, ItemId) == WithoutKey(a, id, ItemId) + WithoutKey(b, id, ItemId)
  {
    WithoutKeyIdempotent(items, id, ItemId);
    WithoutKeyAppend(a, b, id, ItemId);
  }

  /** Removing the id of an item just added takes out that item and every
      earlier one with the same id, nothing else. */
  lemma RemoveAfterAdd(items: seq<WatchItem>, movie: WatchItem)
    ensures WithoutKey(items + [movie], movie.id, ItemId) == WithoutKey(items, movie.id, ItemId)
  {
    WithoutKeyAppend(items, [movie], movie.id, ItemId);
    assert WithoutKey([movie], movie.id, ItemId) == [];
  }
}
