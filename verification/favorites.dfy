/**
 * The favorites store of src/context/FavoritesContext.js: an ordered list of
 * `{id, name, url}` records held in memory, mirrored into durable storage
 * under one key on every toggle.
 *
 * The list operations (`isFavorite`'s `.some`, the `.filter` and the spread
 * of `toggleFavorite`) are functions; the provider's state cell and the
 * storage mirror are the fields of `Store`.
 */
module Favorites {
  import opened Wrappers
  import opened Helpers

  /** One favorite as the app stores it. */
  datatype Record = Record(id: Id, name: string, url: string)

  /** `favs.some((fav) => fav.id === id)` */
  function IsFavoriteIn(favs: seq<Record>, id: Id): (b: bool)
    ensures b <==> exists x :: x in favs && x.id == id
  {
    if favs == [] then false
    else
      assert favs == [favs[0]] + favs[1..];
      favs[0].id == id || IsFavoriteIn(favs[1..], id)
  }

  /** `favs.filter((fav) => fav.id !== id)` */
  function RemoveId(favs: seq<Record>, id: Id): (r: seq<Record>)
    ensures |r| <= |favs|
    ensures forall x :: x in r <==> x in favs && x.id != id
  {
    if favs == [] then []
    else if favs[0].id == id then RemoveId(favs[1..], id)
    else [favs[0]] + RemoveId(favs[1..], id)
  }

  /** Filtering distributes over concatenation, so the survivors keep their relative order. */
  lemma {:induction false} RemoveIdAppend(a: seq<Record>, b: seq<Record>, id: Id)
    ensures RemoveId(a + b, id) == RemoveId(a, id) + RemoveId(b, id)
  {
    if a == [] {
      assert a + b == b;
    } else {
      assert (a + b)[0] == a[0];
      assert (a + b)[1..] == a[1..] + b;
      RemoveIdAppend(a[1..], b, id);
    }
  }

  /** Removing an id that no record carries leaves the list exactly as it was. */
  lemma {:induction false} RemoveAbsentId(favs: seq<Record>, id: Id)
    requires !IsFavoriteIn(favs, id)
    ensures RemoveId(favs, id) == favs
  {
    if favs != [] {
      assert favs == [favs[0]] + favs[1..];
      RemoveAbsentId(favs[1..], id);
      assert favs == [favs[0]] + favs[1..];
    }
  }

  /** No two records share an id. */
  ghost predicate UniqueIds(favs: seq<Record>) {
    forall i, j :: 0 <= i < j < |favs| ==> favs[i].id != favs[j].id
  }

  /** The tail of a list with unique ids has unique ids. */
  lemma UniqueTail(favs: seq<Record>)
    requires favs != [] && UniqueIds(favs)
    ensures UniqueIds(favs[1..])
    ensures forall x :: x in favs[1..] ==> x.id != favs[0].id
  {
    var tail := favs[1..];
    forall i, j | 0 <= i < j < |tail| ensures tail[i].id != tail[j].id {
      assert tail[i] == favs[i + 1] && tail[j] == favs[j + 1];
    }
    forall x | x in tail ensures x.id != favs[0].id {
      var k :| 0 <= k < |tail| && tail[k] == x;
      assert favs[k + 1] == x;
    }
  }

  /** A record whose id no later record carries can head a list with unique ids. */
  lemma UniqueCons(h: Record, rest: seq<Record>)
    requires UniqueIds(rest)
    requires forall x :: x in rest ==> x.id != h.id
    ensures UniqueIds([h] + rest)
  {
    var r := [h] + rest;
    forall i, j | 0 <= i < j < |r| ensures r[i].id != r[j].id {
      assert r[j] == rest[j - 1];
      if i > 0 {
        assert r[i] == rest[i - 1];
      }
    }
  }

  /** Filtering a list with unique ids leaves a list with unique ids. */
  lemma {:induction false} RemoveIdKeepsUnique(favs: seq<Record>, id: Id)
    requires UniqueIds(favs)
    ensures UniqueIds(RemoveId(favs, id))
  {
    if favs != [] {
      UniqueTail(favs);
      RemoveIdKeepsUnique(favs[1..], id);
      if favs[0].id != id {
        UniqueCons(favs[0], RemoveId(favs[1..], id));
      }
    }
  }

  /**
   * The list `toggleFavorite(p)` builds: without every record carrying
   * `p.id` when that id is present, with `p` appended otherwise.
   */
  function Toggled(favs: seq<Record>, p: Record): (r: seq<Record>)
    ensures IsFavoriteIn(r, p.id) == !IsFavoriteIn(favs, p.id)
    ensures IsFavoriteIn(favs, p.id) ==> forall x :: x in r <==> x in favs && x.id != p.id
    ensures !IsFavoriteIn(favs, p.id) ==> r == favs + [p]
  {
    if IsFavoriteIn(favs, p.id) then RemoveId(favs, p.id) else favs + [p]
  }

  /** Toggling one record leaves the membership of every other id as it was. */
  lemma ToggleLeavesOtherIds(favs: seq<Record>, p: Record, id: Id)
    requires id != p.id
    ensures IsFavoriteIn(Toggled(favs, p), id) == IsFavoriteIn(favs, id)
  {
    if !IsFavoriteIn(favs, p.id) {
      assert forall x :: x in favs + [p] <==> x in favs || x == p;
    }
  }

  /** Toggling a record on and off again restores the list exactly. */
  lemma ToggleTwiceRestores(favs: seq<Record>, p: Record)
    requires !IsFavoriteIn(favs, p.id)
    ensures Toggled(Toggled(favs, p), p) == favs
  {
    RemoveIdAppend(favs, [p], p.id);
    RemoveAbsentId(favs, p.id);
    assert RemoveId([p], p.id) == [];
  }

  /** Toggling never introduces a second record with the same id. */
  lemma ToggleKeepsUnique(favs: seq<Record>, p: Record)
    requires UniqueIds(favs)
    ensures UniqueIds(Toggled(favs, p))
  {
    if IsFavoriteIn(favs, p.id) {
      RemoveIdKeepsUnique(favs, p.id);
    }
  }

  /** The list after toggling the same record `n` times. */
  function ToggledTimes(favs: seq<Record>, p: Record, n: nat): seq<Record>
  {
    if n == 0 then favs else Toggled(ToggledTimes(favs, p, n - 1), p)
  }

  /** Presence parity: after an even number of toggles the list is back, after an odd one `p` is at the end. */
  lemma {:induction false} TogglesFollowParity(favs: seq<Record>, p: Record, n: nat)
    requires !IsFavoriteIn(favs, p.id)
    ensures ToggledTimes(favs, p, n) == if n % 2 == 0 then favs else favs + [p]
  {
    if n > 0 {
      TogglesFollowParity(favs, p, n - 1);
      ToggleAlternates(favs, p, ToggledTimes(favs, p, n - 1));
    }
  }

  /** One toggle moves between the list without `p` and the list with `p` appended. */
  lemma ToggleAlternates(favs: seq<Record>, p: Record, prev: seq<Record>)
    requires !IsFavoriteIn(favs, p.id)
    ensures prev == favs ==> Toggled(prev, p) == favs + [p]
    ensures prev == favs + [p] ==> Toggled(prev, p) == favs
  {
    if prev == favs + [p] {
      ToggleTwiceRestores(favs, p);
    }
  }

  /** Net state of repeated toggles: present exactly after an odd number of them. */
  lemma PresenceFollowsParity(favs: seq<Record>, p: Record, n: nat)
    requires !IsFavoriteIn(favs, p.id)
    ensures IsFavoriteIn(ToggledTimes(favs, p, n), p.id) <==> n % 2 == 1
  {
    TogglesFollowParity(favs, p, n);
    if n % 2 == 1 {
      assert p in favs + [p];
    }
  }

  /** The provider: the `favorites` state cell and the storage entry it is mirrored to. */
  class Store {
    /** The in-memory list, the source of truth during a session. */
    var favorites: seq<Record>
    /** The value under the storage key; `None` while the key is absent. */
    ghost var stored: Option<seq<Record>>

    /** A fresh provider: empty list, storage as it was left by earlier sessions. */
    constructor (ghost storage: Option<seq<Record>>)
      ensures favorites == [] && stored == storage
    {
      favorites := [];
      stored := storage;
    }

    /** `isFavorite(id)`: strict comparison, so `Str("25")` never matches `Num(25)`. */
    function IsFavorite(id: Id): (b: bool)
      reads this
      ensures b <==> exists x :: x in favorites && x.id == id
    {
      IsFavoriteIn(favorites, id)
    }

    /**
     * `loadFavorites()`: `read` is what reading and parsing the storage entry
     * gave: `Ok(Some(list))` for a present entry, `Ok(None)` for a missing
     * one, `Failed` when reading or parsing threw (logged and ignored).
     */
    method LoadFavorites(read: LoadOutcome)
      requires read.Read? && read.value.Some? ==> read.value == stored
      modifies this`favorites
      ensures favorites == if read.Read? && read.value.Some? then read.value.value else old(favorites)
    {
      if read.Read? && read.value.Some? {
        favorites := read.value.value;
      }
    }

    /**
     * `saveFavorites(newFavorites)`: `saved` says whether the storage write
     * succeeded; a failure only raises an alert, reported in `alerted`.
     */
    method SaveFavorites(newFavorites: seq<Record>, saved: bool) returns (alerted: bool)
      modifies this`stored
      ensures stored == if saved then Some(newFavorites) else old(stored)
      ensures alerted == !saved
    {
      if saved {
        stored := Some(newFavorites);
      }
      alerted := !saved;
    }

    /**
     * `toggleFavorite(p)`: replace the list, then write it to storage. A
     * failed write does not roll the in-memory list back.
     */
    method ToggleFavorite(p: Record, saved: bool) returns (alerted: bool)
      modifies this
      ensures favorites == Toggled(old(favorites), p)
      ensures IsFavorite(p.id) == !old(IsFavorite(p.id))
      ensures stored == if saved then Some(favorites) else old(stored)
      ensures alerted == !saved
    {
      var newFavorites;
      if IsFavorite(p.id) {
        newFavorites := RemoveId(favorites, p.id);
      } else {
        newFavorites := favorites + [p];
      }
      favorites := newFavorites;
      alerted := SaveFavorites(newFavorites, saved);
    }
  }

  /** The outcome of reading the storage entry at start-up. */
  datatype LoadOutcome = Read(value: Option<seq<Record>>) | ReadFailed
}
