/**
 * The favorites index: the ids of the user's favorite POIs, kept as one list under one
 * key of the device's key-value store. The list operations are pure functions; the store
 * and the operations that rewrite it form the class `FavoriteStore`.
 *
 * A failing storage call is a boolean parameter of the operation that makes it: `readFails`
 * for a `getItem` that rejects or returns text that does not parse, `writeFails` for a
 * `setItem` and `removeFails` for a `removeItem` that rejects.
 */
module FavoriteService {
  import opened Types
  import PoiService

  /** The storage key the list lives under. */
  const FavoritesKey := "user_favorites"

  /** Why an operation rejects. */
  datatype Failure =
    | ReadFailed
    | WriteFailed
    | RemoveFailed
    | LookupFailed(message: string)

  // ---------------------------------------------------------------------------
  // The id list
  // ---------------------------------------------------------------------------

  /** No id is listed twice. */
  predicate NoDuplicates(ids: seq<string>) {
    forall i, j :: 0 <= i < j < |ids| ==> ids[i] != ids[j]
  }

  /** `ids.filter(favId => favId !== id)`. */
  function RemoveAll(ids: seq<string>, id: string): (r: seq<string>)
    ensures id !in r
    ensures forall x :: x in r <==> x in ids && x != id
    ensures |r| <= |ids|
  {
    if ids == [] then []
    else if ids[0] == id then RemoveAll(ids[1..], id)
    else [ids[0]] + RemoveAll(ids[1..], id)
  }

  /**
   * The list `toggleFavoritePOI` writes back: without `id` if it was listed, else with `id`
   * pushed at the end. Either way the id's membership flips and every other id keeps its own.
   */
  function Toggled(ids: seq<string>, id: string): (r: seq<string>)
    ensures id in r <==> id !in ids
    ensures forall other :: other != id ==> (other in r <==> other in ids)
  {
    if id in ids then RemoveAll(ids, id)
    else
      assert (ids + [id])[|ids|] == id;
      ids + [id]
  }

  /** The filter keeps the order of what it keeps: filtering a concatenation concatenates the filtered parts. */
  lemma {:induction false} RemoveAllAppend(a: seq<string>, b: seq<string>, id: string)
    ensures RemoveAll(a + b, id) == RemoveAll(a, id) + RemoveAll(b, id)
  {
    if a == [] {
      assert a + b == b;
    } else {
      assert (a + b)[0] == a[0];
      assert (a + b)[1..] == a[1..] + b;
      RemoveAllAppend(a[1..], b, id);
    }
  }

  /** Removing an id that is not listed changes nothing. */
  lemma {:induction false} RemoveAllAbsent(ids: seq<string>, id: string)
    requires id !in ids
    ensures RemoveAll(ids, id) == ids
  {
    if ids != [] {
      assert ids[0] != id;
      RemoveAllAbsent(ids[1..], id);
      assert ids == [ids[0]] + ids[1..];
    }
  }

  /** Removal keeps a list free of duplicates. */
  lemma {:induction false} RemoveAllNoDuplicates(ids: seq<string>, id: string)
    requires NoDuplicates(ids)
    ensures NoDuplicates(RemoveAll(ids, id))
  {
    if ids != [] {
      assert NoDuplicates(ids[1..]);
      RemoveAllNoDuplicates(ids[1..], id);
      if ids[0] != id {
        var rest := RemoveAll(ids[1..], id);
        assert ids[0] !in ids[1..];
        assert ids[0] !in rest;
        forall i, j | 0 <= i < j < |[ids[0]] + rest|
          ensures ([ids[0]] + rest)[i] != ([ids[0]] + rest)[j]
        {
          if i > 0 {
            assert ([ids[0]] + rest)[i] == rest[i - 1];
          }
          assert ([ids[0]] + rest)[j] == rest[j - 1];
        }
      }
    }
  }

  /** An absent id is appended once, at the end, after the unchanged list. */
  lemma ToggleAppendsOnce(ids: seq<string>, id: string)
    requires id !in ids
    ensures |Toggled(ids, id)| == |ids| + 1
    ensures Toggled(ids, id)[..|ids|] == ids
    ensures Toggled(ids, id)[|ids|] == id
    ensures multiset(Toggled(ids, id))[id] == 1
  {
    assert Toggled(ids, id)[..|ids|] == ids;
    assert multiset(ids)[id] == 0;
  }

  /** A listed id disappears entirely, and the others keep their relative order. */
  lemma ToggleRemovesEveryCopy(ids: seq<string>, id: string, a: seq<string>, b: seq<string>)
    requires ids == a + [id] + b
    ensures id !in Toggled(ids, id)
    ensures Toggled(ids, id) == RemoveAll(a, id) + RemoveAll(b, id)
  {
    assert id in ids by {
      assert ids[|a|] == id;
    }
    RemoveAllAppend(a + [id], b, id);
    RemoveAllAppend(a, [id], id);
    assert [id][1..] == [];
    assert RemoveAll([id], id) == [];
  }

  /** Toggling never lists an id twice. */
  lemma ToggleKeepsNoDuplicates(ids: seq<string>, id: string)
    requires NoDuplicates(ids)
    ensures NoDuplicates(Toggled(ids, id))
  {
    if id in ids {
      RemoveAllNoDuplicates(ids, id);
    }
  }

  /** Toggling an absent id twice gives back the list it started from. */
  lemma ToggleTwiceRestores(ids: seq<string>, id: string)
    requires id !in ids
    ensures Toggled(Toggled(ids, id), id) == ids
  {
    RemoveAllAppend(ids, [id], id);
    RemoveAllAbsent(ids, id);
    assert RemoveAll([id], id) == [];
  }

  /** Toggling a listed id twice restores its membership; it then sits once, at the end. */
  lemma ToggleTwiceRestoresMembership(ids: seq<string>, id: string)
    requires id in ids
    ensures Toggled(Toggled(ids, id), id) == RemoveAll(ids, id) + [id]
    ensures id in Toggled(Toggled(ids, id), id)
  {
  }

  // ---------------------------------------------------------------------------
  // Looking the ids up
  // ---------------------------------------------------------------------------

  /** `Promise.all(ids.map(getPOIById))`: every record in order, or the first rejection. */
  function LookupAll(ids: seq<string>): (r: Result<seq<POI>, Failure>)
    ensures r.Ok? ==> |r.value| == |ids|
    ensures r.Ok? ==> forall i :: 0 <= i < |ids| ==> PoiService.GetPOIById(ids[i]) == Ok(r.value[i])
    ensures r.Err? <==> exists i :: 0 <= i < |ids| && PoiService.GetPOIById(ids[i]).Err?
    ensures r.Err? ==> r.error == LookupFailed(PoiService.PoiNotFound)
  {
    if ids == [] then Ok([])
    else
      match PoiService.GetPOIById(ids[0])
      case Err(message) => Err(LookupFailed(message))
      case Ok(p) =>
        match LookupAll(ids[1..])
        case Err(e) => Err(e)
        case Ok(rest) =>
          assert forall i :: 1 <= i < |ids| ==> ids[i] == ids[1..][i - 1];
          Ok([p] + rest)
  }

  /** The lookups of a concatenation are the lookups of its parts, in order, when both succeed. */
  lemma LookupAllAppend(a: seq<string>, b: seq<string>)
    requires LookupAll(a).Ok? && LookupAll(b).Ok?
    ensures LookupAll(a + b) == Ok(LookupAll(a).value + LookupAll(b).value)
  {
    var ab, va, vb := a + b, LookupAll(a).value, LookupAll(b).value;
    forall i | 0 <= i < |ab|
      ensures PoiService.GetPOIById(ab[i]) == Ok((va + vb)[i])
    {
      if i < |a| {
        assert ab[i] == a[i];
      } else {
        assert ab[i] == b[i - |a|];
      }
    }
    var r := LookupAll(ab);
    assert r.Ok?;
    assert r.value == va + vb;
  }

  /**
   * Adding a known POI to a list that resolves puts its record once at the end of the
   * favorite records; toggling it again gives back the records the list had before.
   */
  lemma ToggleFavoriteRecords(ids: seq<string>, id: string)
    requires id !in ids
    requires LookupAll(ids).Ok? && PoiService.GetPOIById(id).Ok?
    ensures LookupAll(Toggled(ids, id)) == Ok(LookupAll(ids).value + [PoiService.GetPOIById(id).value])
    ensures LookupAll(Toggled(Toggled(ids, id), id)) == LookupAll(ids)
  {
    var single := LookupAll([id]);
    assert [id][0] == id;
    assert single.Ok? && single.value == [PoiService.GetPOIById(id).value];
    LookupAllAppend(ids, [id]);
    ToggleTwiceRestores(ids, id);
  }

  // ---------------------------------------------------------------------------
  // The store
  // ---------------------------------------------------------------------------

  /** The key-value store the service reads and writes, holding each key's parsed list. */
  class FavoriteStore {
    var items: map<string, seq<string>>

    /** A store with no favorites saved. */
    constructor ()
      ensures items == map[]
    {
      items := map[];
    }

    /** The saved list; a missing key reads as the empty list. */
    function StoredIds(): (ids: seq<string>)
      reads this
      ensures FavoritesKey !in items ==> ids == []
    {
      if FavoritesKey in items then items[FavoritesKey] else []
    }

    /** `isFavoritePOI(id)`: whether the saved list holds `id`; a failed read answers false. */
    function IsFavorite(id: string, readFails: bool): (b: bool)
      reads this
      ensures b ==> !readFails && FavoritesKey in items
      ensures b <==> !readFails && id in StoredIds()
    {
      if readFails then false else id in StoredIds()
    }

    /**
     * `getFavoritePOIs()`: the records of the saved ids, in saved order. A failed read and an
     * empty list give no records; an id the catalog does not know rejects the whole call, since
     * the lookups are returned without being awaited inside the `try`.
     */
    function GetFavoritePOIs(readFails: bool): (r: Result<seq<POI>, Failure>)
      reads this
      ensures readFails || StoredIds() == [] ==> r == Ok([])
      ensures !readFails ==> r == LookupAll(StoredIds())
      ensures r.Ok? && !readFails ==> |r.value| == |StoredIds()|
    {
      if readFails then Ok([])
      else
        var ids := StoredIds();
        if |ids| == 0 then Ok([]) else LookupAll(ids)
    }

    /**
     * `toggleFavoritePOI(id)`: reads the list, removes `id` if listed or pushes it, writes the
     * list back and answers the new membership. A failed read or write is rethrown and leaves
     * the store as it was.
     */
    method ToggleFavorite(id: string, readFails: bool, writeFails: bool) returns (r: Result<bool, Failure>)
      modifies this
      ensures readFails ==> r == Err(ReadFailed) && items == old(items)
      ensures !readFails && writeFails ==> r == Err(WriteFailed) && items == old(items)
      ensures !readFails && !writeFails ==>
        && r == Ok(id !in old(StoredIds()))
        && items == old(items)[FavoritesKey := Toggled(old(StoredIds()), id)]
      ensures r.Ok? ==> IsFavorite(id, false) == r.value
      ensures r.Ok? && NoDuplicates(old(StoredIds())) ==> NoDuplicates(StoredIds())
      ensures r == Ok(true) && LookupAll(old(StoredIds())).Ok? && PoiService.GetPOIById(id).Ok? ==>
        GetFavoritePOIs(false) == Ok(LookupAll(old(StoredIds())).value + [PoiService.GetPOIById(id).value])
    {
      if readFails {
        return Err(ReadFailed);
      }
      var favorites := StoredIds();
      var isFavorite := id in favorites;
      if isFavorite {
        favorites := RemoveAll(favorites, id);
      } else {
        favorites := favorites + [id];
      }
      if writeFails {
        return Err(WriteFailed);
      }
      if NoDuplicates(StoredIds()) {
        ToggleKeepsNoDuplicates(StoredIds(), id);
      }
      if !isFavorite && LookupAll(StoredIds()).Ok? && PoiService.GetPOIById(id).Ok? {
        ToggleFavoriteRecords(StoredIds(), id);
      }
      items := items[FavoritesKey := favorites];
      r := Ok(!isFavorite);
    }

    /** `clearAllFavorites()`: removes the key; a failed removal is rethrown and changes nothing. */
    method ClearAllFavorites(removeFails: bool) returns (r: Result<(), Failure>)
      modifies this
      ensures removeFails ==> r == Err(RemoveFailed) && items == old(items)
      ensures !removeFails ==> r == Ok(()) && items == old(items) - {FavoritesKey}
      ensures r.Ok? ==> StoredIds() == [] && GetFavoritePOIs(false) == Ok([])
      ensures r.Ok? ==> forall id :: !IsFavorite(id, false)
    {
      if removeFails {
        return Err(RemoveFailed);
      }
      items := items - {FavoritesKey};
      r := Ok(());
    }
  }
}
