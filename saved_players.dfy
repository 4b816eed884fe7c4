/**
  * The saved-player list (Frontend/src/contexts/SavedPlayersContext.tsx): a sequence of player
  * ids that the user toggles, read back from and written to browser storage.
  */
module SavedPlayers {
  import opened Wrappers

  /** `prev.filter((x) => x !== id)`: every occurrence of `id` removed, the rest in order. */
  function Without(ids: seq<string>, id: string): (r: seq<string>)
    ensures |r| <= |ids|
    ensures forall x :: x in r <==> x in ids && x != id
  {
    if ids == [] then []
    else if ids[0] == id then Without(ids[1..], id)
    else [ids[0]] + Without(ids[1..], id)
  }

  /** Removing an id distributes over concatenation, so the kept ids stay in their order. */
  lemma {:induction false} WithoutAppend(a: seq<string>, b: seq<string>, id: string)
    ensures Without(a + b, id) == Without(a, id) + Without(b, id)
  {
    if a == [] {
      assert a + b == b;
    } else {
      WithoutAppend(a[1..], b, id);
      assert (a + b)[1..] == a[1..] + b;
    }
  }

  /** Removing an id that is absent changes nothing. */
  lemma {:induction false} WithoutAbsent(ids: seq<string>, id: string)
    requires id !in ids
    ensures Without(ids, id) == ids
  {
    if ids != [] {
      WithoutAbsent(ids[1..], id);
      assert ids == [ids[0]] + ids[1..];
    }
  }

  predicate NoDuplicates(ids: seq<string>) {
    forall i, j :: 0 <= i < j < |ids| ==> ids[i] != ids[j]
  }

  lemma {:induction false} WithoutKeepsNoDuplicates(ids: seq<string>, id: string)
    requires NoDuplicates(ids)
    ensures NoDuplicates(Without(ids, id))
  {
    if ids != [] {
      WithoutKeepsNoDuplicates(ids[1..], id);
      if ids[0] != id {
        assert ids[0] !in ids[1..];
        assert ids[0] !in Without(ids[1..], id);
      }
    }
  }

  /** `toggleSaved`'s update: a saved id is removed everywhere, an unsaved one appended. */
  function Toggle(ids: seq<string>, id: string): seq<string> {
    if id in ids then Without(ids, id) else ids + [id]
  }

  /** Toggling flips the toggled id's membership and leaves every other id's alone. */
  lemma ToggleFlips(ids: seq<string>, id: string)
    ensures id in Toggle(ids, id) <==> id !in ids
    ensures forall x :: x != id ==> (x in Toggle(ids, id) <==> x in ids)
  {
  }

  /** An unsaved id goes to the end, after the saved ids in their order. */
  lemma ToggleAbsentAppends(ids: seq<string>, id: string)
    requires id !in ids
    ensures Toggle(ids, id)[..|ids|] == ids && Toggle(ids, id)[|ids|] == id
    ensures |Toggle(ids, id)| == |ids| + 1
  {
  }

  /** Toggling an unsaved id twice gives back the original list. */
  lemma ToggleTwice(ids: seq<string>, id: string)
    requires id !in ids
    ensures Toggle(Toggle(ids, id), id) == ids
  {
    WithoutAppend(ids, [id], id);
    WithoutAbsent(ids, id);
  }

  /** A duplicate-free list stays duplicate-free. */
  lemma ToggleKeepsNoDuplicates(ids: seq<string>, id: string)
    requires NoDuplicates(ids)
    ensures NoDuplicates(Toggle(ids, id))
  {
    if id in ids {
      WithoutKeepsNoDuplicates(ids, id);
    }
  }

  /** `isSaved(id)`: `savedIds.includes(id)`. */
  predicate IsSaved(ids: seq<string>, id: string) {
    exists i :: 0 <= i < |ids| && ids[i] == id
  }

  lemma IsSavedIsMembership(ids: seq<string>, id: string)
    ensures IsSaved(ids, id) <==> id in ids
  {
  }

  /** The initial list: the stored list when one is readable, else empty. */
  function InitialIds(stored: Option<seq<string>>): (r: seq<string>)
    ensures stored.None? ==> r == []
    ensures stored.Some? ==> r == stored.value
  {
    stored.GetOr([])
  }

  /**
    * The provider's state: the saved ids and the copy kept in storage, rewritten after each
    * change of the ids.
    */
  class SavedPlayersStore {
    var savedIds: seq<string>
    var stored: seq<string>

    predicate Persisted()
      reads this
    {
      stored == savedIds
    }

    /** Mounting: the ids are read from storage, and the effect writes them straight back. */
    constructor(fromStorage: Option<seq<string>>)
      ensures Persisted()
      ensures savedIds == InitialIds(fromStorage)
    {
      savedIds := InitialIds(fromStorage);
      stored := savedIds;
    }

    function IsSavedNow(id: string): (r: bool)
      reads this
      ensures r <==> id in savedIds
    {
      IsSavedIsMembership(savedIds, id);
      IsSaved(savedIds, id)
    }

    /** `toggleSaved(id)` followed by the storage effect. */
    method ToggleSaved(id: string)
      modifies this
      ensures savedIds == Toggle(old(savedIds), id)
      ensures Persisted()
      ensures id in savedIds <==> id !in old(savedIds)
      ensures forall x :: x != id ==> (x in savedIds <==> x in old(savedIds))
    {
      ToggleFlips(savedIds, id);
      savedIds := Toggle(savedIds, id);
      stored := savedIds;
    }
  }
}
