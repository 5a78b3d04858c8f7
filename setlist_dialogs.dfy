/**
 * The two setlist editing dialogs (components/SetlistDialog.tsx and
 * components/admin/SetlistDialog.tsx). Both keep a title and a list of song
 * ids; songs are appended, removed with all their copies, and moved up or
 * down by swapping the first copy with its neighbour. Module
 * `SetlistEditing` states the list operations once; the two dialog modules
 * hold the component state as classes.
 */
module SetlistEditing {
  import opened Seqs

  /** The value the dialogs receive as `initialValues` and emit on save. */
  datatype SetlistData = SetlistData(songIds: seq<string>, name: string)

  /** `ids` with the entries at `i` and `j` exchanged. */
  function Swapped(ids: seq<string>, i: int, j: int): (r: seq<string>)
    requires 0 <= i < |ids| && 0 <= j < |ids|
    ensures |r| == |ids| && r[i] == ids[j] && r[j] == ids[i]
    ensures forall k :: 0 <= k < |ids| && k != i && k != j ==> r[k] == ids[k]
    ensures multiset(r) == multiset(ids)
  {
    ids[i := ids[j]][j := ids[i]]
  }

  /** Swapping is symmetric in the two positions. */
  lemma SwappedSymmetric(ids: seq<string>, i: int, j: int)
    requires 0 <= i < |ids| && 0 <= j < |ids|
    ensures Swapped(ids, i, j) == Swapped(ids, j, i)
  {
    var a, b := Swapped(ids, i, j), Swapped(ids, j, i);
    assert forall k :: 0 <= k < |ids| ==> a[k] == b[k];
  }

  /** Swapping the same two positions twice restores the list. */
  lemma SwapTwice(ids: seq<string>, i: int, j: int)
    requires 0 <= i < |ids| && 0 <= j < |ids|
    ensures Swapped(Swapped(ids, i, j), i, j) == ids
  {
    var a := Swapped(Swapped(ids, i, j), i, j);
    assert forall k :: 0 <= k < |ids| ==> a[k] == ids[k];
  }

  /** `handleMoveUpClick`: the first copy of `id` trades places with its predecessor, if it has one. */
  function MovedUp(ids: seq<string>, id: string): seq<string> {
    var k := FirstIndex(ids, id);
    if k > 0 then Swapped(ids, k - 1, k) else ids
  }

  /**
   * `handleMoveDownClick`: the first copy of `id` trades places with its
   * successor, if it has one. The handler is only reached from a row of the
   * list, so `id` is present (for an absent id `findIndex` gives -1 and the
   * handler would write at index -1).
   */
  function MovedDown(ids: seq<string>, id: string): seq<string>
    requires id in ids
  {
    var k := FirstIndex(ids, id);
    if k < |ids| - 1 then Swapped(ids, k, k + 1) else ids
  }

  /**
   * Moving up keeps the songs and their count; it touches only the first copy's
   * position and the one before, and it is a no-op when the song is absent or
   * already first.
   */
  lemma MoveUpRules(ids: seq<string>, id: string)
    ensures |MovedUp(ids, id)| == |ids| && multiset(MovedUp(ids, id)) == multiset(ids)
    ensures var k := FirstIndex(ids, id);
      (k <= 0 ==> MovedUp(ids, id) == ids)
      && (k > 0 ==>
            && MovedUp(ids, id)[k - 1] == id && MovedUp(ids, id)[k] == ids[k - 1]
            && forall j :: 0 <= j < |ids| && j != k - 1 && j != k ==> MovedUp(ids, id)[j] == ids[j])
  {
  }

  /** The same for moving down, which is a no-op on the last position. */
  lemma MoveDownRules(ids: seq<string>, id: string)
    requires id in ids
    ensures |MovedDown(ids, id)| == |ids| && multiset(MovedDown(ids, id)) == multiset(ids)
    ensures var k := FirstIndex(ids, id);
      (k == |ids| - 1 ==> MovedDown(ids, id) == ids)
      && (k < |ids| - 1 ==>
            && MovedDown(ids, id)[k + 1] == id && MovedDown(ids, id)[k] == ids[k + 1]
            && forall j :: 0 <= j < |ids| && j != k && j != k + 1 ==> MovedDown(ids, id)[j] == ids[j])
  {
  }

  /** Moving a song up and then down again restores the list. */
  lemma MoveUpThenDown(ids: seq<string>, id: string)
    requires id in ids && FirstIndex(ids, id) > 0
    ensures id in MovedUp(ids, id) && MovedDown(MovedUp(ids, id), id) == ids
  {
    var k := FirstIndex(ids, id);
    var up := Swapped(ids, k - 1, k);
    assert MovedUp(ids, id) == up;
    FirstIndexAt(up, id, k - 1);
    assert MovedDown(up, id) == Swapped(up, k - 1, k);
    SwapTwice(ids, k - 1, k);
  }

  /** Moving down and then up restores the list when the song's successor is a different song. */
  lemma MoveDownThenUp(ids: seq<string>, id: string)
    requires id in ids
    requires FirstIndex(ids, id) < |ids| - 1 && ids[FirstIndex(ids, id) + 1] != id
    ensures MovedUp(MovedDown(ids, id), id) == ids
  {
    var k := FirstIndex(ids, id);
    var down := Swapped(ids, k, k + 1);
    assert MovedDown(ids, id) == down;
    FirstIndexAt(down, id, k + 1);
    assert MovedUp(down, id) == Swapped(down, k, k + 1);
    SwapTwice(ids, k, k + 1);
  }

  /** Removing a song drops all its copies and keeps the other songs in order. */
  lemma RemoveRules(ids: seq<string>, id: string)
    ensures id !in RemoveAll(ids, id)
    ensures IsSubsequence(RemoveAll(ids, id), ids)
    ensures multiset(RemoveAll(ids, id)) == multiset(ids)[id := 0]
  {
    RemoveAllIsSubsequence(ids, id);
  }

  /** The copy-and-swap of both handlers, on a fresh array as `[...setlistSongIds]` makes. */
  method SwapCopy(ids: seq<string>, i: int, j: int) returns (r: seq<string>)
    requires 0 <= i < |ids| && 0 <= j < |ids|
    ensures r == Swapped(ids, i, j)
  {
    var newSetlistData := new string[|ids|](k requires 0 <= k < |ids| => ids[k]);
    assert newSetlistData[..] == ids;
    var temp := newSetlistData[j];
    newSetlistData[j] := newSetlistData[i];
    newSetlistData[i] := temp;
    r := newSetlistData[..];
  }
}

/** components/SetlistDialog.tsx */
module SetlistDialog {
  import opened Seqs
  import opened SetlistEditing

  class Dialog {
    var setlistTitle: string
    var setlistSongIds: seq<string>

    constructor ()
      ensures setlistTitle == "" && setlistSongIds == []
    {
      setlistTitle := "";
      setlistSongIds := [];
    }

    /** The effect on `initialValues`: copy them in, or clear both fields. */
    method ApplyInitialValues(initialValues: Option<SetlistData>)
      modifies this
      ensures initialValues.Some? ==> setlistSongIds == initialValues.value.songIds && setlistTitle == initialValues.value.name
      ensures initialValues.None? ==> setlistSongIds == [] && setlistTitle == ""
    {
      if initialValues.Some? {
        setlistSongIds := initialValues.value.songIds;
        setlistTitle := initialValues.value.name;
      } else {
        setlistSongIds := [];
        setlistTitle := "";
      }
    }

    /** `handleSave`: what `onSave` receives. */
    method HandleSave() returns (saved: SetlistData)
      ensures saved.songIds == setlistSongIds && saved.name == setlistTitle
    {
      saved := SetlistData(setlistSongIds, setlistTitle);
    }

    method SetTitle(title: string)
      modifies this
      ensures setlistTitle == title && setlistSongIds == old(setlistSongIds)
    {
      setlistTitle := title;
    }

    /** The autocomplete's `onChange`: a chosen song's id is appended, even if already listed. */
    method HandleSongPicked(songId: Option<string>)
      modifies this
      ensures songId.Some? ==> setlistSongIds == old(setlistSongIds) + [songId.value]
      ensures songId.None? ==> setlistSongIds == old(setlistSongIds)
      ensures setlistTitle == old(setlistTitle)
    {
      if songId.Some? {
        setlistSongIds := setlistSongIds + [songId.value];
      }
    }

    method HandleRemoveClick(songId: string)
      modifies this
      ensures setlistSongIds == RemoveAll(old(setlistSongIds), songId) && setlistTitle == old(setlistTitle)
    {
      setlistSongIds := RemoveAll(setlistSongIds, songId);
    }

    method HandleMoveUpClick(songId: string)
      modifies this
      ensures setlistSongIds == MovedUp(old(setlistSongIds), songId) && setlistTitle == old(setlistTitle)
    {
      var songIndex := FirstIndex(setlistSongIds, songId);
      if songIndex > 0 {
        setlistSongIds := SwapCopy(setlistSongIds, songIndex - 1, songIndex);
      }
    }

    method HandleMoveDownClick(songId: string)
      requires songId in setlistSongIds
      modifies this
      ensures setlistSongIds == MovedDown(old(setlistSongIds), songId) && setlistTitle == old(setlistTitle)
    {
      var songIndex := FirstIndex(setlistSongIds, songId);
      if songIndex < |setlistSongIds| - 1 {
        SwappedSymmetric(setlistSongIds, songIndex + 1, songIndex);
        setlistSongIds := SwapCopy(setlistSongIds, songIndex + 1, songIndex);
      }
    }
  }
}

/** components/admin/SetlistDialog.tsx: the same state and handlers. */
module AdminSetlistDialog {
  import opened Seqs
  import opened SetlistEditing

  class Dialog {
    var setlistTitle: string
    var setlistSongIds: seq<string>

    constructor ()
      ensures setlistTitle == "" && setlistSongIds == []
    {
      setlistTitle := "";
      setlistSongIds := [];
    }

    method ApplyInitialValues(initialValues: Option<SetlistData>)
      modifies this
      ensures initialValues.Some? ==> setlistSongIds == initialValues.value.songIds && setlistTitle == initialValues.value.name
      ensures initialValues.None? ==> setlistSongIds == [] && setlistTitle == ""
    {
      if initialValues.Some? {
        setlistSongIds := initialValues.value.songIds;
        setlistTitle := initialValues.value.name;
      } else {
        setlistSongIds := [];
        setlistTitle := "";
      }
    }

    method HandleSave() returns (saved: SetlistData)
      ensures saved.songIds == setlistSongIds && saved.name == setlistTitle
    {
      saved := SetlistData(setlistSongIds, setlistTitle);
    }

    method SetTitle(title: string)
      modifies this
      ensures setlistTitle == title && setlistSongIds == old(setlistSongIds)
    {
      setlistTitle := title;
    }

    method HandleSongPicked(songId: Option<string>)
      modifies this
      ensures songId.Some? ==> setlistSongIds == old(setlistSongIds) + [songId.value]
      ensures songId.None? ==> setlistSongIds == old(setlistSongIds)
      ensures setlistTitle == old(setlistTitle)
    {
      if songId.Some? {
        setlistSongIds := setlistSongIds + [songId.value];
      }
    }

    method HandleRemoveClick(songId: string)
      modifies this
      ensures setlistSongIds == RemoveAll(old(setlistSongIds), songId) && setlistTitle == old(setlistTitle)
    {
      setlistSongIds := RemoveAll(setlistSongIds, songId);
    }

    method HandleMoveUpClick(songId: string)
      modifies this
      ensures setlistSongIds == MovedUp(old(setlistSongIds), songId) && setlistTitle == old(setlistTitle)
    {
      var songIndex := FirstIndex(setlistSongIds, songId);
      if songIndex > 0 {
        setlistSongIds := SwapCopy(setlistSongIds, songIndex - 1, songIndex);
      }
    }

    method HandleMoveDownClick(songId: string)
      requires songId in setlistSongIds
      modifies this
      ensures setlistSongIds == MovedDown(old(setlistSongIds), songId) && setlistTitle == old(setlistTitle)
    {
      var songIndex := FirstIndex(setlistSongIds, songId);
      if songIndex < |setlistSongIds| - 1 {
        SwappedSymmetric(setlistSongIds, songIndex + 1, songIndex);
        setlistSongIds := SwapCopy(setlistSongIds, songIndex + 1, songIndex);
      }
    }
  }
}
