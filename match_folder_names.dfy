/**
 * The name-matching step (MatchFolderNamesWithSongs.tsx): the mappings shown
 * are the user's edits from the store when present and the server's
 * suggestions otherwise; `arraysEqual` decides whether the user changed
 * anything; the form writes every change back into the store.
 */
module MatchFolderNames {
  import opened Seqs
  import opened LinkCreatorStore

  /** A song of the repertoire as the song list query returns it. */
  datatype Song = Song(id: string, name: string)

  /**
   * `arraysEqual`: a length check, then `every` over the positions. Comparing
   * `JSON.stringify` outputs is modelled as equality of the records (an
   * `undefined` song id and a `null` one serialise differently, as
   * `Undefined` and `Null` differ).
   */
  function ArraysEqual<T(==)>(a: seq<T>, b: seq<T>): bool {
    if |a| != |b| then false else EveryPositionEqual(a, b)
  }

  function EveryPositionEqual<T(==)>(a: seq<T>, b: seq<T>): bool
    requires |a| == |b|
  {
    a == [] || (a[0] == b[0] && EveryPositionEqual(a[1..], b[1..]))
  }

  lemma {:induction false} EveryPositionEqualIsEquality<T>(a: seq<T>, b: seq<T>)
    requires |a| == |b|
    ensures EveryPositionEqual(a, b) <==> a == b
  {
    if a != [] {
      EveryPositionEqualIsEquality(a[1..], b[1..]);
      if a[0] == b[0] && a[1..] == b[1..] {
        assert a == [a[0]] + a[1..] && b == [b[0]] + b[1..];
      }
    }
  }

  /** `arraysEqual` holds exactly for equal arrays; in particular different lengths are unequal. */
  lemma ArraysEqualIsEquality<T>(a: seq<T>, b: seq<T>)
    ensures ArraysEqual(a, b) <==> a == b
    ensures |a| != |b| ==> !ArraysEqual(a, b)
  {
    if |a| == |b| {
      EveryPositionEqualIsEquality(a, b);
    }
  }

  /** `getMappings.data ?? []` */
  function DbMappings(data: Option<seq<FolderToSongMapping>>): seq<FolderToSongMapping> {
    data.GetOr([])
  }

  /** `userMappings ?? dbMappings` */
  function Displayed(user: Option<seq<FolderToSongMapping>>, db: seq<FolderToSongMapping>): (r: seq<FolderToSongMapping>)
    ensures user.Some? ==> r == user.value
    ensures user.None? ==> r == db
  {
    user.GetOr(db)
  }

  /** `!arraysEqual(dbMappings, mappings)` */
  predicate MappingsChangedByUser(user: Option<seq<FolderToSongMapping>>, db: seq<FolderToSongMapping>) {
    !ArraysEqual(db, Displayed(user, db))
  }

  /**
   * The notice appears exactly when the store holds mappings that differ from
   * the server's: never without user mappings, never right after a reset, and
   * not merely because the form copied the shown mappings into the store.
   */
  lemma ChangedByUserExactly(user: Option<seq<FolderToSongMapping>>, db: seq<FolderToSongMapping>)
    ensures MappingsChangedByUser(user, db) <==> user.Some? && user.value != db
    ensures !MappingsChangedByUser(None, db)
    ensures !MappingsChangedByUser(Some(db), db)
    ensures MappingsChangedByUser(Some(Displayed(user, db)), db) == MappingsChangedByUser(user, db)
  {
    ArraysEqualIsEquality(db, Displayed(user, db));
    ArraysEqualIsEquality(db, db);
  }

  /** `value?.id ?? null`, written into row `index`'s `songId`. */
  function AssignSong(matches: seq<FolderToSongMapping>, index: int, song: Option<Song>): (r: seq<FolderToSongMapping>)
    requires 0 <= index < |matches|
    ensures |r| == |matches|
    ensures forall j :: 0 <= j < |r| && j != index ==> r[j] == matches[j]
    ensures r[index].folderId == matches[index].folderId && r[index].folderName == matches[index].folderName
    ensures song.Some? ==> r[index].songId == Defined(song.value.id)
    ensures song.None? ==> r[index].songId == Null
  {
    matches[index := matches[index].(songId := if song.Some? then Defined(song.value.id) else Null)]
  }

  /** The autocomplete's value for a row: `songs.find(song => song.id === match.songId) ?? null`. */
  function SelectedSong(songs: seq<Song>, m: FolderToSongMapping): Option<Song> {
    if m.songId.Defined? then FindBy(songs, (s: Song) => s.id, m.songId.value) else None
  }

  /** After a song from the list is chosen in a row, that row shows a song with the chosen id; after clearing, none. */
  lemma RowShowsChoice(songs: seq<Song>, matches: seq<FolderToSongMapping>, index: int, song: Option<Song>)
    requires 0 <= index < |matches|
    requires song.Some? ==> song.value in songs
    ensures var shown := SelectedSong(songs, AssignSong(matches, index, song)[index]);
      (song.Some? ==> shown.Some? && shown.value.id == song.value.id) && (song.None? ==> shown.None?)
  {
    if song.Some? {
      var k :| 0 <= k < |songs| && songs[k] == song.value;
      assert ((s: Song) => s.id)(songs[k]) == song.value.id;
    }
  }

  /**
   * `NameMappingForm`: Formik's `matches` array. Mounting writes the initial
   * mappings to the store, and every change writes the whole array.
   */
  class NameMappingForm {
    var matches: seq<FolderToSongMapping>
    const store: LinkCreatorStore.Store

    constructor (initialMappings: seq<FolderToSongMapping>, s: LinkCreatorStore.Store)
      modifies s
      ensures matches == initialMappings && store == s
      ensures s.mappings == Some(initialMappings) && s.State() == old(s.State())
    {
      matches := initialMappings;
      store := s;
      s.HandleMappingsChange(initialMappings);
    }

    /** The autocomplete's `onChange` in row `index`, followed by the `validate` callback. */
    method SelectSong(index: int, song: Option<Song>)
      requires 0 <= index < |matches|
      modifies this, store
      ensures matches == AssignSong(old(matches), index, song)
      ensures store.mappings == Some(matches) && store.State() == old(store.State())
    {
      matches := matches[index := matches[index].(songId := if song.Some? then Defined(song.value.id) else Null)];
      store.HandleMappingsChange(matches);
    }
  }

  /** `handleResetClick`: the server's mappings go back into the store, which clears the notice. */
  method HandleResetClick(s: LinkCreatorStore.Store, data: Option<seq<FolderToSongMapping>>)
    modifies s
    ensures s.mappings == Some(DbMappings(data)) && s.State() == old(s.State())
    ensures !MappingsChangedByUser(s.mappings, DbMappings(data))
  {
    s.HandleMappingsChange(DbMappings(data));
    ChangedByUserExactly(s.mappings, DbMappings(data));
  }
}
