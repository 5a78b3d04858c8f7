/**
 * Setlists in the database: the `Setlist` table, the `SetlistSongInfo` table
 * whose rows place a song at an `order` position of a setlist, and the
 * `Song` table the entries refer to. Module `SetlistTables` holds the rows,
 * the order assignment and read-back shared by every writer and reader, and
 * the tables as a class; the modules after it are the tRPC `add` mutation,
 * the REST handler and the two pages that read setlists back.
 */
module SetlistTables {
  import opened Seqs

  datatype Song = Song(id: string, name: string)

  /** A `Setlist` row; `createdAt` is the database clock at insertion. */
  datatype SetlistRow = SetlistRow(id: int, name: string, createdAt: int)

  /** A `SetlistSongInfo` row. */
  datatype SongInfo = SongInfo(songId: string, setlistId: int, order: int)

  /**
   * `songIds.map((songId, i) => ({ songId, setlistId, order: i }))`: one entry
   * per position, duplicates included.
   */
  function SongInfoInputs(songIds: seq<string>, setlistId: int): (r: seq<SongInfo>)
    ensures |r| == |songIds|
    ensures forall i :: 0 <= i < |r| ==> r[i] == SongInfo(songIds[i], setlistId, i)
  {
    seq(|songIds|, i requires 0 <= i < |songIds| => SongInfo(songIds[i], setlistId, i))
  }

  /** The comparator `(a, b) => a.order - b.order` as an ordering. */
  function ByOrder(): (SongInfo, SongInfo) -> bool {
    (a: SongInfo, b: SongInfo) => a.order <= b.order
  }

  lemma ByOrderIsTotalPreorder()
    ensures TotalPreorder(ByOrder())
  {
  }

  /** `entries.map(entry => entry.songId)` */
  function SongIdsOf(entries: seq<SongInfo>): (r: seq<string>)
    ensures |r| == |entries|
    ensures forall i :: 0 <= i < |r| ==> r[i] == entries[i].songId
  {
    seq(|entries|, i requires 0 <= i < |entries| => entries[i].songId)
  }

  /** The song ids of a setlist's entries after sorting them by `order`. */
  function OrderedSongIds(entries: seq<SongInfo>): seq<string> {
    SongIdsOf(SortBy(entries, ByOrder()))
  }

  /** The entries of one setlist. */
  function EntriesOf(songInfos: seq<SongInfo>, setlistId: int): seq<SongInfo> {
    Filter(songInfos, (e: SongInfo) => e.setlistId == setlistId)
  }

  /**
   * The order round trip: whatever entries other setlists have, the entries
   * written for a new setlist, read back and sorted by order, give back the
   * song ids in the order they were submitted, duplicates included.
   */
  lemma {:induction false} OrderRoundTrip(existing: seq<SongInfo>, songIds: seq<string>, setlistId: int)
    requires forall i :: 0 <= i < |existing| ==> existing[i].setlistId != setlistId
    ensures EntriesOf(existing + SongInfoInputs(songIds, setlistId), setlistId) == SongInfoInputs(songIds, setlistId)
    ensures OrderedSongIds(EntriesOf(existing + SongInfoInputs(songIds, setlistId), setlistId)) == songIds
  {
    var p := (e: SongInfo) => e.setlistId == setlistId;
    var inputs := SongInfoInputs(songIds, setlistId);
    FilterAppend(existing, inputs, p);
    FilterDropsAll(existing, p);
    FilterKeepsAll(inputs, p);
    assert EntriesOf(existing + inputs, setlistId) == inputs;
    assert SortedBy(inputs, ByOrder());
    SortByOfSorted(inputs, ByOrder());
  }

  /** Every song id refers to a row of the song table (the entries' foreign key). */
  predicate AllSongsExist(songIds: seq<string>, songs: seq<Song>) {
    forall i :: 0 <= i < |songIds| ==> exists j :: 0 <= j < |songs| && songs[j].id == songIds[i]
  }

  /** The first setlist with the given id. */
  function FindSetlist(setlists: seq<SetlistRow>, id: int): Option<SetlistRow> {
    FindBy(setlists, (s: SetlistRow) => s.id, id)
  }

  /** The tables. Ids handed out by the database are modelled by a counter. */
  class Database {
    var songs: seq<Song>
    var setlists: seq<SetlistRow>
    var songInfos: seq<SongInfo>
    var nextId: int

    /** Every id in use is below the counter, so the next id is fresh. */
    ghost predicate Valid()
      reads this
    {
      && (forall i :: 0 <= i < |setlists| ==> setlists[i].id < nextId)
      && (forall i :: 0 <= i < |songInfos| ==> songInfos[i].setlistId < nextId)
    }

    constructor (songTable: seq<Song>)
      ensures Valid() && songs == songTable && setlists == [] && songInfos == []
    {
      songs := songTable;
      setlists := [];
      songInfos := [];
      nextId := 0;
    }

    /** `insert(setlist).values({ name })`: a row with a fresh id. */
    method InsertSetlist(name: string, now: int) returns (row: SetlistRow)
      requires Valid()
      modifies this
      ensures Valid()
      ensures row == SetlistRow(old(nextId), name, now) && nextId == old(nextId) + 1
      ensures setlists == old(setlists) + [row] && songInfos == old(songInfos) && songs == old(songs)
      ensures forall i :: 0 <= i < |old(setlists)| ==> old(setlists)[i].id != row.id
    {
      row := SetlistRow(nextId, name, now);
      setlists := setlists + [row];
      nextId := nextId + 1;
    }

    /** One multi-row insert: all rows, or none when a song id violates the foreign key. */
    method InsertSongInfos(entries: seq<SongInfo>) returns (ok: bool)
      requires Valid()
      requires forall i :: 0 <= i < |entries| ==> entries[i].setlistId < nextId
      modifies this
      ensures Valid()
      ensures ok <==> AllSongsExist(SongIdsOf(entries), old(songs))
      ensures ok ==> songInfos == old(songInfos) + entries
      ensures !ok ==> songInfos == old(songInfos)
      ensures setlists == old(setlists) && songs == old(songs) && nextId == old(nextId)
    {
      ok := AllSongsExist(SongIdsOf(entries), songs);
      if ok {
        songInfos := songInfos + entries;
      }
    }
  }
}

/** server/routers/setlist.ts: the `add` mutation. */
module SetlistRouter {
  import opened Seqs
  import opened SetlistTables

  /** `newSetlistInput` */
  datatype NewSetlistInput = NewSetlistInput(songIds: seq<string>, name: string)

  /** The setlist with its entries as the read-back returns it. */
  datatype SetlistWithSongs = SetlistWithSongs(setlist: SetlistRow, entries: seq<SongInfo>)

  datatype AddResult =
    | Added(value: SetlistWithSongs)
    | InvalidInput      // the schema rejected the input
    | Failed            // the transaction threw and was rolled back

  /** The schema: `name` needs at least one character. */
  predicate ValidInput(input: NewSetlistInput) {
    |input.name| >= 1
  }

  /**
   * The transaction inserts the setlist, then its entries in one statement,
   * then reads the setlist back with its entries sorted by `order`. The
   * insert builder refuses an empty value list, so an empty `songIds` makes
   * the transaction throw just as a song id that fails the foreign key does;
   * then it is rolled back and neither table changes. On success the entries
   * give back `songIds` in order.
   */
  method Add(db: Database, input: NewSetlistInput, now: int) returns (r: AddResult)
    requires db.Valid()
    modifies db
    ensures db.Valid() && db.songs == old(db.songs)
    ensures !ValidInput(input) ==> r == InvalidInput && db.setlists == old(db.setlists) && db.songInfos == old(db.songInfos)
    ensures ValidInput(input) && input.songIds == [] ==>
      r == Failed && db.setlists == old(db.setlists) && db.songInfos == old(db.songInfos)
    ensures ValidInput(input) && !AllSongsExist(input.songIds, old(db.songs)) ==>
      r == Failed && db.setlists == old(db.setlists) && db.songInfos == old(db.songInfos)
    ensures ValidInput(input) && input.songIds != [] && AllSongsExist(input.songIds, old(db.songs)) ==>
      && r.Added?
      && r.value.setlist == SetlistRow(old(db.nextId), input.name, now)
      && db.setlists == old(db.setlists) + [r.value.setlist]
      && db.songInfos == old(db.songInfos) + SongInfoInputs(input.songIds, r.value.setlist.id)
      && SongIdsOf(r.value.entries) == input.songIds
  {
    if !ValidInput(input) {
      return InvalidInput;
    }
    var savedSetlists, savedSongInfos := db.setlists, db.songInfos;
    var row := db.InsertSetlist(input.name, now);
    var setlistId := row.id;
    var songInfoInputs := SongInfoInputs(input.songIds, setlistId);
    assert SongIdsOf(songInfoInputs) == input.songIds;
    if songInfoInputs == [] {
      // `values([])` throws and the transaction is rolled back
      db.setlists, db.songInfos := savedSetlists, savedSongInfos;
      return Failed;
    }
    var ok := db.InsertSongInfos(songInfoInputs);
    if !ok {
      // the transaction is rolled back
      db.setlists, db.songInfos := savedSetlists, savedSongInfos;
      return Failed;
    }
    var found := FindSetlist(db.setlists, setlistId);
    assert db.setlists[|db.setlists| - 1] == row;
    if found.None? {
      return Failed;
    }
    OrderRoundTrip(savedSongInfos, input.songIds, setlistId);
    var entries := SortBy(EntriesOf(db.songInfos, setlistId), ByOrder());
    r := Added(SetlistWithSongs(found.value, entries));
  }
}

/** pages/api/setlists/index.ts: `setlistRequestHandler`. */
module SetlistApi {
  import opened Seqs
  import opened SetlistTables

  /** The request body after `JSON.parse`; `None` when it is not valid JSON of the expected shape. */
  datatype PostBody = PostBody(songIds: seq<string>, title: string)

  datatype Response = Response(status: int, setlist: Option<SetlistRow>, entries: seq<SongInfo>)

  /**
   * Without a session token the answer is 401 and without POST it is 400,
   * both before anything is written. A body that does not parse or has an
   * empty title is 400. There is no transaction: the setlist is created
   * first, so when its entries then fail the foreign key the answer is 400 and
   * a setlist without entries remains.
   */
  method SetlistRequestHandler(db: Database, hasToken: bool, httpMethod: string, body: Option<PostBody>, now: int)
    returns (res: Response)
    requires db.Valid()
    modifies db
    ensures db.Valid() && db.songs == old(db.songs)
    ensures !hasToken ==> res.status == 401 && db.setlists == old(db.setlists) && db.songInfos == old(db.songInfos)
    ensures hasToken && httpMethod != "POST" ==> res.status == 400 && db.setlists == old(db.setlists) && db.songInfos == old(db.songInfos)
    ensures hasToken && httpMethod == "POST" && (body.None? || |body.value.title| < 1) ==>
      res.status == 400 && db.setlists == old(db.setlists) && db.songInfos == old(db.songInfos)
    ensures hasToken && httpMethod == "POST" && body.Some? && |body.value.title| >= 1 ==>
      var row := SetlistRow(old(db.nextId), body.value.title, now);
      && db.setlists == old(db.setlists) + [row]
      && (AllSongsExist(body.value.songIds, old(db.songs)) ==>
            res == Response(200, Some(row), SongInfoInputs(body.value.songIds, row.id))
            && db.songInfos == old(db.songInfos) + SongInfoInputs(body.value.songIds, row.id))
      && (!AllSongsExist(body.value.songIds, old(db.songs)) ==>
            res.status == 400 && db.songInfos == old(db.songInfos))
  {
    if !hasToken {
      return Response(401, None, []);
    }
    if httpMethod != "POST" {
      return Response(400, None, []);
    }
    if body.None? || |body.value.title| < 1 {
      return Response(400, None, []);
    }
    var savedSongInfos := db.songInfos;
    var newSetlist := db.InsertSetlist(body.value.title, now);
    var setlistSongs := SongInfoInputs(body.value.songIds, newSetlist.id);
    assert SongIdsOf(setlistSongs) == body.value.songIds;
    var ok := db.InsertSongInfos(setlistSongs);
    if !ok {
      return Response(400, None, []);
    }
    var updatedSetlist := FindSetlist(db.setlists, newSetlist.id);
    assert db.setlists[|db.setlists| - 1] == newSetlist;
    OrderRoundTrip(savedSongInfos, body.value.songIds, newSetlist.id);
    res := Response(200, updatedSetlist, EntriesOf(db.songInfos, newSetlist.id));
  }
}

/**
 * The lookup both setlist pages use: the ordered song ids are resolved
 * through a dictionary built from the fetched songs, so a song that appears
 * several times in a setlist is listed several times.
 */
module SongLookup {
  import opened Seqs
  import opened SetlistTables

  /** The dictionary the `reduce` builds; a later song with the same id overwrites an earlier one. */
  function SongsDict(songs: seq<Song>): map<string, Song>
    decreases |songs|
  {
    if songs == [] then map[]
    else SongsDict(songs[..|songs| - 1])[songs[|songs| - 1].id := songs[|songs| - 1]]
  }

  /** The dictionary has exactly the ids of the songs, and each maps to a song with that id. */
  lemma {:induction false} SongsDictLookup(songs: seq<Song>, id: string)
    ensures id in SongsDict(songs) <==> exists j :: 0 <= j < |songs| && songs[j].id == id
    ensures id in SongsDict(songs) ==> SongsDict(songs)[id].id == id && SongsDict(songs)[id] in songs
    decreases |songs|
  {
    if songs != [] {
      var front := songs[..|songs| - 1];
      SongsDictLookup(front, id);
      if exists j :: 0 <= j < |front| && front[j].id == id {
        var j :| 0 <= j < |front| && front[j].id == id;
        assert songs[j].id == id;
      }
      if exists j :: 0 <= j < |songs| && songs[j].id == id {
        var j :| 0 <= j < |songs| && songs[j].id == id;
        if j < |songs| - 1 {
          assert front[j].id == id;
        }
      }
    }
  }

  /** `songs.reduce((dict, song) => { dict[song.id] = song; return dict; }, {})` */
  method BuildSongsDict(songs: seq<Song>) returns (dict: map<string, Song>)
    ensures dict == SongsDict(songs)
  {
    dict := map[];
    var i := 0;
    while i < |songs|
      invariant 0 <= i <= |songs|
      invariant dict == SongsDict(songs[..i])
    {
      assert songs[..i + 1][..i] == songs[..i];
      dict := dict[songs[i].id := songs[i]];
      i := i + 1;
    }
    assert songs[..i] == songs;
  }

  /** `songIds.map(id => songsDict[id])`, with a missing id giving `None` (`undefined`). */
  function Resolve(songIds: seq<string>, dict: map<string, Song>): (r: seq<Option<Song>>)
    ensures |r| == |songIds|
    ensures forall k :: 0 <= k < |r| ==> r[k] == if songIds[k] in dict then Some(dict[songIds[k]]) else None
  {
    seq(|songIds|, k requires 0 <= k < |songIds| => if songIds[k] in dict then Some(dict[songIds[k]]) else None)
  }

  /** `prisma.song.findMany({ where: { id: { in: songIds } } })` */
  function FetchSongs(songTable: seq<Song>, songIds: seq<string>): seq<Song> {
    Filter(songTable, (s: Song) => s.id in songIds)
  }

  /** The fetched songs are the table's songs whose id is asked for, in table order. */
  lemma FetchSongsSelects(songTable: seq<Song>, songIds: seq<string>)
    ensures IsSubsequence(FetchSongs(songTable, songIds), songTable)
    ensures forall s :: s in FetchSongs(songTable, songIds) <==> s in songTable && s.id in songIds
  {
    FilterIsSubsequence(songTable, (s: Song) => s.id in songIds);
  }

  /** The songs of a setlist as both pages compute them, from its entries and the song table. */
  function SetlistSongs(entries: seq<SongInfo>, songTable: seq<Song>): seq<Option<Song>> {
    var songIds := OrderedSongIds(entries);
    Resolve(songIds, SongsDict(FetchSongs(songTable, songIds)))
  }

  /**
   * Position by position over the entries sorted by order: the k-th song is the
   * song of the table whose id is the k-th id, present exactly when the table
   * has such a song; equal ids give equal songs.
   */
  lemma {:induction false} SetlistSongsArePositional(entries: seq<SongInfo>, songTable: seq<Song>)
    ensures |SetlistSongs(entries, songTable)| == |entries|
    ensures forall k :: 0 <= k < |entries| ==>
      var s := SetlistSongs(entries, songTable)[k];
      && (s.Some? <==> exists j :: 0 <= j < |songTable| && songTable[j].id == OrderedSongIds(entries)[k])
      && (s.Some? ==> s.value.id == OrderedSongIds(entries)[k] && s.value in songTable)
    ensures forall k, l :: 0 <= k < |entries| && 0 <= l < |entries| && OrderedSongIds(entries)[k] == OrderedSongIds(entries)[l] ==>
      SetlistSongs(entries, songTable)[k] == SetlistSongs(entries, songTable)[l]
  {
    var songIds := OrderedSongIds(entries);
    var fetched := FetchSongs(songTable, songIds);
    forall k | 0 <= k < |entries|
      ensures var s := SetlistSongs(entries, songTable)[k];
        && (s.Some? <==> exists j :: 0 <= j < |songTable| && songTable[j].id == songIds[k])
        && (s.Some? ==> s.value.id == songIds[k] && s.value in songTable)
    {
      var id := songIds[k];
      SongsDictLookup(fetched, id);
      if exists j :: 0 <= j < |songTable| && songTable[j].id == id {
        var j :| 0 <= j < |songTable| && songTable[j].id == id;
        assert songTable[j] in fetched;
        var m :| 0 <= m < |fetched| && fetched[m] == songTable[j];
      }
      if exists j :: 0 <= j < |fetched| && fetched[j].id == id {
        var j :| 0 <= j < |fetched| && fetched[j].id == id;
        assert fetched[j] in songTable;
        var m :| 0 <= m < |songTable| && songTable[m] == fetched[j];
      }
    }
  }

  /**
   * The steps both pages run for one setlist: sort the entries by order, take
   * their song ids, stop early when there are none, else fetch the songs, build
   * the dictionary and resolve the ids.
   */
  method GetSongsForEntries(entries: seq<SongInfo>, songTable: seq<Song>) returns (songs: seq<Option<Song>>)
    ensures songs == SetlistSongs(entries, songTable)
  {
    var setListEntries := SortBy(entries, ByOrder());
    var songIds := SongIdsOf(setListEntries);
    if |songIds| == 0 {
      return [];
    }
    var fetched := FetchSongs(songTable, songIds);
    var songsDict := BuildSongsDict(fetched);
    songs := Resolve(songIds, songsDict);
  }
}

/** pages/programm.tsx: every setlist with its songs, newest first. */
module ProgrammPage {
  import opened Seqs
  import opened SetlistTables
  import opened SongLookup

  datatype SetlistWithSongs = SetlistWithSongs(name: string, songs: seq<Option<Song>>)

  /** `orderBy: { createdAt: 'desc' }` as an ordering. */
  function NewestFirst(): (SetlistRow, SetlistRow) -> bool {
    (a: SetlistRow, b: SetlistRow) => a.createdAt >= b.createdAt
  }

  lemma NewestFirstIsTotalPreorder()
    ensures TotalPreorder(NewestFirst())
  {
  }

  /** `getSetlistSongs`: the name passes through, the songs are resolved in order. */
  method GetSetlistSongs(setlist: SetlistRow, entries: seq<SongInfo>, songTable: seq<Song>) returns (r: SetlistWithSongs)
    ensures r.name == setlist.name && r.songs == SetlistSongs(entries, songTable)
    ensures entries == [] ==> r.songs == []
  {
    var songs := GetSongsForEntries(entries, songTable);
    r := SetlistWithSongs(setlist.name, songs);
  }

  /** One setlist of the page: its name and the songs of its entries. */
  function Resolved(setlist: SetlistRow, songInfos: seq<SongInfo>, songTable: seq<Song>): SetlistWithSongs {
    SetlistWithSongs(setlist.name, SetlistSongs(EntriesOf(songInfos, setlist.id), songTable))
  }

  /** `getSetlistsWithSongs` over the tables, as a specification. */
  function SetlistsWithSongs(setlists: seq<SetlistRow>, songInfos: seq<SongInfo>, songTable: seq<Song>): (r: seq<SetlistWithSongs>)
    ensures |r| == |setlists|
  {
    ResolvedAll(SortBy(setlists, NewestFirst()), songInfos, songTable)
  }

  function ResolvedAll(ordered: seq<SetlistRow>, songInfos: seq<SongInfo>, songTable: seq<Song>): (r: seq<SetlistWithSongs>)
    ensures |r| == |ordered|
    ensures forall i :: 0 <= i < |ordered| ==> r[i] == Resolved(ordered[i], songInfos, songTable)
  {
    seq(|ordered|, i requires 0 <= i < |ordered| => Resolved(ordered[i], songInfos, songTable))
  }

  /** The page lists every setlist once, newest first, each with its own songs. */
  lemma SetlistsNewestFirst(setlists: seq<SetlistRow>, songInfos: seq<SongInfo>, songTable: seq<Song>)
    ensures var ordered := SortBy(setlists, NewestFirst());
      && multiset(ordered) == multiset(setlists)
      && (forall i, j :: 0 <= i < j < |ordered| ==> ordered[i].createdAt >= ordered[j].createdAt)
      && (forall i :: 0 <= i < |ordered| ==> SetlistsWithSongs(setlists, songInfos, songTable)[i].name == ordered[i].name)
  {
    SortBySorted(setlists, NewestFirst());
  }

  /** Resolving one more setlist appends its entry to the page. */
  lemma ResolvedAllAppend(ordered: seq<SetlistRow>, next: SetlistRow, songInfos: seq<SongInfo>, songTable: seq<Song>)
    ensures ResolvedAll(ordered + [next], songInfos, songTable)
      == ResolvedAll(ordered, songInfos, songTable) + [Resolved(next, songInfos, songTable)]
  {
  }

  /** The loop of `getSetlistsWithSongs`: each setlist in turn is resolved with `getSetlistSongs`. */
  method ResolveEach(ordered: seq<SetlistRow>, songInfos: seq<SongInfo>, songTable: seq<Song>)
    returns (props: seq<SetlistWithSongs>)
    ensures props == ResolvedAll(ordered, songInfos, songTable)
  {
    props := [];
    var i := 0;
    while i < |ordered|
      invariant 0 <= i <= |ordered|
      invariant props == ResolvedAll(ordered[..i], songInfos, songTable)
    {
      var s := GetSetlistSongs(ordered[i], EntriesOf(songInfos, ordered[i].id), songTable);
      ResolvedAllAppend(ordered[..i], ordered[i], songInfos, songTable);
      assert ordered[..i + 1] == ordered[..i] + [ordered[i]];
      props := props + [s];
      i := i + 1;
    }
    assert ordered[..i] == ordered;
  }

  /** `getServerSideProps`: the setlists, or none when reading them fails. */
  method GetServerSideProps(setlists: seq<SetlistRow>, songInfos: seq<SongInfo>, songTable: seq<Song>, readFails: bool)
    returns (props: seq<SetlistWithSongs>)
    ensures readFails ==> props == []
    ensures !readFails ==> props == SetlistsWithSongs(setlists, songInfos, songTable)
  {
    if readFails {
      return [];
    }
    var dbResult := SortBy(setlists, NewestFirst());
    props := ResolveEach(dbResult, songInfos, songTable);
  }
}

/** pages/strassensingen.tsx: the songs of the most recently created setlist. */
module StreetSingingPage {
  import opened Seqs
  import opened SetlistTables
  import opened SongLookup
  import ProgrammPage

  /** `findFirst` with `orderBy: { created_at: 'desc' }`. */
  function Latest(setlists: seq<SetlistRow>): (r: Option<SetlistRow>)
    ensures r.None? <==> setlists == []
    ensures r.Some? ==> r.value in setlists && forall i :: 0 <= i < |setlists| ==> setlists[i].createdAt <= r.value.createdAt
  {
    var ordered := SortBy(setlists, ProgrammPage.NewestFirst());
    ProgrammPage.NewestFirstIsTotalPreorder();
    SortBySorted(setlists, ProgrammPage.NewestFirst());
    if ordered == [] then None
    else
      assert forall i :: 0 <= i < |setlists| ==> setlists[i] in multiset(ordered);
      assert ordered[0] in multiset(setlists);
      Some(ordered[0])
  }

  /** The songs the page shows: those of the latest setlist, or none. */
  function StreetSingingSongs(setlists: seq<SetlistRow>, songInfos: seq<SongInfo>, songTable: seq<Song>): seq<Option<Song>> {
    var latest := Latest(setlists);
    var entries := if latest.Some? then EntriesOf(songInfos, latest.value.id) else [];
    SetlistSongs(entries, songTable)
  }

  /** Without any setlist, or with an empty latest one, the page gets no songs. */
  lemma NoSetlistNoSongs(setlists: seq<SetlistRow>, songInfos: seq<SongInfo>, songTable: seq<Song>)
    ensures setlists == [] ==> StreetSingingSongs(setlists, songInfos, songTable) == []
    ensures Latest(setlists).Some? && EntriesOf(songInfos, Latest(setlists).value.id) == [] ==>
      StreetSingingSongs(setlists, songInfos, songTable) == []
  {
  }

  /** `getServerSideProps`: the latest setlist's songs, or none when reading fails. */
  method GetServerSideProps(setlists: seq<SetlistRow>, songInfos: seq<SongInfo>, songTable: seq<Song>, readFails: bool)
    returns (songs: seq<Option<Song>>)
    ensures readFails ==> songs == []
    ensures !readFails ==> songs == StreetSingingSongs(setlists, songInfos, songTable)
  {
    if readFails {
      return [];
    }
    var setlist := Latest(setlists);
    var setListEntries := if setlist.Some? then EntriesOf(songInfos, setlist.value.id) else [];
    songs := GetSongsForEntries(setListEntries, songTable);
  }
}
