/**
 * The file-linking step (steps/LinkFiles/index.tsx): the mappings from the
 * store that take part in linking are those whose song id is not `undefined`.
 */
module LinkFiles {
  import opened Seqs
  import opened LinkCreatorStore

  /** `isMappingWithSong`: only `undefined` fails, so a row cleared to `null` passes. */
  predicate IsMappingWithSong(m: FolderToSongMapping) {
    !m.songId.Undefined?
  }

  /** `mappings?.filter(isMappingWithSong) ?? []` */
  function MappingsWithSong(mappings: Option<seq<FolderToSongMapping>>): seq<FolderToSongMapping> {
    if mappings.Some? then Filter(mappings.value, IsMappingWithSong) else []
  }

  /** A row passes exactly when its song id is set or cleared to `null`. */
  lemma ClearedRowsPass(m: FolderToSongMapping)
    ensures IsMappingWithSong(m) <==> m.songId.Null? || m.songId.Defined?
  {
  }

  /**
   * The result is the subsequence of the stored mappings made of the rows that
   * pass, in their order: every kept row passes and every passing row is kept,
   * as often as the stored mappings hold it.
   * Without stored mappings it is empty.
   */
  lemma MappingsWithSongIsOrderedSelection(mappings: Option<seq<FolderToSongMapping>>)
    ensures mappings.None? ==> MappingsWithSong(mappings) == []
    ensures mappings.Some? ==> IsSubsequence(MappingsWithSong(mappings), mappings.value)
    ensures forall i :: 0 <= i < |MappingsWithSong(mappings)| ==> IsMappingWithSong(MappingsWithSong(mappings)[i])
    ensures mappings.Some? ==> forall i :: 0 <= i < |mappings.value| && IsMappingWithSong(mappings.value[i]) ==>
      mappings.value[i] in MappingsWithSong(mappings)
    ensures mappings.Some? ==> forall m :: IsMappingWithSong(m) ==>
      multiset(MappingsWithSong(mappings))[m] == multiset(mappings.value)[m]
  {
    if mappings.Some? {
      FilterIsSubsequence(mappings.value, IsMappingWithSong);
      FilterKeepsCounts(mappings.value, IsMappingWithSong);
    }
  }

  /** Filtering the result again changes nothing, and it is never longer than the input. */
  lemma MappingsWithSongIdempotent(mappings: Option<seq<FolderToSongMapping>>)
    ensures MappingsWithSong(Some(MappingsWithSong(mappings))) == MappingsWithSong(mappings)
    ensures mappings.Some? ==> |MappingsWithSong(mappings)| <= |mappings.value|
  {
    if mappings.Some? {
      FilterIdempotent(mappings.value, IsMappingWithSong);
    }
  }
}
