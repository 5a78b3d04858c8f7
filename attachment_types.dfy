/**
 * The classification of song attachment types (drizzle/models.ts): weblinks
 * are the types 'YouTube' and 'Other', every other type is a file, and the
 * audio files are the types starting with 'Audio'. The enum's value list is
 * not part of this model, so the partition of the values is stated for any
 * list of type names.
 */
module AttachmentTypes {
  import opened Seqs

  /** `isWeblinkAttachment` */
  predicate IsWeblinkType(t: string) {
    t == "YouTube" || t == "Other"
  }

  /** `isFileAttachment`: the complement of `isWeblinkAttachment`. */
  predicate IsFileType(t: string) {
    !IsWeblinkType(t)
  }

  /** `type.startsWith('Audio')` */
  predicate IsAudioFileType(t: string) {
    |t| >= 5 && t[..5] == "Audio"
  }

  /** No weblink type starts with "Audio", so every audio type is a file type. */
  lemma ClassificationRules(t: string)
    ensures IsWeblinkType(t) ==> !IsAudioFileType(t)
    ensures IsAudioFileType(t) ==> IsFileType(t)
  {
    if IsAudioFileType(t) {
      assert t[0] == 'A';
    }
  }

  /** `webLinkAttachmentTypeValues` */
  function WebLinkTypeValues(values: seq<string>): seq<string> {
    Filter(values, IsWeblinkType)
  }

  /** `fileAttachmentTypeValues`: the values not included in the weblink list. */
  function FileTypeValues(values: seq<string>): seq<string> {
    Filter(values, (t: string) => t !in WebLinkTypeValues(values))
  }

  /**
   * The two lists split the enum values: the file list is the values that are
   * not weblinks, each list keeps the enum order, and together they hold every
   * value exactly as often as the enum does.
   */
  lemma {:induction false} TypeValuesPartition(values: seq<string>)
    ensures FileTypeValues(values) == Filter(values, IsFileType)
    ensures IsSubsequence(WebLinkTypeValues(values), values) && IsSubsequence(FileTypeValues(values), values)
    ensures multiset(WebLinkTypeValues(values)) + multiset(FileTypeValues(values)) == multiset(values)
    ensures |WebLinkTypeValues(values)| + |FileTypeValues(values)| == |values|
    ensures forall i :: 0 <= i < |FileTypeValues(values)| ==> IsFileType(FileTypeValues(values)[i])
  {
    var web := WebLinkTypeValues(values);
    forall i | 0 <= i < |values|
      ensures (values[i] !in web) == IsFileType(values[i])
    {
      if values[i] in web {
        var k :| 0 <= k < |web| && web[k] == values[i];
        assert IsWeblinkType(web[k]);
      }
    }
    FilterCongruent(values, (t: string) => t !in web, IsFileType);
    FilterIsSubsequence(values, IsWeblinkType);
    FilterIsSubsequence(values, IsFileType);
    FilterPartition(values, IsWeblinkType, IsFileType);
  }
}
