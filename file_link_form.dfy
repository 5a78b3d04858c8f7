/**
 * The per-file link form of the wizard (FileLinkForm.tsx): the label, link
 * type and song chosen for one Drive file, the validity and button rules, the
 * action a click emits and the label prefill effect.
 */
module FileLinkForm {
  import opened Seqs

  /** An existing link of a Drive file to a song. */
  datatype SongFileLink = SongFileLink(labelText: string, linkType: string, songId: string, url: string)

  /** `GoogleDriveFileWithSongFileLink`: a Drive file and its link, if any. */
  datatype DriveFile = DriveFile(id: string, name: string, downloadUrl: string, songFileLink: Option<SongFileLink>)

  /** The payload of `onLinkAddOrUpdate`. */
  datatype NewLink = NewLink(labelText: string, linkType: string, songId: string, url: string, googleDriveId: string)

  /** What a click on the button emits. */
  datatype ClickResult =
    | LinkRemoved(songId: string, labelText: string)
    | LinkAddedOrUpdated(link: NewLink)
    | NoEffect

  /** `getPrefillLabel` */
  function GetPrefillLabel(linkType: string): string {
    if linkType == "AudioInitialNotes" then "Anfangstöne" else ""
  }

  /** The prefill effect: an empty label takes the type's default, any other label stays. */
  function Prefill(labelText: string, linkType: string): string {
    if labelText == "" then GetPrefillLabel(linkType) else labelText
  }

  /**
   * A non-empty label is never overwritten, an empty one becomes the type's
   * default, and the effect is stable: running it again after its own update
   * changes nothing more.
   */
  lemma PrefillRules(labelText: string, linkType: string)
    ensures labelText != "" ==> Prefill(labelText, linkType) == labelText
    ensures labelText == "" && linkType == "AudioInitialNotes" ==> Prefill(labelText, linkType) == "Anfangstöne"
    ensures labelText == "" && linkType != "AudioInitialNotes" ==> Prefill(labelText, linkType) == ""
    ensures Prefill(Prefill(labelText, linkType), linkType) == Prefill(labelText, linkType)
  {
  }

  /** `dataValid` */
  predicate DataValid(labelText: string, linkType: string, songId: Option<string>) {
    |labelText| > 0 && |linkType| > 0 && songId.Some?
  }

  /** `buttonDisabled` */
  predicate ButtonDisabled(file: DriveFile, labelText: string, linkType: string, songId: Option<string>) {
    !DataValid(labelText, linkType, songId) && file.songFileLink.None?
  }

  /** `handleButtonClick`, as the value it passes to the callbacks. */
  function ClickAction(file: DriveFile, labelText: string, linkType: string, songId: Option<string>): ClickResult {
    if file.songFileLink.Some? then
      LinkRemoved(file.songFileLink.value.songId, file.songFileLink.value.labelText)
    else if DataValid(labelText, linkType, songId) then
      LinkAddedOrUpdated(NewLink(labelText, linkType, songId.value, file.downloadUrl, file.id))
    else
      NoEffect
  }

  /**
   * The button is enabled exactly when a click emits something. An existing
   * link is removed by its own song id and label whatever was edited; without
   * one, valid data is added with the file's download URL and Drive id.
   */
  lemma ClickRules(file: DriveFile, labelText: string, linkType: string, songId: Option<string>)
    ensures !ButtonDisabled(file, labelText, linkType, songId) <==> ClickAction(file, labelText, linkType, songId) != NoEffect
    ensures file.songFileLink.Some? ==>
      ClickAction(file, labelText, linkType, songId) == LinkRemoved(file.songFileLink.value.songId, file.songFileLink.value.labelText)
    ensures file.songFileLink.None? && DataValid(labelText, linkType, songId) ==>
      var c := ClickAction(file, labelText, linkType, songId);
      c.LinkAddedOrUpdated? && c.link.labelText == labelText && c.link.linkType == linkType && Some(c.link.songId) == songId
      && c.link.url == file.downloadUrl && c.link.googleDriveId == file.id
    ensures file.songFileLink.None? && !DataValid(labelText, linkType, songId) ==> ClickAction(file, labelText, linkType, songId) == NoEffect
  {
  }

  /** The form for one file: three pieces of state, their setters and the click handler. */
  class Form {
    const file: DriveFile
    var labelText: string
    var linkType: string
    var songId: Option<string>

    /** The state starts from the existing link (or '', 'Audio', null); the prefill effect then runs once. */
    constructor (f: DriveFile)
      ensures file == f
      ensures f.songFileLink.Some? ==>
        labelText == Prefill(f.songFileLink.value.labelText, f.songFileLink.value.linkType)
        && linkType == f.songFileLink.value.linkType && songId == Some(f.songFileLink.value.songId)
      ensures f.songFileLink.None? ==> labelText == "" && linkType == "Audio" && songId.None?
    {
      file := f;
      var l := if f.songFileLink.Some? then f.songFileLink.value.labelText else "";
      var t := if f.songFileLink.Some? then f.songFileLink.value.linkType else "Audio";
      linkType := t;
      songId := if f.songFileLink.Some? then Some(f.songFileLink.value.songId) else None;
      labelText := if l == "" then GetPrefillLabel(t) else l;
    }

    /** Choosing a type; the prefill effect follows. */
    method SetType(t: string)
      modifies this
      ensures linkType == t && labelText == Prefill(old(labelText), t) && songId == old(songId)
    {
      linkType := t;
      if labelText == "" {
        labelText := GetPrefillLabel(linkType);
      }
    }

    /** Editing the label; the prefill effect follows, so clearing it restores the type's default. */
    method SetLabel(l: string)
      modifies this
      ensures labelText == Prefill(l, linkType) && linkType == old(linkType) && songId == old(songId)
    {
      labelText := l;
      if labelText == "" {
        labelText := GetPrefillLabel(linkType);
      }
    }

    /** Choosing a song (`value?.id ?? null`). */
    method SetSongId(id: Option<string>)
      modifies this
      ensures songId == id && labelText == old(labelText) && linkType == old(linkType)
    {
      songId := id;
    }

    /** `handleButtonClick`: reads the state and emits at most one callback. */
    method HandleButtonClick() returns (c: ClickResult)
      ensures c == ClickAction(file, labelText, linkType, songId)
      ensures c == NoEffect <==> ButtonDisabled(file, labelText, linkType, songId)
    {
      ClickRules(file, labelText, linkType, songId);
      if file.songFileLink.Some? {
        c := LinkRemoved(file.songFileLink.value.songId, file.songFileLink.value.labelText);
      } else if |labelText| > 0 && |linkType| > 0 && songId.Some? {
        c := LinkAddedOrUpdated(NewLink(labelText, linkType, songId.value, file.downloadUrl, file.id));
      } else {
        c := NoEffect;
      }
    }
  }
}
