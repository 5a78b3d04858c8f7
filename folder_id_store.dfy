/**
 * The small zustand store of the wizard dialog (store.ts): the id of the
 * folder whose subfolders are matched with songs, and its setter.
 */
module FolderIdStore {
  import opened Seqs

  /** Whether the name-matching step has a folder to work on: `folderId && ...` needs a non-empty id. */
  predicate HasFolder(songsFolderId: Option<string>) {
    songsFolderId.Some? && songsFolderId.value != ""
  }

  class Store {
    /** `string | null` */
    var songsFolderId: Option<string>

    /** The store starts at the public Drive folder, whose id comes from the configuration. */
    constructor (publicFolderId: string)
      ensures songsFolderId == Some(publicFolderId)
      ensures HasFolder(songsFolderId) <==> publicFolderId != ""
    {
      songsFolderId := Some(publicFolderId);
    }

    /** `setSongsFolderId(id)`: the last id set wins. */
    method SetSongsFolderId(id: string)
      modifies this
      ensures songsFolderId == Some(id)
      ensures HasFolder(songsFolderId) <==> id != ""
    {
      songsFolderId := Some(id);
    }
  }
}
