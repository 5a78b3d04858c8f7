/**
 * The Google Drive router's local logic (server/routers/google-drive.ts): the
 * depth-first crawl of a folder that sorts every item into file, folder or
 * skipped, the relative paths it builds, the filter for files not yet stored
 * and the upsert into the `GoogleDriveFile` table.
 *
 * The Drive API is modelled as a finite tree: each item carries the metadata
 * its metadata request would return and the listing its folder request would
 * return. A payload that fails schema parsing is `BadListing` or a `None`
 * metadata; either aborts the whole crawl, as the thrown parse error does.
 */
module DriveCrawler {
  import opened Seqs

  const FolderMimeType := "application/vnd.google-apps.folder"

  /** The parsed metadata of one item (`fileMetadataAPIResponse`). */
  datatype Metadata = Metadata(webContentLink: Option<string>, mimeType: string, name: string)

  /** One entry of a folder listing: its id and listed name, plus what the two requests about it return. */
  datatype Item = Item(id: string, name: string, metadata: Option<Metadata>, contents: Listing)

  /** A folder listing (`folderContentsAPIResponse`), or a response that fails to parse. */
  datatype Listing = BadListing | Listing(items: seq<Item>)

  /** A row of the `GoogleDriveFile` table (`NewGoogleDriveFile`). */
  datatype DbFile = DbFile(id: string, downloadUrl: string, mimeType: string, name: string, lastSyncAt: int)

  /** A crawled file: the row to store and its path relative to the crawled folder. */
  datatype CrawledFile = CrawledFile(file: DbFile, path: string)

  /** The outcome of a crawl: the files found, or an aborted crawl. */
  datatype Crawl = Aborted | Files(files: seq<CrawledFile>)

  /** `constructRelativePath` */
  function ConstructRelativePath(relativeFolderPath: string, contentName: string): (r: string)
    ensures relativeFolderPath == "" ==> r == contentName
    ensures relativeFolderPath != "" ==> r == relativeFolderPath + "/" + contentName
  {
    (if relativeFolderPath != "" then relativeFolderPath + "/" else "") + contentName
  }

  /** `driveFileToDBFile`; `now` stands for `new Date()`. */
  function DriveFileToDbFile(id: string, webContentLink: string, md: Metadata, now: int): (r: DbFile)
    ensures r.id == id && r.downloadUrl == webContentLink && r.lastSyncAt == now
    ensures r.mimeType == md.mimeType && r.name == md.name
  {
    DbFile(id, webContentLink, md.mimeType, md.name, now)
  }

  /** `if (webContentLink)`: a link that is present and not empty. */
  predicate HasLink(md: Metadata) {
    md.webContentLink.Some? && md.webContentLink.value != ""
  }

  /** How the loop treats an item whose metadata parsed. */
  datatype Kind = FileItem | FolderItem | Skipped

  function Classify(md: Metadata): (k: Kind)
    ensures k == FileItem <==> HasLink(md)
    ensures k == FolderItem <==> !HasLink(md) && md.mimeType == FolderMimeType
    ensures k == Skipped <==> !HasLink(md) && md.mimeType != FolderMimeType
  {
    if HasLink(md) then FileItem else if md.mimeType != FolderMimeType then Skipped else FolderItem
  }

  // The crawl as a specification: the files of a listing are those of its
  // items, in listing order, each folder's files standing where the folder is.

  function FilesIn(l: Listing, relPath: string, now: int): Crawl
    decreases l, 2
  {
    match l
    case BadListing => Aborted
    case Listing(items) => ItemsFiles(items, relPath, now)
  }

  function ItemsFiles(items: seq<Item>, relPath: string, now: int): Crawl
    decreases items, 1
  {
    if items == [] then Files([])
    else
      var front := ItemsFiles(items[..|items| - 1], relPath, now);
      var last := ItemFiles(items[|items| - 1], relPath, now);
      if front.Aborted? || last.Aborted? then Aborted else Files(front.files + last.files)
  }

  function ItemFiles(item: Item, relPath: string, now: int): Crawl
    decreases item, 0
  {
    match item.metadata
    case None => Aborted
    case Some(md) =>
      match Classify(md)
      case FileItem =>
        Files([CrawledFile(DriveFileToDbFile(item.id, md.webContentLink.value, md, now), ConstructRelativePath(relPath, item.name))])
      case Skipped => Files([])
      case FolderItem => FilesIn(item.contents, ConstructRelativePath(relPath, item.name), now)
  }

  /** Once a prefix of the items aborts, the crawl of all of them aborts. */
  lemma {:induction false} AbortPropagates(items: seq<Item>, k: nat, relPath: string, now: int)
    requires k <= |items|
    requires ItemsFiles(items[..k], relPath, now).Aborted?
    ensures ItemsFiles(items, relPath, now).Aborted?
    decreases |items| - k
  {
    if k < |items| {
      assert items[..k + 1][..k] == items[..k];
      AbortPropagates(items, k + 1, relPath, now);
    } else {
      assert items[..k] == items;
    }
  }

  /**
   * `getFilesInFolderRecursively`: walks the listing with a loop, pushes each
   * file, recurses into each folder and splices in its files, skips any other
   * item, and stops at the first payload that fails to parse.
   */
  method GetFilesInFolderRecursively(listing: Listing, relPath: string, now: int) returns (r: Crawl)
    ensures r == FilesIn(listing, relPath, now)
    decreases listing
  {
    if listing.BadListing? {
      return Aborted;
    }
    var folderContents := listing.items;
    if |folderContents| == 0 {
      return Files([]);
    }
    var files: seq<CrawledFile> := [];
    var i := 0;
    while i < |folderContents|
      invariant 0 <= i <= |folderContents|
      invariant ItemsFiles(folderContents[..i], relPath, now) == Files(files)
    {
      var item := folderContents[i];
      assert folderContents[..i + 1][..i] == folderContents[..i];
      if item.metadata.None? {
        AbortPropagates(folderContents, i + 1, relPath, now);
        return Aborted;
      }
      var md := item.metadata.value;
      if md.webContentLink.Some? && md.webContentLink.value != "" {
        var file := DriveFileToDbFile(item.id, md.webContentLink.value, md, now);
        files := files + [CrawledFile(file, ConstructRelativePath(relPath, item.name))];
      } else {
        if md.mimeType != FolderMimeType {
          i := i + 1;
          continue;
        }
        assert item in folderContents;
        var subfolderFiles := GetFilesInFolderRecursively(item.contents, ConstructRelativePath(relPath, item.name), now);
        if subfolderFiles.Aborted? {
          AbortPropagates(folderContents, i + 1, relPath, now);
          return Aborted;
        }
        files := files + subfolderFiles.files;
      }
      i := i + 1;
    }
    assert folderContents[..i] == folderContents;
    return Files(files);
  }

  /** `p` followed by a slash starts `s`. */
  predicate Under(s: string, p: string) {
    p == "" || (|p| + 1 <= |s| && s[..|p| + 1] == p + "/")
  }

  lemma UnderExtended(p: string, name: string, s: string)
    requires Under(s, ConstructRelativePath(p, name))
    requires ConstructRelativePath(p, name) != ""
    ensures Under(s, p)
  {
    if p != "" {
      var q := ConstructRelativePath(p, name);
      assert q[..|p| + 1] == p + "/";
      assert s[..|p| + 1] == s[..|q| + 1][..|p| + 1];
    }
  }

  lemma UnderPath(p: string, name: string)
    ensures Under(ConstructRelativePath(p, name), p)
  {
    if p != "" {
      assert ConstructRelativePath(p, name)[..|p| + 1] == p + "/";
    }
  }

  /**
   * Every crawled file's path lies under the path of the folder it was found
   * in, and every stored row has a non-empty download link.
   */
  lemma {:induction false} CrawledFilesAreUnder(l: Listing, relPath: string, now: int)
    ensures FilesIn(l, relPath, now).Files? ==> forall i :: 0 <= i < |FilesIn(l, relPath, now).files| ==>
      Under(FilesIn(l, relPath, now).files[i].path, relPath) && FilesIn(l, relPath, now).files[i].file.downloadUrl != ""
    decreases l, 2
  {
    if l.Listing? {
      ItemsFilesAreUnder(l.items, relPath, now);
    }
  }

  lemma {:induction false} ItemsFilesAreUnder(items: seq<Item>, relPath: string, now: int)
    ensures ItemsFiles(items, relPath, now).Files? ==> forall i :: 0 <= i < |ItemsFiles(items, relPath, now).files| ==>
      Under(ItemsFiles(items, relPath, now).files[i].path, relPath) && ItemsFiles(items, relPath, now).files[i].file.downloadUrl != ""
    decreases items, 1
  {
    if items != [] {
      ItemsFilesAreUnder(items[..|items| - 1], relPath, now);
      ItemFilesAreUnder(items[|items| - 1], relPath, now);
    }
  }

  lemma {:induction false} ItemFilesAreUnder(item: Item, relPath: string, now: int)
    ensures ItemFiles(item, relPath, now).Files? ==> forall i :: 0 <= i < |ItemFiles(item, relPath, now).files| ==>
      Under(ItemFiles(item, relPath, now).files[i].path, relPath) && ItemFiles(item, relPath, now).files[i].file.downloadUrl != ""
    decreases item, 0
  {
    if item.metadata.Some? {
      var md := item.metadata.value;
      var sub := ConstructRelativePath(relPath, item.name);
      UnderPath(relPath, item.name);
      if Classify(md) == FolderItem {
        CrawledFilesAreUnder(item.contents, sub, now);
        var r := FilesIn(item.contents, sub, now);
        if r.Files? {
          forall i | 0 <= i < |r.files|
            ensures Under(r.files[i].path, relPath)
          {
            if sub != "" {
              UnderExtended(relPath, item.name, r.files[i].path);
            } else {
              assert relPath == "";
            }
          }
        }
      }
    }
  }

  /** The filter in `getNewFilesForFolderId`: the crawled files whose id is not in the table. */
  function NewFiles(files: seq<CrawledFile>, table: map<string, DbFile>): seq<CrawledFile> {
    Filter(files, (f: CrawledFile) => f.file.id !in table)
  }

  /**
   * The new files are exactly the crawled files with unknown ids, in crawl
   * order; they are never more than the crawled files.
   */
  lemma NewFilesExactly(files: seq<CrawledFile>, table: map<string, DbFile>)
    ensures IsSubsequence(NewFiles(files, table), files)
    ensures forall i :: 0 <= i < |NewFiles(files, table)| ==> NewFiles(files, table)[i].file.id !in table
    ensures forall i :: 0 <= i < |files| && files[i].file.id !in table ==> files[i] in NewFiles(files, table)
    ensures |NewFiles(files, table)| <= |files|
  {
    FilterIsSubsequence(files, (f: CrawledFile) => f.file.id !in table);
  }

  /** `storeInDb`: insert, or on an id conflict overwrite only name, download URL and MIME type. */
  function Upsert(table: map<string, DbFile>, file: DbFile): map<string, DbFile> {
    if file.id in table then
      table[file.id := table[file.id].(name := file.name, downloadUrl := file.downloadUrl, mimeType := file.mimeType)]
    else
      table[file.id := file]
  }

  /**
   * After an upsert the row with the file's id carries its name, link and MIME
   * type; a new row is the file itself, an existing one keeps its sync time;
   * no other row changes; and upserting the same file again changes nothing.
   */
  lemma UpsertRules(table: map<string, DbFile>, file: DbFile)
    ensures file.id in Upsert(table, file)
    ensures Upsert(table, file).Keys == table.Keys + {file.id}
    ensures var row := Upsert(table, file)[file.id];
      row.id == (if file.id in table then table[file.id].id else file.id)
      && row.name == file.name && row.downloadUrl == file.downloadUrl && row.mimeType == file.mimeType
      && row.lastSyncAt == (if file.id in table then table[file.id].lastSyncAt else file.lastSyncAt)
    ensures forall k :: k in table && k != file.id ==> Upsert(table, file)[k] == table[k]
    ensures Upsert(Upsert(table, file), file) == Upsert(table, file)
  {
  }

  function UpsertAll(table: map<string, DbFile>, files: seq<CrawledFile>): map<string, DbFile>
    decreases |files|
  {
    if files == [] then table else UpsertAll(Upsert(table, files[0].file), files[1..])
  }

  lemma {:induction false} UpsertAllKeys(table: map<string, DbFile>, files: seq<CrawledFile>)
    ensures UpsertAll(table, files).Keys == table.Keys + set i | 0 <= i < |files| :: files[i].file.id
    decreases |files|
  {
    if files != [] {
      UpsertAllKeys(Upsert(table, files[0].file), files[1..]);
      var s1 := set i | 0 <= i < |files[1..]| :: files[1..][i].file.id;
      var s := set i | 0 <= i < |files| :: files[i].file.id;
      assert s == {files[0].file.id} + s1 by {
        forall x | x in s ensures x in {files[0].file.id} + s1 {
          var i :| 0 <= i < |files| && files[i].file.id == x;
          if i > 0 { assert files[1..][i - 1].file.id == x; }
        }
      }
    }
  }

  /** Once every new file has been stored, asking again for new files yields none. */
  lemma {:induction false} StoredFilesAreNotNew(files: seq<CrawledFile>, table: map<string, DbFile>)
    ensures NewFiles(files, UpsertAll(table, NewFiles(files, table))) == []
  {
    var unseen := NewFiles(files, table);
    var stored := UpsertAll(table, unseen);
    UpsertAllKeys(table, unseen);
    forall i | 0 <= i < |files|
      ensures files[i].file.id in stored
    {
      if files[i].file.id !in table {
        var j :| 0 <= j < |unseen| && unseen[j] == files[i];
        assert files[i].file.id == unseen[j].file.id;
      }
    }
    FilterDropsAll(files, (f: CrawledFile) => f.file.id !in stored);
  }

  /** The `GoogleDriveFile` table, updated in place by `storeInDb`. */
  class DriveFileTable {
    var rows: map<string, DbFile>

    constructor (initial: map<string, DbFile>)
      ensures rows == initial
    {
      rows := initial;
    }

    method StoreInDb(file: DbFile)
      modifies this
      ensures rows == Upsert(old(rows), file)
    {
      if file.id in rows {
        rows := rows[file.id := rows[file.id].(name := file.name, downloadUrl := file.downloadUrl, mimeType := file.mimeType)];
      } else {
        rows := rows[file.id := file];
      }
    }

    /**
     * `getNewFilesForFolderId`: crawl, then keep the files whose id is not in
     * the table. `Aborted` stands for the mutation rejecting: when the crawl
     * aborts, and when it finds no file at all, since the query builder's
     * `inArray` refuses an empty list of ids.
     */
    method GetNewFilesForFolderId(listing: Listing, now: int) returns (r: Crawl)
      ensures r.Aborted? <==> FilesIn(listing, "", now).Aborted? || FilesIn(listing, "", now).files == []
      ensures r.Files? ==> r.files == NewFiles(FilesIn(listing, "", now).files, rows)
    {
      var crawl := GetFilesInFolderRecursively(listing, "", now);
      if crawl.Aborted? || crawl.files == [] {
        return Aborted;
      }
      var existingFileIds := set i | 0 <= i < |crawl.files| && crawl.files[i].file.id in rows :: crawl.files[i].file.id;
      var newFiles := Filter(crawl.files, (f: CrawledFile) => f.file.id !in existingFileIds);
      var table := rows;
      forall i | 0 <= i < |crawl.files|
        ensures (crawl.files[i].file.id !in existingFileIds) == (crawl.files[i].file.id !in table)
      {
      }
      FilterCongruent(crawl.files, (f: CrawledFile) => f.file.id !in existingFileIds, (f: CrawledFile) => f.file.id !in table);
      return Files(newFiles);
    }
  }
}
