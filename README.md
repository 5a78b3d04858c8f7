# anwesenheiten-manager core, modelled in Dafny

anwesenheiten-manager is the administration web app of a choir. This project models the logic of its core in Dafny:

- the attendance statistics page (per-event and per-singer attendance, the voice-group split, absence counts, singers per voice group);
- setlists: how they are written to the database, read back in order, shown on the programme and street-singing pages, and edited in the two setlist dialogs;
- the wizard that links Google Drive files to songs:
  - its two small stores;
  - the step counter;
  - the three breadcrumb folder pickers;
  - the folder-name matching step and the file-linking step;
  - the per-file link form;
  - the Drive crawler, with its "new files" filter and upsert;
- the three dialogs that edit a song's attachments, and the attachment type classification;
- account registration with invite tokens (the API handler and the registration page);
- the singers API (GET and validated POST) and the global message queue.

Code that computes a value is modelled as datatypes, functions and lemmas. Code whose state changes in place is modelled with classes:

- React component state;
- zustand and easy-peasy stores;
- database tables.

Each method of those classes ties its new state to a specification function of its old state, and the lemmas state what the system promises about those functions. Values the program does not control are passed in as parameters:

- the network answers;
- the clock (`now`);
- the password hash;
- the public Drive folder id;
- whether a database read fails.

Module `Seqs` (seqs.dfy) holds the sequence operations the modules share, proved once:

- `Filter` and `RemoveAll`;
- `FirstIndex` and `FindBy`;
- `AllSome`;
- an insertion sort `SortBy` under a total preorder, standing for JavaScript's stable `Array.prototype.sort`; `SortByStable` proves it keeps equivalent elements in their input order.

## Model

| member | source | states |
|---|---|---|
| LinkCreatorStore.IsStepComplete | components/admin/DriveFileSongLinkCreator.tsx/store.tsx:62-68 | a step is complete unless it is the folder step without a truthy folder id |
| LinkCreatorStore.Computed | components/admin/DriveFileSongLinkCreator.tsx/store.tsx:70-85 | the derived flags: first/last step by index, back allowed off the first step, next allowed when the step is complete and not last |
| LinkCreatorStore.InitialState | components/admin/DriveFileSongLinkCreator.tsx/store.tsx:89-92 | a new store is on the intro step with no folder, may go forward and not back |
| LinkCreatorStore.ActionsPreserveValidIdx | components/admin/DriveFileSongLinkCreator.tsx/store.tsx:93-119 | every action keeps the step index inside the step list |
| LinkCreatorStore.NextStepMoves | components/admin/DriveFileSongLinkCreator.tsx/store.tsx:101-108 | next advances by one except on the last step; it ignores the completion checker |
| LinkCreatorStore.PreviousStepMoves | components/admin/DriveFileSongLinkCreator.tsx/store.tsx:93-100 | back goes one step back except on the first step, where nothing changes |
| LinkCreatorStore.NextAndPreviousAreInverse | components/admin/DriveFileSongLinkCreator.tsx/store.tsx:93-108 | away from the ends, next then back (or back then next) restores the state |
| LinkCreatorStore.CancelResets | components/admin/DriveFileSongLinkCreator.tsx/store.tsx:109-113 | cancel returns to the first step, keeps the folder and is idempotent |
| LinkCreatorStore.FolderSelectedSetsOnlyFolder | components/admin/DriveFileSongLinkCreator.tsx/store.tsx:115-119 | selecting a folder sets only the folder id; a non-empty id completes the folder step |
| LinkCreatorStore.FolderStepGating | components/admin/DriveFileSongLinkCreator.tsx/store.tsx:62-85 | on the folder step, next is forbidden until a folder is chosen and then leads to name matching |
| LinkCreatorStore.NextStep | components/admin/DriveFileSongLinkCreator.tsx/store.tsx:101-108 | the state after next; specified by `NextStepMoves`, `NextAndPreviousAreInverse` and `ActionsPreserveValidIdx` |
| LinkCreatorStore.PreviousStep | components/admin/DriveFileSongLinkCreator.tsx/store.tsx:93-100 | the state after back; specified by `PreviousStepMoves`, `NextAndPreviousAreInverse` and `ActionsPreserveValidIdx` |
| LinkCreatorStore.Cancel | components/admin/DriveFileSongLinkCreator.tsx/store.tsx:109-113 | the state after cancel; specified by `CancelResets` |
| LinkCreatorStore.FolderSelected | components/admin/DriveFileSongLinkCreator.tsx/store.tsx:115-119 | the state after a folder is chosen; specified by `FolderSelectedSetsOnlyFolder` |
| LinkCreatorStore.Store.constructor | components/admin/DriveFileSongLinkCreator.tsx/store.tsx:90-92 | the store starts in the initial state with no mappings |
| LinkCreatorStore.Store.GoToNextStep | components/admin/DriveFileSongLinkCreator.tsx/store.tsx:101-108 | the new state is the next-step state; the index stays valid |
| LinkCreatorStore.Store.GoToPreviousStep | components/admin/DriveFileSongLinkCreator.tsx/store.tsx:93-100 | the new state is the previous-step state; the index stays valid |
| LinkCreatorStore.Store.HandleCancel | components/admin/DriveFileSongLinkCreator.tsx/store.tsx:109-113 | the new state is the cancelled state |
| LinkCreatorStore.Store.HandleFolderSelected | components/admin/DriveFileSongLinkCreator.tsx/store.tsx:115-119 | the new state holds the chosen folder; the step is unchanged |
| LinkCreatorStore.Store.HandleMappingsChange | components/admin/DriveFileSongLinkCreator.tsx/steps/MatchFolderNames/MatchFolderNamesWithSongs.tsx:31-33 | the store's mappings become the given ones; folder and step are unchanged |
| FolderIdStore.Store.constructor | components/admin/DriveFileSongLinkCreator.tsx/store.ts:9-10 | the store starts at the public folder id; it has a folder exactly when that id is non-empty |
| FolderIdStore.Store.SetSongsFolderId | components/admin/DriveFileSongLinkCreator.tsx/store.ts:11 | the last id set is the store's folder id |
| LinkCreatorWizard.ShownStep | components/admin/DriveFileSongLinkCreator.tsx/index.tsx:79 | a step is shown exactly when the counter is in range, and it is that step's entry |
| LinkCreatorWizard.ButtonsWithinSteps | components/admin/DriveFileSongLinkCreator.tsx/index.tsx:31-41 | inside the steps, next asks for a save exactly on the final step and otherwise stays in range; back asks to close exactly when it leaves the range |
| LinkCreatorWizard.Next | components/admin/DriveFileSongLinkCreator.tsx/index.tsx:31-37 | the effect of the right-hand button; specified by `ButtonsWithinSteps`, `NextPrevInverse` and `NextTimesFromStart` |
| LinkCreatorWizard.Prev | components/admin/DriveFileSongLinkCreator.tsx/index.tsx:38-41 | the effect of the left-hand button; specified by `ButtonsWithinSteps` and `NextPrevInverse` |
| LinkCreatorWizard.NextPrevInverse | components/admin/DriveFileSongLinkCreator.tsx/index.tsx:31-41 | back undoes next except on the final step; next undoes back except when back landed on the final step |
| LinkCreatorWizard.NextTimesFromStart | components/admin/DriveFileSongLinkCreator.tsx/index.tsx:31-37 | n clicks on next from a step end at the step n further on, capped at the final step |
| LinkCreatorWizard.Wizard.constructor | components/admin/DriveFileSongLinkCreator.tsx/index.tsx:28 | the counter starts at 0 |
| LinkCreatorWizard.Wizard.HandleNext | components/admin/DriveFileSongLinkCreator.tsx/index.tsx:31-37 | the new counter and the save request are those of the next-click function |
| LinkCreatorWizard.Wizard.HandlePrev | components/admin/DriveFileSongLinkCreator.tsx/index.tsx:38-41 | the new counter and the close request are those of the back-click function |
| LinkCreatorWizard.Wizard.HandleFolderSelect | components/admin/DriveFileSongLinkCreator.tsx/index.tsx:50-52 | the folder's id goes into the folder-id store; the counter is unchanged |
| Breadcrumbs.StartIsValid | components/admin/DriveFileSongLinkCreator.tsx/steps/SelectDriveFolder/FolderSelect.tsx:24-30 | after mounting, the stack is just the root, which is current, at level 0 |
| Breadcrumbs.OpenSubfolderPreserves | components/admin/DriveFileSongLinkCreator.tsx/steps/SelectDriveFolder/FolderSelect.tsx:41-45 | opening an offered subfolder pushes it, makes it current, goes one level down and keeps the stack a descending path from the root |
| Breadcrumbs.JumpToPreserves | components/admin/DriveFileSongLinkCreator.tsx/steps/SelectDriveFolder/FolderSelect.tsx:32-39 | a jump truncates the stack to level + 1 entries, with the entry at that level current, and keeps it a descending path |
| Breadcrumbs.OpenSubfolder | components/admin/DriveFileSongLinkCreator.tsx/steps/SelectDriveFolder/FolderSelect.tsx:41-45 | the navigation state after opening a subfolder; specified by `OpenSubfolderPreserves` and `JumpUndoesOpen` |
| Breadcrumbs.JumpTo | components/admin/DriveFileSongLinkCreator.tsx/steps/SelectDriveFolder/FolderSelect.tsx:32-39 | the navigation state after a breadcrumb jump; specified by `JumpToPreserves`, `JumpUndoesOpen` and `JumpToLastIsNoOp` |
| Breadcrumbs.JumpUndoesOpen | components/admin/DriveFileSongLinkCreator.tsx/steps/SelectDriveFolder/FolderSelect.tsx:32-45 | jumping back to the level a subfolder was opened from restores the state |
| Breadcrumbs.JumpToLastIsNoOp | components/FolderSelect.tsx:20-27 | jumping to the last breadcrumb changes nothing |
| Breadcrumbs.PathShrinks | components/admin/DriveFileSongLinkCreator.tsx/steps/SelectDriveFolder/FolderSelect.tsx:66-81 | folders further down the breadcrumb path have strictly smaller trees, so no folder appears twice on it |
| Breadcrumbs.HandlersChangeCurrent | components/admin/DriveFileSongLinkCreator.tsx/steps/SelectDriveFolder/FolderSelect.tsx:47-49 | opening a subfolder and following a breadcrumb link both change the current folder, so the selection effect fires |
| SelectDriveFolderPicker.FolderSelect.constructor | components/admin/DriveFileSongLinkCreator.tsx/steps/SelectDriveFolder/FolderSelect.tsx:24-30 | the picker starts at the root, and the first effect run reports the root's id |
| SelectDriveFolderPicker.FolderSelect.HandleSubfolderClick | components/admin/DriveFileSongLinkCreator.tsx/steps/SelectDriveFolder/FolderSelect.tsx:41-49 | the state becomes the opened subfolder's, and its id is reported once |
| SelectDriveFolderPicker.FolderSelect.HandleJumpToParent | components/admin/DriveFileSongLinkCreator.tsx/steps/SelectDriveFolder/FolderSelect.tsx:32-39 | the state becomes the jump's, and the id of the folder jumped to is reported once |
| DriveFolderPicker.FolderSelect.constructor | components/admin/DriveFileSongLinkCreator.tsx/FolderSelect.tsx:20-26 | the picker starts at the root, and the first effect run reports the root folder |
| DriveFolderPicker.FolderSelect.HandleSubfolderClick | components/admin/DriveFileSongLinkCreator.tsx/FolderSelect.tsx:37-45 | the state becomes the opened subfolder's, and that folder is reported once |
| DriveFolderPicker.FolderSelect.HandleJumpToParent | components/admin/DriveFileSongLinkCreator.tsx/FolderSelect.tsx:28-35 | the state becomes the jump's, and the folder jumped to is reported once |
| FolderPicker.FolderSelect.constructor | components/FolderSelect.tsx:13-18 | the picker starts at the root |
| FolderPicker.FolderSelect.HandleSubfolderClick | components/FolderSelect.tsx:29-33 | the state becomes the opened subfolder's |
| FolderPicker.FolderSelect.HandleJumpToParent | components/FolderSelect.tsx:20-27 | the state becomes the jump's; a click on the last breadcrumb changes nothing |
| MatchFolderNames.ArraysEqualIsEquality | components/admin/DriveFileSongLinkCreator.tsx/steps/MatchFolderNames/MatchFolderNamesWithSongs.tsx:78-86 | the array comparison holds exactly for equal arrays; different lengths are unequal |
| MatchFolderNames.ArraysEqual | components/admin/DriveFileSongLinkCreator.tsx/steps/MatchFolderNames/MatchFolderNamesWithSongs.tsx:78-86 | the element-wise comparison; specified by `ArraysEqualIsEquality` |
| MatchFolderNames.Displayed | components/admin/DriveFileSongLinkCreator.tsx/steps/MatchFolderNames/MatchFolderNamesWithSongs.tsx:36-38 | the user's mappings are shown when present, the server's otherwise |
| MatchFolderNames.ChangedByUserExactly | components/admin/DriveFileSongLinkCreator.tsx/steps/MatchFolderNames/MatchFolderNamesWithSongs.tsx:43 | the "changed" notice shows exactly when the store holds mappings different from the server's; copying the shown mappings into the store does not trigger it |
| MatchFolderNames.MappingsChangedByUser | components/admin/DriveFileSongLinkCreator.tsx/steps/MatchFolderNames/MatchFolderNamesWithSongs.tsx:43 | whether the "changed" notice shows; specified by `ChangedByUserExactly` |
| MatchFolderNames.AssignSong | components/admin/DriveFileSongLinkCreator.tsx/steps/MatchFolderNames/MatchFolderNamesWithSongs.tsx:160-164 | only row `index` changes, and only its song id: the chosen song's id, or null when cleared |
| MatchFolderNames.RowShowsChoice | components/admin/DriveFileSongLinkCreator.tsx/steps/MatchFolderNames/MatchFolderNamesWithSongs.tsx:156-164 | after a choice, the row's autocomplete shows a song with the chosen id; after clearing, none |
| MatchFolderNames.NameMappingForm.constructor | components/admin/DriveFileSongLinkCreator.tsx/steps/MatchFolderNames/MatchFolderNamesWithSongs.tsx:101-111 | the form starts from the initial mappings and writes them to the store at once |
| MatchFolderNames.NameMappingForm.SelectSong | components/admin/DriveFileSongLinkCreator.tsx/steps/MatchFolderNames/MatchFolderNamesWithSongs.tsx:112-115 | the form's rows become the assigned rows, and the store receives the whole new array |
| MatchFolderNames.HandleResetClick | components/admin/DriveFileSongLinkCreator.tsx/steps/MatchFolderNames/MatchFolderNamesWithSongs.tsx:44-47 | the server's mappings go back into the store, after which the notice is gone |
| LinkFiles.ClearedRowsPass | components/admin/DriveFileSongLinkCreator.tsx/steps/LinkFiles/index.tsx:8-12 | a row takes part in linking exactly when its song id is set or null; only an undefined id fails |
| LinkFiles.MappingsWithSongIsOrderedSelection | components/admin/DriveFileSongLinkCreator.tsx/steps/LinkFiles/index.tsx:16-18 | the result is the passing rows of the stored mappings, in order and each as often as stored; it is empty without stored mappings |
| LinkFiles.MappingsWithSongIdempotent | components/admin/DriveFileSongLinkCreator.tsx/steps/LinkFiles/index.tsx:16-18 | filtering again changes nothing, and the result is never longer than the input |
| LinkFiles.IsMappingWithSong | components/admin/DriveFileSongLinkCreator.tsx/steps/LinkFiles/index.tsx:8-12 | the row filter; specified by `ClearedRowsPass` |
| LinkFiles.MappingsWithSong | components/admin/DriveFileSongLinkCreator.tsx/steps/LinkFiles/index.tsx:16-18 | the rows taking part in linking; specified by `MappingsWithSongIsOrderedSelection` and `MappingsWithSongIdempotent` |
| FileLinkForm.PrefillRules | components/admin/DriveFileSongLinkCreator.tsx/FileLinkForm.tsx:61-66 | a non-empty label is kept, an empty one takes the type's default ('Anfangstöne' for initial notes), and a second run changes nothing |
| FileLinkForm.GetPrefillLabel | components/admin/DriveFileSongLinkCreator.tsx/FileLinkForm.tsx:134-141 | the default label of a link type; its values are stated by `PrefillRules` |
| FileLinkForm.ClickRules | components/admin/DriveFileSongLinkCreator.tsx/FileLinkForm.tsx:39-59 | the button is enabled exactly when a click emits something; an existing link is removed by its own song id and label; otherwise valid data is added with the file's URL and Drive id |
| FileLinkForm.Prefill | components/admin/DriveFileSongLinkCreator.tsx/FileLinkForm.tsx:61-66 | the label shown after the prefill effect; specified by `PrefillRules` |
| FileLinkForm.ClickAction | components/admin/DriveFileSongLinkCreator.tsx/FileLinkForm.tsx:42-59 | what a button click emits; specified by `ClickRules` |
| FileLinkForm.Form.constructor | components/admin/DriveFileSongLinkCreator.tsx/FileLinkForm.tsx:32-37 | the state starts from the existing link, or from '', 'Audio' and no song; the prefill effect then runs once |
| FileLinkForm.Form.SetType | components/admin/DriveFileSongLinkCreator.tsx/FileLinkForm.tsx:102-107 | the type is set and the label is prefilled; the song is unchanged |
| FileLinkForm.Form.SetLabel | components/admin/DriveFileSongLinkCreator.tsx/FileLinkForm.tsx:108-115 | the label is set, and an emptied label becomes the type's default |
| FileLinkForm.Form.SetSongId | components/admin/DriveFileSongLinkCreator.tsx/FileLinkForm.tsx:97-100 | the song id is set; label and type are unchanged |
| FileLinkForm.Form.HandleButtonClick | components/admin/DriveFileSongLinkCreator.tsx/FileLinkForm.tsx:42-59 | the emitted action is the click action of the current state; nothing is emitted exactly when the button is disabled |
| DriveCrawler.ConstructRelativePath | server/routers/google-drive.ts:134-139 | an empty folder path gives the name alone; otherwise the path, a slash and the name |
| DriveCrawler.DriveFileToDbFile | server/routers/google-drive.ts:78-87 | the row carries the file's id, download link, MIME type and name, synced now |
| DriveCrawler.Classify | server/routers/google-drive.ts:104-122 | an item with a non-empty link is a file; without one it is a folder if its MIME type is the folder type, and is skipped otherwise |
| DriveCrawler.AbortPropagates | server/routers/google-drive.ts:103-130 | once an item's payload fails to parse, the crawl of the whole folder fails |
| DriveCrawler.GetFilesInFolderRecursively | server/routers/google-drive.ts:89-132 | the loop with its recursive calls yields exactly the crawl specification's files, or the abort |
| DriveCrawler.FilesIn | server/routers/google-drive.ts:89-132 | the crawl specification: the files found under a folder, or the abort; specified by `AbortPropagates` and `CrawledFilesAreUnder`, and met by `GetFilesInFolderRecursively` |
| DriveCrawler.UnderPath | server/routers/google-drive.ts:134-139 | the path built for an item lies under its folder's path |
| DriveCrawler.CrawledFilesAreUnder | server/routers/google-drive.ts:103-130 | every crawled file's path lies under the crawled folder's path, and every file has a non-empty download link |
| DriveCrawler.NewFilesExactly | server/routers/google-drive.ts:61-72 | the new files are exactly the crawled files whose id is not stored, in crawl order |
| DriveCrawler.UpsertRules | server/routers/google-drive.ts:149-161 | the file's row holds its name, link and MIME type; an existing row keeps its sync time; no other row changes; a repeated upsert changes nothing |
| DriveCrawler.UpsertAllKeys | server/routers/google-drive.ts:149-161 | after storing a list of files, the table's ids are the old ids plus those files' ids |
| DriveCrawler.NewFiles | server/routers/google-drive.ts:61-72 | the crawled files not yet stored; specified by `NewFilesExactly` |
| DriveCrawler.Upsert | server/routers/google-drive.ts:149-161 | the table after one upsert; specified by `UpsertRules` |
| DriveCrawler.UpsertAll | server/routers/google-drive.ts:149-161 | the table after upserting a list of files; specified by `UpsertAllKeys` |
| DriveCrawler.StoredFilesAreNotNew | server/routers/google-drive.ts:56-75 | once the new files are stored, asking again for new files yields none |
| DriveCrawler.DriveFileTable.constructor | server/routers/google-drive.ts:149-161 | the table starts with the given rows |
| DriveCrawler.DriveFileTable.StoreInDb | server/routers/google-drive.ts:149-161 | the table becomes the upsert of the file |
| DriveCrawler.DriveFileTable.GetNewFilesForFolderId | server/routers/google-drive.ts:56-75 | the mutation rejects exactly when the crawl fails or finds no file (the id filter refuses an empty list); otherwise the result is the crawled files not yet in the table |
| SetlistEditing.Swapped | components/SetlistDialog.tsx:65-68 | two entries trade places, all others stay, and the songs and their counts are kept |
| SetlistEditing.SwappedSymmetric | components/SetlistDialog.tsx:65-68 | swapping i with j is the same as swapping j with i |
| SetlistEditing.SwapTwice | components/SetlistDialog.tsx:65-68 | swapping the same two positions twice restores the list |
| SetlistEditing.MoveUpRules | components/SetlistDialog.tsx:62-71 | moving up keeps the songs and their counts, swaps only the first copy with its predecessor, and is a no-op when the song is absent or first |
| SetlistEditing.MoveDownRules | components/SetlistDialog.tsx:73-82 | moving down keeps the songs and their counts, swaps only the first copy with its successor, and is a no-op on the last position |
| SetlistEditing.MoveUpThenDown | components/SetlistDialog.tsx:62-82 | moving a song that is not first up and then down restores the list |
| SetlistEditing.MoveDownThenUp | components/SetlistDialog.tsx:62-82 | moving a song down and then up restores the list when its successor is a different song |
| SetlistEditing.MovedUp | components/SetlistDialog.tsx:62-71 | the song list after moving a song up; specified by `MoveUpRules` and `MoveUpThenDown` |
| SetlistEditing.MovedDown | components/SetlistDialog.tsx:73-82 | the song list after moving a song down; specified by `MoveDownRules` and `MoveDownThenUp` |
| SetlistEditing.RemoveRules | components/SetlistDialog.tsx:58-60 | removal drops every copy of the song and keeps the other songs, in order and with their counts |
| SetlistEditing.SwapCopy | components/SetlistDialog.tsx:65-68 | the copy-and-swap gives the swapped list |
| SetlistDialog.Dialog.constructor | components/SetlistDialog.tsx:34-35 | the dialog starts with an empty title and no songs |
| SetlistDialog.Dialog.ApplyInitialValues | components/SetlistDialog.tsx:40-48 | initial values are copied in, or both fields are cleared |
| SetlistDialog.Dialog.HandleSave | components/SetlistDialog.tsx:50-52 | the saved values are the current song ids and title |
| SetlistDialog.Dialog.SetTitle | components/SetlistDialog.tsx:98-100 | the title is set; the songs are unchanged |
| SetlistDialog.Dialog.HandleSongPicked | components/SetlistDialog.tsx:115-119 | a picked song's id is appended, even when already listed; no pick changes nothing |
| SetlistDialog.Dialog.HandleRemoveClick | components/SetlistDialog.tsx:58-60 | the songs become the list without that song |
| SetlistDialog.Dialog.HandleMoveUpClick | components/SetlistDialog.tsx:62-71 | the songs become the moved-up list |
| SetlistDialog.Dialog.HandleMoveDownClick | components/SetlistDialog.tsx:73-82 | the songs become the moved-down list |
| AdminSetlistDialog.Dialog.constructor | components/admin/SetlistDialog.tsx:31-32 | the dialog starts with an empty title and no songs |
| AdminSetlistDialog.Dialog.ApplyInitialValues | components/admin/SetlistDialog.tsx:34-42 | initial values are copied in, or both fields are cleared |
| AdminSetlistDialog.Dialog.HandleSave | components/admin/SetlistDialog.tsx:44-46 | the saved values are the current song ids and title |
| AdminSetlistDialog.Dialog.SetTitle | components/admin/SetlistDialog.tsx:95-97 | the title is set; the songs are unchanged |
| AdminSetlistDialog.Dialog.HandleSongPicked | components/admin/SetlistDialog.tsx:111-115 | a picked song's id is appended, even when already listed |
| AdminSetlistDialog.Dialog.HandleRemoveClick | components/admin/SetlistDialog.tsx:52-54 | the songs become the list without that song |
| AdminSetlistDialog.Dialog.HandleMoveUpClick | components/admin/SetlistDialog.tsx:56-65 | the songs become the moved-up list |
| AdminSetlistDialog.Dialog.HandleMoveDownClick | components/admin/SetlistDialog.tsx:67-76 | the songs become the moved-down list |
| SetlistTables.SongInfoInputs | server/routers/setlist.ts:25-29 | one entry per submitted id, duplicates included, ordered by position |
| SetlistTables.ByOrderIsTotalPreorder | pages/programm.tsx:115 | the `order` comparator is a total preorder, so sorting by it is well defined |
| SetlistTables.SongIdsOf | pages/programm.tsx:117 | the song ids of the entries, position by position |
| SetlistTables.OrderRoundTrip | server/routers/setlist.ts:25-43 | whatever other setlists hold, a new setlist's entries read back and sorted by order give the submitted ids in order, duplicates included |
| SetlistTables.Database.constructor | server/routers/setlist.ts:16-44 | the tables start empty apart from the songs |
| SetlistTables.Database.InsertSetlist | server/routers/setlist.ts:17-23 | a setlist row with a fresh id is appended; nothing else changes |
| SetlistTables.Database.InsertSongInfos | server/routers/setlist.ts:31 | all entries are inserted exactly when every song id exists; otherwise none is |
| SetlistRouter.Add | server/routers/setlist.ts:5-48 | an empty name is refused; an empty song list or a missing song rolls back both inserts; on success the setlist and its entries are added and the returned entries give back the ids in order |
| SetlistApi.SetlistRequestHandler | pages/api/setlists/index.ts:16-68 | 401 without a session and 400 without POST, both with nothing written; an unparsable body or empty title gives 400; otherwise the setlist is created, and a missing song leaves it without entries and answers 400 |
| SongLookup.SongsDictLookup | pages/programm.tsx:136-139 | the dictionary holds exactly the fetched ids, each mapped to a song with that id |
| SongLookup.SongsDict | pages/programm.tsx:136-139 | the id-to-song dictionary; specified by `SongsDictLookup` |
| SongLookup.BuildSongsDict | pages/programm.tsx:136-139 | the reduce loop builds the dictionary function |
| SongLookup.Resolve | pages/programm.tsx:141 | each id maps to its dictionary song, or to nothing when missing |
| SongLookup.FetchSongs | pages/programm.tsx:126-132 | `findMany` by a list of ids; specified by `FetchSongsSelects` |
| SongLookup.FetchSongsSelects | pages/programm.tsx:126-132 | the fetched songs are exactly the table's songs whose id is asked for, in table order |
| SongLookup.SetlistSongsArePositional | pages/programm.tsx:113-146 | the k-th song is the table's song with the k-th ordered id, present exactly when the table has it; equal ids give equal songs |
| SongLookup.GetSongsForEntries | pages/strassensingen.tsx:51-80 | sort, map, early return, fetch, dictionary and lookup together give the setlist's songs |
| ProgrammPage.NewestFirstIsTotalPreorder | pages/programm.tsx:96-99 | newest-first is a total preorder |
| ProgrammPage.NewestFirst | pages/programm.tsx:96-99 | the newest-first order; specified by `NewestFirstIsTotalPreorder` and `SetlistsNewestFirst` |
| ProgrammPage.GetSetlistSongs | pages/programm.tsx:110-147 | the name passes through and the songs are the setlist's songs; no entries give no songs |
| ProgrammPage.SetlistsWithSongs | pages/programm.tsx:95-108 | one entry per setlist |
| ProgrammPage.ResolvedAll | pages/programm.tsx:105 | the i-th entry is the i-th setlist resolved |
| ProgrammPage.SetlistsNewestFirst | pages/programm.tsx:95-108 | every setlist is listed once, newest first, each with its own name |
| ProgrammPage.ResolvedAllAppend | pages/programm.tsx:105 | resolving one more setlist appends its entry |
| ProgrammPage.ResolveEach | pages/programm.tsx:105 | the loop over the setlists yields exactly the resolved list |
| ProgrammPage.GetServerSideProps | pages/programm.tsx:69-89 | the page gets every setlist with its songs, or none when reading fails |
| StreetSingingPage.Latest | pages/strassensingen.tsx:42-49 | no setlist exactly when the table is empty; otherwise a setlist created no earlier than any other |
| StreetSingingPage.NoSetlistNoSongs | pages/strassensingen.tsx:51-63 | without setlists, or with an empty latest one, the page gets no songs |
| StreetSingingPage.StreetSingingSongs | pages/strassensingen.tsx:38-98 | the songs the page shows; specified by `NoSetlistNoSongs` and `StreetSingingPage.GetServerSideProps` |
| StreetSingingPage.GetServerSideProps | pages/strassensingen.tsx:38-98 | the page gets the latest setlist's songs, or none when reading fails |
| AttachmentTypes.ClassificationRules | drizzle/models.ts:29-45 | no weblink type starts with 'Audio', so every audio type is a file type |
| AttachmentTypes.TypeValuesPartition | drizzle/models.ts:48-54 | the two value lists split the enum values in enum order, each value kept as often as the enum has it |
| AttachmentTypes.IsWeblinkType | drizzle/models.ts:41-45 | `isWeblinkAttachment`; specified by `ClassificationRules` and `TypeValuesPartition` |
| AttachmentTypes.IsFileType | drizzle/models.ts:29-33 | `isFileAttachment`; specified by `ClassificationRules` and `TypeValuesPartition` |
| AttachmentTypes.IsAudioFileType | drizzle/models.ts:35-39 | `isAudioFileAttachment`; specified by `ClassificationRules` |
| AttachmentTypes.WebLinkTypeValues | drizzle/models.ts:49-51 | the weblink type values; specified by `TypeValuesPartition` |
| AttachmentTypes.FileTypeValues | drizzle/models.ts:52-54 | the file type values; specified by `TypeValuesPartition` |
| AttachmentLists.RemovedAt | components/admin/SongFileLinksDialog.tsx:49-51 | removing one row shortens the list by one |
| AttachmentLists.RemovedAtRules | components/admin/SongFileLinksDialog.tsx:49-51 | rows before the removed one stay, later ones move up by one, and exactly one copy of the removed row is gone |
| AttachmentLists.FileListDialog.constructor | components/admin/SongFileLinksDialog.tsx:29 | the dialog starts with the existing files |
| AttachmentLists.FileListDialog.HandleSave | components/admin/SongFileLinksDialog.tsx:31-33 | the saved list is the current list |
| AttachmentLists.FileListDialog.HandleAdd | components/admin/SongFileLinksDialog.tsx:39-41 | the new entry is appended |
| AttachmentLists.FileListDialog.HandleEdit | components/admin/SongFileLinksDialog.tsx:43-47 | row i is replaced and the others stay |
| AttachmentLists.FileListDialog.HandleRemove | components/admin/SongFileLinksDialog.tsx:49-51 | the list loses the row at the clicked position |
| AttachmentLists.NewEntryRow.constructor | components/admin/SongFilesDialog.tsx:128-140 | the new row starts empty with the dialog's default type and song |
| AttachmentLists.NewEntryRow.SetText | components/admin/SongFilesDialog.tsx:158 | the text is set; type and URL are unchanged |
| AttachmentLists.NewEntryRow.SetType | components/admin/SongFilesDialog.tsx:163 | the type is set; text and URL are unchanged |
| AttachmentLists.NewEntryRow.SetUrl | components/admin/SongFilesDialog.tsx:172 | the URL is set; text and type are unchanged |
| AttachmentLists.SongFileAddClick | components/admin/SongFilesDialog.tsx:174-180 | the emitted file has the row's name, type and URL and the dialog's song |
| AttachmentLists.OptionsFor | components/SongFilesDialog.tsx:112-115 | one option per type, in order, each labelled with its type's label |
| SongFileLinksDialog.HandleAddClick | components/admin/SongFileLinksDialog.tsx:142-148 | the emitted link has the row's label, type and URL and the dialog's song |
| SongFileLinksDialog.AddUntouchedTwice | components/admin/SongFileLinksDialog.tsx:96-108 | two clicks on an untouched new row append the same empty 'AudioInitialNotes' link twice |
| AdminSongFilesDialog.LabelRules | components/admin/SongFilesDialog.tsx:81-105 | known types get pairwise different labels; any other type is shown as is |
| AdminSongFilesDialog.GetLabelForLinkType | components/admin/SongFilesDialog.tsx:81-105 | the label shown for a link type; specified by `LabelRules` |
| AdminSongFilesDialog.LowerChar | components/admin/SongFilesDialog.tsx:112 | upper-case ASCII letters are lowered; every other character is kept |
| AdminSongFilesDialog.Lower | components/admin/SongFilesDialog.tsx:112 | lower-casing works character by character and keeps the length |
| AdminSongFilesDialog.LexTotal | components/admin/SongFilesDialog.tsx:112 | any two strings are comparable |
| AdminSongFilesDialog.LexTrans | components/admin/SongFilesDialog.tsx:112 | the comparison is transitive |
| AdminSongFilesDialog.ByLowerValueIsTotalPreorder | components/admin/SongFilesDialog.tsx:112 | the options comparator is a total preorder |
| AdminSongFilesDialog.OptionsRules | components/admin/SongFilesDialog.tsx:107-112 | the options are sorted by lower-cased value, are a permutation of the labelled type list, and each carries its type's label |
| AdminSongFilesDialog.Options | components/admin/SongFilesDialog.tsx:107-112 | the select options; specified by `OptionsRules` |
| Seqs.SortByStable | components/admin/SongFilesDialog.tsx:112 | the sort standing for `Array.prototype.sort` is stable: elements that are mutually less or equal keep their input order |
| PublicSongFilesDialog.LabelRules | components/SongFilesDialog.tsx:92-110 | known types get pairwise different labels; any other type is shown as is |
| PublicSongFilesDialog.GetLabelForLinkType | components/SongFilesDialog.tsx:92-110 | the label shown for a link type; specified by `LabelRules` |
| PublicSongFilesDialog.OptionsRoundTrip | components/SongFilesDialog.tsx:112-115 | reading the values back off the options gives the type list, in order |
| PublicSongFilesDialog.Options | components/SongFilesDialog.tsx:112-115 | the select options; specified by `OptionsRoundTrip` |
| Statistics.SingerIdsAt | pages/statistiken/index.tsx:44-46 | an id is listed exactly when that singer has a record for the event |
| Statistics.EventIdsOf | pages/statistiken/index.tsx:57-59 | an id is listed exactly when the singer has a record for that event |
| Statistics.ForEvent | pages/statistiken/index.tsx:43-50 | the event's singers are, in order, exactly those with a record for it; the total is their number |
| Statistics.AttendanceByEvent | pages/statistiken/index.tsx:39-50 | one entry per event, in event order |
| Statistics.ForSinger | pages/statistiken/index.tsx:56-63 | the singer's events are, in order, exactly those with a record of them; the total is their number |
| Statistics.AttendanceBySinger | pages/statistiken/index.tsx:52-63 | one entry per singer, in order |
| Statistics.DuplicateRecordsDoNotCount | pages/statistiken/index.tsx:43-50 | adding an attendance record that is already present changes no event's entry |
| Statistics.TotalCountsDistinctSingers | pages/statistiken/index.tsx:179-186 | with singers listed once each, an event's total is the number of different singers with a record for it |
| Statistics.Buckets | pages/statistiken/index.tsx:67-72 | one bucket per voice group, in enum order, holding that group's singers |
| Statistics.EventAttendanceByVoiceGroup | pages/statistiken/index.tsx:67-72 | one bucket list per event |
| Statistics.BucketsPartition | pages/statistiken/index.tsx:65-72 | each singer is in the bucket of its own group and no other, and the bucket sizes add up to the event's total |
| Statistics.EventRows | pages/statistiken/index.tsx:74-79 | one row per event, with its total, id, start and summary |
| Statistics.AbsenceRules | pages/statistiken/index.tsx:85-91 | absences lie between 0 and the number of events; a singer without records is absent from every event, one with records from the events without one |
| Statistics.SingerRows | pages/statistiken/index.tsx:85-91 | one row per singer, in the singer order; its absences are specified by `AbsenceRules` |
| Statistics.FindAttendance | pages/statistiken/index.tsx:87 | the lookup finds nothing exactly when no attending singer has the id, otherwise the first such singer's entry |
| Statistics.PutLookup | pages/statistiken/index.tsx:196-201 | after writing a key, reading it gives the written count and other keys are unchanged |
| Statistics.PutAbsentAppends | pages/statistiken/index.tsx:196-201 | writing a new key appends it at the end |
| Statistics.PutAllLookup | pages/statistiken/index.tsx:196-201 | each group maps to the count of its last row; groups without a row are absent |
| Statistics.PutAllOfDistinct | pages/statistiken/index.tsx:189-201 | with each group named once, the entries are the group-by rows in their order |
| Statistics.BuildSingersByVoiceGroup | pages/statistiken/index.tsx:196-201 | the forEach loop builds the dictionary function |
| Statistics.GroupRows | pages/statistiken/index.tsx:81-83 | one row per entry, with its group, count and position |
| Statistics.GroupRowIdsAreIndices | pages/statistiken/index.tsx:81-83 | row ids are the positions, hence pairwise different |
| VoiceGroups.FromName | drizzle/schema.ts:38-50 | a name resolves only to the group with that name |
| VoiceGroups.NameRoundTrip | drizzle/schema.ts:38-50 | every group's name resolves back to it, and a name resolves exactly when some group has it |
| MessageStore.RemovalDelay | lib/message-store.ts:32-37 | the delay is the interval times the queue length, at least one interval for a non-empty queue |
| MessageStore.AddThenRemove | lib/message-store.ts:28-41 | appending and then removing a payload leaves no copy of it and the other messages as before |
| MessageStore.RemoveKeepsOthers | lib/message-store.ts:38-41 | removal keeps the other messages in order and with their counts |
| MessageStore.GlobalMessageStore.constructor | lib/message-store.ts:26 | the queue starts empty and nothing is shown |
| MessageStore.GlobalMessageStore.CurrentMessage | lib/message-store.ts:27 | the shown message is the first queued one, or none for an empty queue |
| MessageStore.GlobalMessageStore.AddedMessage | lib/message-store.ts:28-31 | the payload is appended |
| MessageStore.GlobalMessageStore.RemoveMessage | lib/message-store.ts:38-41 | every copy of the payload is dropped |
| MessageStore.GlobalMessageStore.AddMessage | lib/message-store.ts:32-37 | the payload is appended and its removal is scheduled after the delay for the new queue length |
| MessageStore.AddToEmptyAndExpire | lib/message-store.ts:32-41 | a message added to an empty queue is shown at once, its removal is scheduled after one interval, and it is gone once that removal runs |
| Registration.Parse | pages/api/register.ts:6-11 | a body is accepted exactly when it has an e-mail-shaped email, a password of at least 6 UTF-16 code units, a name, and an invite token that is a string if present; the data are the fields |
| Registration.Utf16Length | pages/api/register.ts:8 | the length `min(6)` compares: between the number of characters and twice that |
| Registration.Utf16LengthOfBmp | pages/api/register.ts:8 | without characters above U+FFFF the length is the number of characters |
| Registration.ThreeEmojiAreSixUnits | pages/api/register.ts:8 | a password of three emoji is six units long, so it meets the minimum |
| Registration.Consume | pages/api/register.ts:63-66 | exactly the selected unused tokens are marked used at `now` |
| Registration.RegisterRules | pages/api/register.ts:46-77 | a missing token gives 'Invalid token!' and a spent one 'Token already used!', both changing nothing; otherwise the tokens are consumed and the user is added unless the e-mail is taken; unchecked calls leave the tokens alone |
| Registration.Register | pages/api/register.ts:46-77 | `registerUser` with the token filter evidently intended; specified by `RegisterRules`, `TokenUsableOnce` and `AbsentTokenIsInvalid` |
| Registration.RegisterAsWritten | pages/api/register.ts:46-77 | `registerUser` as written; specified by `AbsentTokenAsWritten` |
| Registration.TokenUsableOnce | pages/api/register.ts:63-71 | after a successful checked registration every row with the token is used, and a second registration with it fails with 'Token already used!' |
| Registration.ConsumeSpendsSelected | pages/api/register.ts:63-66 | after consuming, every selected row is used and none is left to consume |
| Registration.AbsentTokenAsWritten | pages/api/register.ts:55-66 | as written, with a free e-mail and any token table holding an unused token, a checked registration without a token succeeds and marks every unused token used at that time, leaving used ones as they were |
| Registration.AbsentTokenIsInvalid | pages/api/register.ts:52-60 | with the intended filter, a checked registration without a token is refused with nothing changed |
| Registration.HandlerRules | pages/api/register.ts:15-42 | an invalid body or taken e-mail gives 400; with no users an unchecked registration is started first; in every case with a free e-mail a checked one is then started and the answer is 200 |
| Registration.RegisterHandler | pages/api/register.ts:15-42 | the status and the `registerUser` calls the handler starts; specified by `HandlerRules` |
| Registration.Database.constructor | pages/api/register.ts:46-77 | the tables start with the given rows |
| Registration.Database.RegisterUser | pages/api/register.ts:46-77 | the outcome and new tables are those of the registration function with the intended filter |
| RegisterPage.GetValidatedTokenRules | pages/register.tsx:152-172 | no token unless the query has a non-empty string token; it is accepted exactly when the first row holding it is unused, otherwise rejected |
| RegisterPage.ServerSidePropsRules | pages/register.tsx:137-150 | with no users the page is open without a token; otherwise a valid token is passed on and anything else redirects home |
| RegisterPage.SubmitBodyRules | pages/register.tsx:44-52 | the body carries the invite token exactly when the page has a non-empty one; it has no `name`, so the handler answers it with 400 |
| RegisterPage.GetValidatedToken | pages/register.tsx:152-172 | the token check; specified by `GetValidatedTokenRules` |
| RegisterPage.GetServerSideProps | pages/register.tsx:137-150 | the page props or redirect; specified by `ServerSidePropsRules` |
| RegisterPage.SubmitBody | pages/register.tsx:44-52 | the request body the form sends; specified by `SubmitBodyRules` |
| RegisterPage.RegisterForm.constructor | pages/register.tsx:58-74 | the form starts with neither error nor success |
| RegisterPage.RegisterForm.HandleResponse | pages/register.tsx:58-74 | a failed response sets the error; a successful one clears it, sets success and schedules the sign-in |
| SingersApi.Leading | pages/api/singers/index.ts:13-14 | the leading white space, and no more |
| SingersApi.Trailing | pages/api/singers/index.ts:13-14 | the trailing white space, and no more |
| SingersApi.TrimRules | pages/api/singers/index.ts:13-14 | the trimmed name is the input between white space at both ends; it has none at either end, is empty exactly when the input is all white space, and trimming again changes nothing |
| SingersApi.Trim | pages/api/singers/index.ts:13-14 | `String.prototype.trim`; specified by `TrimRules` |
| SingersApi.ValidateNewSinger | pages/api/singers/index.ts:12-16 | a singer is accepted exactly when both trimmed names are non-empty and a voice group string is present; the result holds the trimmed names |
| SingersApi.ValidateAll | pages/api/singers/index.ts:20 | the array is accepted exactly when every element is, and the result is the elements' results in order |
| SingersApi.ValidateNewSingers | pages/api/singers/index.ts:45-46 | the parsed POST body; specified by `ValidateNewSingersRules` |
| SingersApi.ValidateNewSingersRules | pages/api/singers/index.ts:45-46 | the parsed POST body: a non-array is refused and an array is accepted exactly when every element validates, with one result per element |
| SingersApi.FindInvalidVoiceGroup | pages/api/singers/index.ts:47-53 | nothing is found exactly when every voice group is an enum member; otherwise the first unknown one is |
| SingersApi.ToClient | pages/api/singers/index.ts:37-42 | one singer per row with the same id and group; null names become '-' |
| SingersApi.PostThenGet | pages/api/singers/index.ts:35-55 | GET returns posted singers with the trimmed names, the named voice group and fresh consecutive ids |
| SingersApi.Inserted | pages/api/singers/index.ts:55 | one stored row per posted singer; what GET returns of them is specified by `PostThenGet` |
| SingersApi.SingerTable.constructor | pages/api/singers/index.ts:36 | the table starts with the given rows |
| SingersApi.SingerTable.SingerRequestHandler | pages/api/singers/index.ts:26-64 | 401 without a session; GET sends the singers; POST inserts the whole batch when it validates and every group is known, else nothing with 400; other methods get 400 |

## Findings

| source | as written | input that shows it | evidently intended | confidence | as-written member | corrected member |
|---|---|---|---|---|---|---|
| pages/api/register.ts:55-66 | `where: { token: inviteToken }` with `inviteToken` undefined; Prisma drops undefined fields from a filter, so both queries select every invite token | a checked registration body without `inviteToken`, with a free e-mail, while tokens "a" and "b" are unused: the user is registered and both tokens are marked used | a registration without a token is refused as 'Invalid token!' and consumes nothing | medium (relies on Prisma's treatment of undefined filter values), not executed | Registration.AbsentTokenAsWritten | Registration.AbsentTokenIsInvalid |

`Registration.Register` and `Registration.Database.RegisterUser` use the corrected filter. `Registration.RegisterAsWritten` keeps the filter as written.

## Left out

- Timers: the `setTimeout` of the message store and the delayed sign-in of the registration page are not run. `MessageStore.GlobalMessageStore.AddMessage` returns the delay, and `RegisterPage.RegisterForm.HandleResponse` returns whether the sign-in is scheduled. `MessageStore.AddToEmptyAndExpire` plays the removal through.
- Network and external services are not modelled:
  - the Drive is a finite tree of items; a payload that fails schema parsing aborts the crawl;
  - the fetch calls, the API key and the `getMetadataForGoogleDriveId` request are left out;
  - next-auth session checks are a boolean;
  - bcrypt is a password-hash parameter.
- Database tables are sequences or maps of rows, and database ids are counters. One `now` stands for every `new Date()` of a request.
- A failed read in `getServerSideProps` is a `readFails` parameter.
- `registerUser` is launched without `await`. The handler is modelled as the list of calls it starts, and each call runs on its own. The race between the unchecked and checked calls for the first user is not modelled.
- Rendering, Material UI, Formik, `clearAutocompleteKey`, `rerenderHackKey`, `handleClose`/`onClose` and dialog titles are left out, except where a handler's effect is modelled.
- The `alert` of the wizard's save handler is reported as a save request, not modelled.
- `getSongMappingsForSubfolderNames` and `getSongFolderFileMappings` are not part of this model. Neither is the other procedures' fuzzy SQL matching, or the other routers and pages.
- `SongFileLink`, the `attachmentType` enum values and `linkTypeValues` are not part of this model. Link types are strings, and the partition and options lemmas hold for any value list.
- The public folder id comes from the configuration. It is a constructor parameter of `FolderIdStore.Store`.
- store.ts and store.tsx are two versions of the wizard store. Both are modelled. The store.tsx `mappings` field that the steps use is not declared there, so it is modelled as an optional field with a setter.
- Registration.Parse: `z.string().email()` is simplified to one '@' with a non-empty local part and a domain with an inner '.'.
- SingersApi.Trim: JavaScript's white-space set is cut down to the ASCII white space, the no-break space and the byte-order mark.
- AdminSongFilesDialog.OptionsRules: `localeCompare` is approximated by code-point order of the strings after ASCII lower-casing.
- SingersApi.FindInvalidVoiceGroup: a voice group string that names an inherited object property such as "toString" passes the source's enum check. The model treats it as unknown.
- AttachmentLists.FileListDialog.HandleRemove removes the clicked row by its position. The source filters by object identity. Both drop exactly that row unless the same object is listed twice.
- The attachment dialogs never call `onEdit` from a row. Edits made in an existing row stay in that row's local state and are not saved, so `AttachmentLists.FileListDialog.HandleEdit` models the handler only.
- The registration page sends `firstName`/`lastName`, while the handler's validator requires `name`. `RegisterPage.SubmitBodyRules` states the consequence (400) rather than reconciling the two. The `User` table of drizzle/schema.ts likewise has `firstName`/`lastName` where register.ts writes `name`.
- SetlistDialog.Dialog.HandleMoveDownClick and AdminSetlistDialog.Dialog.HandleMoveDownClick require the song to be listed. They are only reachable from a listed row; for an absent id the source would write at index -1.
- DriveCrawler.DriveFileTable.GetNewFilesForFolderId follows the query builder of the repository's generation (drizzle-orm before 0.30), whose `inArray` refuses an empty list; later versions accept it and would answer an empty crawl with no files.
- The foreign key from `SetlistSongInfo.songId` to `Song` is the only modelled reason an entry insert fails in the database. In `SetlistRouter.Add` an empty song list also fails, because the insert builder refuses an empty value list before reaching the database.
- The breadcrumb jump handlers take only the level. Every rendered breadcrumb passes `parentFolders[level]` as the folder.
