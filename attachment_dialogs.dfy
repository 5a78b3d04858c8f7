/**
 * The three dialogs that edit the attachments of one song: the admin dialog
 * for Drive file links (components/admin/SongFileLinksDialog.tsx), the admin
 * dialog for song files (components/admin/SongFilesDialog.tsx) and the
 * public one (components/SongFilesDialog.tsx). All three keep a local copy of
 * the list, append what the "new" row emits, replace a row on edit, drop a
 * row on remove and hand the list to `onSave`.
 */
module AttachmentLists {
  import opened Seqs

  /** A file attached to a song (`SongFile`): its name, link type and URL. */
  datatype SongFile = SongFile(name: string, linkType: string, url: string, songId: string)

  /** The list without the entry at position `i`. */
  function RemovedAt<T>(s: seq<T>, i: int): (r: seq<T>)
    requires 0 <= i < |s|
    ensures |r| == |s| - 1
  {
    s[..i] + s[i + 1..]
  }

  /**
   * Removing one row keeps the rows before it in place, moves the rows after
   * it up by one, keeps the order of the rest and takes away exactly one copy
   * of the removed entry.
   */
  lemma {:induction false} RemovedAtRules<T>(s: seq<T>, i: int)
    requires 0 <= i < |s|
    ensures forall j :: 0 <= j < i ==> RemovedAt(s, i)[j] == s[j]
    ensures forall j :: i <= j < |s| - 1 ==> RemovedAt(s, i)[j] == s[j + 1]
    ensures multiset(RemovedAt(s, i)) + multiset{s[i]} == multiset(s)
    ensures IsSubsequence(RemovedAt(s, i), s)
  {
    assert s == s[..i] + [s[i]] + s[i + 1..];
    PrefixSkipIsSubsequence(s, i);
  }

  lemma {:induction false} PrefixSkipIsSubsequence<T>(s: seq<T>, i: int)
    requires 0 <= i < |s|
    ensures IsSubsequence(s[..i] + s[i + 1..], s)
  {
    if i == 0 {
      assert s[..0] + s[1..] == s[1..];
      SelfIsSubsequence(s[1..]);
      SkipHeadIsSubsequence(s[1..], s);
    } else {
      var r := s[..i] + s[i + 1..];
      PrefixSkipIsSubsequence(s[1..], i - 1);
      assert r[0] == s[0];
      assert r[1..] == s[1..][..i - 1] + s[1..][i..];
    }
  }

  lemma {:induction false} SelfIsSubsequence<T>(s: seq<T>)
    ensures IsSubsequence(s, s)
  {
    if s != [] {
      SelfIsSubsequence(s[1..]);
    }
  }

  /** A subsequence of the tail is a subsequence of the whole. */
  lemma {:induction false} SkipHeadIsSubsequence<T>(r: seq<T>, s: seq<T>)
    requires s != [] && IsSubsequence(r, s[1..])
    ensures IsSubsequence(r, s)
    decreases |s|, 0
  {
    if r != [] && r[0] == s[0] {
      TailIsSubsequence(r, s[1..]);
    }
  }

  /** Dropping the head of a subsequence keeps it a subsequence. */
  lemma {:induction false} TailIsSubsequence<T>(r: seq<T>, t: seq<T>)
    requires r != [] && IsSubsequence(r, t)
    ensures IsSubsequence(r[1..], t)
    decreases |t|, 1
  {
    if r[0] == t[0] {
      SkipHeadIsSubsequence(r[1..], t);
    } else {
      TailIsSubsequence(r, t[1..]);
      SkipHeadIsSubsequence(r[1..], t);
    }
  }

  /**
   * The dialog's list state (`files`, `setFiles`). Rows are addressed by their
   * position in the rendered list.
   */
  class FileListDialog<T> {
    var files: seq<T>

    /** `useState(existingFiles)` */
    constructor (existingFiles: seq<T>)
      ensures files == existingFiles
    {
      files := existingFiles;
    }

    /** `handleSave`: the list handed to `onSave`. */
    method HandleSave() returns (saved: seq<T>)
      ensures saved == files
    {
      saved := files;
    }

    /** `handleAdd`: the new entry goes to the end. */
    method HandleAdd(file: T)
      modifies this
      ensures files == old(files) + [file]
    {
      files := files + [file];
    }

    /** `handleEdit(file, i)`: row `i` is replaced, the others stay. */
    method HandleEdit(file: T, i: int)
      requires 0 <= i < |files|
      modifies this
      ensures files == old(files)[i := file]
    {
      var newFiles := files;
      newFiles := newFiles[i := file];
      files := newFiles;
    }

    /** `handleRemove`: the rendered row at position `i` is filtered out. */
    method HandleRemove(i: int)
      requires 0 <= i < |files|
      modifies this
      ensures files == RemovedAt(old(files), i)
    {
      files := files[..i] + files[i + 1..];
    }
  }

  /**
   * The local state of the "new" row (`FileLink` with variant 'new'): its text
   * field (label or name), its link type and its URL. Clicking "add" emits the
   * current values and does not clear them.
   */
  class NewEntryRow {
    var text: string
    var linkType: string
    var url: string
    const songId: string

    constructor (defaultType: string, songId: string)
      ensures text == "" && linkType == defaultType && url == "" && this.songId == songId
    {
      text := "";
      linkType := defaultType;
      url := "";
      this.songId := songId;
    }

    method SetText(value: string)
      modifies this
      ensures text == value && linkType == old(linkType) && url == old(url)
    {
      text := value;
    }

    method SetType(value: string)
      modifies this
      ensures linkType == value && text == old(text) && url == old(url)
    {
      linkType := value;
    }

    method SetUrl(value: string)
      modifies this
      ensures url == value && text == old(text) && linkType == old(linkType)
    {
      url := value;
    }
  }

  /**
   * The `onAdd` payload of the song-file dialogs: the row's current name, type
   * and URL with the dialog's song.
   */
  method SongFileAddClick(row: NewEntryRow) returns (file: SongFile)
    ensures file.name == row.text && file.linkType == row.linkType && file.url == row.url
    ensures file.songId == row.songId
  {
    file := SongFile(row.text, row.linkType, row.url, row.songId);
  }

  /** A select option: the shown label and the stored value. */
  datatype SelectOption = SelectOption(labelText: string, value: string)

  /** `values.map(type => ({ label: label(type), value: type }))` */
  function OptionsFor(values: seq<string>, labelOf: string -> string): (r: seq<SelectOption>)
    ensures |r| == |values|
    ensures forall i :: 0 <= i < |r| ==> r[i].value == values[i] && r[i].labelText == labelOf(values[i])
  {
    seq(|values|, i requires 0 <= i < |values| => SelectOption(labelOf(values[i]), values[i]))
  }
}

/** components/admin/SongFileLinksDialog.tsx */
module SongFileLinksDialog {
  import opened AttachmentLists
  import FileLinkForm

  type SongFileLink = FileLinkForm.SongFileLink

  /** The type a fresh "new" row starts with. */
  const NewLinkType := "AudioInitialNotes"

  /** The payload of `onAdd`: the row's current label, type and URL with the dialog's song. */
  method HandleAddClick(row: NewEntryRow) returns (link: SongFileLink)
    ensures link.labelText == row.text && link.linkType == row.linkType && link.url == row.url
    ensures link.songId == row.songId
  {
    link := FileLinkForm.SongFileLink(row.text, row.linkType, row.songId, row.url);
  }

  /**
   * Adding from an untouched "new" row appends a link with an empty label, the
   * type 'AudioInitialNotes', an empty URL and the dialog's song; the row keeps
   * its values, so a second click appends the same link again.
   */
  method AddUntouchedTwice(dialog: FileListDialog<SongFileLink>, songId: string)
    modifies dialog
    ensures |dialog.files| == |old(dialog.files)| + 2
    ensures dialog.files[..|old(dialog.files)|] == old(dialog.files)
    ensures dialog.files[|dialog.files| - 1] == dialog.files[|dialog.files| - 2]
      == FileLinkForm.SongFileLink("", NewLinkType, songId, "")
  {
    var row := new NewEntryRow(NewLinkType, songId);
    var link := HandleAddClick(row);
    dialog.HandleAdd(link);
    link := HandleAddClick(row);
    dialog.HandleAdd(link);
  }
}

/** The label table and the sorted options of components/admin/SongFilesDialog.tsx. */
module AdminSongFilesDialog {
  import opened Seqs
  import opened AttachmentLists

  const NewFileType := "AudioInitialNotes"

  /** The link types that have their own label. */
  const LabelledTypes: seq<string> :=
    ["Audio", "AudioInitialNotes", "AudioPracticeTrack", "AudioRecording", "PDF", "Video", "MuseScore", "Other"]

  /** `getLabelForLinkType`: a German label per known type, the type itself otherwise. */
  function GetLabelForLinkType(t: string): string {
    match t
    case "Audio" => "Audio (allgemein)"
    case "AudioInitialNotes" => "Anfangstöne"
    case "AudioPracticeTrack" => "Übungstrack"
    case "AudioRecording" => "Aufnahme"
    case "PDF" => "PDF"
    case "Video" => "Video"
    case "MuseScore" => "MuseScore"
    case "Other" => "Diverses"
    case _ => t
  }

  /** Known types get pairwise different labels; any other type is shown as is. */
  lemma LabelRules(t: string)
    ensures t !in LabelledTypes ==> GetLabelForLinkType(t) == t
    ensures forall i, j :: 0 <= i < j < |LabelledTypes| ==>
      GetLabelForLinkType(LabelledTypes[i]) != GetLabelForLinkType(LabelledTypes[j])
    ensures GetLabelForLinkType("AudioInitialNotes") == "Anfangstöne" && GetLabelForLinkType("Other") == "Diverses"
  {
  }

  /** ASCII `toLowerCase` on one character. */
  function LowerChar(c: char): (d: char)
    ensures 'A' <= c <= 'Z' ==> 'a' <= d <= 'z' && d as int == c as int + 32
    ensures !('A' <= c <= 'Z') ==> d == c
  {
    if 'A' <= c <= 'Z' then (c as int + 32) as char else c
  }

  function Lower(s: string): (r: string)
    ensures |r| == |s| && forall i :: 0 <= i < |s| ==> r[i] == LowerChar(s[i])
  {
    seq(|s|, i requires 0 <= i < |s| => LowerChar(s[i]))
  }

  /** `a.localeCompare(b) <= 0`, approximated by the lexicographic order of the characters. */
  predicate LexLeq(a: string, b: string)
    decreases |a|
  {
    a == [] || (b != [] && (a[0] < b[0] || (a[0] == b[0] && LexLeq(a[1..], b[1..]))))
  }

  lemma {:induction false} LexTotal(a: string, b: string)
    ensures LexLeq(a, b) || LexLeq(b, a)
    decreases |a|
  {
    if a != [] && b != [] && a[0] == b[0] {
      LexTotal(a[1..], b[1..]);
    }
  }

  lemma {:induction false} LexTrans(a: string, b: string, c: string)
    requires LexLeq(a, b) && LexLeq(b, c)
    ensures LexLeq(a, c)
    decreases |a|
  {
    if a != [] && a[0] == b[0] && b[0] == c[0] {
      LexTrans(a[1..], b[1..], c[1..]);
    }
  }

  /** The comparator of `options`: by lower-cased value. */
  function ByLowerValue(): (SelectOption, SelectOption) -> bool {
    (x: SelectOption, y: SelectOption) => LexLeq(Lower(x.value), Lower(y.value))
  }

  lemma ByLowerValueIsTotalPreorder()
    ensures TotalPreorder(ByLowerValue())
  {
    forall x: SelectOption, y: SelectOption
      ensures ByLowerValue()(x, y) || ByLowerValue()(y, x)
    {
      LexTotal(Lower(x.value), Lower(y.value));
    }
    forall x: SelectOption, y: SelectOption, z: SelectOption | ByLowerValue()(x, y) && ByLowerValue()(y, z)
      ensures ByLowerValue()(x, z)
    {
      LexTrans(Lower(x.value), Lower(y.value), Lower(z.value));
    }
  }

  /** `options`: one labelled option per type, sorted by lower-cased value. */
  function Options(linkTypeValues: seq<string>): seq<SelectOption> {
    SortBy(OptionsFor(linkTypeValues, GetLabelForLinkType), ByLowerValue())
  }

  /**
   * The options are sorted by lower-cased value, hold every type exactly as
   * often as the type list does, and each carries its type's label.
   */
  lemma OptionsRules(linkTypeValues: seq<string>)
    ensures |Options(linkTypeValues)| == |linkTypeValues|
    ensures forall i, j :: 0 <= i < j < |Options(linkTypeValues)| ==>
      LexLeq(Lower(Options(linkTypeValues)[i].value), Lower(Options(linkTypeValues)[j].value))
    ensures multiset(Options(linkTypeValues)) == multiset(OptionsFor(linkTypeValues, GetLabelForLinkType))
    ensures forall i :: 0 <= i < |Options(linkTypeValues)| ==>
      Options(linkTypeValues)[i].labelText == GetLabelForLinkType(Options(linkTypeValues)[i].value)
      && Options(linkTypeValues)[i].value in linkTypeValues
  {
    var unsorted := OptionsFor(linkTypeValues, GetLabelForLinkType);
    var r := Options(linkTypeValues);
    ByLowerValueIsTotalPreorder();
    SortBySorted(unsorted, ByLowerValue());
    forall i | 0 <= i < |r|
      ensures r[i].labelText == GetLabelForLinkType(r[i].value) && r[i].value in linkTypeValues
    {
      assert r[i] in multiset(r);
      assert r[i] in multiset(unsorted);
      var k :| 0 <= k < |unsorted| && unsorted[k] == r[i];
    }
  }
}

/** The label table and the options of components/SongFilesDialog.tsx. */
module PublicSongFilesDialog {
  import opened AttachmentLists

  const NewFileType := "audio"

  const LabelledTypes: seq<string> := ["audio", "pdf", "video", "musescore", "other"]

  /** `getLabelForLinkType` of the public dialog. */
  function GetLabelForLinkType(t: string): string {
    match t
    case "audio" => "Audio"
    case "pdf" => "PDF"
    case "video" => "Video"
    case "musescore" => "MuseScore"
    case "other" => "Diverses"
    case _ => t
  }

  lemma LabelRules(t: string)
    ensures t !in LabelledTypes ==> GetLabelForLinkType(t) == t
    ensures forall i, j :: 0 <= i < j < |LabelledTypes| ==>
      GetLabelForLinkType(LabelledTypes[i]) != GetLabelForLinkType(LabelledTypes[j])
  {
  }

  /** `options`: the types in enum order, unsorted. */
  function Options(linkTypeValues: seq<string>): seq<SelectOption> {
    OptionsFor(linkTypeValues, GetLabelForLinkType)
  }

  /** Reading the values back off the options gives the type list, in order. */
  lemma OptionsRoundTrip(linkTypeValues: seq<string>)
    ensures seq(|Options(linkTypeValues)|, i requires 0 <= i < |Options(linkTypeValues)| => Options(linkTypeValues)[i].value)
      == linkTypeValues
  {
  }
}
