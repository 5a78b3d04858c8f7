/**
 * The breadcrumb folder picker (`FolderSelect`), which exists in three
 * near-identical components. Module `Breadcrumbs` holds the shared state
 * machine as values: a path stack `parentFolders`, the `currentFolder` and the
 * `currentLevel`; the three modules after it are the components, each a class
 * whose fields are the React state and whose methods are the click handlers.
 */
module Breadcrumbs {

  /** `GoogleDriveFolder`: a folder together with all of its subfolders. */
  datatype Folder = Folder(id: string, name: string, subfolders: seq<Folder>)

  /** The picker's state: `parentFolders`, `currentFolder`, `currentLevel`. */
  datatype Nav = Nav(path: seq<Folder>, current: Folder, level: int)

  /** The number of folders in a tree; a subfolder's tree is strictly smaller. */
  function Size(f: Folder): nat
    decreases f, 1
  {
    1 + SizeAll(f.subfolders)
  }

  function SizeAll(fs: seq<Folder>): nat
    decreases fs, 0
  {
    if fs == [] then 0 else Size(fs[0]) + SizeAll(fs[1..])
  }

  lemma {:induction false} SizeAllBoundsMember(fs: seq<Folder>, x: Folder)
    requires x in fs
    ensures Size(x) <= SizeAll(fs)
  {
    if fs[0] != x {
      SizeAllBoundsMember(fs[1..], x);
    }
  }

  lemma SubfolderIsSmaller(f: Folder, sub: Folder)
    requires sub in f.subfolders
    ensures Size(sub) < Size(f)
  {
    SizeAllBoundsMember(f.subfolders, sub);
  }

  /** The stack is one entry longer than the level and ends with the current folder. */
  predicate Valid(n: Nav) {
    0 <= n.level && |n.path| == n.level + 1 && n.path[n.level] == n.current
  }

  /** The stack starts at `root` and each entry is a subfolder of the one before. */
  predicate Descends(n: Nav, root: Folder) {
    && |n.path| > 0
    && n.path[0] == root
    && forall i :: 0 <= i < |n.path| - 1 ==> n.path[i + 1] in n.path[i].subfolders
  }

  /** The state right after mounting with `rootFolder`. */
  function Start(root: Folder): Nav {
    Nav([root], root, 0)
  }

  /** The folders offered for a click: `currentFolder.subfolders`, in order. */
  function Choices(n: Nav): seq<Folder> {
    n.current.subfolders
  }

  /** `handleSubfolderClick(subfolder)` */
  function OpenSubfolder(n: Nav, sub: Folder): Nav {
    Nav(n.path + [sub], sub, n.level + 1)
  }

  /** `handleJumpToParent(parentFolders[level], level)`, as every rendered breadcrumb calls it. */
  function JumpTo(n: Nav, level: int): Nav
    requires 0 <= level < |n.path|
  {
    Nav(n.path[..level + 1], n.path[level], level)
  }

  /** A breadcrumb that the two wizard pickers render as a link: every one but the last. */
  predicate IsLinkCrumb(n: Nav, level: int) {
    0 <= level < |n.path| - 1
  }

  lemma StartIsValid(root: Folder)
    ensures Valid(Start(root)) && Descends(Start(root), root)
    ensures Start(root).path == [root] && Start(root).current == root && Start(root).level == 0
  {
  }

  /** Opening an offered subfolder pushes it, makes it current and goes one level down. */
  lemma {:induction false} OpenSubfolderPreserves(n: Nav, root: Folder, sub: Folder)
    requires Valid(n) && Descends(n, root)
    requires sub in Choices(n)
    ensures Valid(OpenSubfolder(n, sub)) && Descends(OpenSubfolder(n, sub), root)
    ensures OpenSubfolder(n, sub).path == n.path + [sub]
    ensures OpenSubfolder(n, sub).current == sub && OpenSubfolder(n, sub).level == n.level + 1
  {
    var m := OpenSubfolder(n, sub);
    forall i | 0 <= i < |m.path| - 1
      ensures m.path[i + 1] in m.path[i].subfolders
    {
      if i < |n.path| - 1 {
        assert m.path[i] == n.path[i] && m.path[i + 1] == n.path[i + 1];
      } else {
        assert m.path[i] == n.current && m.path[i + 1] == sub;
      }
    }
  }

  /** A jump truncates the stack to its first `level + 1` entries. */
  lemma {:induction false} JumpToPreserves(n: Nav, root: Folder, level: int)
    requires Valid(n) && Descends(n, root)
    requires 0 <= level < |n.path|
    ensures Valid(JumpTo(n, level)) && Descends(JumpTo(n, level), root)
    ensures JumpTo(n, level).path == n.path[..level + 1]
    ensures JumpTo(n, level).current == n.path[level] && JumpTo(n, level).level == level
  {
    var m := JumpTo(n, level);
    forall i | 0 <= i < |m.path| - 1
      ensures m.path[i + 1] in m.path[i].subfolders
    {
      assert m.path[i] == n.path[i] && m.path[i + 1] == n.path[i + 1];
    }
  }

  /** Jumping back to the level a subfolder was opened from undoes the opening. */
  lemma {:induction false} JumpUndoesOpen(n: Nav, sub: Folder)
    requires Valid(n)
    ensures JumpTo(OpenSubfolder(n, sub), n.level) == n
  {
    assert (n.path + [sub])[..n.level + 1] == n.path;
  }

  /** Jumping to the last breadcrumb (possible only in the plain picker) changes nothing. */
  lemma {:induction false} JumpToLastIsNoOp(n: Nav)
    requires Valid(n)
    ensures JumpTo(n, n.level) == n
  {
    assert n.path[..n.level + 1] == n.path;
  }

  lemma {:induction false} PathShrinks(n: Nav, root: Folder, i: int, j: int)
    requires Valid(n) && Descends(n, root)
    requires 0 <= i < j < |n.path|
    ensures Size(n.path[j]) < Size(n.path[i])
    decreases j - i
  {
    SubfolderIsSmaller(n.path[j - 1], n.path[j]);
    if i < j - 1 {
      PathShrinks(n, root, i, j - 1);
    }
  }

  /**
   * Every handler of the wizard pickers really changes the current folder: an
   * opened subfolder and a breadcrumb link both differ from the folder shown,
   * so the effect keyed on `currentFolder` fires after each of them.
   */
  lemma {:induction false} HandlersChangeCurrent(n: Nav, root: Folder, sub: Folder, level: int)
    requires Valid(n) && Descends(n, root)
    ensures sub in Choices(n) ==> OpenSubfolder(n, sub).current != n.current
    ensures IsLinkCrumb(n, level) ==> JumpTo(n, level).current != n.current
  {
    if sub in Choices(n) {
      SubfolderIsSmaller(n.current, sub);
    }
    if IsLinkCrumb(n, level) {
      PathShrinks(n, root, level, n.level);
    }
  }
}

/** components/admin/DriveFileSongLinkCreator.tsx/steps/SelectDriveFolder/FolderSelect.tsx: reports the folder id. */
module SelectDriveFolderPicker {
  import opened Breadcrumbs

  class FolderSelect {
    const rootFolder: Folder
    var parentFolders: seq<Folder>
    var currentFolder: Folder
    var currentLevel: int
    /** The arguments `onSelect` has been called with, oldest first. */
    var selected: seq<string>

    function State(): Nav
      reads this
    {
      Nav(parentFolders, currentFolder, currentLevel)
    }

    ghost predicate Valid()
      reads this
    {
      Breadcrumbs.Valid(State()) && Descends(State(), rootFolder) && |selected| > 0 && selected[|selected| - 1] == currentFolder.id
    }

    /** Mounting sets the state to the root and the first effect run reports the root. */
    constructor (root: Folder)
      ensures Valid() && rootFolder == root && State() == Start(root) && selected == [root.id]
    {
      rootFolder := root;
      parentFolders := [root];
      currentFolder := root;
      currentLevel := 0;
      selected := [root.id];
    }

    /** The list items on offer. */
    function Offered(): seq<Folder>
      reads this
    {
      Choices(State())
    }

    /** A click on an offered subfolder, followed by the `onSelect` effect if the folder changed. */
    method HandleSubfolderClick(subfolder: Folder)
      requires Valid()
      requires subfolder in Offered()
      modifies this
      ensures Valid() && State() == OpenSubfolder(old(State()), subfolder)
      ensures selected == old(selected) + [subfolder.id]
    {
      var before := currentFolder;
      OpenSubfolderPreserves(State(), rootFolder, subfolder);
      HandlersChangeCurrent(State(), rootFolder, subfolder, 0);
      parentFolders := parentFolders + [subfolder];
      currentFolder := subfolder;
      currentLevel := currentLevel + 1;
      if currentFolder != before {
        selected := selected + [currentFolder.id];
      }
    }

    /** A click on breadcrumb `level`; only the breadcrumbs before the last are links. */
    method HandleJumpToParent(level: int)
      requires Valid()
      requires IsLinkCrumb(State(), level)
      modifies this
      ensures Valid() && State() == JumpTo(old(State()), level)
      ensures selected == old(selected) + [old(parentFolders)[level].id]
    {
      var before := currentFolder;
      JumpToPreserves(State(), rootFolder, level);
      HandlersChangeCurrent(State(), rootFolder, currentFolder, level);
      var target := parentFolders[level];
      currentFolder := target;
      currentLevel := level;
      parentFolders := parentFolders[..level + 1];
      if currentFolder != before {
        selected := selected + [currentFolder.id];
      }
    }
  }
}

/** components/admin/DriveFileSongLinkCreator.tsx/FolderSelect.tsx: reports the whole folder. */
module DriveFolderPicker {
  import opened Breadcrumbs

  class FolderSelect {
    const rootFolder: Folder
    var parentFolders: seq<Folder>
    var currentFolder: Folder
    var currentLevel: int
    /** The folders `onSelect` has been called with, oldest first. */
    var selected: seq<Folder>

    function State(): Nav
      reads this
    {
      Nav(parentFolders, currentFolder, currentLevel)
    }

    ghost predicate Valid()
      reads this
    {
      Breadcrumbs.Valid(State()) && Descends(State(), rootFolder) && |selected| > 0 && selected[|selected| - 1] == currentFolder
    }

    constructor (root: Folder)
      ensures Valid() && rootFolder == root && State() == Start(root) && selected == [root]
    {
      rootFolder := root;
      parentFolders := [root];
      currentFolder := root;
      currentLevel := 0;
      selected := [root];
    }

    function Offered(): seq<Folder>
      reads this
    {
      Choices(State())
    }

    method HandleSubfolderClick(subfolder: Folder)
      requires Valid()
      requires subfolder in Offered()
      modifies this
      ensures Valid() && State() == OpenSubfolder(old(State()), subfolder)
      ensures selected == old(selected) + [subfolder]
    {
      var before := currentFolder;
      OpenSubfolderPreserves(State(), rootFolder, subfolder);
      HandlersChangeCurrent(State(), rootFolder, subfolder, 0);
      parentFolders := parentFolders + [subfolder];
      currentFolder := subfolder;
      currentLevel := currentLevel + 1;
      if currentFolder != before {
        selected := selected + [currentFolder];
      }
    }

    method HandleJumpToParent(level: int)
      requires Valid()
      requires IsLinkCrumb(State(), level)
      modifies this
      ensures Valid() && State() == JumpTo(old(State()), level)
      ensures selected == old(selected) + [old(parentFolders)[level]]
    {
      var before := currentFolder;
      JumpToPreserves(State(), rootFolder, level);
      HandlersChangeCurrent(State(), rootFolder, currentFolder, level);
      var target := parentFolders[level];
      currentFolder := target;
      currentLevel := level;
      parentFolders := parentFolders[..level + 1];
      if currentFolder != before {
        selected := selected + [currentFolder];
      }
    }
  }
}

/** components/FolderSelect.tsx: every breadcrumb is clickable and nothing is reported. */
module FolderPicker {
  import opened Breadcrumbs

  class FolderSelect {
    const rootFolder: Folder
    var parentFolders: seq<Folder>
    var currentFolder: Folder
    var currentLevel: int

    function State(): Nav
      reads this
    {
      Nav(parentFolders, currentFolder, currentLevel)
    }

    ghost predicate Valid()
      reads this
    {
      Breadcrumbs.Valid(State()) && Descends(State(), rootFolder)
    }

    constructor (root: Folder)
      ensures Valid() && rootFolder == root && State() == Start(root)
    {
      rootFolder := root;
      parentFolders := [root];
      currentFolder := root;
      currentLevel := 0;
    }

    function Offered(): seq<Folder>
      reads this
    {
      Choices(State())
    }

    method HandleSubfolderClick(subfolder: Folder)
      requires Valid()
      requires subfolder in Offered()
      modifies this
      ensures Valid() && State() == OpenSubfolder(old(State()), subfolder)
    {
      OpenSubfolderPreserves(State(), rootFolder, subfolder);
      parentFolders := parentFolders + [subfolder];
      currentFolder := subfolder;
      currentLevel := currentLevel + 1;
    }

    /** Any breadcrumb may be clicked, the last one included (which changes nothing). */
    method HandleJumpToParent(level: int)
      requires Valid()
      requires 0 <= level < |parentFolders|
      modifies this
      ensures Valid() && State() == JumpTo(old(State()), level)
      ensures level == old(currentLevel) ==> State() == old(State())
    {
      JumpToPreserves(State(), rootFolder, level);
      JumpToLastIsNoOp(State());
      var target := parentFolders[level];
      currentFolder := target;
      currentLevel := level;
      parentFolders := parentFolders[..level + 1];
    }
  }
}
