/**
 The launcher's own settings: the folder path, the selected branch and the
 debug flag, saved to `settings.json` when the window closes and read back at
 start-up. The JSON document is modelled as a map from key to value; parsing
 and printing JSON are not modelled.
 */
module SettingsStore {
  import opened Options
  import opened Branches

  const FolderPathKey := "folder_path"
  const BranchEntryKey := "branch"
  const DebugModeKey := "debug_mode"

  /** A JSON value, as far as the launcher tells values apart. */
  datatype Field = Text(s: string) | Flag(b: bool) | Number(n: int) | Null | Other

  type Document = map<string, Field>

  /**
   The settings file: not there, not a JSON object (invalid JSON, or valid JSON
   whose top level is an array, a string, a number, ...), or a parsed object.
   */
  datatype SettingsFile = Absent | NotAnObject | Parsed(doc: Document)

  /** What the three widgets hold: the folder line edit, the branch combo and the debug checkbox. */
  datatype Settings = Settings(folderPath: string, branch: Branch, debugMode: bool)

  /** The widgets before any settings are read: empty path, first combo entry, unchecked. */
  const Initial := Settings("", Release, false)

  /** Why reading the settings aborts start-up. */
  datatype LoadError = NotJsonObject | FolderPathNotText | DebugModeNotFlag

  datatype LoadResult = Loaded(settings: Settings) | Failed(error: LoadError)

  /** The document written on close: all three keys, the branch as its combo text. */
  function Save(s: Settings): (d: Document)
    ensures d.Keys == {FolderPathKey, BranchEntryKey, DebugModeKey}
    ensures d[BranchEntryKey].Text? && d[BranchEntryKey].s in ComboItems
  {
    map[FolderPathKey := Text(s.folderPath),
        BranchEntryKey := Text(Name(s.branch)),
        DebugModeKey := Flag(s.debugMode)]
  }

  /** The stored branch text, if the document holds one. */
  function StoredBranch(d: Document): Option<string> {
    if BranchEntryKey in d && d[BranchEntryKey].Text? then Some(d[BranchEntryKey].s) else None
  }

  /** A folder path entry that the line edit cannot take: anything but a string or null. */
  predicate BadFolderPath(d: Document) {
    FolderPathKey in d && !(d[FolderPathKey].Text? || d[FolderPathKey].Null?)
  }

  /** A debug entry that the checkbox cannot take: anything but a boolean or an integer. */
  predicate BadDebugMode(d: Document) {
    DebugModeKey in d && !(d[DebugModeKey].Flag? || d[DebugModeKey].Number?)
  }

  /** The path the line edit shows: the stored string, or empty for a missing key or null. */
  predicate ReadsFolderPath(d: Document, path: string) {
    if FolderPathKey in d && d[FolderPathKey].Text? then path == d[FolderPathKey].s else path == ""
  }

  /** The checkbox state: checked by a stored `true` or a non-zero integer, unchecked otherwise. */
  predicate ReadsDebugMode(d: Document, checked: bool) {
    checked <==>
      DebugModeKey in d && (d[DebugModeKey] == Flag(true) || (d[DebugModeKey].Number? && d[DebugModeKey].n != 0))
  }

  /** The combo selection: the stored text when it is a combo item, the current selection otherwise. */
  predicate ReadsBranch(d: Document, current: Branch, selected: Branch) {
    var stored := StoredBranch(d);
    if stored.Some? && stored.value in ComboItems then Name(selected) == stored.value
    else selected == current
  }

  /**
   Reads the settings over the current widget state. A missing file changes
   nothing. A missing folder path becomes the empty path and a missing debug
   flag becomes false; the branch is taken only when it is one of the combo's
   three texts, and otherwise the current selection stays.
   */
  function Load(file: SettingsFile, current: Settings): (r: LoadResult)
    ensures file.Absent? ==> r == Loaded(current)
    ensures file.NotAnObject? ==> r == Failed(NotJsonObject)
    ensures file.Parsed? ==> (r.Loaded? <==> !BadFolderPath(file.doc) && !BadDebugMode(file.doc))
    ensures file.Parsed? ==> (r == Failed(FolderPathNotText) <==> BadFolderPath(file.doc))
    ensures file.Parsed? ==>
      (r == Failed(DebugModeNotFlag) <==> !BadFolderPath(file.doc) && BadDebugMode(file.doc))
    ensures file.Parsed? && r.Loaded? ==>
      && ReadsFolderPath(file.doc, r.settings.folderPath)
      && ReadsBranch(file.doc, current.branch, r.settings.branch)
      && ReadsDebugMode(file.doc, r.settings.debugMode)
  {
    match file
    case Absent => Loaded(current)
    case NotAnObject => Failed(NotJsonObject)
    case Parsed(d) =>
      var folder := if FolderPathKey in d then d[FolderPathKey] else Text("");
      if !(folder.Text? || folder.Null?) then Failed(FolderPathNotText)
      else
        var path := if folder.Text? then folder.s else "";
        var branch := match StoredBranch(d)
          case Some(t) => (match FromText(t) case Some(b) => b case None => current.branch)
          case None => current.branch;
        var debug := if DebugModeKey in d then d[DebugModeKey] else Flag(false);
        if debug.Flag? then Loaded(Settings(path, branch, debug.b))
        else if debug.Number? then Loaded(Settings(path, branch, debug.n != 0))
        else Failed(DebugModeNotFlag)
  }

  /** Start-up: the widgets' initial state, overwritten by whatever the settings file holds. */
  function Startup(file: SettingsFile): (r: LoadResult)
    ensures file.Absent? ==> r == Loaded(Initial)
    ensures file.NotAnObject? ==> r == Failed(NotJsonObject)
    ensures file.Parsed? ==> (r.Loaded? <==> !BadFolderPath(file.doc) && !BadDebugMode(file.doc))
    ensures file.Parsed? && r.Loaded? ==>
      && ReadsFolderPath(file.doc, r.settings.folderPath)
      && ReadsDebugMode(file.doc, r.settings.debugMode)
      && ReadsBranch(file.doc, Initial.branch, r.settings.branch)
  {
    Load(file, Initial)
  }

  /** Saving and then loading restores the folder path, branch and debug flag, whatever was selected before. */
  lemma SaveLoadRoundTrip(s: Settings, current: Settings)
    ensures Load(Parsed(Save(s)), current) == Loaded(s)
  {
    var d := Save(s);
    assert StoredBranch(d) == Some(Name(s.branch));
    FromTextName(s.branch);
  }

  /** An empty document resets the path and the debug flag and keeps the branch selection. */
  lemma LoadEmptyDocument(current: Settings)
    ensures Load(Parsed(map[]), current) == Loaded(Settings("", current.branch, false))
  {
  }

  /** A null path clears the line edit and a non-zero integer checks the box; neither aborts. */
  lemma LoadNullPathNumericFlag(current: Settings)
    ensures Load(Parsed(map[FolderPathKey := Null, DebugModeKey := Number(1)]), current)
      == Loaded(Settings("", current.branch, true))
  {
  }

  /** A stored `dev` is the branch selected after start-up. */
  lemma StartupSelectsStoredBranch()
    ensures Startup(Parsed(map[BranchEntryKey := Text("dev")])) == Loaded(Settings("", Dev, false))
  {
  }

  /** A stored branch outside the combo's texts never changes the selection. */
  lemma LoadRejectsUnknownBranch(d: Document, current: Settings)
    requires StoredBranch(d).Some? && StoredBranch(d).value !in ComboItems
    ensures Load(Parsed(d), current).Loaded? ==> Load(Parsed(d), current).settings.branch == current.branch
  {
  }

  /** Loading is stable: saving what was loaded and loading it again gives the same settings. */
  lemma LoadSaveLoad(file: SettingsFile, current: Settings)
    ensures Load(file, current).Loaded? ==>
      Load(Parsed(Save(Load(file, current).settings)), current) == Load(file, current)
  {
    if Load(file, current).Loaded? {
      SaveLoadRoundTrip(Load(file, current).settings, current);
    }
  }
}
