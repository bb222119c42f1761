/**
 * The older local editor window of src/tui_app.py: it lists the records of a
 * `ConfigManager`, shows the selected record's file from the repository in
 * an editor, and saves, backs up to "<file>.bak" and restores from it.
 */
module TuiApp {
  import opened Wrappers
  import opened Errors
  import opened PurePaths
  import opened FileSystem
  import opened HostFs
  import opened LegacyConfig
  import opened Tui

  /** A row of the list: the hint shown for an empty list, or a record's label and source text. */
  datatype ListEntry = Placeholder | Entry(caption: string, sourceText: string)

  /** The notifications of the three buttons; `Silent` when nothing is selected. */
  datatype Notice = Silent | SavedToDisk | BackupCreated | NoBackup | Restored | Failed

  /** The editor text after a read fails; the exception's own text is not modelled. */
  const ReadErrorPrefix: string := "Error leyendo archivo: "

  /** What `refresh_file_list` shows: one labelled row per record, or a single hint for none. */
  function Entries(ds: seq<LegacyDotfile>): seq<ListEntry>
  {
    if ds == [] then [Placeholder]
    else seq(|ds|, i requires 0 <= i < |ds| => Entry(ds[i].profile + " | " + Name(ds[i].sourcePath), Show(ds[i].sourcePath)))
  }

  /** The list is never empty, holds one row per record, and each row names its record's profile and file. */
  lemma EntriesMeaning(ds: seq<LegacyDotfile>)
    ensures |Entries(ds)| == if ds == [] then 1 else |ds|
    ensures ds == [] <==> Entries(ds) == [Placeholder]
    ensures forall i :: 0 <= i < |ds| ==>
      && Entries(ds)[i].Entry?
      && Entries(ds)[i].sourceText == Show(ds[i].sourcePath)
      && Entries(ds)[i].caption == ds[i].profile + " | " + Name(ds[i].sourcePath)
  {
    if ds != [] {
      assert Entries(ds)[0].Entry?;
    }
  }

  /** The first record whose source prints as `text`. */
  function FirstMatch(ds: seq<LegacyDotfile>, text: string): (r: Option<nat>)
    ensures r.Some? ==> r.value < |ds| && Show(ds[r.value].sourcePath) == text
    ensures r.Some? ==> forall j :: 0 <= j < r.value ==> Show(ds[j].sourcePath) != text
    ensures r.None? ==> forall j :: 0 <= j < |ds| ==> Show(ds[j].sourcePath) != text
  {
    if ds == [] then None
    else if Show(ds[0].sourcePath) == text then Some(0)
    else match FirstMatch(ds[1..], text)
      case None => None
      case Some(k) => Some(k + 1)
  }

  /** The editor mode of this window: compared as written, so ".JSON" is shown as bash. */
  function AppLanguage(suffix: string): Language
  {
    if suffix == ".json" then Json
    else if suffix == ".py" then Python
    else if suffix == ".yml" || suffix == ".yaml" || suffix == ".toml" then Yaml
    else if suffix == ".lua" then Python
    else Bash
  }

  /** On the suffixes it names this window picks what the newer window's table picks for them. */
  lemma AppLanguageAgrees(suffix: string)
    ensures AppLanguage(suffix) != Bash ==> AppLanguage(suffix) == LanguageOf(suffix)
    ensures AppLanguage(suffix) != Bash ==> KnownSuffix(suffix)
  {
  }

  /** Where the two windows differ: this one compares the suffix as written, the newer one in lower case. */
  lemma UpperSuffixDiffers()
    ensures AppLanguage(".JSON") == Bash && TuiLanguage(".JSON") == Json
  {
    assert Text.Lower(".JSON") == ".json";
  }

  /** `REPO_DIR / df.source_path`. */
  function FullPath(repoDir: Location, df: LegacyDotfile): Path
  {
    Div(Path(true, repoDir), df.sourcePath)
  }

  /** `full_path.with_suffix(full_path.suffix + ".bak")`. */
  function BackupPath(full: Path): Path
  {
    WithSuffix(full, Suffix(Name(full)) + ".bak")
  }

  /** The backup sits beside the file, under the file's whole name followed by ".bak". */
  lemma BackupBeside(full: Path)
    requires |full.parts| > 0
    ensures Name(BackupPath(full)) == Name(full) + ".bak"
    ensures BackupPath(full).parts[..|full.parts| - 1] == full.parts[..|full.parts| - 1]
    ensures |BackupPath(full).parts| == |full.parts| && BackupPath(full).absolute == full.absolute
  {
    StemSuffix(Name(full));
  }

  /** The location a host path names. */
  function At(p: Path): Location
  {
    Normalise([], p)
  }

  /** The editor text and mode after selecting `df`: its file's text, or the error text and the old mode. */
  function Shown(fs: Fs, repoDir: Location, df: LegacyDotfile, mode: Language): (string, Language)
  {
    match ReadText(fs, At(FullPath(repoDir, df)))
    case None => (ReadErrorPrefix, mode)
    case Some(content) => (content, AppLanguage(Suffix(Name(df.sourcePath))))
  }

  /** The save button: the editor text over the file itself. */
  function SaveEffect(fs: Fs, denied: set<Location>, repoDir: Location, current: Option<LegacyDotfile>,
                      text: string): (Fs, Notice)
  {
    match current
    case None => (fs, Silent)
    case Some(df) =>
      match FileSystem.WriteText(fs, denied, At(FullPath(repoDir, df)), text)
      case Err(_) => (fs, Failed)
      case Ok(fs') => (fs', SavedToDisk)
  }

  /** The backup button: the editor text over the file, then the file copied to its ".bak". */
  function BackupEffect(fs: Fs, denied: set<Location>, repoDir: Location, current: Option<LegacyDotfile>,
                        text: string): (Fs, Notice)
  {
    match current
    case None => (fs, Silent)
    case Some(df) =>
      var full := At(FullPath(repoDir, df));
      match FileSystem.WriteText(fs, denied, full, text)
      case Err(_) => (fs, Failed)
      case Ok(fs1) =>
        match FileSystem.CopyFile(fs1, denied, full, At(BackupPath(FullPath(repoDir, df))))
        case Err(_) => (fs1, Failed)
        case Ok(fs2) => (fs2, BackupCreated)
  }

  /** The restore button: the ".bak" copied over the file and shown; the new filesystem, notice and editor text. */
  function RestoreEffect(fs: Fs, denied: set<Location>, repoDir: Location, current: Option<LegacyDotfile>,
                         text: string): (Fs, Notice, string)
  {
    match current
    case None => (fs, Silent, text)
    case Some(df) =>
      var full := At(FullPath(repoDir, df));
      var bak := At(BackupPath(FullPath(repoDir, df)));
      if !Exists(fs, bak) then (fs, NoBackup, text)
      else
        match FileSystem.CopyFile(fs, denied, bak, full)
        case Err(_) => (fs, Failed, text)
        case Ok(fs1) =>
          match ReadText(fs1, full)
          case None => (fs1, Failed, text)
          case Some(content) => (fs1, Restored, content)
  }

  /** Without a selection none of the buttons does anything. */
  lemma NothingSelected(fs: Fs, denied: set<Location>, repoDir: Location, text: string)
    ensures SaveEffect(fs, denied, repoDir, None, text) == (fs, Silent)
    ensures BackupEffect(fs, denied, repoDir, None, text) == (fs, Silent)
    ensures RestoreEffect(fs, denied, repoDir, None, text) == (fs, Silent, text)
  {
  }

  /** A save that succeeds leaves the editor text in the file and every file elsewhere as it was; one that fails changes nothing. */
  lemma SaveWritesText(fs: Fs, denied: set<Location>, repoDir: Location, df: LegacyDotfile, text: string)
    ensures var (fs', n) := SaveEffect(fs, denied, repoDir, Some(df), text);
      var full := At(FullPath(repoDir, df));
      && (n == SavedToDisk || (n == Failed && fs' == fs))
      && (n == SavedToDisk ==> ReadText(fs', full) == Some(text))
      && (n == SavedToDisk ==>
            forall p :: Resolve(fs, p) != Resolve(fs, full) ==> ReadText(fs', p) == ReadText(fs, p))
  {
    var full := At(FullPath(repoDir, df));
    if FileSystem.WriteText(fs, denied, full, text).Ok? {
      var fs' := FileSystem.WriteText(fs, denied, full, text).value;
      WriteTextFacts(fs, denied, full, text);
      forall p | Resolve(fs, p) != Resolve(fs, full) ensures ReadText(fs', p) == ReadText(fs, p) {
        ResolveSameLinks(fs, fs', p);
      }
    }
  }

  /** A path that is not a directory stays so when a write succeeds. */
  lemma WriteKeepsNonDir(fs: Fs, denied: set<Location>, p: Location, text: string, other: Location)
    requires FileSystem.WriteText(fs, denied, p, text).Ok?
    requires !IsDir(fs, other)
    ensures !IsDir(FileSystem.WriteText(fs, denied, p, text).value, other)
  {
    var fs1 := FileSystem.WriteText(fs, denied, p, text).value;
    WriteTextFacts(fs, denied, p, text);
    ResolveSameLinks(fs, fs1, other);
  }

  /** A backup that succeeds leaves the editor text both in the file and in its ".bak". */
  lemma BackupKeepsBoth(fs: Fs, denied: set<Location>, repoDir: Location, df: LegacyDotfile, text: string)
    requires !IsDir(fs, At(BackupPath(FullPath(repoDir, df))))
    requires BackupEffect(fs, denied, repoDir, Some(df), text).1 == BackupCreated
    ensures var fs' := BackupEffect(fs, denied, repoDir, Some(df), text).0;
      && ReadText(fs', At(FullPath(repoDir, df))) == Some(text)
      && ReadText(fs', At(BackupPath(FullPath(repoDir, df)))) == Some(text)
  {
    var full := At(FullPath(repoDir, df));
    var bak := At(BackupPath(FullPath(repoDir, df)));
    var fs1 := FileSystem.WriteText(fs, denied, full, text).value;
    WriteTextFacts(fs, denied, full, text);
    WriteKeepsNonDir(fs, denied, full, text, bak);
    assert CopyDestination(fs1, full, bak) == bak;
    CopyFileOnto(fs1, denied, full, bak);
  }

  /** With no ".bak" the restore button changes nothing. */
  lemma RestoreWithoutBackup(fs: Fs, denied: set<Location>, repoDir: Location, df: LegacyDotfile, text: string)
    requires !Exists(fs, At(BackupPath(FullPath(repoDir, df))))
    ensures RestoreEffect(fs, denied, repoDir, Some(df), text) == (fs, NoBackup, text)
  {
  }

  /** A restore that succeeds puts the ".bak" text in the file and in the editor. */
  lemma RestoreShowsBackup(fs: Fs, denied: set<Location>, repoDir: Location, df: LegacyDotfile, text: string)
    requires !IsDir(fs, At(FullPath(repoDir, df)))
    requires RestoreEffect(fs, denied, repoDir, Some(df), text).1 == Restored
    ensures var (fs', _, shown) := RestoreEffect(fs, denied, repoDir, Some(df), text);
      var saved := ReadText(fs, At(BackupPath(FullPath(repoDir, df))));
      && saved == Some(shown)
      && ReadText(fs', At(FullPath(repoDir, df))) == saved
  {
    var full := At(FullPath(repoDir, df));
    var bak := At(BackupPath(FullPath(repoDir, df)));
    CopyFileOnto(fs, denied, bak, full);
  }

  /** Restoring right after a backup changes nothing on disk and shows the text that was backed up. */
  lemma BackupThenRestore(fs: Fs, denied: set<Location>, repoDir: Location, df: LegacyDotfile, text: string,
                          shown: string)
    requires !IsDir(fs, At(BackupPath(FullPath(repoDir, df))))
    requires BackupEffect(fs, denied, repoDir, Some(df), text).1 == BackupCreated
    ensures var fs' := BackupEffect(fs, denied, repoDir, Some(df), text).0;
      RestoreEffect(fs', denied, repoDir, Some(df), shown) == (fs', Restored, text)
  {
    var full := At(FullPath(repoDir, df));
    var bak := At(BackupPath(FullPath(repoDir, df)));
    var fs1 := FileSystem.WriteText(fs, denied, full, text).value;
    var fs2 := FileSystem.CopyFile(fs1, denied, full, bak).value;
    WriteTextFacts(fs, denied, full, text);
    WriteKeepsNonDir(fs, denied, full, text, bak);
    assert CopyDestination(fs1, full, bak) == bak;
    CopyFileOnto(fs1, denied, full, bak);
    BackupKeepsBoth(fs, denied, repoDir, df, text);
    // the links are those of `fs` throughout, so both paths resolve as before
    ResolveSameLinks(fs, fs1, full);
    ResolveSameLinks(fs1, fs2, full);
    ResolveSameLinks(fs1, fs2, bak);
    var q := Resolve(fs, full).value;
    assert Resolve(fs2, full) == Some(q);
    assert q in fs2 && fs2[q] == File(text);
    assert CopyDestination(fs2, bak, full) == full;
    assert FileSystem.WriteText(fs2, denied, full, text) == Ok(fs2[q := File(text)]);
    assert fs2[q := File(text)] == fs2;
  }

  // ---------------------------------------------------------------- the window

  class DotfileApp {
    const manager: ConfigManager
    const repoDir: Location
    var items: seq<ListEntry>
    var current: Option<LegacyDotfile>
    var editorText: string
    var language: Language

    /** The window builds its own manager with no records. */
    constructor (root: Location)
      ensures repoDir == root && manager.dotfiles == [] && fresh(manager)
      ensures items == [] && current == None && editorText == "" && language == Bash
    {
      manager := new ConfigManager(None);
      repoDir := root;
      items := [];
      current := None;
      editorText := "";
      language := Bash;
    }

    /** `refresh_file_list()`. */
    method Refresh()
      modifies this
      ensures items == Entries(manager.dotfiles)
      ensures current == old(current) && editorText == old(editorText) && language == old(language)
    {
      var ds := manager.dotfiles;
      if ds == [] {
        items := [Placeholder];
        return;
      }
      items := [];
      var i := 0;
      while i < |ds|
        invariant 0 <= i <= |ds| && |items| == i
        invariant forall j :: 0 <= j < i ==> items[j] == Entries(ds)[j]
        invariant current == old(current) && editorText == old(editorText) && language == old(language)
      {
        items := items + [Entry(ds[i].profile + " | " + Name(ds[i].sourcePath), Show(ds[i].sourcePath))];
        i := i + 1;
      }
    }

    /**
     * Selecting a row: the first record whose source prints as the row's
     * becomes current and is shown. The hint row has no source: with no
     * record the loop never asks for it and nothing happens, while a stale
     * hint row beside records makes the first comparison fail, which
     * `handled == false` stands for.
     */
    method Select(fs: Fs, entry: ListEntry) returns (handled: bool)
      modifies this
      ensures items == old(items)
      ensures entry.Placeholder? ==> (handled <==> manager.dotfiles == [])
      ensures entry.Placeholder? ==>
        current == old(current) && editorText == old(editorText) && language == old(language)
      ensures entry.Entry? ==> handled
      ensures entry.Entry? ==>
        (match FirstMatch(manager.dotfiles, entry.sourceText)
         case None => current == old(current) && editorText == old(editorText) && language == old(language)
         case Some(k) =>
           && current == Some(manager.dotfiles[k])
           && (editorText, language) == Shown(fs, repoDir, manager.dotfiles[k], old(language)))
    {
      if entry.Placeholder? {
        return manager.dotfiles == [];
      }
      var ds := manager.dotfiles;
      var i := 0;
      while i < |ds|
        invariant 0 <= i <= |ds|
        invariant forall j :: 0 <= j < i ==> Show(ds[j].sourcePath) != entry.sourceText
        invariant current == old(current) && editorText == old(editorText) && language == old(language)
      {
        if Show(ds[i].sourcePath) == entry.sourceText {
          current := Some(ds[i]);
          var content := ReadText(fs, At(FullPath(repoDir, ds[i])));
          if content.Some? {
            editorText := content.value;
            language := AppLanguage(Suffix(Name(ds[i].sourcePath)));
          } else {
            editorText := ReadErrorPrefix;
          }
          FirstMatchAt(ds, entry.sourceText, i);
          return true;
        }
        i := i + 1;
      }
      FirstMatchNone(ds, entry.sourceText);
      handled := true;
    }

    /** `action_save_file()`. */
    method SaveFile(host: Host) returns (n: Notice)
      modifies host
      ensures (host.nodes, n) == SaveEffect(old(host.nodes), host.denied, repoDir, current, editorText)
    {
      if current.None? {
        return Silent;
      }
      var err := host.WriteText(At(FullPath(repoDir, current.value)), editorText);
      n := if err.None? then SavedToDisk else Failed;
    }

    /** `action_backup_file()`. */
    method BackupFile(host: Host) returns (n: Notice)
      modifies host
      ensures (host.nodes, n) == BackupEffect(old(host.nodes), host.denied, repoDir, current, editorText)
    {
      if current.None? {
        return Silent;
      }
      var full := FullPath(repoDir, current.value);
      var err := host.WriteText(At(full), editorText);
      if err.Some? {
        return Failed;
      }
      err := host.CopyFile(At(full), At(BackupPath(full)));
      n := if err.None? then BackupCreated else Failed;
    }

    /** `action_restore_file()`. */
    method RestoreFile(host: Host) returns (n: Notice)
      modifies host, this
      ensures (host.nodes, n, editorText)
           == RestoreEffect(old(host.nodes), host.denied, repoDir, current, old(editorText))
      ensures items == old(items) && current == old(current) && language == old(language)
    {
      if current.None? {
        return Silent;
      }
      var full := FullPath(repoDir, current.value);
      var bak := At(BackupPath(full));
      if !Exists(host.nodes, bak) {
        return NoBackup;
      }
      var err := host.CopyFile(bak, At(full));
      if err.Some? {
        return Failed;
      }
      var content := ReadText(host.nodes, At(full));
      if content.None? {
        return Failed;
      }
      editorText := content.value;
      n := Restored;
    }
  }

  /** The first match is at `i` when `i` matches and nothing before it does. */
  lemma {:induction false} FirstMatchAt(ds: seq<LegacyDotfile>, text: string, i: nat)
    requires i < |ds| && Show(ds[i].sourcePath) == text
    requires forall j :: 0 <= j < i ==> Show(ds[j].sourcePath) != text
    ensures FirstMatch(ds, text) == Some(i)
  {
    if i > 0 {
      FirstMatchAt(ds[1..], text, i - 1);
    }
  }

  /** Without a match there is no first match. */
  lemma {:induction false} FirstMatchNone(ds: seq<LegacyDotfile>, text: string)
    requires forall j :: 0 <= j < |ds| ==> Show(ds[j].sourcePath) != text
    ensures FirstMatch(ds, text) == None
  {
    if ds != [] {
      FirstMatchNone(ds[1..], text);
    }
  }
}
