/**
 * The parts of the terminal interface in src/interface/tui.py that are not
 * widgets: the list label made from a record's source path, the editor
 * language chosen from the file's suffix, and saving the editor text over
 * the repository copy through a temporary file.
 */
module Tui {
  import opened Wrappers
  import opened Errors
  import opened PurePaths
  import opened Text
  import opened FileSystem
  import opened CorePaths
  import opened Models
  import opened ConfigStore
  import opened HostFs

  /** The highlighting modes the editor is switched between. */
  datatype Language = Python | Json | Markdown | Yaml | Css | Bash

  const AutoScanFolder: string := "auto-scan"
  const MiscCategory: string := "Misc"
  const RootCategory: string := "Root"

  // ---------------------------------------------------------------- labels

  /** `p.parts`: an absolute path starts with "/". */
  function PyParts(p: Path): seq<string>
  {
    (if p.absolute then ["/"] else []) + p.parts
  }

  /** The category of a source: its parent folder, "Misc" for "auto-scan", "Root" without a folder. */
  function Category(source: Path): string
  {
    var parts := PyParts(source);
    if |parts| > 1 then
      var parent := parts[|parts| - 2];
      if parent == AutoScanFolder then MiscCategory else parent
    else RootCategory
  }

  /** The category as shown: '-' read as a space, then title-cased. */
  function CategoryDisplay(source: Path): string
  {
    Title(ReplaceChar(Category(source), '-', ' '))
  }

  /** The list label of `load_files`: "<category>: <file name>". */
  function Label(df: Dotfile): string
  {
    CategoryDisplay(df.source) + ": " + Name(df.source)
  }

  /** The label is the displayed category, ": ", and the file name; the display only changes letter case and dashes. */
  lemma LabelShape(df: Dotfile)
    ensures var cat := CategoryDisplay(df.source);
      && Label(df) == cat + ": " + Name(df.source)
      && |cat| == |Category(df.source)|
      && Lower(cat) == Lower(ReplaceChar(Category(df.source), '-', ' '))
  {
    TitleKeepsLetters(ReplaceChar(Category(df.source), '-', ' '), false);
  }

  /** A source in a folder is labelled by that folder; "auto-scan" shows as "Misc". */
  lemma CategoryOfNested(source: Path, folder: string, name: string)
    requires !source.absolute && |source.parts| >= 2
    requires source.parts[|source.parts| - 2] == folder && source.parts[|source.parts| - 1] == name
    ensures Category(source) == if folder == AutoScanFolder then MiscCategory else folder
    ensures Name(source) == name
  {
    assert PyParts(source) == source.parts;
  }

  /** A source without a folder is in "Root". */
  lemma CategoryOfTopLevel(name: string)
    ensures Category(Path(false, [name])) == RootCategory
    ensures Name(Path(false, [name])) == name
  {
    assert PyParts(Path(false, [name])) == [name];
  }

  /** "nvim/init.lua" is listed as "Nvim: init.lua". */
  lemma NvimLabel(profile: string)
    ensures Label(Dotfile(Path(false, ["nvim", "init.lua"]), Path(false, ["~", ".config", "nvim", "init.lua"]), profile))
         == "Nvim: init.lua"
  {
    var source := Path(false, ["nvim", "init.lua"]);
    CategoryOfNested(source, "nvim", "init.lua");
    assert ReplaceChar("nvim", '-', ' ') == "nvim";
    assert TitleFrom("vim", true) == "vim";
    assert Title("nvim") == "Nvim";
  }

  // ---------------------------------------------------------------- language

  /** The table of `on_list_view_selected`, for a suffix already in lower case; Lua files are shown as Python. */
  function LanguageOf(e: string): Language
  {
    if e == ".py" || e == ".pyw" then Python
    else if e == ".json" || e == ".js" then Json
    else if e == ".md" || e == ".markdown" then Markdown
    else if e == ".yml" || e == ".yaml" || e == ".toml" || e == ".conf" || e == ".ini" then Yaml
    else if e == ".lua" then Python
    else if e == ".css" then Css
    else Bash
  }

  /** The language of the editor for a suffix, compared in lower case. */
  function TuiLanguage(suffix: string): Language
  {
    LanguageOf(Lower(suffix))
  }

  /** The suffixes the table names. */
  predicate KnownSuffix(e: string)
  {
    || e == ".py" || e == ".pyw" || e == ".json" || e == ".js" || e == ".md" || e == ".markdown"
    || e == ".yml" || e == ".yaml" || e == ".toml" || e == ".conf" || e == ".ini" || e == ".lua" || e == ".css"
  }

  /** Every suffix the table does not name falls back to bash, and only those. */
  lemma FallbackIsBash(e: string)
    ensures LanguageOf(e) == Bash <==> !KnownSuffix(e)
  {
  }

  /** Letter case does not matter, and every suffix the table does not name falls back to bash. */
  lemma TuiLanguageMeaning(suffix: string)
    ensures TuiLanguage(suffix) == TuiLanguage(Lower(suffix))
    ensures TuiLanguage(suffix) == Bash <==> !KnownSuffix(Lower(suffix))
  {
    LowerIdempotent(suffix);
    FallbackIsBash(Lower(suffix));
  }

  /** ".LUA" and ".Lua" select the same mode as ".lua". */
  lemma LuaShownAsPython()
    ensures TuiLanguage(".LUA") == Python && TuiLanguage(".Lua") == Python
  {
    assert Lower(".LUA") == ".lua";
    assert Lower(".Lua") == ".lua";
  }

  // ---------------------------------------------------------------- saving

  /** The notifications of the save button. */
  datatype SaveNotice = NoSelection | Saved | SaveFailed

  /**
   * The code as written, and the code with `Path` imported: as written the
   * line that records the temporary file's name raises a NameError, so
   * `os.replace` is never reached.
   */
  datatype Build = AsWritten | Corrected

  /** Where the temporary file of a save is made: beside the file, under the name the host picks. */
  function TempLocation(path: Location, tmpName: string): Location
  {
    Parent(path) + [tmpName]
  }

  /** The filesystem a press of the save button leaves, and what it reports or raises. */
  function EditorSave(fs: Fs, denied: set<Location>, ctx: AppContext, current: Option<Dotfile>, text: string,
                      tmpName: string, build: Build): (Fs, Result<SaveNotice, Error>)
  {
    match current
    case None => (fs, Ok(NoSelection))
    case Some(df) =>
      match GetAbsoluteSource(fs, ctx, df.source)
      case Err(e) => (fs, Err(e))
      case Ok(path) =>
        var tmp := TempLocation(path, tmpName);
        match FileSystem.CreateFile(fs, denied, tmp, text)
        case Err(_) => (fs, Ok(SaveFailed))
        case Ok(fs1) =>
          if build == AsWritten then (fs1, Ok(SaveFailed))
          else
            match FileSystem.Replace(fs1, denied, tmp, path)
            case Err(_) => (fs1, Ok(SaveFailed))
            case Ok(fs2) => (fs2, Ok(Saved))
  }

  /** As written, a save never reaches the file: it reports an error and leaves the temporary file behind. */
  lemma AsWrittenSaveNeverReplaces(fs: Fs, denied: set<Location>, ctx: AppContext, df: Dotfile, text: string,
                                   tmpName: string)
    requires GetAbsoluteSource(fs, ctx, df.source).Ok?
    ensures var path := GetAbsoluteSource(fs, ctx, df.source).value;
      var tmp := TempLocation(path, tmpName);
      var (fs', r) := EditorSave(fs, denied, ctx, Some(df), text, tmpName, AsWritten);
      && r == Ok(SaveFailed)
      && (forall q :: q != tmp ==> NodeAt(fs', q) == NodeAt(fs, q))
      && (fs' != fs ==> NodeAt(fs', tmp) == Some(File(text)))
  {
  }

  /** Corrected, a save that reports success leaves exactly the editor text in the file and no temporary file. */
  lemma SaveReplacesContent(fs: Fs, denied: set<Location>, ctx: AppContext, df: Dotfile, text: string,
                            tmpName: string)
    requires GetAbsoluteSource(fs, ctx, df.source).Ok?
    requires EditorSave(fs, denied, ctx, Some(df), text, tmpName, Corrected).1 == Ok(Saved)
    ensures var path := GetAbsoluteSource(fs, ctx, df.source).value;
      var tmp := TempLocation(path, tmpName);
      var fs' := EditorSave(fs, denied, ctx, Some(df), text, tmpName, Corrected).0;
      && ReadText(fs', path) == Some(text)
      && !Lexists(fs', tmp)
      && (forall q :: q != tmp && q != path ==> NodeAt(fs', q) == NodeAt(fs, q))
  {
    var path := GetAbsoluteSource(fs, ctx, df.source).value;
    var tmp := TempLocation(path, tmpName);
    var fs1 := FileSystem.CreateFile(fs, denied, tmp, text).value;
    var fs' := FileSystem.Replace(fs1, denied, tmp, path).value;
    assert NodeAt(fs', path) == Some(File(text));
    ResolveOfNonLink(fs', path);
  }

  /** Without a selection the save button does nothing. */
  lemma SaveWithoutSelection(fs: Fs, denied: set<Location>, ctx: AppContext, text: string, tmpName: string, build: Build)
    ensures EditorSave(fs, denied, ctx, None, text, tmpName, build) == (fs, Ok(NoSelection))
  {
  }

  // ---------------------------------------------------------------- the application

  class DotfileTui {
    const config: ConfigService
    var items: seq<(string, Dotfile)>
    var current: Option<Dotfile>
    var editorText: string
    var language: Language

    constructor (service: ConfigService)
      ensures config == service && items == [] && current == None && editorText == "" && language == Bash
    {
      config := service;
      items := [];
      current := None;
      editorText := "";
      language := Bash;
    }

    /** `load_files()`: one labelled item per record, in config order; a load error leaves the list empty. */
    method LoadFiles() returns (err: Option<Error>)
      modifies this
      ensures Load(config.stored).Err? ==> items == [] && err == Some(ConfigError)
      ensures Load(config.stored).Ok? ==>
        && err == None
        && |items| == |Load(config.stored).value|
        && forall i :: 0 <= i < |items| ==> items[i] == (Label(Load(config.stored).value[i]), Load(config.stored).value[i])
      ensures current == old(current) && editorText == old(editorText) && language == old(language)
    {
      items := [];
      var loaded := Load(config.stored);
      if loaded.Err? {
        LoadOutcomes(config.stored);
        return Some(loaded.error);
      }
      items := LabelAll(loaded.value);
      err := None;
    }

    /** One labelled item per record, in order. */
    static method LabelAll(ds: seq<Dotfile>) returns (items: seq<(string, Dotfile)>)
      ensures |items| == |ds|
      ensures forall i :: 0 <= i < |items| ==> items[i] == (Label(ds[i]), ds[i])
    {
      items := [];
      var i := 0;
      while i < |ds|
        invariant 0 <= i <= |ds| && |items| == i
        invariant forall j :: 0 <= j < i ==> items[j] == (Label(ds[j]), ds[j])
      {
        items := items + [(Label(ds[i]), ds[i])];
        i := i + 1;
      }
    }

    /** Selecting item `k`: the record becomes current and, when its file exists, the editor shows it. */
    method Select(fs: Fs, ctx: AppContext, k: nat) returns (err: Option<Error>)
      requires k < |items|
      modifies this
      ensures items == old(items) && current == Some(items[k].1)
      ensures var p := GetAbsoluteSource(fs, ctx, items[k].1.source);
        if p.Err? || (Exists(fs, p.value) && ReadText(fs, p.value).None?) then
          err == Some(OsError) && editorText == old(editorText) && language == old(language)
        else if !Exists(fs, p.value) then
          err == None && editorText == old(editorText) && language == old(language)
        else
          err == None && editorText == ReadText(fs, p.value).value
          && language == TuiLanguage(Suffix(BaseName(p.value)))
    {
      current := Some(items[k].1);
      var path := GetAbsoluteSource(fs, ctx, items[k].1.source);
      if path.Err? {
        return Some(path.error);
      }
      if Exists(fs, path.value) {
        var content := ReadText(fs, path.value);
        if content.None? {
          return Some(OsError);
        }
        editorText := content.value;
        language := TuiLanguage(Suffix(BaseName(path.value)));
      }
      err := None;
    }

    /** The save button: the editor text goes to a temporary file beside the source, which then replaces it. */
    method Save(host: Host, ctx: AppContext, tmpName: string) returns (r: Result<SaveNotice, Error>)
      modifies host
      ensures (host.nodes, r) == EditorSave(old(host.nodes), host.denied, ctx, current, editorText, tmpName, Corrected)
    {
      if current.None? {
        return Ok(NoSelection);
      }
      var path := GetAbsoluteSource(host.nodes, ctx, current.value.source);
      if path.Err? {
        return Err(path.error);
      }
      var tmp := TempLocation(path.value, tmpName);
      var err := host.CreateFile(tmp, editorText);
      if err.Some? {
        return Ok(SaveFailed);
      }
      err := host.Replace(tmp, path.value);
      if err.Some? {
        return Ok(SaveFailed);
      }
      r := Ok(Saved);
    }
  }
}
