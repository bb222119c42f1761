/**
 * The pure parts of the commands in src/interface/cli.py: the folder and
 * application names cleaned for use as repository directories, the
 * repository-relative paths an import is given, the profile filter of
 * `status` and `link`, and the decision to commit after a scan import.
 */
module Cli {
  import opened PurePaths
  import opened Text
  import opened Models

  const MiscFolder: string := "misc"
  const AutoScanFolder: string := "auto-scan"
  const AllProfiles: string := "all"

  // ---------------------------------------------------------------- names

  /** The characters a cleaned name may keep: alphanumerics, '-' and '_'. */
  predicate KeepChar(c: char)
  {
    IsAlnum(c) || c == '-' || c == '_'
  }

  /** `"".join(c for c in s if c.isalnum() or c in ('-', '_'))`. */
  function Keep(s: string): (r: string)
    ensures forall i :: 0 <= i < |r| ==> KeepChar(r[i])
    ensures |r| <= |s|
  {
    if s == [] then []
    else (if KeepChar(s[0]) then [s[0]] else []) + Keep(s[1..])
  }

  /** The kept characters followed by `.strip()`. */
  function Sanitize(s: string): string
  {
    Strip(Keep(s))
  }

  /** The strip after the filter changes nothing: the kept characters are never white space. */
  lemma SanitizeIsKeep(s: string)
    ensures Sanitize(s) == Keep(s)
    ensures forall i :: 0 <= i < |Sanitize(s)| ==> KeepChar(Sanitize(s)[i])
  {
    var k := Keep(s);
    assert Strip(k) == k by {
      KeptNoSpace(k);
      StripNoSpace(k);
    }
  }

  lemma KeptNoSpace(k: string)
    requires forall i :: 0 <= i < |k| ==> KeepChar(k[i])
    ensures forall i :: 0 <= i < |k| ==> !IsSpace(k[i])
  {
    forall i | 0 <= i < |k| ensures !IsSpace(k[i]) {
      assert KeepChar(k[i]);
    }
  }

  /** The filter keeps exactly the allowed characters. */
  lemma {:induction false} KeepSubsequence(s: string, c: char)
    ensures c in Keep(s) <==> c in s && KeepChar(c)
  {
    if s != [] {
      KeepSubsequence(s[1..], c);
      assert s == [s[0]] + s[1..];
    }
  }

  /** The filter keeps the order of the characters: filtering a concatenation concatenates the filtered parts. */
  lemma {:induction false} KeepAppend(a: string, b: string)
    ensures Keep(a + b) == Keep(a) + Keep(b)
  {
    if a == [] {
      assert a + b == b;
    } else {
      var head := if KeepChar(a[0]) then [a[0]] else [];
      assert (a + b)[0] == a[0];
      assert (a + b)[1..] == a[1..] + b;
      KeepAppend(a[1..], b);
      assert head + (Keep(a[1..]) + Keep(b)) == (head + Keep(a[1..])) + Keep(b);
    }
  }

  /** A name made only of allowed characters is kept as it is. */
  lemma {:induction false} KeepClean(s: string)
    requires forall i :: 0 <= i < |s| ==> KeepChar(s[i])
    ensures Keep(s) == s
  {
    if s != [] {
      KeepClean(s[1..]);
      assert [s[0]] + s[1..] == s;
    }
  }

  /** The folder option of `add`, cleaned; "misc" when nothing is left. */
  function CleanFolder(folder: string): string
  {
    var clean := Sanitize(folder);
    if clean == "" then MiscFolder else clean
  }

  /** A cleaned folder is never empty and holds only allowed characters. */
  lemma CleanFolderChars(folder: string)
    ensures CleanFolder(folder) != ""
    ensures forall i :: 0 <= i < |CleanFolder(folder)| ==> KeepChar(CleanFolder(folder)[i])
  {
    SanitizeIsKeep(folder);
    if Sanitize(folder) == "" {
      assert MiscFolder == ['m', 'i', 's', 'c'];
    }
  }

  /** A text of allowed characters holds no separator and no dot. */
  lemma NoSeparator(r: string)
    requires forall i :: 0 <= i < |r| ==> KeepChar(r[i])
    ensures '/' !in r && '.' !in r
  {
    assert forall i :: 0 <= i < |r| ==> r[i] != '/' && r[i] != '.';
  }

  /** A cleaned name is one ordinary path component: not empty, not "." or "..", no separator. */
  lemma CleanFolderIsComponent(folder: string)
    ensures NormalComponent(CleanFolder(folder))
  {
    var r := CleanFolder(folder);
    CleanFolderChars(folder);
    NoSeparator(r);
    assert "."[0] == '.' && ".."[0] == '.';
  }

  // ---------------------------------------------------------------- import paths

  /** `Path(text)` of one component is that component. */
  lemma ParseComponent(c: string)
    requires ValidComponent(c)
    ensures Parse(c) == Path(false, [c])
  {
    ParseShow(Path(false, [c]));
  }

  /** The path a name of a file adds: nothing for an empty name. */
  function NamePart(name: string): seq<string>
  {
    if name == "" then [] else [name]
  }

  /** `Path(clean_folder) / file.name`: where `add` puts a file in the repository. */
  function AddImportPath(folder: string, file: Path): Path
  {
    Div(Parse(CleanFolder(folder)), Parse(Name(file)))
  }

  /** The import path is the cleaned folder followed by the file name: the folder cannot climb or nest. */
  lemma AddImportPathShape(folder: string, file: Path)
    requires WellFormed(file)
    ensures AddImportPath(folder, file) == Path(false, [CleanFolder(folder)] + NamePart(Name(file)))
    ensures NormalComponent(AddImportPath(folder, file).parts[0])
  {
    CleanFolderIsComponent(folder);
    ParseComponent(CleanFolder(folder));
    ImportName(file);
  }

  /** The name of a well-formed path parses back to itself, or to nothing when empty. */
  lemma ImportName(file: Path)
    requires WellFormed(file)
    ensures Parse(Name(file)) == Path(false, NamePart(Name(file)))
  {
    if Name(file) == "" {
      SplitDot();
      assert Split("") == [""];
    } else {
      assert ValidComponent(file.parts[|file.parts| - 1]);
      ParseComponent(Name(file));
    }
  }

  /** `Path("auto-scan") / safe_app_name / path.name`: where a scan import puts a file. */
  function ScanImportPath(appName: string, file: Path): Path
  {
    Div(Div(Parse(AutoScanFolder), Parse(Sanitize(appName))), Parse(Name(file)))
  }

  /** The cleaned application name adds one component, or none when nothing is left. */
  lemma SanitizedPart(appName: string)
    ensures Parse(Sanitize(appName)) == Path(false, NamePart(Sanitize(appName)))
  {
    SanitizeIsKeep(appName);
    var clean := Sanitize(appName);
    if clean == "" {
      SplitDot();
      assert Split("") == [""];
    } else {
      NoSeparator(clean);
      assert "."[0] == '.';
      ParseComponent(clean);
    }
  }

  /** A scan import lands in `auto-scan/<cleaned app name>/<file name>`; an app name that cleans to nothing adds no folder. */
  lemma ScanImportPathShape(appName: string, file: Path)
    requires WellFormed(file)
    ensures ScanImportPath(appName, file)
         == Path(false, [AutoScanFolder] + NamePart(Sanitize(appName)) + NamePart(Name(file)))
  {
    ParseComponent(AutoScanFolder);
    SanitizedPart(appName);
    ImportName(file);
  }

  // ---------------------------------------------------------------- profile filter

  /** `[d for d in dotfiles if d.profile == profile]`. */
  function WithProfile(ds: seq<Dotfile>, profile: string): (r: seq<Dotfile>)
    ensures |r| <= |ds|
  {
    if ds == [] then []
    else (if ds[0].profile == profile then [ds[0]] else []) + WithProfile(ds[1..], profile)
  }

  /** The filter of `status` and `link`: everything for "all", else the records of that profile. */
  function FilterByProfile(ds: seq<Dotfile>, profile: string): seq<Dotfile>
  {
    if profile == AllProfiles then ds else WithProfile(ds, profile)
  }

  /** The filter keeps exactly the records with that profile. */
  lemma {:induction false} WithProfileMember(ds: seq<Dotfile>, profile: string, d: Dotfile)
    ensures d in WithProfile(ds, profile) <==> d in ds && d.profile == profile
  {
    if ds != [] {
      WithProfileMember(ds[1..], profile, d);
      assert ds == [ds[0]] + ds[1..];
    }
  }

  /** The filter keeps the original order: filtering a concatenation concatenates the filtered parts. */
  lemma {:induction false} WithProfileAppend(a: seq<Dotfile>, b: seq<Dotfile>, profile: string)
    ensures WithProfile(a + b, profile) == WithProfile(a, profile) + WithProfile(b, profile)
  {
    if a == [] {
      assert a + b == b;
    } else {
      var head := if a[0].profile == profile then [a[0]] else [];
      assert (a + b)[0] == a[0];
      assert (a + b)[1..] == a[1..] + b;
      assert WithProfile(a + b, profile) == head + WithProfile(a[1..] + b, profile);
      WithProfileAppend(a[1..], b, profile);
      assert WithProfile(a, profile) == head + WithProfile(a[1..], profile);
      assert head + (WithProfile(a[1..], profile) + WithProfile(b, profile))
          == (head + WithProfile(a[1..], profile)) + WithProfile(b, profile);
    }
  }

  /** Records all of that profile pass the filter unchanged. */
  lemma {:induction false} WithProfileAll(ds: seq<Dotfile>, profile: string)
    requires forall i :: 0 <= i < |ds| ==> ds[i].profile == profile
    ensures WithProfile(ds, profile) == ds
  {
    if ds != [] {
      WithProfileAll(ds[1..], profile);
      assert [ds[0]] + ds[1..] == ds;
    }
  }

  /** "all" keeps everything; any other name keeps exactly its records. */
  lemma FilterByProfileMeaning(ds: seq<Dotfile>, profile: string, d: Dotfile)
    ensures FilterByProfile(ds, AllProfiles) == ds
    ensures profile != AllProfiles ==> (d in FilterByProfile(ds, profile) <==> d in ds && d.profile == profile)
  {
    WithProfileMember(ds, profile, d);
  }

  // ---------------------------------------------------------------- commit after a scan import

  /** What became of one offered candidate. */
  datatype ImportOutcome = Declined | Failed | Imported

  /** The `imported_files` flag of `scan`: set by the first candidate imported. */
  method ShouldCommit(outcomes: seq<ImportOutcome>) returns (commit: bool)
    ensures commit <==> exists i :: 0 <= i < |outcomes| && outcomes[i] == Imported
  {
    commit := false;
    var i := 0;
    while i < |outcomes|
      invariant 0 <= i <= |outcomes|
      invariant commit <==> exists j :: 0 <= j < i && outcomes[j] == Imported
    {
      if outcomes[i] == Imported {
        commit := true;
      }
      i := i + 1;
    }
  }
}
