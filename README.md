# Dotfile manager: a verified model of its synchronisation engine

This project models the core of a small dotfile manager. The manager keeps
configuration files in a repository directory. It records each one as a
`(source, target, profile)` entry in `dotfiles.json` and installs it by making
the target path on the host a symbolic link to the repository copy.

The model covers these parts:

- **The filesystem** (`FileSystem`) is a map from absolute locations to nodes
  (`File(text) | Dir | Symlink(path)`).
  - `exists()` follows links, so a dangling link does not exist.
  - `is_symlink()` does not follow links.
  - `resolve()` follows a chain of links of at most 40 hops, the Linux bound. A longer chain is a loop.
  - Every mutation (`unlink`, `rmtree`, `mkdir`, `symlink_to`, `write_text`, `copy2`, `copytree`, creating a temporary file, `os.replace`) is a function. It returns the new map, or an error when the host refuses the change. The host refuses changes to the locations in its `denied` set.
- **The host** (`HostFs.Host`) is a class holding that map.
  - Its methods apply one mutation each.
  - The imperative operations below run on a `Host`. Each carries a proof that it ends in the state and result of the function that specifies it.
- **The status and link state machine** (`FileService`, `FileServiceProofs`):
  - `check_status` is a function of the filesystem, so it cannot change it.
  - `create_symlink`, `backup_file` and `safe_import` are both functions from the filesystem to a result and a new filesystem, and methods on a `Host`.
  - The status strings are datatypes (`Status`, `LinkMessage`). The exceptions are error values (`Errors.Error`).
- **The config store** (`ConfigStore`) is a sequence of records persisted as JSON objects.
  - Loading decodes every object or fails with ConfigError.
  - Saving is atomic, through a temporary file and a replace.
  - `add_dotfile` deduplicates on the `(source, target)` pair.
- **The discovery scan** (`Scanner`) has two loops. The first builds the set of resolved managed targets. The second walks the known-apps table and keeps the entries that are present and unmanaged.
- **The paths and the entity**:
  - `PurePaths` models `Path(text)`, `str(path)`, `/`, `.name`, `.suffix` and `with_suffix`, and the normalisation of `resolve()`.
  - `CorePaths` models `AppContext` and `get_absolute_source`.
  - `Models` models the `Dotfile` record, `expanduser` and `expanded_target`.
  - `Timestamps` models the backup time stamp.
  - `Text` models `lower`, `strip`, `title` and `replace`.
- **The command-line helpers** (`Cli`): the folder and application names cleaned for import, the profile filter of `status` and `link`, and the commit-after-scan flag.
- **The legacy modules**:
  - `ConfigManager` (`LegacyConfig`).
  - The `create_symlink` of `src/dotfile.py` (`LegacyLink`).
  - The two editor windows: `Tui` for `src/interface/tui.py` and `TuiApp` for `src/tui_app.py`. They cover list labels, syntax-mode tables, selection, save, `.bak` backup and restore.

Clock, home directory and working directory are parameters: the backup time
stamp is a `Timestamp` argument, `home` a location, `cwd` a location. The
known-apps resource and the stored config are values given to the
constructors. The outcome of a save step (which step fails, if any) is a
`SaveFault` parameter, and the name of the temporary file in the editor is a
`tmpName` parameter.

Behaviour that depends on the resolved or the unresolved target is written
once with a `Lookup` parameter:

- `Resolved` is the code as written, where `expanded_target` and `safe_import` call `resolve()`.
- `Lexical` is the evidently intended reading.

The methods on the `Host` use `Lexical`. Findings below lists the differences.

An empty or blank `dotfiles.json` is not an empty list: `json.load` raises
on it, so loading fails with ConfigError (src/services/config_service.py:18-32).

## Model

| member | source | states |
|---|---|---|
| FileSystem.ResolveIdempotent | src/core/models.py:20 | what `resolve()` returns is no link, so resolving it again returns the same location |
| FileSystem.ExistsLeadsOffLinks | src/services/file_service.py:115-119 | a path that exists resolves to a node that is not a link |
| FileSystem.ResolveOfNonLink | src/services/file_service.py:63 | an entry that is not a link resolves to itself |
| FileSystem.ResolveAbsoluteLink | src/services/file_service.py:66-67 | a link holding an absolute normal location resolves in one hop to what is there |
| FileSystem.SelfLinkLoops | src/services/file_service.py:86 | a link holding its own location never resolves, however many hops are followed |
| FileSystem.WriteTextFacts | src/tui_app.py:114 | a successful `write_text` leaves the path reading the text and changes no link |
| FileSystem.MakeDirsFacts | src/services/file_service.py:24 | `mkdir(parents=True, exist_ok=True)` only adds directories, each at the path or an ancestor of it |
| FileSystem.UnlinkFacts | src/services/file_service.py:79-80 | `unlink()` removes exactly the entry at the path |
| FileSystem.RemoveTreeFacts | src/services/file_service.py:81-82 | `rmtree()` removes the path and everything below it and nothing else |
| FileSystem.SymlinkToFacts | src/services/file_service.py:86 | `symlink_to()` adds one link holding the given path and changes nothing else |
| FileSystem.MakeDirExistOkFacts | src/services/file_service.py:99 | `mkdir(exist_ok=True)` only adds, and at most the directory itself |
| FileSystem.CopyFileFresh | src/services/file_service.py:105-106 | `copy2` to a free location writes only there, the text of the file the source leads to |
| FileSystem.CopyFileOnto | src/tui_app.py:149 | `copy2` onto an existing non-directory leaves the source's text there and changes no unrelated path |
| FileSystem.CopyTreeFacts | src/services/file_service.py:103-104 | a successful `copytree` keeps everything outside the destination and lays a copy of the source tree there, none of it on a denied location |
| FileSystem.CopyTreeDeniedFails | src/services/file_service.py:103-104 | `copytree` fails when an entry it would copy lands on a location the host refuses |
| PurePaths.Parse | src/core/models.py:12-15 | `Path(text)` is well formed, and absolute exactly when the text starts with "/" |
| PurePaths.ParseShow | src/services/config_service.py:23-24 | printing a well-formed path and parsing the text gives the same path |
| PurePaths.ShowParse | src/services/config_service.py:37-38 | parsing a canonical text and printing the result gives the text back |
| PurePaths.StemSuffix | src/tui_app.py:125 | every name is its stem followed by its suffix |
| PurePaths.NormaliseIsNormal | src/core/paths.py:15 | normalising a well-formed path from a normal directory gives a path free of ".", ".." and empty parts |
| PurePaths.CollapseAppend | src/core/paths.py:15 | normalising a concatenation is normalising its halves in turn |
| Text.LowerIdempotent | src/config_manager.py:12-14 | lower-casing twice is lower-casing once |
| Text.StripNoSpace | src/interface/cli.py:81 | a text without white space is its own `strip()` |
| Text.TitleKeepsLetters | src/interface/tui.py:63 | `title()` changes letter case only, so the text has the same length and lower-cases alike |
| Text.TitleOfTitled | src/interface/tui.py:63 | `title()` leaves a word already in title case unchanged |
| Timestamps.Digits | src/services/file_service.py:97 | a zero-padded decimal of exactly the width, all digits |
| Timestamps.DigitsValue | src/services/file_service.py:97 | reading the digits back gives the number when it fits |
| Timestamps.Format | src/services/file_service.py:97 | the stamp has 15 characters, digits around an '_' at index 8 |
| Timestamps.FormatInjective | src/services/file_service.py:97 | different clock readings give different stamps |
| Timestamps.BackupName | src/services/file_service.py:98 | the backup name starts with the original name, ends in ".bak" and is 20 characters longer |
| Timestamps.BackupNameInjective | src/services/file_service.py:98 | the backup name determines both the original name and the stamp |
| CorePaths.NewContext | src/core/paths.py:10-12 | the repository root is the resolved working directory, with `dotfiles.json` and `.backups` below it; fails only on a looping directory |
| CorePaths.GetAbsoluteSource | src/core/paths.py:14-15 | the result is where `repo_root / rel` resolves to and no link; the only error is OSError |
| CorePaths.AbsoluteSourceLexical | src/core/paths.py:15 | without a link there, the absolute source is `repo_root / rel` normalised |
| CorePaths.AbsoluteSourceUnderRoot | src/core/paths.py:15 | a relative source without ".." lies under the repository root, component for component |
| Models.MakeDotfile | src/core/models.py:4-15 | a text becomes a well-formed path that prints back as that text when it is in canonical form; a path is kept as given; the profile is as given or "default" |
| Models.ArgKept | src/core/models.py:10-15 | converting a text argument gives a well-formed path that prints back as the text when the text is canonical |
| Models.TextKept | src/core/models.py:10-15 | a canonical text prints back unchanged once it is a field; the default profile is "default" |
| Models.ZshrcExample | tests/test_core.py:10-13 | `Dotfile("zshrc", "~/.zshrc")` has the source `zshrc` and a target printing as "~/.zshrc" |
| Models.ExpandUser | src/core/models.py:20 | the expansion is the path itself or an absolute path under `home` |
| Models.ResolvePath | src/core/models.py:20 | `expanduser().resolve()` is where the expanded path resolves to, and no link |
| Models.PortableRoundTrip | src/services/file_service.py:44-48 | expanding the portable target of a location gives that location back, inside home or out |
| Models.ExpandTilde | src/core/models.py:17-20 | a target "~/rest" expands to `home` followed by `rest` |
| Models.ExpandAbsolute | src/core/models.py:20 | an absolute target expands to its normal form |
| FileServiceProofs.StatusCases | src/services/file_service.py:111-126 | each of the five answers holds exactly in its situation: missing source before the target, absent target, link to the source, link elsewhere, other entry |
| FileServiceProofs.DanglingNotInstalled | src/services/file_service.py:118-119 | a dangling link at the target reports NOT INSTALLED |
| FileServiceProofs.LinkGuards | src/services/file_service.py:60-74 | missing source gives BROKEN with no change even with force; a link to the source gives "Already linked"; without force a wrong link or an existing entry gives CONFLICT with no change |
| FileServiceProofs.LinkReadOnlyUnlessFree | src/services/file_service.py:63-74 | the filesystem changes only when the source exists, the target is not already a link to it, and the call is forced or nothing is at the target |
| FileServiceProofs.LinkedPlacesLink | src/services/file_service.py:84-87 | LINKED leaves a link at the target holding the absolute source |
| FileServiceProofs.NoOverwriteWithoutBackup | src/services/file_service.py:76-82 | once a forced link changed an existing target, a backup of it lies at the backup path |
| FileServiceProofs.ChangeNeedsBackup | src/services/file_service.py:76-82 | a forced link changes an existing target only after its backup succeeded |
| FileServiceProofs.BackupErrorKeepsTarget | src/services/file_service.py:77 | a BackupError leaves the target, and everything except the backup directory, as it was |
| FileServiceProofs.ClearBackupError | src/services/file_service.py:77 | the forced overwrite raises BackupError only from its backup |
| FileServiceProofs.ClearAfterBackup | src/services/file_service.py:79-82 | the unlink or tree removal keeps everything outside the target's tree |
| FileServiceProofs.PlaceErrors | src/services/file_service.py:84-89 | making the link raises nothing but FileOperationError |
| FileServiceProofs.PlaceFrame | src/services/file_service.py:84-86 | making the link only adds entries |
| FileServiceProofs.LinkFrame | src/services/file_service.py:58-89 | `create_symlink` changes nothing outside the target's tree and the backup directory |
| FileServiceProofs.ClearFrame | src/services/file_service.py:76-82 | the forced overwrite changes nothing outside the target's tree and the backup directory |
| FileServiceProofs.LinkKeepsSource | src/services/file_service.py:58-89 | the source is left as it was when it lies outside the target's tree and the backup directory |
| FileServiceProofs.LinkIdempotent | src/services/file_service.py:66-68 | with the target located lexically (the same target location on both calls), after a successful link a second call, forced or not, reports "Already linked" and changes nothing, so no second backup; for the resolved target as written see `AsWrittenRelinkDestroysSource` |
| FileServiceProofs.ForceOnDanglingLinkFails | src/services/file_service.py:66-89 | a forced link over a dangling wrong link skips the removal, so `symlink_to` fails with FileOperationError and the link stays |
| FileServiceProofs.ForcedLinkOutcomes | src/services/file_service.py:66-87 | a forced link that returns normally found the link in place or made it |
| FileServiceProofs.BackupAbsent | src/services/file_service.py:94-95 | `backup_file` of a path that does not exist does nothing |
| FileServiceProofs.BackupFrame | src/services/file_service.py:92-108 | `backup_file` changes nothing outside the backup directory |
| FileServiceProofs.BackupMade | src/services/file_service.py:97-106 | a successful backup of an existing path puts an entry at `backup_dir/<name>.<stamp>.bak` |
| FileServiceProofs.BackupCopiesFile | src/services/file_service.py:105-106 | a file's backup holds the same text and the original is unchanged |
| FileServiceProofs.BackupCopiesTree | src/services/file_service.py:103-104 | a directory's backup holds a copy of every entry below it |
| FileServiceProofs.BackupErrorState | src/services/file_service.py:102-108 | a BackupError leaves everything except the backup directory as it was |
| FileServiceProofs.InstalledResolves | src/services/file_service.py:121-123 | an installed link resolves to the source, and both exist |
| FileServiceProofs.ImportMissingOriginal | src/services/file_service.py:19-20 | a missing original raises FileOperationError, OSError for a loop, with no change |
| FileServiceProofs.ImportResult | src/services/file_service.py:44-50 | the import returns the given source and profile, with `~/<rel>` under home and the absolute original elsewhere |
| FileServiceProofs.ImportStages | src/services/file_service.py:23-53 | the import makes the parent directories (FileOperationError on failure), copies only when the repository copy is absent, then force-links |
| FileServiceProofs.ImportKeepsRepoCopy | src/services/file_service.py:29-32 | an existing repository copy is never overwritten by the import |
| FileServiceProofs.ImportLinksOriginal | src/services/file_service.py:50-53 | a successful import leaves the original location a link to the repository copy, which exists |
| FileServiceProofs.MakeParentKeepsBackupSlot | src/services/file_service.py:24 | the parent directories made for the copy do not reach the backup slot |
| FileServiceProofs.CopyInFacts | src/services/file_service.py:29-40 | the copy step leaves the repository copy in place and the backup slot free |
| FileServiceProofs.SourceStaysPut | src/services/file_service.py:17 | a step that only adds entries keeps where an existing source resolves |
| FileServiceProofs.LinkStage | src/services/file_service.py:53 | the import's linking step is `create_symlink(force=True)` on the located source and target |
| FileServiceProofs.AsWrittenStatusNeverSeesLink | src/services/file_service.py:113-124 | as written, a status is never ACTIVE or WRONG TARGET |
| FileServiceProofs.StatusOfInstalledLink | src/services/file_service.py:121-126 | an installed dotfile is ACTIVE with the lexical target and FILE EXISTS as written |
| FileServiceProofs.RelinkInstalled | src/services/file_service.py:66-68 | with the lexical target an installed dotfile is "Already linked" with no change |
| FileServiceProofs.AsWrittenRelinkDestroysSource | src/services/file_service.py:61-86 | as written, a successful forced link of an installed dotfile turns the repository file into a link to itself |
| FileServiceProofs.AsWrittenReimportDestroysCopy | src/services/file_service.py:16-53 | as written, re-importing an installed file turns the repository copy into a link to itself |
| FileServiceProofs.AsWrittenReimportExample | src/services/file_service.py:16-53 | for a home link `~/z` to the repository file `z`, the as-written import of `~/z` as `z` succeeds and leaves `z` a link to itself, which does not exist |
| FileServiceProofs.ReimportIsNoop | src/services/file_service.py:16-55 | with the original kept lexical, re-importing an installed file returns the record and only adds directories |
| FileService.BackupFile | src/services/file_service.py:92-108 | the host ends in the state and result `Backup` gives |
| FileService.LinkOnHost | src/services/file_service.py:63-89 | the host ends in the state and result `LinkAt` gives |
| FileService.CreateSymlink | src/services/file_service.py:58-89 | the host ends in the state and result `create_symlink` specifies, with the lexical target |
| FileService.SafeImport | src/services/file_service.py:11-55 | the host ends in the state and result `safe_import` specifies, with the lexical original |
| ConfigStore.DecodeAll | src/services/config_service.py:21-28 | all records decoded in order, or ConfigError and none of them |
| ConfigStore.LoadOutcomes | src/services/config_service.py:14-32 | an absent file loads as no records; an unreadable one, and every load error, is ConfigError |
| ConfigStore.ProfileDefaults | src/services/config_service.py:25 | an object without "profile" loads with profile "default" |
| ConfigStore.LoadAllOrNothing | src/services/config_service.py:21-32 | one object without a source or a target fails the whole load |
| ConfigStore.LoadedStorable | src/services/config_service.py:23-24 | loaded records hold well-formed paths |
| ConfigStore.LoadRoundTrip | src/services/config_service.py:35-42 | what `save_config` writes `load_config` reads back: the same records in the same order |
| ConfigStore.SaveThenLoad | tests/test_core.py:15-28 | a save that goes through reports no error and is read back as the records saved |
| ConfigStore.FailedSaveKeepsConfig | src/services/config_service.py:45-56 | a failed save raises ConfigError and leaves the previous config as it was |
| ConfigStore.AsWrittenWriteFaultLeavesTemp | src/services/config_service.py:47-55 | as written, a failure while writing the JSON leaves the temporary file behind |
| ConfigStore.FailedSaveLeavesNoTemp | src/services/config_service.py:45-56 | with the temporary name known from creation on, no failure leaves a temporary file or changes the config |
| ConfigStore.AddedAppends | src/services/config_service.py:61-66 | adding keeps the earlier records in order and appends the record exactly when its pair is new |
| ConfigStore.AddedIdempotent | src/services/config_service.py:61-63 | adding a record with the same source and target again, any profile, changes nothing |
| ConfigStore.AddedCount | src/services/config_service.py:58-66 | after adding, the pair occurs once if it was new and as often as before otherwise |
| ConfigStore.AddEffectCases | src/services/config_service.py:58-63 | a load failure stops `add_dotfile` before any change; a present pair makes it a no-op; a failure changes nothing |
| ConfigStore.AddThenLoad | src/services/config_service.py:58-66 | a successful add is read back as the earlier records followed by the new one when its pair was new |
| ConfigStore.AddTwiceLeavesOne | src/services/config_service.py:58-66 | adding the same pair twice leaves it in the store exactly once |
| ConfigStore.ConfigService.SaveConfig | src/services/config_service.py:34-56 | the store ends as `SaveEffect` gives for the fault and the binding of `tmp_path`: with `AfterWrite`, as written, a failed write leaves the temporary file; with `AtCreate` no failure does; a success stores the records |
| ConfigStore.ConfigService.FindPair | src/services/config_service.py:61-63 | the loop finds a record with the same source and target exactly when there is one |
| ConfigStore.ConfigService.AddDotfile | src/services/config_service.py:58-66 | the store ends as `AddEffect` gives for the fault and the binding of `tmp_path`, the as-written one included |
| Scanner.SystemScanner.constructor | src/services/scanner.py:12-24 | the known-apps table is the resource's table, or empty when it is missing |
| Scanner.Gather | src/services/scanner.py:33-39 | the set holds exactly the locations the records contribute; an error escapes only when one contributes it |
| Scanner.ManagedSet | src/services/scanner.py:33-39 | the managed set holds the resolved targets, or fails only with an error a record raises |
| Scanner.ManagedSetSnoc | src/services/scanner.py:34-39 | one more record adds its resolved target, adds nothing, or fails the set |
| Scanner.ManagedOfTarget | src/services/scanner.py:37 | a record contributes its resolved expanded target; the second `resolve()` changes nothing |
| Scanner.ManagedOfErrors | src/services/scanner.py:38-39 | a target whose resolution loops is skipped, the model's own choice (see "## Left out"); only a home directory that cannot be found escapes the loop |
| Scanner.Picks | src/services/scanner.py:41-54 | at most one candidate per table entry |
| Scanner.PickIff | src/services/scanner.py:43-51 | an entry is picked exactly when its path exists or is a link, resolves, and lands outside the managed set |
| Scanner.PicksAppend | src/services/scanner.py:41-51 | candidates follow the table order, with no sort and no deduplication |
| Scanner.PicksSnoc | src/services/scanner.py:41-51 | the candidates of one more entry follow those before it |
| Scanner.PicksMember | src/services/scanner.py:41-54 | a candidate is exactly the app name and unresolved path that some entry picks |
| Scanner.ScanExcludesManaged | src/services/scanner.py:33-51 | no candidate resolves to the expanded target of a managed record |
| Scanner.EmptyTableFindsNothing | src/services/scanner.py:16-24 | with the resource missing a scan finds nothing |
| Scanner.DanglingLinkFound | src/services/scanner.py:46-51 | a dangling link at a table path is still a candidate |
| Scanner.SystemScanner.CollectManaged | src/services/scanner.py:33-39 | the first loop builds the managed set |
| Scanner.SystemScanner.CollectCandidates | src/services/scanner.py:41-54 | the second loop builds the candidates in table order |
| Scanner.SystemScanner.Scan | src/services/scanner.py:26-56 | the scan returns exactly what the two loops specify over the loaded records |
| Cli.Keep | src/interface/cli.py:81 | the kept text holds only alphanumerics, '-' and '_', and is no longer than the input |
| Cli.SanitizeIsKeep | src/interface/cli.py:81 | the `strip()` after the filter changes nothing |
| Cli.KeepSubsequence | src/interface/cli.py:81 | a character survives exactly when it is in the input and allowed |
| Cli.KeepAppend | src/interface/cli.py:81 | the filter keeps the characters in their order: filtering a concatenation concatenates the filtered parts |
| Cli.KeepClean | src/interface/cli.py:81 | a name of allowed characters is kept unchanged |
| Cli.CleanFolderChars | src/interface/cli.py:81-82 | the cleaned folder is never empty and holds only allowed characters, "misc" when nothing is left |
| Cli.CleanFolderIsComponent | src/interface/cli.py:81-84 | the cleaned folder is one ordinary component: not "." or "..", no separator |
| Cli.AddImportPathShape | src/interface/cli.py:84 | the import path is exactly the cleaned folder followed by the file name |
| Cli.ScanImportPathShape | src/interface/cli.py:51-52 | a scan import goes to `auto-scan/<cleaned app name>/<file name>` |
| Cli.WithProfileMember | src/interface/cli.py:104-105 | the filter keeps exactly the records with that profile |
| Cli.WithProfileAppend | src/interface/cli.py:104-105 | the filter keeps the original order |
| Cli.WithProfileAll | src/interface/cli.py:104-105 | records all of that profile pass unchanged |
| Cli.FilterByProfileMeaning | src/interface/cli.py:122-124 | "all" keeps everything; any other name keeps exactly its records |
| Cli.ShouldCommit | src/interface/cli.py:39-61 | a commit is requested exactly when some candidate was imported |
| LegacyConfig.ConfigManager.constructor | src/config_manager.py:5-6 | no list or an empty one gives an empty list; otherwise the list given |
| LegacyConfig.ConfigManager.AddDotfile | src/config_manager.py:8-9 | appends at the end, keeping duplicates |
| LegacyConfig.SelectAll | src/config_manager.py:12-13 | "all" in any letter case selects the whole list |
| LegacyConfig.SelectAllUpper | src/config_manager.py:12-13 | "ALL" selects the whole list |
| LegacyConfig.MatchingMember | src/config_manager.py:14 | any other name selects exactly the records whose profile matches ignoring case |
| LegacyConfig.MatchingAppend | src/config_manager.py:14 | the selection keeps the list order |
| LegacyConfig.SelectionIgnoresCase | src/config_manager.py:11-14 | the letter case of the requested profile does not change the selection |
| LegacyLink.ClearLinkFacts | src/dotfile.py:7-12 | after clearing, nothing is at the path and nothing outside its tree has changed |
| LegacyLink.NodeKinds | src/dotfile.py:8-11 | an entry neither a link nor a file after following is a directory |
| LegacyLink.LinkEffectFacts | src/dotfile.py:7-16 | on success the path is a link holding the parsed source, whether or not anything is there; an empty source never succeeds; nothing outside it changes; failure is reported, not raised |
| LegacyLink.ReplacesFile | src/dotfile.py:8-15 | an existing file or link is replaced by the new link; with an empty source it is removed and the call fails |
| LegacyLink.ReplacesDirectory | src/dotfile.py:10-15 | a directory at the path goes with everything below it; the link is made exactly when the source is not empty |
| LegacyLink.CreateSymlink | src/dotfile.py:4-16 | the host ends as the legacy `create_symlink` specifies |
| Tui.LabelShape | src/interface/tui.py:63-64 | a label is the displayed category, ": " and the file name; the display differs from the category only in case and dashes |
| Tui.CategoryOfNested | src/interface/tui.py:53-58 | a source in a folder is labelled with that folder, "auto-scan" showing as "Misc" |
| Tui.CategoryOfTopLevel | src/interface/tui.py:59-60 | a single-component source is in "Root" |
| Tui.NvimLabel | src/interface/tui.py:62-64 | "nvim/init.lua" is listed as "Nvim: init.lua" |
| Tui.FallbackIsBash | src/interface/tui.py:77-83 | a suffix falls back to bash exactly when the table does not name it |
| Tui.TuiLanguageMeaning | src/interface/tui.py:76-83 | the suffix is compared in lower case, and bash is chosen exactly for unnamed suffixes |
| Tui.LuaShownAsPython | src/interface/tui.py:76-81 | ".LUA" and ".Lua" select python like ".lua" |
| Tui.SaveWithoutSelection | src/interface/tui.py:86 | without a selection the save button changes nothing |
| Tui.AsWrittenSaveNeverReplaces | src/interface/tui.py:93-97 | as written, a save never replaces the file; it reports an error and can leave the temporary file |
| Tui.SaveReplacesContent | src/interface/tui.py:86-98 | corrected, a save reported as done leaves exactly the editor text in the file, no temporary file, and nothing else changed |
| Tui.DotfileTui.LoadFiles | src/interface/tui.py:46-66 | one labelled item per loaded record, in config order; a load error leaves the list empty with ConfigError |
| Tui.DotfileTui.LabelAll | src/interface/tui.py:48-66 | the loop labels every record, in order |
| Tui.DotfileTui.Select | src/interface/tui.py:68-83 | the item's record becomes current; an existing file's text and language go to the editor |
| Tui.DotfileTui.Save | src/interface/tui.py:85-100 | the host and the notice end as the corrected save specifies |
| TuiApp.EntriesMeaning | src/tui_app.py:70-77 | the list is one placeholder when empty, otherwise one "<profile> \| <file name>" row per record, in order |
| TuiApp.FirstMatch | src/tui_app.py:82-84 | the index of the first record whose source prints as the row's, none without a match |
| TuiApp.FirstMatchAt | src/tui_app.py:82-84 | the first match is at i when i matches and no earlier record does |
| TuiApp.FirstMatchNone | src/tui_app.py:82-100 | without a match there is no first match |
| TuiApp.AppLanguageAgrees | src/tui_app.py:92-97 | every suffix this table names gets the same mode as in the lower-casing table |
| TuiApp.UpperSuffixDiffers | src/tui_app.py:92-93 | the suffix is compared as written: ".JSON" falls back to bash here |
| TuiApp.BackupBeside | src/tui_app.py:125 | the backup is beside the file, named the file's name followed by ".bak" |
| TuiApp.NothingSelected | src/tui_app.py:109-138 | without a selection save, backup and restore change nothing |
| TuiApp.SaveWritesText | src/tui_app.py:107-117 | a save that succeeds leaves the editor text in the file and other paths reading as before; one that fails changes nothing |
| TuiApp.WriteKeepsNonDir | src/tui_app.py:129 | a path that is no directory stays so after a successful write |
| TuiApp.BackupKeepsBoth | src/tui_app.py:127-132 | a successful backup leaves the editor text in both the file and its ".bak" |
| TuiApp.RestoreWithoutBackup | src/tui_app.py:143-145 | with no ".bak" the restore changes nothing |
| TuiApp.RestoreShowsBackup | src/tui_app.py:147-153 | a successful restore puts the ".bak" text in the file and in the editor |
| TuiApp.BackupThenRestore | src/tui_app.py:119-153 | a restore right after a backup changes nothing on disk and shows the text backed up |
| TuiApp.DotfileApp.constructor | src/tui_app.py:46-49 | the window starts with an empty manager and no selection |
| TuiApp.DotfileApp.Refresh | src/tui_app.py:70-77 | the list becomes the rows of the manager's records |
| TuiApp.DotfileApp.Select | src/tui_app.py:72-100 | the first match becomes current and is shown, or the read error; the placeholder row is handled exactly when there are no records, and changes nothing |
| TuiApp.DotfileApp.SaveFile | src/tui_app.py:107-117 | the host and the notice end as the save button specifies |
| TuiApp.DotfileApp.BackupFile | src/tui_app.py:119-134 | the host and the notice end as the backup button specifies |
| TuiApp.DotfileApp.RestoreFile | src/tui_app.py:136-155 | the host, the editor and the notice end as the restore button specifies |

## Left out

- Intermediate path components are not resolved. `resolve()` follows links only at the final component of a path.
- A symlink loop met by `resolve()` is the model's own OsError, matching no Python version. A non-strict `resolve()` raises RuntimeError before 3.13 and returns the looping path in 3.13; only `strict=True` raises OSError.
- Scanner.ManagedOfErrors: a looping target is skipped, which is the model's own choice. Before 3.13 the RuntimeError escapes the `except OSError` at src/services/scanner.py:38 and the scan aborts; in 3.13 the looping path joins the managed set.
- `copytree` copies links below the source as they are. The default `symlinks=False` follows them.
- Failing mutations are atomic in the model. `rmtree` keeps what it removed before the failing entry, `mkdir(parents=True)` keeps the ancestors it made, and `copytree` copies every entry it can before it raises `shutil.Error`. The model leaves the filesystem as it was on each of these errors.
- CopyTreeFacts (module `FileSystem`): a failed `copytree` is modelled as leaving no partial tree, and a denied entry anywhere below the destination fails the whole copy before anything is written.
- BackupErrorKeepsTarget (module `FileServiceProofs`): "nothing outside the backup directory changes" rests on atomic failures. A failing `copytree` in `backup_file` leaves its partial copy, though only below the backup slot. A failing `mkdir` leaves the ancestors it made.
- BackupErrorState: the state after BackupError is the state after the backup directory was made. The host may also hold the partial tree of the failed `copytree`.
- ImportStages: on an error of the `mkdir` or copy stage the model returns the state from before that stage. The host keeps the ancestors `mkdir(parents=True)` made and the partial tree of a failed `copytree`.
- PurePaths.Parse: a text with exactly two leading slashes parses like one with a single slash. pathlib keeps "//" as a distinct root, so `Path("//a")` prints as "//a" and differs from `Path("/a")`. This changes the encoded target and the same-pair test of `add_dotfile` for such texts.
- LinkEffectFacts: the link holds `Parse(source)` rather than the source text verbatim, so `os.readlink` would show a difference for texts with repeated or trailing slashes, "." components or a "//" root. Where the link leads is the same.
- ReplacesFile: the link it makes holds `Parse(source)`, as under LinkEffectFacts (module `LegacyLink`). An empty source is modelled: the file is removed, and the call reports failure because `os.symlink` raises.
- ReplacesDirectory: the link holds `Parse(source)`, as under LinkEffectFacts. An empty source is modelled as well: the tree is removed and the call reports failure.
- `copy2` metadata (times, permissions) is not modelled. Only the text is copied.
- `~user` in a target is not looked up. It gives the HomeUnknown error, as a missing home directory does.
- Text operations (`isalnum`, `lower`, `title`, `strip`) cover ASCII only. Unicode letters, case mappings and white space are treated as other characters.
- JSON encoding and decoding are not modelled. A stored config is either absent, unreadable, or a sequence of string-keyed objects, and `json.dump` cannot fail on the record strings.
- ConfigStore.DecodeAll: a stored object whose members are not all strings counts as unreadable, so it gives ConfigError. Python loads some such objects. A `"profile"` of `null` or a number becomes the record's profile, and an extra member of any type is ignored by `load_config` (src/services/config_service.py:21-28). Only a non-string `"source"` or `"target"` raises there.
- ConfigStore.LoadOutcomes: "unreadable gives ConfigError" thus also covers the objects with non-string members above, which Python loads.
- Temporary file names are not modelled: the name is a parameter in the editor, and a count of stray temporary files in the config store.
- A failing step of a save is chosen by the `SaveFault` parameter. The model does not derive it from the host.
- Exception messages are dropped. The legacy editor shows only its prefix "Error leyendo archivo: ".
- UnicodeDecodeError on reading is not modelled: every file has text.
- Git commits (src/git_handler.py, src/services/git_local.py) are left out. The subprocess calls cannot be modelled. The scan's commit decision is `Cli.ShouldCommit` over the outcomes of the candidates.
- Cli.ShouldCommit: takes the outcome of each offered candidate as input. The Confirm prompts, the profile question and the import itself are not run there.
- Textual widgets, CSS, notifications, the Rich console and tables, and Typer parsing are left out. No concurrency exists to model.
- The root cli.py and src/paths.py only create directories from environment constants and print, so they are not part of this model.
- `datetime.now()`, `Path.home()`, `os.getcwd()` and the location of the legacy editor's repository are parameters.
- Timestamps.Format: years below 1000 are zero-padded to four digits, where `strftime("%Y")` may print fewer digits on some platforms.
- `with_suffix` raising ValueError for an empty name is not modelled. The backup path of the legacy editor requires a file with a name.
- `Dotfile` of src/dotfile.py: src/config_manager.py imports it, but the file defines no such class. `LegacyConfig.LegacyDotfile(sourcePath, profile)` is built from the fields src/config_manager.py and src/tui_app.py use.
- LegacyConfig.ConfigManager.constructor: the list given is copied as a value. Aliasing between the caller's list and the manager's list is not modelled.
- TuiApp.DotfileApp.Select: a stale hint row shown beside records has no `source_path`, so the comparison at src/tui_app.py:83 raises AttributeError. The model reports that as `handled == false` and changes nothing.
- A failure of `os.unlink` in the clean-up at src/services/config_service.py:54-55 is not modelled: the unlink of a file just made is taken to succeed.
- TuiApp.AppLanguageAgrees: holds by the definitions alone. It is a cross-check between the two tables, not proof work.
- The "save" key binding of src/interface/tui.py names an action that does not exist. Only the button is modelled.
- FileSystem.Replace: a move of an entry onto itself fails with OsError, while `os.replace(p, p)` succeeds and changes nothing. The one caller that can meet it is the editor save, when the temporary file gets the base name of a file that does not exist; there the model reports the save as failed and leaves the text under that name.
- Tui.DotfileTui.Save: the editor saves through the corrected path, in which `Path` is defined. The code as written is `Tui.AsWrittenSaveNeverReplaces`.

## Findings

| source | as written | input that shows it | evidently intended | confidence | as-written member | corrected member |
|---|---|---|---|---|---|---|
| src/core/models.py:20 | `expanded_target` calls `resolve()`, so the `is_symlink()` tests on the target in `check_status` and `create_symlink` never see a link | an installed dotfile: `~/.zshrc` a link to the absolute `repo/zsh/.zshrc`, which exists; `status` reports FILE EXISTS | the target expanded and normalised but not resolved, so an installed link reports ACTIVE | high, not executed | FileServiceProofs.AsWrittenStatusNeverSeesLink | FileServiceProofs.StatusOfInstalledLink |
| src/services/file_service.py:61-86 | with the resolved target, `link --force` on an installed dotfile takes the repository file for the target, backs it up, unlinks it and links it to itself | the same installed `~/.zshrc`, then `link --force` | "Already linked" with no change | high, not executed | FileServiceProofs.AsWrittenRelinkDestroysSource | FileServiceProofs.RelinkInstalled |
| src/services/file_service.py:16 | `safe_import` resolves the original, so re-importing an installed file finds the repository copy itself, skips the copy, and its forced link replaces the copy by a link to itself | `add ~/.zshrc -f zsh` once, then again | the second import finds the link in place and changes nothing but directories | high, not executed | FileServiceProofs.AsWrittenReimportDestroysCopy | FileServiceProofs.ReimportIsNoop |
| src/services/config_service.py:47-55 | `tmp_path` is bound only after `json.dump` returns, so when the write fails the clean-up test finds no `tmp_path` and the temporary file stays | a disk that fills up while the JSON is written | the temporary file removed on every failure | medium, not executed | ConfigStore.AsWrittenWriteFaultLeavesTemp | ConfigStore.FailedSaveLeavesNoTemp |
| src/interface/tui.py:95 | `Path` is used but never imported in src/interface/tui.py, so every save raises NameError after the temporary file is written and before `os.replace` | any selected file, then the Save button | the file content replaced by the editor text and "File saved" notified | high, not executed | Tui.AsWrittenSaveNeverReplaces | Tui.SaveReplacesContent |
