/**
 * What `FileService` guarantees: the classification of `check_status`, the
 * guards of `create_symlink` (read-only on a missing source or a conflict,
 * no overwrite without a backup, a failed backup leaves the target in
 * place, a second forced link is a no-op), the copy `backup_file` makes,
 * and what `safe_import` leaves behind.
 */
module FileServiceProofs {
  import opened Wrappers
  import opened Errors
  import opened PurePaths
  import opened FileSystem
  import opened CorePaths
  import opened Models
  import opened Timestamps
  import opened FileService

  // ---------------------------------------------------------------- frames of the steps

  /** `backup_file` touches nothing outside the backup directory. */
  lemma BackupFrame(fs: Fs, denied: set<Location>, ctx: AppContext, p: Location, stamp: Timestamp)
    requires Valid(stamp)
    requires !Lexists(fs, BackupPath(ctx, p, stamp))
    ensures KeepsOutside(fs, Backup(fs, denied, ctx, p, stamp).fs, ctx.backupDir)
  {
    if Exists(fs, p) && MakeDirExistOk(fs, denied, ctx.backupDir).Ok? {
      var fs1 := MakeDirExistOk(fs, denied, ctx.backupDir).value;
      MakeDirExistOkFacts(fs, denied, ctx.backupDir);
      var dest := BackupPath(ctx, p, stamp);
      assert IsUnder(ctx.backupDir, dest);
      var b := Backup(fs, denied, ctx, p, stamp);
      if b.result.Ok? {
        if IsDir(fs1, p) {
          CopyTreeFacts(fs1, denied, p, dest);
          forall q | Lexists(fs, q) && !IsUnder(ctx.backupDir, q) ensures NodeAt(b.fs, q) == NodeAt(fs, q) {
            if IsUnder(dest, q) { UnderTransitive(ctx.backupDir, dest, q); }
          }
        } else {
          CopyFileFresh(fs1, denied, p, dest);
        }
      }
    }
  }

  /** The forced overwrite touches nothing outside the target's tree and the backup directory. */
  lemma ClearFrame(fs: Fs, denied: set<Location>, ctx: AppContext, tgt: Location, stamp: Timestamp)
    requires Valid(stamp)
    requires !Lexists(fs, BackupPath(ctx, tgt, stamp))
    ensures var fs' := ClearTarget(fs, denied, ctx, tgt, stamp).fs;
      forall q :: Lexists(fs, q) && !IsUnder(tgt, q) && !IsUnder(ctx.backupDir, q) ==> NodeAt(fs', q) == NodeAt(fs, q)
  {
    BackupFrame(fs, denied, ctx, tgt, stamp);
    var b := Backup(fs, denied, ctx, tgt, stamp);
    if b.result.Ok? {
      if IsSymlink(b.fs, tgt) || IsFile(b.fs, tgt) {
        if FileSystem.Unlink(b.fs, denied, tgt).Ok? {
          UnlinkFacts(b.fs, denied, tgt);
          assert IsUnder(tgt, tgt);
        }
      } else if IsDir(b.fs, tgt) {
        if FileSystem.RemoveTree(b.fs, denied, tgt).Ok? {
          RemoveTreeFacts(b.fs, denied, tgt);
        }
      }
    }
  }

  /** Making the link only adds entries. */
  lemma PlaceFrame(fs: Fs, denied: set<Location>, src: Location, tgt: Location)
    ensures Grows(fs, PlaceLink(fs, denied, src, tgt).fs)
    ensures PlaceLink(fs, denied, src, tgt).result.Ok? ==>
      PlaceLink(fs, denied, src, tgt).result.value == Linked &&
      NodeAt(PlaceLink(fs, denied, src, tgt).fs, tgt) == Some(Symlink(Path(true, src)))
  {
    if FileSystem.MakeDirs(fs, denied, Parent(tgt)).Ok? {
      var fs1 := FileSystem.MakeDirs(fs, denied, Parent(tgt)).value;
      MakeDirsFacts(fs, denied, Parent(tgt));
      if FileSystem.SymlinkTo(fs1, denied, tgt, Path(true, src)).Ok? {
        SymlinkToFacts(fs1, denied, tgt, Path(true, src));
      }
    }
  }

  /** `create_symlink` touches nothing outside the target's tree and the backup directory. */
  lemma LinkFrame(fs: Fs, denied: set<Location>, ctx: AppContext, src: Location, tgt: Location,
                  force: bool, stamp: Timestamp)
    requires Valid(stamp)
    requires !Lexists(fs, BackupPath(ctx, tgt, stamp))
    ensures var fs' := LinkAt(fs, denied, ctx, src, tgt, force, stamp).fs;
      forall q :: Lexists(fs, q) && !IsUnder(tgt, q) && !IsUnder(ctx.backupDir, q) ==> NodeAt(fs', q) == NodeAt(fs, q)
  {
    var c := ClearTarget(fs, denied, ctx, tgt, stamp);
    ClearFrame(fs, denied, ctx, tgt, stamp);
    PlaceFrame(fs, denied, src, tgt);
    PlaceFrame(c.fs, denied, src, tgt);
  }

  // ---------------------------------------------------------------- check_status

  /** The five answers of `check_status`, each with the situation it reports. */
  lemma StatusCases(fs: Fs, src: Location, tgt: Location)
    ensures Classify(fs, src, tgt) == MissingSource <==> !Exists(fs, src)
    ensures Classify(fs, src, tgt) == NotInstalled <==> Exists(fs, src) && !Exists(fs, tgt)
    ensures Classify(fs, src, tgt) == Active <==>
      Exists(fs, src) && Exists(fs, tgt) && IsSymlink(fs, tgt) && Resolve(fs, tgt) == Some(src)
    ensures Classify(fs, src, tgt) == WrongTarget <==>
      Exists(fs, src) && Exists(fs, tgt) && IsSymlink(fs, tgt) && Resolve(fs, tgt) != Some(src)
    ensures Classify(fs, src, tgt) == FileExists <==> Exists(fs, src) && Exists(fs, tgt) && !IsSymlink(fs, tgt)
  {
  }

  /** A dangling link at the target counts as not installed, since `exists()` follows it. */
  lemma DanglingNotInstalled(fs: Fs, src: Location, tgt: Location)
    requires Exists(fs, src)
    requires IsSymlink(fs, tgt) && Resolve(fs, tgt).Some? && !Lexists(fs, Resolve(fs, tgt).value)
    ensures Classify(fs, src, tgt) == NotInstalled
  {
  }

  // ---------------------------------------------------------------- create_symlink guards

  /**
   * `create_symlink` changes the filesystem only when the source exists, the
   * target is not already a link to it, and either `force` is given or nothing
   * is at the target: a missing source or a conflict is read-only.
   */
  lemma LinkReadOnlyUnlessFree(fs: Fs, denied: set<Location>, ctx: AppContext, src: Location, tgt: Location,
                               force: bool, stamp: Timestamp)
    requires Valid(stamp)
    ensures LinkAt(fs, denied, ctx, src, tgt, force, stamp).fs != fs ==>
      && Exists(fs, src)
      && !(IsSymlink(fs, tgt) && Resolve(fs, tgt) == Some(src))
      && (force || !Lexists(fs, tgt))
  {
  }

  /** The messages of the guards, in the order the code tests them. */
  lemma LinkGuards(fs: Fs, denied: set<Location>, ctx: AppContext, src: Location, tgt: Location,
                   force: bool, stamp: Timestamp)
    requires Valid(stamp)
    ensures !Exists(fs, src) ==> LinkAt(fs, denied, ctx, src, tgt, force, stamp) == Run(Ok(Broken), fs)
    ensures Exists(fs, src) && IsSymlink(fs, tgt) && Resolve(fs, tgt) == Some(src) ==>
      LinkAt(fs, denied, ctx, src, tgt, force, stamp) == Run(Ok(AlreadyLinked), fs)
    ensures Exists(fs, src) && !force && IsSymlink(fs, tgt) && Resolve(fs, tgt).Some? && Resolve(fs, tgt) != Some(src) ==>
      LinkAt(fs, denied, ctx, src, tgt, force, stamp) == Run(Ok(ConflictWrongLink), fs)
    ensures Exists(fs, src) && !force && Lexists(fs, tgt) && !IsSymlink(fs, tgt) ==>
      LinkAt(fs, denied, ctx, src, tgt, force, stamp) == Run(Ok(ConflictFileExists), fs)
    ensures force ==>
      LinkAt(fs, denied, ctx, src, tgt, force, stamp).result !in {Ok(ConflictWrongLink), Ok(ConflictFileExists)}
  {
  }

  /** Every successful link leaves a link at the target holding the absolute source. */
  lemma LinkedPlacesLink(fs: Fs, denied: set<Location>, ctx: AppContext, src: Location, tgt: Location,
                         force: bool, stamp: Timestamp)
    requires Valid(stamp)
    requires LinkAt(fs, denied, ctx, src, tgt, force, stamp).result == Ok(Linked)
    ensures NodeAt(LinkAt(fs, denied, ctx, src, tgt, force, stamp).fs, tgt) == Some(Symlink(Path(true, src)))
  {
    PlaceFrame(fs, denied, src, tgt);
    PlaceFrame(ClearTarget(fs, denied, ctx, tgt, stamp).fs, denied, src, tgt);
  }

  /** Only the copy inside `backup_file` raises BackupError, and by then only the backup directory may be new. */
  lemma BackupErrorState(fs: Fs, denied: set<Location>, ctx: AppContext, p: Location, stamp: Timestamp)
    requires Valid(stamp)
    requires Backup(fs, denied, ctx, p, stamp).result == Err(BackupError)
    ensures forall q :: q != ctx.backupDir ==> NodeAt(Backup(fs, denied, ctx, p, stamp).fs, q) == NodeAt(fs, q)
  {
    MakeDirExistOkFacts(fs, denied, ctx.backupDir);
  }

  /** Making the link raises nothing but FileOperationError. */
  lemma PlaceErrors(fs: Fs, denied: set<Location>, src: Location, tgt: Location)
    ensures PlaceLink(fs, denied, src, tgt).result.Err? ==> PlaceLink(fs, denied, src, tgt).result.error == FileOperationError
  {
  }

  /** The forced overwrite raises BackupError only from its backup. */
  lemma ClearBackupError(fs: Fs, denied: set<Location>, ctx: AppContext, tgt: Location, stamp: Timestamp)
    requires Valid(stamp)
    requires ClearTarget(fs, denied, ctx, tgt, stamp).result == Err(BackupError)
    ensures ClearTarget(fs, denied, ctx, tgt, stamp) == Backup(fs, denied, ctx, tgt, stamp)
  {
  }

  /** A failed backup raises BackupError and leaves everything but the backup directory as it was. */
  lemma BackupErrorKeepsTarget(fs: Fs, denied: set<Location>, ctx: AppContext, src: Location, tgt: Location,
                               force: bool, stamp: Timestamp)
    requires Valid(stamp)
    requires LinkAt(fs, denied, ctx, src, tgt, force, stamp).result == Err(BackupError)
    ensures forall q :: q != ctx.backupDir ==>
      NodeAt(LinkAt(fs, denied, ctx, src, tgt, force, stamp).fs, q) == NodeAt(fs, q)
  {
    var c := ClearTarget(fs, denied, ctx, tgt, stamp);
    PlaceErrors(fs, denied, src, tgt);
    PlaceErrors(c.fs, denied, src, tgt);
    if c.result == Err(BackupError) {
      ClearBackupError(fs, denied, ctx, tgt, stamp);
      BackupErrorState(fs, denied, ctx, tgt, stamp);
    }
  }

  /** Once a forced overwrite changed the target, its backup had succeeded. */
  lemma ChangeNeedsBackup(fs: Fs, denied: set<Location>, ctx: AppContext, src: Location, tgt: Location,
                          force: bool, stamp: Timestamp)
    requires Valid(stamp)
    requires Exists(fs, tgt)
    requires NodeAt(LinkAt(fs, denied, ctx, src, tgt, force, stamp).fs, tgt) != NodeAt(fs, tgt)
    ensures Backup(fs, denied, ctx, tgt, stamp).result.Ok?
    ensures var c := ClearTarget(fs, denied, ctx, tgt, stamp);
      LinkAt(fs, denied, ctx, src, tgt, force, stamp).fs == (if c.result.Err? then c.fs else PlaceLink(c.fs, denied, src, tgt).fs)
  {
    var b := Backup(fs, denied, ctx, tgt, stamp);
    if b.result.Err? && MakeDirExistOk(fs, denied, ctx.backupDir).Ok? {
      MakeDirExistOkFacts(fs, denied, ctx.backupDir);
    }
  }

  /** The unlink or tree removal after the backup leaves what lies outside the target's tree. */
  lemma ClearAfterBackup(fs: Fs, denied: set<Location>, ctx: AppContext, tgt: Location, stamp: Timestamp, q: Location)
    requires Valid(stamp)
    requires Backup(fs, denied, ctx, tgt, stamp).result.Ok?
    requires !IsUnder(tgt, q)
    ensures NodeAt(ClearTarget(fs, denied, ctx, tgt, stamp).fs, q) == NodeAt(Backup(fs, denied, ctx, tgt, stamp).fs, q)
  {
    var b := Backup(fs, denied, ctx, tgt, stamp);
    if IsSymlink(b.fs, tgt) || IsFile(b.fs, tgt) {
      if FileSystem.Unlink(b.fs, denied, tgt).Ok? { UnlinkFacts(b.fs, denied, tgt); assert IsUnder(tgt, tgt); }
    } else if IsDir(b.fs, tgt) {
      if FileSystem.RemoveTree(b.fs, denied, tgt).Ok? { RemoveTreeFacts(b.fs, denied, tgt); }
    }
  }

  /** A successful backup of an existing path is at the backup path, with the text when it is a file. */
  lemma BackupMade(fs: Fs, denied: set<Location>, ctx: AppContext, p: Location, stamp: Timestamp)
    requires Valid(stamp)
    requires Exists(fs, p) && !Lexists(fs, BackupPath(ctx, p, stamp))
    requires Backup(fs, denied, ctx, p, stamp).result.Ok?
    ensures var fs' := Backup(fs, denied, ctx, p, stamp).fs; var dest := BackupPath(ctx, p, stamp);
      && Lexists(fs', dest) && !IsSymlink(fs', dest)
      && (IsFile(fs, p) ==> NodeAt(fs', dest) == Some(File(ReadText(fs, p).value)))
  {
    var fs1 := MakeDirExistOk(fs, denied, ctx.backupDir).value;
    var dest := BackupPath(ctx, p, stamp);
    var fs' := Backup(fs, denied, ctx, p, stamp).fs;
    MakeDirExistOkFacts(fs, denied, ctx.backupDir);
    assert dest != ctx.backupDir;
    if IsDir(fs1, p) {
      assert fs' == CopyTree(fs1, denied, p, dest).value;
      CopyTreeFacts(fs1, denied, p, dest);
      ResolveGrows(fs, fs1, p);
    } else {
      assert fs' == CopyFile(fs1, denied, p, dest).value;
      CopyFileFresh(fs1, denied, p, dest);
      ResolveGrows(fs, fs1, p);
    }
  }

  /**
   * No overwrite without a backup: when a forced link changes an existing
   * target, the backup of that target exists, with its text when it was a file.
   */
  lemma NoOverwriteWithoutBackup(fs: Fs, denied: set<Location>, ctx: AppContext, src: Location, tgt: Location,
                                 force: bool, stamp: Timestamp)
    requires Valid(stamp)
    requires Exists(fs, tgt)
    requires !Lexists(fs, BackupPath(ctx, tgt, stamp)) && !IsUnder(tgt, BackupPath(ctx, tgt, stamp))
    ensures var r := LinkAt(fs, denied, ctx, src, tgt, force, stamp); var dest := BackupPath(ctx, tgt, stamp);
      NodeAt(r.fs, tgt) != NodeAt(fs, tgt) ==>
        && Lexists(r.fs, dest)
        && (IsFile(fs, tgt) ==> ReadText(r.fs, dest) == ReadText(fs, tgt))
  {
    var r := LinkAt(fs, denied, ctx, src, tgt, force, stamp);
    var dest := BackupPath(ctx, tgt, stamp);
    if NodeAt(r.fs, tgt) != NodeAt(fs, tgt) {
      ChangeNeedsBackup(fs, denied, ctx, src, tgt, force, stamp);
      var b := Backup(fs, denied, ctx, tgt, stamp);
      var c := ClearTarget(fs, denied, ctx, tgt, stamp);
      BackupMade(fs, denied, ctx, tgt, stamp);
      ClearAfterBackup(fs, denied, ctx, tgt, stamp, dest);
      PlaceFrame(c.fs, denied, src, tgt);
      assert NodeAt(r.fs, dest) == NodeAt(b.fs, dest);
    }
  }

  // ---------------------------------------------------------------- backup_file

  /** `backup_file` of a path that does not exist does nothing. */
  lemma BackupAbsent(fs: Fs, denied: set<Location>, ctx: AppContext, p: Location, stamp: Timestamp)
    requires Valid(stamp)
    requires !Exists(fs, p)
    ensures Backup(fs, denied, ctx, p, stamp) == Run(Ok(()), fs)
  {
  }

  /** A file's backup holds the same text, and the original is left as it was. */
  lemma BackupCopiesFile(fs: Fs, denied: set<Location>, ctx: AppContext, p: Location, stamp: Timestamp)
    requires Valid(stamp)
    requires IsFile(fs, p) && !Lexists(fs, BackupPath(ctx, p, stamp))
    requires Backup(fs, denied, ctx, p, stamp).result.Ok?
    ensures var fs' := Backup(fs, denied, ctx, p, stamp).fs;
      && ReadText(fs', BackupPath(ctx, p, stamp)) == ReadText(fs, p)
      && (forall q :: q != ctx.backupDir && q != BackupPath(ctx, p, stamp) ==> NodeAt(fs', q) == NodeAt(fs, q))
  {
    var fs1 := MakeDirExistOk(fs, denied, ctx.backupDir).value;
    MakeDirExistOkFacts(fs, denied, ctx.backupDir);
    ResolveGrows(fs, fs1, p);
    CopyFileFresh(fs1, denied, p, BackupPath(ctx, p, stamp));
  }

  /** A directory's backup holds a copy of every entry below it. */
  lemma BackupCopiesTree(fs: Fs, denied: set<Location>, ctx: AppContext, p: Location, stamp: Timestamp)
    requires Valid(stamp)
    requires IsDir(fs, p)
    requires Backup(fs, denied, ctx, p, stamp).result.Ok?
    ensures var fs' := Backup(fs, denied, ctx, p, stamp).fs; var r := Resolve(fs, p).value;
      forall s :: s != [] && r + s in fs ==> NodeAt(fs', BackupPath(ctx, p, stamp) + s) == NodeAt(fs, r + s)
  {
    var fs1 := MakeDirExistOk(fs, denied, ctx.backupDir).value;
    MakeDirExistOkFacts(fs, denied, ctx.backupDir);
    ResolveGrows(fs, fs1, p);
    CopyTreeFacts(fs1, denied, p, BackupPath(ctx, p, stamp));
    var r := Resolve(fs, p).value;
    forall s | s != [] && r + s in fs ensures r + s in fs1 && fs1[r + s] == fs[r + s] {
      assert Lexists(fs, r + s);
    }
  }

  // ---------------------------------------------------------------- linking twice

  /** A link at `tgt` holding the absolute source, which exists and is no link itself. */
  predicate Installed(fs: Fs, src: Location, tgt: Location)
  {
    && tgt != [] && tgt in fs && fs[tgt] == Symlink(Path(true, src))
    && Normal(src) && Lexists(fs, src) && !IsSymlink(fs, src)
  }

  /** An installed link resolves to the source, which exists. */
  lemma InstalledResolves(fs: Fs, src: Location, tgt: Location)
    requires Installed(fs, src, tgt)
    ensures Resolve(fs, tgt) == Some(src) && Exists(fs, src) && Exists(fs, tgt) && IsSymlink(fs, tgt)
  {
    ResolveAbsoluteLink(fs, tgt, src);
  }

  /** `create_symlink` keeps the source when it lies outside the target's tree and the backup directory. */
  lemma LinkKeepsSource(fs: Fs, denied: set<Location>, ctx: AppContext, src: Location, tgt: Location,
                        force: bool, stamp: Timestamp)
    requires Valid(stamp)
    requires !Lexists(fs, BackupPath(ctx, tgt, stamp))
    requires Lexists(fs, src) && !IsUnder(tgt, src) && !IsUnder(ctx.backupDir, src)
    ensures NodeAt(LinkAt(fs, denied, ctx, src, tgt, force, stamp).fs, src) == NodeAt(fs, src)
  {
    LinkFrame(fs, denied, ctx, src, tgt, force, stamp);
  }

  /**
   * After a successful link, linking again (forced or not, at any time)
   * reports "Already linked" and changes nothing, so no second backup is taken.
   */
  lemma LinkIdempotent(fs: Fs, denied: set<Location>, ctx: AppContext, src: Location, tgt: Location,
                       force: bool, stamp: Timestamp, force2: bool, stamp2: Timestamp)
    requires Valid(stamp) && Valid(stamp2)
    requires Normal(src) && !IsSymlink(fs, src)
    requires !Lexists(fs, BackupPath(ctx, tgt, stamp))
    requires !IsUnder(tgt, src) && !IsUnder(ctx.backupDir, src)
    requires LinkAt(fs, denied, ctx, src, tgt, force, stamp).result == Ok(Linked)
    ensures var fs' := LinkAt(fs, denied, ctx, src, tgt, force, stamp).fs;
      LinkAt(fs', denied, ctx, src, tgt, force2, stamp2) == Run(Ok(AlreadyLinked), fs')
  {
    var fs' := LinkAt(fs, denied, ctx, src, tgt, force, stamp).fs;
    LinkKeepsSource(fs, denied, ctx, src, tgt, force, stamp);
    LinkedPlacesLink(fs, denied, ctx, src, tgt, force, stamp);
    InstalledResolves(fs', src, tgt);
  }

  /**
   * A forced link onto a dangling link raises FileOperationError: `exists()`
   * is false, so nothing is removed, and `symlink_to` finds the old link there.
   */
  lemma ForceOnDanglingLinkFails(fs: Fs, denied: set<Location>, ctx: AppContext, src: Location, tgt: Location,
                                 stamp: Timestamp)
    requires Valid(stamp)
    requires Exists(fs, src)
    requires IsSymlink(fs, tgt) && Resolve(fs, tgt).Some? && Resolve(fs, tgt) != Some(src) && !Exists(fs, tgt)
    ensures LinkAt(fs, denied, ctx, src, tgt, true, stamp).result == Err(FileOperationError)
    ensures NodeAt(LinkAt(fs, denied, ctx, src, tgt, true, stamp).fs, tgt) == NodeAt(fs, tgt)
  {
    if FileSystem.MakeDirs(fs, denied, Parent(tgt)).Ok? {
      MakeDirsFacts(fs, denied, Parent(tgt));
    }
  }

  // ---------------------------------------------------------------- the resolved target (as written)

  /** `expanded_target` resolves links, so the status as written never reports ACTIVE or WRONG TARGET. */
  lemma AsWrittenStatusNeverSeesLink(fs: Fs, ctx: AppContext, home: Location, df: Dotfile)
    requires CheckStatusWith(fs, ctx, home, df, Resolved).Ok?
    ensures CheckStatusWith(fs, ctx, home, df, Resolved).value !in {Active, WrongTarget}
  {
  }

  /**
   * On an installed dotfile the lexical target reports ACTIVE, while the
   * resolved target as written lands on the source itself and reports FILE EXISTS.
   */
  lemma StatusOfInstalledLink(fs: Fs, ctx: AppContext, home: Location, df: Dotfile, src: Location, tgt: Location)
    requires GetAbsoluteSource(fs, ctx, df.source) == Ok(src)
    requires LexicalTarget(ctx, home, df) == Ok(tgt)
    requires Installed(fs, src, tgt)
    ensures CheckStatusWith(fs, ctx, home, df, Lexical) == Ok(Active)
    ensures CheckStatusWith(fs, ctx, home, df, Resolved) == Ok(FileExists)
  {
    InstalledResolves(fs, src, tgt);
  }

  /** On an installed dotfile the lexical `create_symlink` reports "Already linked" and changes nothing. */
  lemma RelinkInstalled(fs: Fs, denied: set<Location>, ctx: AppContext, home: Location, df: Dotfile,
                        force: bool, stamp: Timestamp, src: Location, tgt: Location)
    requires Valid(stamp)
    requires GetAbsoluteSource(fs, ctx, df.source) == Ok(src)
    requires LexicalTarget(ctx, home, df) == Ok(tgt)
    requires Installed(fs, src, tgt)
    ensures CreateSymlinkWith(fs, denied, ctx, home, df, force, stamp, Lexical) == Run(Ok(AlreadyLinked), fs)
  {
    InstalledResolves(fs, src, tgt);
  }

  /**
   * As written, a forced `create_symlink` of an installed dotfile takes the
   * repository file for the target: when it succeeds, the source has been
   * replaced by a link to itself, which no longer resolves.
   */
  lemma AsWrittenRelinkDestroysSource(fs: Fs, denied: set<Location>, ctx: AppContext, home: Location, df: Dotfile,
                                      stamp: Timestamp, src: Location, tgt: Location)
    requires Valid(stamp)
    requires GetAbsoluteSource(fs, ctx, df.source) == Ok(src)
    requires LexicalTarget(ctx, home, df) == Ok(tgt)
    requires Installed(fs, src, tgt)
    requires CreateSymlinkWith(fs, denied, ctx, home, df, true, stamp, Resolved).result == Ok(Linked)
    ensures var fs' := CreateSymlinkWith(fs, denied, ctx, home, df, true, stamp, Resolved).fs;
      NodeAt(fs', src) == Some(Symlink(Path(true, src))) && !Exists(fs', src)
  {
    InstalledResolves(fs, src, tgt);
    assert ExpandedTarget(fs, ctx, home, df) == Ok(src);
    LinkedPlacesLink(fs, denied, ctx, src, src, true, stamp);
    var fs' := CreateSymlinkWith(fs, denied, ctx, home, df, true, stamp, Resolved).fs;
    SelfLinkLoops(fs', src, MaxSymlinkHops);
  }

  // ---------------------------------------------------------------- safe_import

  /** A missing original raises before anything changes: FileOperationError, or OSError from a looping source. */
  lemma ImportMissingOriginal(fs: Fs, denied: set<Location>, ctx: AppContext, home: Location, orig: Location,
                              rel: Path, profile: string, stamp: Timestamp, mode: Lookup)
    requires Valid(stamp)
    requires !Exists(fs, orig)
    ensures ImportAt(fs, denied, ctx, home, orig, rel, profile, stamp, mode).fs == fs
    ensures ImportAt(fs, denied, ctx, home, orig, rel, profile, stamp, mode).result ==
      Err(if GetAbsoluteSource(fs, ctx, rel).Err? then OsError else FileOperationError)
  {
  }

  /** The record `safe_import` returns: the given source and profile, and the portable target of the original. */
  lemma ImportResult(fs: Fs, denied: set<Location>, ctx: AppContext, home: Location, orig: Location,
                     rel: Path, profile: string, stamp: Timestamp, mode: Lookup)
    requires Valid(stamp)
    requires ImportAt(fs, denied, ctx, home, orig, rel, profile, stamp, mode).result.Ok?
    ensures ImportAt(fs, denied, ctx, home, orig, rel, profile, stamp, mode).result.value ==
      Dotfile(rel, PortableTarget(home, orig), profile)
  {
  }

  /** The parent directories `safe_import` makes do not reach the backup slot of a path outside the repository copy. */
  lemma MakeParentKeepsBackupSlot(fs: Fs, denied: set<Location>, ctx: AppContext, dest: Location, p: Location,
                                  stamp: Timestamp)
    requires Valid(stamp)
    requires FileSystem.MakeDirs(fs, denied, Parent(dest)).Ok?
    requires !IsUnder(ctx.backupDir, dest)
    ensures NodeAt(FileSystem.MakeDirs(fs, denied, Parent(dest)).value, BackupPath(ctx, p, stamp)) ==
      NodeAt(fs, BackupPath(ctx, p, stamp))
  {
    MakeDirsFacts(fs, denied, Parent(dest));
  }

  /** The state `safe_import` ends in, stage by stage. */
  lemma ImportStages(fs: Fs, denied: set<Location>, ctx: AppContext, home: Location, orig: Location,
                     rel: Path, profile: string, stamp: Timestamp, mode: Lookup, dest: Location)
    requires Valid(stamp)
    requires GetAbsoluteSource(fs, ctx, rel) == Ok(dest) && Exists(fs, orig)
    ensures FileSystem.MakeDirs(fs, denied, Parent(dest)).Err? ==>
      ImportAt(fs, denied, ctx, home, orig, rel, profile, stamp, mode) == Run(Err(FileOperationError), fs)
    ensures FileSystem.MakeDirs(fs, denied, Parent(dest)).Ok? ==>
      var fs1 := FileSystem.MakeDirs(fs, denied, Parent(dest)).value;
      CopyIn(fs1, denied, orig, dest).Err? ==>
        ImportAt(fs, denied, ctx, home, orig, rel, profile, stamp, mode) == Run(Err(FileOperationError), fs1)
    ensures FileSystem.MakeDirs(fs, denied, Parent(dest)).Ok? ==>
      var fs1 := FileSystem.MakeDirs(fs, denied, Parent(dest)).value;
      CopyIn(fs1, denied, orig, dest).Ok? ==>
        var link := CreateSymlinkWith(CopyIn(fs1, denied, orig, dest).value, denied, ctx, home,
                                      Dotfile(rel, PortableTarget(home, orig), profile), true, stamp, mode);
        var r := ImportAt(fs, denied, ctx, home, orig, rel, profile, stamp, mode);
        r.fs == link.fs && (r.result.Ok? <==> link.result.Ok?)
  {
  }

  /** The linking step of the import, once its source and its target are known. */
  lemma LinkStage(fs: Fs, denied: set<Location>, ctx: AppContext, home: Location, df: Dotfile,
                  stamp: Timestamp, mode: Lookup, src: Location, tgt: Location)
    requires Valid(stamp)
    requires GetAbsoluteSource(fs, ctx, df.source) == Ok(src) && TargetOf(fs, ctx, home, df, mode) == Ok(tgt)
    ensures CreateSymlinkWith(fs, denied, ctx, home, df, true, stamp, mode) == LinkAt(fs, denied, ctx, src, tgt, true, stamp)
  {
  }

  /** An existing repository copy is never overwritten by the import. */
  lemma ImportKeepsRepoCopy(fs: Fs, denied: set<Location>, ctx: AppContext, home: Location, orig: Location,
                            rel: Path, profile: string, stamp: Timestamp, dest: Location)
    requires Valid(stamp)
    requires Normal(home) && Normal(orig)
    requires GetAbsoluteSource(fs, ctx, rel) == Ok(dest) && Exists(fs, dest)
    requires !IsUnder(orig, dest) && !IsUnder(ctx.backupDir, dest)
    requires !Lexists(fs, BackupPath(ctx, orig, stamp))
    ensures NodeAt(ImportAt(fs, denied, ctx, home, orig, rel, profile, stamp, Lexical).fs, dest) == NodeAt(fs, dest)
  {
    if Exists(fs, orig) {
      ImportStages(fs, denied, ctx, home, orig, rel, profile, stamp, Lexical, dest);
      if FileSystem.MakeDirs(fs, denied, Parent(dest)).Ok? {
        var fs1 := FileSystem.MakeDirs(fs, denied, Parent(dest)).value;
        MakeDirsFacts(fs, denied, Parent(dest));
        assert Grows(fs, fs1);
        ResolveGrows(fs, fs1, dest);
        assert Exists(fs1, dest);
        assert CopyIn(fs1, denied, orig, dest) == Ok(fs1);
        SourceStaysPut(fs, fs1, ctx, rel, dest);
        var df := Dotfile(rel, PortableTarget(home, orig), profile);
        PortableRoundTrip(ctx, home, orig);
        LinkStage(fs1, denied, ctx, home, df, stamp, Lexical, dest, orig);
        MakeParentKeepsBackupSlot(fs, denied, ctx, dest, orig, stamp);
        LinkKeepsSource(fs1, denied, ctx, dest, orig, true, stamp);
        var link := CreateSymlinkWith(fs1, denied, ctx, home, df, true, stamp, Lexical);
        assert ImportAt(fs, denied, ctx, home, orig, rel, profile, stamp, Lexical).fs == link.fs;
        assert NodeAt(link.fs, dest) == NodeAt(fs1, dest);
      }
    }
  }

  /** A step that only adds keeps where an existing source resolves. */
  lemma SourceStaysPut(fs: Fs, fs': Fs, ctx: AppContext, rel: Path, dest: Location)
    requires Grows(fs, fs')
    requires GetAbsoluteSource(fs, ctx, rel) == Ok(dest) && Lexists(fs, dest)
    ensures GetAbsoluteSource(fs', ctx, rel) == Ok(dest)
  {
    FollowGrows(fs, fs', SourceLocation(ctx, rel), MaxSymlinkHops);
  }

  /** A forced link that returns normally either found the link in place or made it. */
  lemma ForcedLinkOutcomes(fs: Fs, denied: set<Location>, ctx: AppContext, src: Location, tgt: Location,
                           stamp: Timestamp)
    requires Valid(stamp)
    requires Exists(fs, src)
    requires LinkAt(fs, denied, ctx, src, tgt, true, stamp).result.Ok?
    ensures var r := LinkAt(fs, denied, ctx, src, tgt, true, stamp);
      || (r == Run(Ok(AlreadyLinked), fs) && IsSymlink(fs, tgt) && Resolve(fs, tgt) == Some(src))
      || r.result == Ok(Linked)
  {
    PlaceFrame(fs, denied, src, tgt);
    PlaceFrame(ClearTarget(fs, denied, ctx, tgt, stamp).fs, denied, src, tgt);
  }

  /** The copy step leaves the repository copy in place, no link, and the backup slot of the original free. */
  lemma CopyInFacts(fs1: Fs, denied: set<Location>, ctx: AppContext, orig: Location, dest: Location, slot: Location)
    requires CopyIn(fs1, denied, orig, dest).Ok?
    requires !IsSymlink(fs1, dest)
    requires !IsUnder(slot, dest) && !IsUnder(dest, slot) && !Lexists(fs1, slot)
    ensures var fs2 := CopyIn(fs1, denied, orig, dest).value;
      Exists(fs2, dest) && !IsSymlink(fs2, dest) && !Lexists(fs2, slot)
  {
    if !Exists(fs1, dest) {
      if IsDir(fs1, orig) {
        CopyTreeFacts(fs1, denied, orig, dest);
      } else {
        CopyFileFresh(fs1, denied, orig, dest);
      }
    }
  }

  /**
   * On success, the original location leads to the repository copy: it was
   * already a link to it, or it has been replaced by one.
   */
  lemma ImportLinksOriginal(fs: Fs, denied: set<Location>, ctx: AppContext, home: Location, orig: Location,
                            rel: Path, profile: string, stamp: Timestamp)
    requires Valid(stamp)
    requires Normal(home) && Normal(orig)
    requires !IsSymlink(fs, SourceLocation(ctx, rel)) && Normal(SourceLocation(ctx, rel))
    requires var dest := SourceLocation(ctx, rel);
      !IsUnder(orig, dest) && !IsUnder(ctx.backupDir, dest) && !IsUnder(dest, ctx.backupDir)
    requires !Lexists(fs, BackupPath(ctx, orig, stamp))
    requires ImportAt(fs, denied, ctx, home, orig, rel, profile, stamp, Lexical).result.Ok?
    ensures var fs' := ImportAt(fs, denied, ctx, home, orig, rel, profile, stamp, Lexical).fs;
      Resolve(fs', orig) == Some(SourceLocation(ctx, rel)) && Exists(fs', SourceLocation(ctx, rel))
  {
    var dest := SourceLocation(ctx, rel);
    var slot := BackupPath(ctx, orig, stamp);
    assert GetAbsoluteSource(fs, ctx, rel) == Ok(dest);
    ImportStages(fs, denied, ctx, home, orig, rel, profile, stamp, Lexical, dest);
    var fs1 := FileSystem.MakeDirs(fs, denied, Parent(dest)).value;
    MakeDirsFacts(fs, denied, Parent(dest));
    MakeParentKeepsBackupSlot(fs, denied, ctx, dest, orig, stamp);
    assert !IsSymlink(fs1, dest) by {
      if !Lexists(fs, dest) { assert !IsUnder(dest, Parent(dest)); }
    }
    assert IsUnder(ctx.backupDir, slot);
    assert !IsUnder(dest, slot) && !IsUnder(slot, dest) by {
      if IsUnder(slot, dest) { UnderTransitive(ctx.backupDir, slot, dest); }
    }
    CopyInFacts(fs1, denied, ctx, orig, dest, slot);
    var fs2 := CopyIn(fs1, denied, orig, dest).value;
    assert GetAbsoluteSource(fs2, ctx, rel) == Ok(dest);
    var df := Dotfile(rel, PortableTarget(home, orig), profile);
    PortableRoundTrip(ctx, home, orig);
    LinkStage(fs2, denied, ctx, home, df, stamp, Lexical, dest, orig);
    ForcedLinkOutcomes(fs2, denied, ctx, dest, orig, stamp);
    var r := LinkAt(fs2, denied, ctx, dest, orig, true, stamp);
    if r.result == Ok(Linked) {
      LinkedPlacesLink(fs2, denied, ctx, dest, orig, true, stamp);
      LinkKeepsSource(fs2, denied, ctx, dest, orig, true, stamp);
      InstalledResolves(r.fs, dest, orig);
    }
  }

  // ---------------------------------------------------------------- re-importing a managed file

  /**
   * As written, importing a file that is already a link into the repository
   * resolves it to the repository copy itself; when that succeeds, the copy
   * has been replaced by a link to itself and its content survives only in
   * the backup.
   */
  lemma AsWrittenReimportDestroysCopy(fs: Fs, denied: set<Location>, ctx: AppContext, home: Location, original: Path,
                                      rel: Path, profile: string, stamp: Timestamp, l: Location, dest: Location)
    requires Valid(stamp)
    requires Normal(home)
    requires ExpandPath(ctx, home, original) == Ok(l) && GetAbsoluteSource(fs, ctx, rel) == Ok(dest)
    requires Installed(fs, dest, l)
    requires SafeImportWith(fs, denied, ctx, home, original, rel, profile, stamp, Resolved).result.Ok?
    ensures var fs' := SafeImportWith(fs, denied, ctx, home, original, rel, profile, stamp, Resolved).fs;
      NodeAt(fs', dest) == Some(Symlink(Path(true, dest))) && !Exists(fs', dest)
  {
    InstalledResolves(fs, dest, l);
    assert Locate(fs, ctx, home, original, Resolved) == Ok(dest);
    ImportStages(fs, denied, ctx, home, dest, rel, profile, stamp, Resolved, dest);
    var fs1 := FileSystem.MakeDirs(fs, denied, Parent(dest)).value;
    MakeDirsFacts(fs, denied, Parent(dest));
    ResolveGrows(fs, fs1, dest);
    assert CopyIn(fs1, denied, dest, dest) == Ok(fs1);
    SourceStaysPut(fs, fs1, ctx, rel, dest);
    var df := Dotfile(rel, PortableTarget(home, dest), profile);
    PortableRoundTrip(ctx, home, dest);
    assert TargetOf(fs1, ctx, home, df, Resolved) == Ok(dest);
    LinkStage(fs1, denied, ctx, home, df, stamp, Resolved, dest, dest);
    ForcedLinkOutcomes(fs1, denied, ctx, dest, dest, stamp);
    LinkedPlacesLink(fs1, denied, ctx, dest, dest, true, stamp);
    var fs' := LinkAt(fs1, denied, ctx, dest, dest, true, stamp).fs;
    SelfLinkLoops(fs', dest, MaxSymlinkHops);
  }

  /** A home whose `z` is installed as a link to the repository file `z`. */
  function ExampleFs(): Fs
  {
    map[["h"] := Dir, ["r"] := Dir, ["r", "z"] := File("x"), ["h", "z"] := Symlink(Path(true, ["r", "z"]))]
  }

  function ExampleContext(): AppContext
  {
    AppContext(["r"], ["r", ConfigFileName], ["r", BackupDirName])
  }

  /** In the example, the forced backup copies `z` into the new backup directory and unlinks it. */
  lemma ExampleClearTarget(stamp: Timestamp)
    requires Valid(stamp)
    ensures var c := ClearTarget(ExampleFs(), {}, ExampleContext(), ["r", "z"], stamp);
      c.result.Ok? && c.fs == ExampleFs()[["r", BackupDirName] := Dir][BackupPath(ExampleContext(), ["r", "z"], stamp) := File("x")] - {["r", "z"]}
  {
    var fs, ctx, dest := ExampleFs(), ExampleContext(), ["r", "z"];
    var fs1 := fs[ctx.backupDir := Dir];
    assert BackupDirName != "z" && BackupDirName[0] == '.';
    assert ctx.backupDir !in fs && Parent(ctx.backupDir) == ["r"];
    assert CanCreate(fs, {}, ctx.backupDir);
    assert MakeDirExistOk(fs, {}, ctx.backupDir) == Ok(fs1);
    var b := BackupPath(ctx, dest, stamp);
    assert |b| == 3 && Parent(b) == ctx.backupDir && b !in fs1;
    assert Resolve(fs1, b) == Some(b);
    assert CopyFile(fs1, {}, dest, b) == Ok(fs1[b := File("x")]);
    var fs2 := fs1[b := File("x")];
    assert Backup(fs, {}, ctx, dest, stamp) == Run(Ok(()), fs2);
    assert IsFile(fs2, dest) && !IsSymlink(fs2, dest);
  }

  /** In the example, `~/z` expands to the home link and resolves, like the source `z`, to the repository file. */
  lemma ExampleLocations()
    ensures ExpandPath(ExampleContext(), ["h"], Path(false, ["~", "z"])) == Ok(["h", "z"])
    ensures Locate(ExampleFs(), ExampleContext(), ["h"], Path(false, ["~", "z"]), Resolved) == Ok(["r", "z"])
    ensures GetAbsoluteSource(ExampleFs(), ExampleContext(), Path(false, ["z"])) == Ok(["r", "z"])
    ensures Installed(ExampleFs(), ["r", "z"], ["h", "z"])
  {
    var fs, ctx := ExampleFs(), ExampleContext();
    var l, dest := ["h", "z"], ["r", "z"];
    assert Normalise(["r"], Path(true, l)) == l;
    assert ExpandPath(ctx, ["h"], Path(false, ["~", "z"])) == Ok(l);
    assert LinkDestination(l, Path(true, dest)) == dest;
    assert Resolve(fs, l) == Some(dest);
    assert SourceLocation(ctx, Path(false, ["z"])) == dest;
  }

  /** In the example, the forced link of `z` onto itself backs it up and replaces it. */
  lemma ExampleSelfLink(stamp: Timestamp)
    requires Valid(stamp)
    ensures LinkAt(ExampleFs(), {}, ExampleContext(), ["r", "z"], ["r", "z"], true, stamp).result.Ok?
  {
    var fs, ctx, dest := ExampleFs(), ExampleContext(), ["r", "z"];
    assert Exists(fs, dest) && !IsSymlink(fs, dest);
    ExampleClearTarget(stamp);
    var fs3 := ClearTarget(fs, {}, ctx, dest, stamp).fs;
    assert dest !in fs3 && ["r"] in fs3 && fs3[["r"]] == Dir;
    assert Parent(dest) == ["r"] && Resolve(fs3, ["r"]) == Some(["r"]);
    assert FileSystem.MakeDirs(fs3, {}, Parent(dest)) == Ok(fs3);
    assert CanCreate(fs3, {}, dest);
  }

  /**
   * A home link `~/z` to the repository file `z`: importing `~/z` as `z`
   * succeeds, and as written leaves `z` a link to itself.
   */
  lemma AsWrittenReimportExample(stamp: Timestamp)
    requires Valid(stamp)
    ensures var run := SafeImportWith(ExampleFs(), {}, ExampleContext(), ["h"], Path(false, ["~", "z"]), Path(false, ["z"]),
                                      DefaultProfile, stamp, Resolved);
      run.result.Ok? && NodeAt(run.fs, ["r", "z"]) == Some(Symlink(Path(true, ["r", "z"]))) && !Exists(run.fs, ["r", "z"])
  {
    var fs, ctx := ExampleFs(), ExampleContext();
    var home, l, dest := ["h"], ["h", "z"], ["r", "z"];
    var original, rel := Path(false, ["~", "z"]), Path(false, ["z"]);
    ExampleLocations();
    assert FileSystem.MakeDirs(fs, {}, Parent(dest)) == Ok(fs);
    assert CopyIn(fs, {}, dest, dest) == Ok(fs);
    var df := Dotfile(rel, PortableTarget(home, dest), DefaultProfile);
    assert df.target == Path(true, dest);
    assert Normalise(ctx.repoRoot, df.target) == dest;
    assert TargetOf(fs, ctx, home, df, Resolved) == Ok(dest);
    ExampleSelfLink(stamp);
    assert SafeImportWith(fs, {}, ctx, home, original, rel, DefaultProfile, stamp, Resolved).result.Ok?;
    AsWrittenReimportDestroysCopy(fs, {}, ctx, home, original, rel, DefaultProfile, stamp, l, dest);
  }

  /**
   * With the original kept lexical, the same re-import finds the link in
   * place: it returns the record and leaves every existing entry as it was.
   */
  lemma ReimportIsNoop(fs: Fs, denied: set<Location>, ctx: AppContext, home: Location, original: Path,
                       rel: Path, profile: string, stamp: Timestamp, l: Location, dest: Location)
    requires Valid(stamp)
    requires Normal(home) && Normal(l)
    requires ExpandPath(ctx, home, original) == Ok(l) && GetAbsoluteSource(fs, ctx, rel) == Ok(dest)
    requires Installed(fs, dest, l)
    requires FileSystem.MakeDirs(fs, denied, Parent(dest)).Ok?
    ensures var r := SafeImportWith(fs, denied, ctx, home, original, rel, profile, stamp, Lexical);
      && r.result == Ok(Dotfile(rel, PortableTarget(home, l), profile))
      && r.fs == FileSystem.MakeDirs(fs, denied, Parent(dest)).value
      && Grows(fs, r.fs)
  {
    InstalledResolves(fs, dest, l);
    ImportStages(fs, denied, ctx, home, l, rel, profile, stamp, Lexical, dest);
    var fs1 := FileSystem.MakeDirs(fs, denied, Parent(dest)).value;
    MakeDirsFacts(fs, denied, Parent(dest));
    ResolveGrows(fs, fs1, dest);
    assert CopyIn(fs1, denied, l, dest) == Ok(fs1);
    SourceStaysPut(fs, fs1, ctx, rel, dest);
    var df := Dotfile(rel, PortableTarget(home, l), profile);
    PortableRoundTrip(ctx, home, l);
    LinkStage(fs1, denied, ctx, home, df, stamp, Lexical, dest, l);
    assert Installed(fs1, dest, l);
    InstalledResolves(fs1, dest, l);
  }
}
