/**
 * `FileService` of src/services/file_service.py: the status of a managed
 * dotfile, linking its target to the repository copy, the timestamped backup
 * taken before a forced overwrite, and importing a host file into the
 * repository.
 *
 * Each operation is first a function from the filesystem to a `Run`: what
 * the call returns or raises, and the filesystem it leaves behind (a step
 * that raises after earlier steps succeeded leaves those earlier changes).
 * The methods at the end perform the same steps on a `Host`, one mutation at
 * a time, and are proved to end in the state and outcome the functions give.
 *
 * Where the code turns a host path into a location it calls `resolve()`,
 * which follows a symbolic link at the target itself. `Resolved` models that
 * as written; `Lexical` keeps the link, as the checks for an existing link
 * need. The operations are defined for both, and the rest of the model uses
 * `Lexical`.
 */
module FileService {
  import opened Wrappers
  import opened Errors
  import opened PurePaths
  import opened FileSystem
  import opened CorePaths
  import opened Models
  import opened Timestamps
  import opened HostFs

  /** The five answers of `check_status`. */
  datatype Status = MissingSource | NotInstalled | Active | WrongTarget | FileExists

  /** The messages `create_symlink` returns. */
  datatype LinkMessage = Broken | AlreadyLinked | ConflictWrongLink | ConflictFileExists | Linked

  /** What a call returned or raised, and the filesystem it left. */
  datatype Run<T> = Run(result: Result<T, Error>, fs: Fs)

  /** How a host path becomes a location: `expanduser()` alone, or followed by `resolve()`. */
  datatype Lookup = Lexical | Resolved

  function Locate(fs: Fs, ctx: AppContext, home: Location, p: Path, mode: Lookup): Result<Location, Error>
  {
    match mode
    case Lexical => ExpandPath(ctx, home, p)
    case Resolved => ResolvePath(fs, ctx, home, p)
  }

  /** Where a dotfile's target is: `expanded_target` as written, or its lexical form. */
  function TargetOf(fs: Fs, ctx: AppContext, home: Location, df: Dotfile, mode: Lookup): Result<Location, Error>
  {
    match mode
    case Lexical => LexicalTarget(ctx, home, df)
    case Resolved => ExpandedTarget(fs, ctx, home, df)
  }

  // ---------------------------------------------------------------- check_status

  /** The classification of `check_status` once source and target are located. */
  function Classify(fs: Fs, src: Location, tgt: Location): Status
  {
    if !Exists(fs, src) then MissingSource
    else if !Exists(fs, tgt) then NotInstalled
    else if IsSymlink(fs, tgt) then (if Resolve(fs, tgt) == Some(src) then Active else WrongTarget)
    else FileExists
  }

  /** `check_status(df)`. */
  function CheckStatusWith(fs: Fs, ctx: AppContext, home: Location, df: Dotfile, mode: Lookup): Result<Status, Error>
  {
    var src :- GetAbsoluteSource(fs, ctx, df.source);
    var tgt :- TargetOf(fs, ctx, home, df, mode);
    Ok(Classify(fs, src, tgt))
  }

  function CheckStatus(fs: Fs, ctx: AppContext, home: Location, df: Dotfile): Result<Status, Error>
  {
    CheckStatusWith(fs, ctx, home, df, Lexical)
  }

  // ---------------------------------------------------------------- backup_file

  /** `backup_dir / f"{path.name}.{timestamp}.bak"`. */
  function BackupPath(ctx: AppContext, p: Location, stamp: Timestamp): Location
    requires Valid(stamp)
  {
    ctx.backupDir + [BackupName(BaseName(p), stamp)]
  }

  /** `backup_file(path)` at the clock reading `stamp`. */
  function Backup(fs: Fs, denied: set<Location>, ctx: AppContext, p: Location, stamp: Timestamp): Run<()>
    requires Valid(stamp)
  {
    if !Exists(fs, p) then Run(Ok(()), fs)
    else
      match MakeDirExistOk(fs, denied, ctx.backupDir)
      case Err(e) => Run(Err(e), fs)
      case Ok(fs1) =>
        var dest := BackupPath(ctx, p, stamp);
        var copied := if IsDir(fs1, p) then CopyTree(fs1, denied, p, dest) else CopyFile(fs1, denied, p, dest);
        match copied
        case Err(_) => Run(Err(BackupError), fs1)
        case Ok(fs2) => Run(Ok(()), fs2)
  }

  // ---------------------------------------------------------------- create_symlink

  /** A mutation as one step of a longer operation. */
  function Stage(res: Result<Fs, Error>, before: Fs): Run<()>
  {
    match res
    case Ok(fs) => Run(Ok(()), fs)
    case Err(e) => Run(Err(e), before)
  }

  /** The forced overwrite: back up the target, then unlink it or remove its tree. */
  function ClearTarget(fs: Fs, denied: set<Location>, ctx: AppContext, tgt: Location, stamp: Timestamp): Run<()>
    requires Valid(stamp)
  {
    var b := Backup(fs, denied, ctx, tgt, stamp);
    if b.result.Err? then b
    else if IsSymlink(b.fs, tgt) || IsFile(b.fs, tgt) then Stage(FileSystem.Unlink(b.fs, denied, tgt), b.fs)
    else if IsDir(b.fs, tgt) then Stage(FileSystem.RemoveTree(b.fs, denied, tgt), b.fs)
    else b
  }

  /** Making the target's directory and the link to the absolute source; a failure is a FileOperationError. */
  function PlaceLink(fs: Fs, denied: set<Location>, src: Location, tgt: Location): Run<LinkMessage>
  {
    match FileSystem.MakeDirs(fs, denied, Parent(tgt))
    case Err(_) => Run(Err(FileOperationError), fs)
    case Ok(fs1) =>
      match FileSystem.SymlinkTo(fs1, denied, tgt, Path(true, src))
      case Err(_) => Run(Err(FileOperationError), fs1)
      case Ok(fs2) => Run(Ok(Linked), fs2)
  }

  /** `create_symlink` once the absolute source and the target are located. */
  function LinkAt(fs: Fs, denied: set<Location>, ctx: AppContext, src: Location, tgt: Location,
                  force: bool, stamp: Timestamp): Run<LinkMessage>
    requires Valid(stamp)
  {
    if !Exists(fs, src) then Run(Ok(Broken), fs)
    else if IsSymlink(fs, tgt) && Resolve(fs, tgt).None? then Run(Err(OsError), fs)
    else if IsSymlink(fs, tgt) && Resolve(fs, tgt) == Some(src) then Run(Ok(AlreadyLinked), fs)
    else if IsSymlink(fs, tgt) && !force then Run(Ok(ConflictWrongLink), fs)
    else if Exists(fs, tgt) && !force then Run(Ok(ConflictFileExists), fs)
    else if Exists(fs, tgt) then
      var c := ClearTarget(fs, denied, ctx, tgt, stamp);
      if c.result.Err? then Run(Err(c.result.error), c.fs) else PlaceLink(c.fs, denied, src, tgt)
    else PlaceLink(fs, denied, src, tgt)
  }

  /** `create_symlink(df, force)`. */
  function CreateSymlinkWith(fs: Fs, denied: set<Location>, ctx: AppContext, home: Location, df: Dotfile,
                             force: bool, stamp: Timestamp, mode: Lookup): Run<LinkMessage>
    requires Valid(stamp)
  {
    match GetAbsoluteSource(fs, ctx, df.source)
    case Err(e) => Run(Err(e), fs)
    case Ok(src) =>
      match TargetOf(fs, ctx, home, df, mode)
      case Err(e) => Run(Err(e), fs)
      case Ok(tgt) => LinkAt(fs, denied, ctx, src, tgt, force, stamp)
  }

  // ---------------------------------------------------------------- safe_import

  /** The copy into the repository, skipped when the destination already exists. */
  function CopyIn(fs: Fs, denied: set<Location>, orig: Location, dest: Location): Result<Fs, Error>
  {
    if Exists(fs, dest) then Ok(fs)
    else if IsDir(fs, orig) then CopyTree(fs, denied, orig, dest)
    else CopyFile(fs, denied, orig, dest)
  }

  /** `safe_import(original, rel, profile)` once the original is located. */
  function ImportAt(fs: Fs, denied: set<Location>, ctx: AppContext, home: Location, orig: Location,
                    rel: Path, profile: string, stamp: Timestamp, mode: Lookup): Run<Dotfile>
    requires Valid(stamp)
  {
    match GetAbsoluteSource(fs, ctx, rel)
    case Err(e) => Run(Err(e), fs)
    case Ok(dest) =>
      if !Exists(fs, orig) then Run(Err(FileOperationError), fs)
      else
        match FileSystem.MakeDirs(fs, denied, Parent(dest))
        case Err(_) => Run(Err(FileOperationError), fs)
        case Ok(fs1) =>
          match CopyIn(fs1, denied, orig, dest)
          case Err(_) => Run(Err(FileOperationError), fs1)
          case Ok(fs2) =>
            var df := Dotfile(rel, PortableTarget(home, orig), profile);
            var link := CreateSymlinkWith(fs2, denied, ctx, home, df, true, stamp, mode);
            match link.result
            case Err(e) => Run(Err(e), link.fs)
            case Ok(_) => Run(Ok(df), link.fs)
  }

  /** `safe_import(original, rel, profile)`. */
  function SafeImportWith(fs: Fs, denied: set<Location>, ctx: AppContext, home: Location, original: Path,
                          rel: Path, profile: string, stamp: Timestamp, mode: Lookup): Run<Dotfile>
    requires Valid(stamp)
  {
    match Locate(fs, ctx, home, original, mode)
    case Err(e) => Run(Err(e), fs)
    case Ok(orig) => ImportAt(fs, denied, ctx, home, orig, rel, profile, stamp, mode)
  }

  // ---------------------------------------------------------------- the operations on a host

  /** `FileService.backup_file(path)`. */
  method BackupFile(host: Host, ctx: AppContext, p: Location, stamp: Timestamp) returns (r: Result<(), Error>)
    requires Valid(stamp)
    modifies host
    ensures Run(r, host.nodes) == Backup(old(host.nodes), host.denied, ctx, p, stamp)
  {
    if !Exists(host.nodes, p) {
      return Ok(());
    }
    var err := host.MakeDirExistOk(ctx.backupDir);
    if err.Some? {
      return Err(err.value);
    }
    var dest := BackupPath(ctx, p, stamp);
    if IsDir(host.nodes, p) {
      err := host.CopyTree(p, dest);
    } else {
      err := host.CopyFile(p, dest);
    }
    if err.Some? {
      return Err(BackupError);
    }
    return Ok(());
  }

  /** The steps of `create_symlink` after the source and target are located. */
  method LinkOnHost(host: Host, ctx: AppContext, src: Location, tgt: Location, force: bool, stamp: Timestamp)
    returns (r: Result<LinkMessage, Error>)
    requires Valid(stamp)
    modifies host
    ensures Run(r, host.nodes) == LinkAt(old(host.nodes), host.denied, ctx, src, tgt, force, stamp)
  {
    if !Exists(host.nodes, src) {
      return Ok(Broken);
    }
    if IsSymlink(host.nodes, tgt) {
      var resolved := Resolve(host.nodes, tgt);
      if resolved.None? {
        return Err(OsError);
      }
      if resolved == Some(src) {
        return Ok(AlreadyLinked);
      }
      if !force {
        return Ok(ConflictWrongLink);
      }
    }
    if Exists(host.nodes, tgt) {
      if !force {
        return Ok(ConflictFileExists);
      }
      var b := BackupFile(host, ctx, tgt, stamp);
      if b.Err? {
        return Err(b.error);
      }
      var err: Option<Error> := None;
      if IsSymlink(host.nodes, tgt) || IsFile(host.nodes, tgt) {
        err := host.Unlink(tgt);
      } else if IsDir(host.nodes, tgt) {
        err := host.RemoveTree(tgt);
      }
      if err.Some? {
        return Err(err.value);
      }
    }
    var err := host.MakeDirs(Parent(tgt));
    if err.Some? {
      return Err(FileOperationError);
    }
    err := host.SymlinkTo(tgt, Path(true, src));
    if err.Some? {
      return Err(FileOperationError);
    }
    return Ok(Linked);
  }

  /** `FileService.create_symlink(df, force)`. */
  method CreateSymlink(host: Host, ctx: AppContext, home: Location, df: Dotfile, force: bool, stamp: Timestamp)
    returns (r: Result<LinkMessage, Error>)
    requires Valid(stamp)
    modifies host
    ensures Run(r, host.nodes) == CreateSymlinkWith(old(host.nodes), host.denied, ctx, home, df, force, stamp, Lexical)
  {
    var src := GetAbsoluteSource(host.nodes, ctx, df.source);
    if src.Err? {
      return Err(src.error);
    }
    var tgt := TargetOf(host.nodes, ctx, home, df, Lexical);
    if tgt.Err? {
      return Err(tgt.error);
    }
    r := LinkOnHost(host, ctx, src.value, tgt.value, force, stamp);
  }

  /** `FileService.safe_import(original, rel, profile)`. */
  method SafeImport(host: Host, ctx: AppContext, home: Location, original: Path, rel: Path, profile: string,
                    stamp: Timestamp) returns (r: Result<Dotfile, Error>)
    requires Valid(stamp)
    modifies host
    ensures Run(r, host.nodes) == SafeImportWith(old(host.nodes), host.denied, ctx, home, original, rel, profile, stamp, Lexical)
  {
    var orig := Locate(host.nodes, ctx, home, original, Lexical);
    if orig.Err? {
      return Err(orig.error);
    }
    var dest := GetAbsoluteSource(host.nodes, ctx, rel);
    if dest.Err? {
      return Err(dest.error);
    }
    if !Exists(host.nodes, orig.value) {
      return Err(FileOperationError);
    }
    var err := host.MakeDirs(Parent(dest.value));
    if err.Some? {
      return Err(FileOperationError);
    }
    if !Exists(host.nodes, dest.value) {
      if IsDir(host.nodes, orig.value) {
        err := host.CopyTree(orig.value, dest.value);
      } else {
        err := host.CopyFile(orig.value, dest.value);
      }
      if err.Some? {
        return Err(FileOperationError);
      }
    }
    var df := Dotfile(rel, PortableTarget(home, orig.value), profile);
    var link := CreateSymlink(host, ctx, home, df, true, stamp);
    if link.Err? {
      return Err(link.error);
    }
    return Ok(df);
  }
}
