/**
 * The application context of src/core/paths.py: the repository root (the
 * resolved working directory), the config file and the backup directory
 * inside it, and the mapping from repository-relative sources to absolute
 * locations.
 */
module CorePaths {
  import opened Wrappers
  import opened Errors
  import opened PurePaths
  import opened FileSystem

  const ConfigFileName: string := "dotfiles.json"
  const BackupDirName: string := ".backups"

  datatype AppContext = AppContext(repoRoot: Location, configPath: Location, backupDir: Location)

  /** `AppContext()` with the working directory `cwd` given, rather than read from the process. */
  function NewContext(fs: Fs, cwd: Location): (r: Result<AppContext, Error>)
    ensures r.Ok? ==> Resolve(fs, cwd) == Some(r.value.repoRoot) && !IsSymlink(fs, r.value.repoRoot)
    ensures r.Ok? ==> r.value.configPath == r.value.repoRoot + [ConfigFileName]
    ensures r.Ok? ==> r.value.backupDir == r.value.repoRoot + [BackupDirName]
    ensures r.Err? <==> Resolve(fs, cwd).None?
  {
    match Resolve(fs, cwd)
    case None => Err(OsError)
    case Some(root) =>
      ResolveIdempotent(fs, cwd);
      Ok(AppContext(root, root + [ConfigFileName], root + [BackupDirName]))
  }

  /** The context `NewContext` builds: a root that is no link, with the two fixed children. */
  predicate ValidContext(fs: Fs, ctx: AppContext)
  {
    && Normal(ctx.repoRoot)
    && ctx.configPath == ctx.repoRoot + [ConfigFileName]
    && ctx.backupDir == ctx.repoRoot + [BackupDirName]
  }

  /** The lexical location of a source: `repo_root / rel`, normalised. */
  function SourceLocation(ctx: AppContext, rel: Path): Location
  {
    Normalise(ctx.repoRoot, rel)
  }

  /** `get_absolute_source(rel)`: `(repo_root / rel).resolve()`. */
  function GetAbsoluteSource(fs: Fs, ctx: AppContext, rel: Path): (r: Result<Location, Error>)
    ensures r.Ok? ==> Resolve(fs, SourceLocation(ctx, rel)) == Some(r.value)
    ensures r.Ok? ==> !IsSymlink(fs, r.value)
    ensures r.Err? ==> r.error == OsError
  {
    match Resolve(fs, SourceLocation(ctx, rel))
    case None => Err(OsError)
    case Some(l) =>
      ResolveIdempotent(fs, SourceLocation(ctx, rel));
      Ok(l)
  }

  /** Without a link at `repo_root / rel`, the absolute source is that path normalised. */
  lemma AbsoluteSourceLexical(fs: Fs, ctx: AppContext, rel: Path)
    requires Normal(ctx.repoRoot)
    requires !IsSymlink(fs, SourceLocation(ctx, rel))
    ensures GetAbsoluteSource(fs, ctx, rel) == Ok(Normalise([], Div(Path(true, ctx.repoRoot), rel)))
  {
    if !rel.absolute {
      CollapseAppend([], ctx.repoRoot, rel.parts);
      CollapseNormal([], ctx.repoRoot);
      assert [] + ctx.repoRoot == ctx.repoRoot;
    }
  }

  /** A relative source without ".." lies under the repository root, component for component. */
  lemma AbsoluteSourceUnderRoot(fs: Fs, ctx: AppContext, rel: Path)
    requires !rel.absolute && Normal(rel.parts)
    requires !IsSymlink(fs, ctx.repoRoot + rel.parts)
    ensures GetAbsoluteSource(fs, ctx, rel) == Ok(ctx.repoRoot + rel.parts)
    ensures IsUnder(ctx.repoRoot, GetAbsoluteSource(fs, ctx, rel).value)
  {
    CollapseNormal(ctx.repoRoot, rel.parts);
  }
}
