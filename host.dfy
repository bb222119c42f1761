/**
 * The host filesystem as mutable state: the entries change in place through
 * the same mutations `FileSystem` defines as functions, and the set of
 * locations whose mutation the host refuses stays fixed.
 */
module HostFs {
  import opened Wrappers
  import opened Errors
  import opened PurePaths
  import opened FileSystem

  /** A mutation either gave the new state and no error, or raised and left the state as it was. */
  predicate Applied(before: Fs, res: Result<Fs, Error>, after: Fs, err: Option<Error>)
  {
    match res
    case Ok(fs) => after == fs && err == None
    case Err(e) => after == before && err == Some(e)
  }

  class Host {
    var nodes: Fs
    const denied: set<Location>

    constructor (fs: Fs, refused: set<Location>)
      ensures nodes == fs && denied == refused
    {
      nodes := fs;
      denied := refused;
    }

    /** Installs the outcome of a mutation. */
    method Apply(res: Result<Fs, Error>) returns (err: Option<Error>)
      modifies this
      ensures Applied(old(nodes), res, nodes, err)
    {
      match res {
        case Ok(fs) => nodes := fs; err := None;
        case Err(e) => err := Some(e);
      }
    }

    method Unlink(p: Location) returns (err: Option<Error>)
      modifies this
      ensures Applied(old(nodes), FileSystem.Unlink(old(nodes), denied, p), nodes, err)
    {
      err := Apply(FileSystem.Unlink(nodes, denied, p));
    }

    method RemoveTree(p: Location) returns (err: Option<Error>)
      modifies this
      ensures Applied(old(nodes), FileSystem.RemoveTree(old(nodes), denied, p), nodes, err)
    {
      err := Apply(FileSystem.RemoveTree(nodes, denied, p));
    }

    method MakeDirExistOk(p: Location) returns (err: Option<Error>)
      modifies this
      ensures Applied(old(nodes), FileSystem.MakeDirExistOk(old(nodes), denied, p), nodes, err)
    {
      err := Apply(FileSystem.MakeDirExistOk(nodes, denied, p));
    }

    method MakeDirs(p: Location) returns (err: Option<Error>)
      modifies this
      ensures Applied(old(nodes), FileSystem.MakeDirs(old(nodes), denied, p), nodes, err)
    {
      err := Apply(FileSystem.MakeDirs(nodes, denied, p));
    }

    method SymlinkTo(p: Location, to: Path) returns (err: Option<Error>)
      modifies this
      ensures Applied(old(nodes), FileSystem.SymlinkTo(old(nodes), denied, p, to), nodes, err)
    {
      err := Apply(FileSystem.SymlinkTo(nodes, denied, p, to));
    }

    method WriteText(p: Location, text: string) returns (err: Option<Error>)
      modifies this
      ensures Applied(old(nodes), FileSystem.WriteText(old(nodes), denied, p, text), nodes, err)
    {
      err := Apply(FileSystem.WriteText(nodes, denied, p, text));
    }

    method CopyFile(src: Location, dst: Location) returns (err: Option<Error>)
      modifies this
      ensures Applied(old(nodes), FileSystem.CopyFile(old(nodes), denied, src, dst), nodes, err)
    {
      err := Apply(FileSystem.CopyFile(nodes, denied, src, dst));
    }

    method CopyTree(src: Location, dst: Location) returns (err: Option<Error>)
      modifies this
      ensures Applied(old(nodes), FileSystem.CopyTree(old(nodes), denied, src, dst), nodes, err)
    {
      err := Apply(FileSystem.CopyTree(nodes, denied, src, dst));
    }

    method CreateFile(p: Location, text: string) returns (err: Option<Error>)
      modifies this
      ensures Applied(old(nodes), FileSystem.CreateFile(old(nodes), denied, p, text), nodes, err)
    {
      err := Apply(FileSystem.CreateFile(nodes, denied, p, text));
    }

    method Replace(src: Location, dst: Location) returns (err: Option<Error>)
      modifies this
      ensures Applied(old(nodes), FileSystem.Replace(old(nodes), denied, src, dst), nodes, err)
    {
      err := Apply(FileSystem.Replace(nodes, denied, src, dst));
    }
  }
}
