/**
 * The host filesystem the dotfile manager works on, abstracted to a map from
 * absolute, normalised locations to nodes, with the queries pathlib offers
 * (`exists`, `is_symlink`, `is_file`, `is_dir`, `resolve`) and the mutations
 * the core performs (`unlink`, `rmtree`, `mkdir`, `symlink_to`, writing,
 * `copy2`, `copytree`, `os.replace`). Each mutation is a function that either
 * gives the new map or an error and leaves the map as it was. That makes
 * every failure atomic, although on the host `rmtree` keeps what it removed
 * before the failing entry, `mkdir(parents=True)` keeps the ancestors it made
 * and `copytree` copies what it can before it raises.
 *
 * Environmental failures (permissions, read-only mounts, I/O errors) are the
 * set `denied`: a mutation that would create, change or remove an entry at a
 * denied location fails with an OSError.
 */
module FileSystem {
  import opened Wrappers
  import opened Errors
  import opened PurePaths

  /** An absolute, normalised location: its components from "/". */
  type Location = seq<string>

  /** A file with its content, a directory, or a symbolic link holding a path text. */
  datatype Node = File(content: string) | Dir | Symlink(to: Path)

  /** The host's entries; "/" itself is implicit and always a directory. */
  type Fs = map<Location, Node>

  /** Linux gives up following symbolic links after this many (MAXSYMLINKS). */
  const MaxSymlinkHops: nat := 40

  function Parent(p: Location): Location
  {
    if p == [] then [] else p[..|p| - 1]
  }

  /** `p.name`. */
  function BaseName(p: Location): string
  {
    Name(Path(true, p))
  }

  /** `p` is `root` or lies below it. */
  predicate IsUnder(root: Location, p: Location)
  {
    |root| <= |p| && p[..|root|] == root
  }

  lemma UnderTransitive(a: Location, b: Location, c: Location)
    requires IsUnder(a, b) && IsUnder(b, c)
    ensures IsUnder(a, c)
  {
    assert c[..|a|] == c[..|b|][..|a|];
  }

  /** The entry at `p` itself, without following a link there. */
  function NodeAt(fs: Fs, p: Location): Option<Node>
  {
    if p == [] then Some(Dir) else if p in fs then Some(fs[p]) else None
  }

  /** Where a link at `link` holding `to` points: relative texts are taken from the link's directory. */
  function LinkDestination(link: Location, to: Path): Location
  {
    Normalise(Parent(link), to)
  }

  /** Follows the link at `p`, and the links it leads to, at most `hops` times; None on a longer chain. */
  function Follow(fs: Fs, p: Location, hops: nat): Option<Location>
    decreases hops
  {
    match NodeAt(fs, p)
    case Some(Symlink(to)) =>
      if hops == 0 then None else Follow(fs, LinkDestination(p, to), hops - 1)
    case _ => Some(p)
  }

  /** `p.resolve()`: the location `p` leads to, or None for a symbolic-link loop. */
  function Resolve(fs: Fs, p: Location): Option<Location>
  {
    Follow(fs, p, MaxSymlinkHops)
  }

  /** `os.path.lexists(p)`: there is an entry at `p`, perhaps a dangling link. */
  predicate Lexists(fs: Fs, p: Location)
  {
    NodeAt(fs, p).Some?
  }

  /** `p.is_symlink()`: does not follow links. */
  predicate IsSymlink(fs: Fs, p: Location)
  {
    NodeAt(fs, p).Some? && NodeAt(fs, p).value.Symlink?
  }

  /** The node `p` leads to after following links, if any. */
  function Target(fs: Fs, p: Location): Option<Node>
  {
    match Resolve(fs, p)
    case None => None
    case Some(q) => NodeAt(fs, q)
  }

  /** `p.exists()`: follows links, so a dangling link or a loop does not exist. */
  predicate Exists(fs: Fs, p: Location)
  {
    Target(fs, p).Some?
  }

  /** `p.is_file()`: follows links. */
  predicate IsFile(fs: Fs, p: Location)
  {
    Target(fs, p).Some? && Target(fs, p).value.File?
  }

  /** `p.is_dir()`: follows links. */
  predicate IsDir(fs: Fs, p: Location)
  {
    Target(fs, p) == Some(Dir)
  }

  /** `p.read_text()`, or None when it raises. */
  function ReadText(fs: Fs, p: Location): Option<string>
  {
    if IsFile(fs, p) then Some(Target(fs, p).value.content) else None
  }

  // ---------------------------------------------------------------- mutations

  /** A new entry can be made at `p`: nothing is there, its parent is a directory, the host allows it. */
  predicate CanCreate(fs: Fs, denied: set<Location>, p: Location)
  {
    p != [] && !Lexists(fs, p) && NodeAt(fs, Parent(p)) == Some(Dir) && p !in denied
  }

  /** `p.unlink()`: removes a file or a link itself; a directory or a missing entry raises. */
  function Unlink(fs: Fs, denied: set<Location>, p: Location): Result<Fs, Error>
  {
    if p == [] || p !in fs || fs[p].Dir? || p in denied then Err(OsError) else Ok(fs - {p})
  }

  /** The denied locations whose entries lie below `p`. */
  predicate DeniedBelow(fs: Fs, denied: set<Location>, p: Location)
  {
    exists q :: q in denied && q in fs && IsUnder(p, q)
  }

  /** `shutil.rmtree(p)`: removes a directory (not a link to one) and everything below it. */
  function RemoveTree(fs: Fs, denied: set<Location>, p: Location): Result<Fs, Error>
  {
    if p == [] || NodeAt(fs, p) != Some(Dir) || DeniedBelow(fs, denied, p) then Err(OsError)
    else Ok(map q | q in fs && !IsUnder(p, q) :: fs[q])
  }

  /** `p.mkdir()`. */
  function MakeDir(fs: Fs, denied: set<Location>, p: Location): Result<Fs, Error>
  {
    if CanCreate(fs, denied, p) then Ok(fs[p := Dir]) else Err(OsError)
  }

  /** `p.mkdir(exist_ok=True)`: an existing directory, or a link to one, is accepted. */
  function MakeDirExistOk(fs: Fs, denied: set<Location>, p: Location): Result<Fs, Error>
  {
    if Lexists(fs, p) then (if IsDir(fs, p) then Ok(fs) else Err(OsError))
    else MakeDir(fs, denied, p)
  }

  /** `p.mkdir(parents=True, exist_ok=True)`: creates the missing ancestors first. */
  function MakeDirs(fs: Fs, denied: set<Location>, p: Location): Result<Fs, Error>
    decreases |p|
  {
    if Lexists(fs, p) then (if IsDir(fs, p) then Ok(fs) else Err(OsError))
    else if Lexists(fs, Parent(p)) then MakeDir(fs, denied, p)
    else
      match MakeDirs(fs, denied, Parent(p))
      case Err(e) => Err(e)
      case Ok(fs1) => MakeDir(fs1, denied, p)
  }

  /** `p.symlink_to(to)`: raises when anything, even a dangling link, is already at `p`. */
  function SymlinkTo(fs: Fs, denied: set<Location>, p: Location, to: Path): Result<Fs, Error>
  {
    if CanCreate(fs, denied, p) then Ok(fs[p := Symlink(to)]) else Err(OsError)
  }

  /** Opening `p` for writing and writing `text`: follows links and creates a missing file. */
  function WriteText(fs: Fs, denied: set<Location>, p: Location, text: string): Result<Fs, Error>
  {
    match Resolve(fs, p)
    case None => Err(OsError)
    case Some(q) =>
      if q == [] || q in denied then Err(OsError)
      else if q in fs then (if fs[q].File? then Ok(fs[q := File(text)]) else Err(OsError))
      else if NodeAt(fs, Parent(q)) == Some(Dir) then Ok(fs[q := File(text)])
      else Err(OsError)
  }

  /** Where `shutil.copy2(src, dst)` writes: into `dst` when that is a directory. */
  function CopyDestination(fs: Fs, src: Location, dst: Location): Location
  {
    if IsDir(fs, dst) then dst + [BaseName(src)] else dst
  }

  /** `shutil.copy2(src, dst)`: the content of the file `src` leads to, written where the destination leads. */
  function CopyFile(fs: Fs, denied: set<Location>, src: Location, dst: Location): Result<Fs, Error>
  {
    var dest := CopyDestination(fs, src, dst);
    if !IsFile(fs, src) || Resolve(fs, src) == Resolve(fs, dest) then Err(OsError)
    else WriteText(fs, denied, dest, ReadText(fs, src).value)
  }

  /** `q` with its leading `dst` replaced by `root`. */
  function Rebase(q: Location, dst: Location, root: Location): Location
  {
    if |dst| <= |q| then root + q[|dst|..] else q
  }

  /** The entries strictly below `root`, moved below `dst`. */
  function Graft(fs: Fs, root: Location, dst: Location): (g: Fs)
    ensures forall q :: q in g <==> IsUnder(dst, q) && |q| > |dst| && root + q[|dst|..] in fs
    ensures forall q :: q in g ==> g[q] == fs[root + q[|dst|..]]
  {
    var keys := set r | r in fs && IsUnder(root, r) && |r| > |root| :: dst + r[|root|..];
    assert forall q :: q in keys ==> IsUnder(dst, q) && |q| > |dst| && root + q[|dst|..] in fs by {
      forall q | q in keys ensures IsUnder(dst, q) && |q| > |dst| && root + q[|dst|..] in fs {
        var r :| r in fs && IsUnder(root, r) && |r| > |root| && q == dst + r[|root|..];
        assert q[|dst|..] == r[|root|..];
        assert root + r[|root|..] == r;
      }
    }
    assert forall q :: IsUnder(dst, q) && |q| > |dst| && root + q[|dst|..] in fs ==> q in keys by {
      forall q | IsUnder(dst, q) && |q| > |dst| && root + q[|dst|..] in fs ensures q in keys {
        var r := root + q[|dst|..];
        assert IsUnder(root, r) && r[|root|..] == q[|dst|..];
        assert dst + q[|dst|..] == q;
      }
    }
    map q | q in keys :: fs[Rebase(q, dst, root)]
  }

  /**
   * `shutil.copytree(src, dst)`: creates `dst` and its missing ancestors and
   * copies what lies below `src`; a copy that would land on a denied location fails.
   */
  function CopyTree(fs: Fs, denied: set<Location>, src: Location, dst: Location): Result<Fs, Error>
  {
    if !IsDir(fs, src) || Lexists(fs, dst) then Err(OsError)
    else
      match MakeDirs(fs, denied, dst)
      case Err(e) => Err(e)
      case Ok(fs1) =>
        var g := Graft(fs, Resolve(fs, src).value, dst);
        if g.Keys !! denied then Ok(fs1 + g) else Err(OsError)
  }

  /** `open(p, 'x')` followed by a write: a new file, as a temporary file is made. */
  function CreateFile(fs: Fs, denied: set<Location>, p: Location, text: string): Result<Fs, Error>
  {
    if CanCreate(fs, denied, p) then Ok(fs[p := File(text)]) else Err(OsError)
  }

  /**
   * `os.replace(src, dst)`: moves the entry at `src` to `dst`, replacing a
   * file or link there; a move of an entry onto itself is refused, although on
   * the host that move succeeds and changes nothing.
   */
  function Replace(fs: Fs, denied: set<Location>, src: Location, dst: Location): Result<Fs, Error>
  {
    if src == [] || dst == [] || src !in fs || src == dst || src in denied || dst in denied
       || NodeAt(fs, Parent(dst)) != Some(Dir) || NodeAt(fs, dst) == Some(Dir)
    then Err(OsError)
    else Ok((fs - {src})[dst := fs[src]])
  }

  // ---------------------------------------------------------------- facts

  /** A chain of links never ends on a link. */
  lemma {:induction false} FollowEndsOffLinks(fs: Fs, p: Location, hops: nat)
    requires Follow(fs, p, hops).Some?
    ensures !IsSymlink(fs, Follow(fs, p, hops).value)
    decreases hops
  {
    match NodeAt(fs, p)
    case Some(Symlink(to)) =>
      FollowEndsOffLinks(fs, LinkDestination(p, to), hops - 1);
    case _ =>
  }

  /** What `resolve()` returns is not a link, so resolving it again changes nothing. */
  lemma ResolveIdempotent(fs: Fs, p: Location)
    requires Resolve(fs, p).Some?
    ensures !IsSymlink(fs, Resolve(fs, p).value)
    ensures Resolve(fs, Resolve(fs, p).value) == Resolve(fs, p)
  {
    FollowEndsOffLinks(fs, p, MaxSymlinkHops);
  }

  /** An existing path leads to a node that is not a link. */
  lemma ExistsLeadsOffLinks(fs: Fs, p: Location)
    requires Exists(fs, p)
    ensures Resolve(fs, p).Some? && !Target(fs, p).value.Symlink?
  {
    FollowEndsOffLinks(fs, p, MaxSymlinkHops);
  }

  /** An entry that is not a link resolves to itself. */
  lemma ResolveOfNonLink(fs: Fs, p: Location)
    requires !IsSymlink(fs, p)
    ensures Resolve(fs, p) == Some(p)
    ensures Target(fs, p) == NodeAt(fs, p)
  {
  }

  /** Two filesystems that agree on every link resolve every path alike. */
  lemma {:induction false} FollowSameLinks(fs: Fs, fs': Fs, p: Location, hops: nat)
    requires forall q :: IsSymlink(fs, q) || IsSymlink(fs', q) ==> NodeAt(fs, q) == NodeAt(fs', q)
    ensures Follow(fs, p, hops) == Follow(fs', p, hops)
    decreases hops
  {
    if IsSymlink(fs, p) && hops > 0 {
      FollowSameLinks(fs, fs', LinkDestination(p, NodeAt(fs, p).value.to), hops - 1);
    }
  }

  /** The filesystem before and after a step that only changed entries which are not links. */
  ghost predicate SameLinks(fs: Fs, fs': Fs)
  {
    forall q :: IsSymlink(fs, q) || IsSymlink(fs', q) ==> NodeAt(fs, q) == NodeAt(fs', q)
  }

  lemma ResolveSameLinks(fs: Fs, fs': Fs, p: Location)
    requires SameLinks(fs, fs')
    ensures Resolve(fs, p) == Resolve(fs', p)
  {
    FollowSameLinks(fs, fs', p, MaxSymlinkHops);
  }

  /** A link holding an absolute normal location resolves through it, one hop to a non-link. */
  lemma ResolveAbsoluteLink(fs: Fs, link: Location, dest: Location)
    requires link != [] && link in fs && fs[link] == Symlink(Path(true, dest))
    requires Normal(dest) && !IsSymlink(fs, dest)
    ensures Resolve(fs, link) == Some(dest)
  {
    CollapseNormal([], dest);
    assert LinkDestination(link, Path(true, dest)) == dest;
  }

  /** Writing a file changes no link, and afterwards the path reads back the text. */
  lemma WriteTextFacts(fs: Fs, denied: set<Location>, p: Location, text: string)
    requires WriteText(fs, denied, p, text).Ok?
    ensures var fs' := WriteText(fs, denied, p, text).value;
      && SameLinks(fs, fs')
      && Resolve(fs, p).Some?
      && (forall q :: q != Resolve(fs, p).value ==> NodeAt(fs', q) == NodeAt(fs, q))
      && ReadText(fs', p) == Some(text)
  {
    var fs' := WriteText(fs, denied, p, text).value;
    var q := Resolve(fs, p).value;
    FollowEndsOffLinks(fs, p, MaxSymlinkHops);
    assert fs' == fs[q := File(text)];
    assert SameLinks(fs, fs');
    ResolveSameLinks(fs, fs', p);
  }

  /** `mkdir(parents=True)` only adds directories, each an ancestor of `p` or `p` itself. */
  lemma {:induction false} MakeDirsFacts(fs: Fs, denied: set<Location>, p: Location)
    requires MakeDirs(fs, denied, p).Ok?
    ensures var fs' := MakeDirs(fs, denied, p).value;
      && (forall q :: Lexists(fs, q) ==> NodeAt(fs', q) == NodeAt(fs, q))
      && (forall q :: !IsUnder(q, p) ==> NodeAt(fs', q) == NodeAt(fs, q))
      && (forall q :: NodeAt(fs', q) != NodeAt(fs, q) ==> NodeAt(fs', q) == Some(Dir))
      && IsDir(fs', p)
    decreases |p|
  {
    var fs' := MakeDirs(fs, denied, p).value;
    if Lexists(fs, p) {
    } else if Lexists(fs, Parent(p)) {
      assert fs' == fs[p := Dir];
      assert IsUnder(p, p);
      assert NodeAt(fs', p) == Some(Dir);
    } else {
      var fs1 := MakeDirs(fs, denied, Parent(p)).value;
      MakeDirsFacts(fs, denied, Parent(p));
      assert fs' == fs1[p := Dir];
      assert NodeAt(fs', p) == Some(Dir);
    }
  }

  // ---------------------------------------------------------------- frames

  /** Every entry that existed is still there, unchanged: a step that only adds. */
  ghost predicate Grows(fs: Fs, fs': Fs)
  {
    forall q :: Lexists(fs, q) ==> NodeAt(fs', q) == NodeAt(fs, q)
  }

  /** Every entry that existed outside the tree at `root` is still there, unchanged. */
  ghost predicate KeepsOutside(fs: Fs, fs': Fs, root: Location)
  {
    forall q :: Lexists(fs, q) && !IsUnder(root, q) ==> NodeAt(fs', q) == NodeAt(fs, q)
  }

  /** A chain of links that ends on an entry survives any step that only adds. */
  lemma {:induction false} FollowGrows(fs: Fs, fs': Fs, p: Location, hops: nat)
    requires Grows(fs, fs')
    requires Follow(fs, p, hops).Some? && Lexists(fs, Follow(fs, p, hops).value)
    ensures Follow(fs', p, hops) == Follow(fs, p, hops)
    decreases hops
  {
    if IsSymlink(fs, p) {
      FollowGrows(fs, fs', LinkDestination(p, NodeAt(fs, p).value.to), hops - 1);
    }
  }

  lemma ResolveGrows(fs: Fs, fs': Fs, p: Location)
    requires Grows(fs, fs')
    requires Exists(fs, p)
    ensures Resolve(fs', p) == Resolve(fs, p)
    ensures Target(fs', p) == Target(fs, p)
  {
    FollowGrows(fs, fs', p, MaxSymlinkHops);
  }

  lemma UnlinkFacts(fs: Fs, denied: set<Location>, p: Location)
    requires Unlink(fs, denied, p).Ok?
    ensures var fs' := Unlink(fs, denied, p).value;
      && (forall q :: q != p ==> NodeAt(fs', q) == NodeAt(fs, q))
      && !Lexists(fs', p)
  {
  }

  lemma RemoveTreeFacts(fs: Fs, denied: set<Location>, p: Location)
    requires RemoveTree(fs, denied, p).Ok?
    ensures var fs' := RemoveTree(fs, denied, p).value;
      && (forall q :: !IsUnder(p, q) ==> NodeAt(fs', q) == NodeAt(fs, q))
      && (forall q :: IsUnder(p, q) ==> !Lexists(fs', q))
  {
    forall q | IsUnder(p, q) ensures !Lexists(RemoveTree(fs, denied, p).value, q) {
      assert q != [];
    }
  }

  lemma SymlinkToFacts(fs: Fs, denied: set<Location>, p: Location, to: Path)
    requires SymlinkTo(fs, denied, p, to).Ok?
    ensures var fs' := SymlinkTo(fs, denied, p, to).value;
      && (forall q :: q != p ==> NodeAt(fs', q) == NodeAt(fs, q))
      && NodeAt(fs', p) == Some(Symlink(to)) && !Lexists(fs, p)
  {
  }

  lemma MakeDirExistOkFacts(fs: Fs, denied: set<Location>, p: Location)
    requires MakeDirExistOk(fs, denied, p).Ok?
    ensures var fs' := MakeDirExistOk(fs, denied, p).value;
      && Grows(fs, fs')
      && (forall q :: q != p ==> NodeAt(fs', q) == NodeAt(fs, q))
  {
  }

  /** Copying a file to a free location writes only there, the text of what the source leads to. */
  lemma CopyFileFresh(fs: Fs, denied: set<Location>, src: Location, dst: Location)
    requires CopyFile(fs, denied, src, dst).Ok?
    requires !Lexists(fs, dst)
    ensures var fs' := CopyFile(fs, denied, src, dst).value;
      && (forall q :: q != dst ==> NodeAt(fs', q) == NodeAt(fs, q))
      && NodeAt(fs', dst) == Some(File(ReadText(fs, src).value))
      && ReadText(fs', dst) == ReadText(fs, src)
  {
    assert CopyDestination(fs, src, dst) == dst;
    WriteTextFacts(fs, denied, dst, ReadText(fs, src).value);
  }

  /**
   * Copying a file onto a destination that is not a directory leaves the
   * source's text there and changes what no other path reads, except a path
   * that leads where the destination leads.
   */
  lemma CopyFileOnto(fs: Fs, denied: set<Location>, src: Location, dst: Location)
    requires CopyFile(fs, denied, src, dst).Ok?
    requires !IsDir(fs, dst)
    ensures var fs' := CopyFile(fs, denied, src, dst).value;
      && SameLinks(fs, fs')
      && ReadText(fs', dst) == ReadText(fs, src)
      && (forall p :: Resolve(fs, p) != Resolve(fs, dst) ==> ReadText(fs', p) == ReadText(fs, p))
  {
    var fs' := CopyFile(fs, denied, src, dst).value;
    assert CopyDestination(fs, src, dst) == dst;
    WriteTextFacts(fs, denied, dst, ReadText(fs, src).value);
    forall p | Resolve(fs, p) != Resolve(fs, dst) ensures ReadText(fs', p) == ReadText(fs, p) {
      ResolveSameLinks(fs, fs', p);
    }
  }

  /** `copytree` keeps what lies outside the destination tree and lays a copy of the source tree there. */
  lemma CopyTreeFacts(fs: Fs, denied: set<Location>, src: Location, dst: Location)
    requires CopyTree(fs, denied, src, dst).Ok?
    ensures Resolve(fs, src).Some?
    ensures var fs' := CopyTree(fs, denied, src, dst).value; var r := Resolve(fs, src).value;
      && KeepsOutside(fs, fs', dst)
      && (forall q :: !IsUnder(q, dst) && !IsUnder(dst, q) ==> NodeAt(fs', q) == NodeAt(fs, q))
      && NodeAt(fs', dst) == Some(Dir)
      && (forall s :: s != [] && r + s in fs ==> NodeAt(fs', dst + s) == NodeAt(fs, r + s))
      && (forall s :: s != [] && r + s in fs ==> dst + s !in denied)
  {
    var fs1 := MakeDirs(fs, denied, dst).value;
    var r := Resolve(fs, src).value;
    var g := Graft(fs, r, dst);
    MakeDirsFacts(fs, denied, dst);
    forall s | s != [] && r + s in fs ensures NodeAt(fs1 + g, dst + s) == NodeAt(fs, r + s) {
      var q := dst + s;
      assert IsUnder(dst, q) && q[|dst|..] == s;
      assert q in g;
    }
    forall s | s != [] && r + s in fs ensures dst + s !in denied {
      var q := dst + s;
      assert IsUnder(dst, q) && q[|dst|..] == s;
      assert q in g.Keys;
    }
  }

  /** `copytree` fails when an entry it would copy lands on a denied location. */
  lemma CopyTreeDeniedFails(fs: Fs, denied: set<Location>, src: Location, dst: Location, s: Location)
    requires IsDir(fs, src) && s != [] && Resolve(fs, src).value + s in fs && dst + s in denied
    ensures CopyTree(fs, denied, src, dst).Err?
  {
    var r := Resolve(fs, src).value;
    var q := dst + s;
    assert IsUnder(dst, q) && q[|dst|..] == s;
    assert q in Graft(fs, r, dst).Keys;
  }

  /** A link holding its own absolute location is a loop: it never resolves. */
  lemma {:induction false} SelfLinkLoops(fs: Fs, p: Location, hops: nat)
    requires p != [] && p in fs && fs[p] == Symlink(Path(true, p)) && Normal(p)
    ensures Follow(fs, p, hops).None?
    decreases hops
  {
    SelfDestination(p);
    if hops > 0 {
      SelfLinkLoops(fs, p, hops - 1);
    }
  }

  /** An absolute link text naming a normal location leads to that location. */
  lemma SelfDestination(p: Location)
    requires Normal(p)
    ensures LinkDestination(p, Path(true, p)) == p
  {
    CollapseNormal([], p);
    assert [] + p == p;
  }
}
