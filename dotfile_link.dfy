/**
 * The legacy `create_symlink(source, link_name)` of src/dotfile.py: whatever
 * is at `link_name` is removed (a file or link unlinked, a directory removed
 * with everything below it) and a link holding `source` is made there. Every
 * error is caught; the model returns whether the call got through.
 */
module LegacyLink {
  import opened Wrappers
  import opened Errors
  import opened PurePaths
  import opened FileSystem
  import opened HostFs

  /** Clearing `link`: nothing to do, an unlink, or a tree removal. */
  function ClearLink(fs: Fs, denied: set<Location>, link: Location): Result<Fs, Error>
  {
    if !Lexists(fs, link) then Ok(fs)
    else if IsSymlink(fs, link) || IsFile(fs, link) then FileSystem.Unlink(fs, denied, link)
    else if IsDir(fs, link) then FileSystem.RemoveTree(fs, denied, link)
    else Ok(fs)
  }

  /**
   * The filesystem the call leaves and whether it got through without an
   * error. `os.symlink` refuses an empty source (ENOENT) after the old entry
   * has gone.
   */
  function LinkEffect(fs: Fs, denied: set<Location>, source: string, link: Location): (Fs, bool)
  {
    match ClearLink(fs, denied, link)
    case Err(_) => (fs, false)
    case Ok(fs1) =>
      if source == "" then (fs1, false)
      else match FileSystem.SymlinkTo(fs1, denied, link, Parse(source))
      case Err(_) => (fs1, false)
      case Ok(fs2) => (fs2, true)
  }

  /** A file or a link at `link` is unlinked; the rest of the tree stays. */
  lemma ClearLinkFacts(fs: Fs, denied: set<Location>, link: Location)
    requires ClearLink(fs, denied, link).Ok?
    ensures var fs1 := ClearLink(fs, denied, link).value;
      && (forall q :: !IsUnder(link, q) ==> NodeAt(fs1, q) == NodeAt(fs, q))
      && !Lexists(fs1, link)
  {
    if Lexists(fs, link) {
      if IsSymlink(fs, link) || IsFile(fs, link) {
        UnlinkFacts(fs, denied, link);
      } else if IsDir(fs, link) {
        RemoveTreeFacts(fs, denied, link);
      } else {
        NodeKinds(fs, link);
      }
    }
  }

  /** An entry that is neither a link nor a file after following is a directory. */
  lemma NodeKinds(fs: Fs, p: Location)
    requires Lexists(fs, p) && !IsSymlink(fs, p) && !IsFile(fs, p)
    ensures IsDir(fs, p)
  {
    assert Follow(fs, p, MaxSymlinkHops) == Some(p);
  }

  /**
   * On success `link` is a link holding `source`, whether or not anything is
   * there; an empty source never succeeds; nothing outside `link` changes.
   */
  lemma LinkEffectFacts(fs: Fs, denied: set<Location>, source: string, link: Location)
    ensures var (fs', ok) := LinkEffect(fs, denied, source, link);
      && (forall q :: !IsUnder(link, q) ==> NodeAt(fs', q) == NodeAt(fs, q))
      && (ok ==> NodeAt(fs', link) == Some(Symlink(Parse(source))))
      && (ok ==> source != "")
  {
    var c := ClearLink(fs, denied, link);
    if c.Ok? && source != "" {
      ClearLinkFacts(fs, denied, link);
      var s := FileSystem.SymlinkTo(c.value, denied, link, Parse(source));
      if s.Ok? {
        SymlinkToFacts(c.value, denied, link, Parse(source));
        forall q | !IsUnder(link, q) ensures NodeAt(s.value, q) == NodeAt(fs, q) {
          assert q != link;
        }
      }
    }
  }

  /**
   * An existing file or link is replaced by the new link when the host allows
   * it; with an empty source it is removed and the call fails.
   */
  lemma ReplacesFile(fs: Fs, denied: set<Location>, source: string, link: Location)
    requires link != [] && link in fs && !fs[link].Dir? && link !in denied
    requires NodeAt(fs, Parent(link)) == Some(Dir)
    ensures LinkEffect(fs, denied, source, link)
      == (if source == "" then fs - {link} else fs[link := Symlink(Parse(source))], source != "")
  {
    assert IsSymlink(fs, link) || IsFile(fs, link) by {
      if !IsSymlink(fs, link) {
        assert Follow(fs, link, MaxSymlinkHops) == Some(link);
      }
    }
    assert ClearLink(fs, denied, link) == Ok(fs - {link});
    assert (fs - {link})[link := Symlink(Parse(source))] == fs[link := Symlink(Parse(source))];
  }

  /** A directory at `link` goes with everything below it; the link is made unless the source is empty. */
  lemma ReplacesDirectory(fs: Fs, denied: set<Location>, source: string, link: Location)
    requires link != [] && link in fs && fs[link] == Dir && link !in denied
    requires !DeniedBelow(fs, denied, link)
    requires NodeAt(fs, Parent(link)) == Some(Dir)
    ensures LinkEffect(fs, denied, source, link).1 == (source != "")
    ensures forall q :: IsUnder(link, q) && q != link ==> !Lexists(LinkEffect(fs, denied, source, link).0, q)
  {
    assert Follow(fs, link, MaxSymlinkHops) == Some(link);
    RemoveTreeFacts(fs, denied, link);
    var fs1 := FileSystem.RemoveTree(fs, denied, link).value;
    assert Parent(link) != link && !IsUnder(link, Parent(link));
  }

  /** `create_symlink(source, link_name)` on the host; errors end the call and are reported, not raised. */
  method CreateSymlink(host: Host, source: string, link: Location) returns (ok: bool)
    modifies host
    ensures (host.nodes, ok) == LinkEffect(old(host.nodes), host.denied, source, link)
  {
    var err: Option<Error> := None;
    if Lexists(host.nodes, link) {
      if IsSymlink(host.nodes, link) || IsFile(host.nodes, link) {
        err := host.Unlink(link);
      } else if IsDir(host.nodes, link) {
        err := host.RemoveTree(link);
      }
    }
    if err.Some? || source == "" {
      return false;
    }
    err := host.SymlinkTo(link, Parse(source));
    ok := err.None?;
  }
}
