/**
 * The `Dotfile` record of src/core/models.py: a repository-relative source,
 * a host target that may start with `~`, and a profile name, with the
 * coercion its constructor applies and the `expanded_target` it computes.
 */
module Models {
  import opened Wrappers
  import opened Errors
  import opened PurePaths
  import opened FileSystem
  import opened CorePaths

  const DefaultProfile: string := "default"

  datatype Dotfile = Dotfile(source: Path, target: Path, profile: string)

  /** What a caller may pass for a path field: a text or a path already. */
  datatype PathArg = Text(text: string) | AsPath(path: Path)

  function ToPath(a: PathArg): Path
  {
    match a
    case Text(s) => Parse(s)
    case AsPath(p) => p
  }

  /** A text becomes a well-formed path that prints as the text whenever pathlib keeps it as given. */
  lemma ArgKept(a: PathArg)
    ensures a.Text? ==> WellFormed(ToPath(a))
    ensures a.Text? && CanonicalText(a.text) ==> Show(ToPath(a)) == a.text
  {
    if a.Text? && CanonicalText(a.text) {
      ShowParse(a.text);
    }
  }

  /**
   * `Dotfile(source, target, profile)`: a text becomes the path it denotes,
   * printing as the same text, a path is kept, and the profile defaults to "default".
   */
  function MakeDotfile(source: PathArg, target: PathArg, profile: string := DefaultProfile): (d: Dotfile)
    ensures source.Text? ==> WellFormed(d.source)
    ensures target.Text? ==> WellFormed(d.target)
    ensures source.Text? && CanonicalText(source.text) ==> Show(d.source) == source.text
    ensures target.Text? && CanonicalText(target.text) ==> Show(d.target) == target.text
    ensures source.AsPath? ==> d.source == source.path
    ensures target.AsPath? ==> d.target == target.path
    ensures d.profile == profile
  {
    ArgKept(source);
    ArgKept(target);
    Dotfile(ToPath(source), ToPath(target), profile)
  }

  /** A text that pathlib already prints as it was given keeps that text once a `Dotfile` holds it. */
  lemma TextKept(source: string, target: string)
    requires CanonicalText(source) && CanonicalText(target)
    ensures Show(MakeDotfile(Text(source), Text(target)).source) == source
    ensures Show(MakeDotfile(Text(source), Text(target)).target) == target
    ensures MakeDotfile(Text(source), Text(target)).profile == DefaultProfile
  {
    ShowParse(source);
    ShowParse(target);
  }

  /** `Dotfile("zshrc", "~/.zshrc")`: its target prints as "~/.zshrc". */
  lemma ZshrcExample()
    ensures Show(MakeDotfile(Text("zshrc"), Text("~/.zshrc")).target) == "~/.zshrc"
    ensures MakeDotfile(Text("zshrc"), Text("~/.zshrc")).source == Path(false, ["zshrc"])
  {
    ZshrcTexts();
  }

  lemma ZshrcTexts()
    ensures Parse("zshrc") == Path(false, ["zshrc"])
    ensures Parse("~/.zshrc") == Path(false, ["~", ".zshrc"])
    ensures Show(Path(false, ["~", ".zshrc"])) == "~/.zshrc"
  {
    ShowZshrc();
    ParseShow(Path(false, ["zshrc"]));
    ParseShow(Path(false, ["~", ".zshrc"]));
  }

  lemma ShowZshrc()
    ensures Show(Path(false, ["zshrc"])) == "zshrc"
    ensures Show(Path(false, ["~", ".zshrc"])) == "~/.zshrc"
  {
  }

  /** `p.expanduser()`: a leading "~" becomes the home directory; `~user` is not looked up. */
  function ExpandUser(home: Location, p: Path): (r: Result<Path, Error>)
    ensures r.Ok? ==> r.value == p || (r.value.absolute && IsUnder(home, r.value.parts))
  {
    if !p.absolute && |p.parts| > 0 && |p.parts[0]| > 0 && p.parts[0][0] == '~' then
      if p.parts[0] == "~" then Ok(Path(true, home + p.parts[1..])) else Err(HomeUnknown)
    else Ok(p)
  }

  /** `p.expanduser()` as a location, a relative path taken from the working directory. */
  function ExpandPath(ctx: AppContext, home: Location, p: Path): Result<Location, Error>
  {
    var t :- ExpandUser(home, p);
    Ok(Normalise(ctx.repoRoot, t))
  }

  /** `p.expanduser().resolve()`, which also follows a link at the path itself. */
  function ResolvePath(fs: Fs, ctx: AppContext, home: Location, p: Path): (r: Result<Location, Error>)
    ensures r.Ok? ==> ExpandPath(ctx, home, p).Ok?
    ensures r.Ok? ==> Resolve(fs, ExpandPath(ctx, home, p).value) == Some(r.value)
    ensures r.Ok? ==> !IsSymlink(fs, r.value)
  {
    var l :- ExpandPath(ctx, home, p);
    match Resolve(fs, l)
    case None => Err(OsError)
    case Some(q) =>
      ResolveIdempotent(fs, l);
      Ok(q)
  }

  /** The target as the host names it, before any link there is followed. */
  function LexicalTarget(ctx: AppContext, home: Location, df: Dotfile): Result<Location, Error>
  {
    ExpandPath(ctx, home, df.target)
  }

  /** `expanded_target`: `target.expanduser().resolve()`. */
  function ExpandedTarget(fs: Fs, ctx: AppContext, home: Location, df: Dotfile): Result<Location, Error>
  {
    ResolvePath(fs, ctx, home, df.target)
  }

  /** The target `safe_import` records: `~/<rest>` under home, the absolute location elsewhere. */
  function PortableTarget(home: Location, orig: Location): Path
  {
    if IsUnder(home, orig) then Path(false, ["~"] + orig[|home|..]) else Path(true, orig)
  }

  /** Expanding a recorded portable target gives back the location it was made from. */
  lemma PortableRoundTrip(ctx: AppContext, home: Location, orig: Location)
    requires Normal(home) && Normal(orig)
    ensures ExpandPath(ctx, home, PortableTarget(home, orig)) == Ok(orig)
  {
    if IsUnder(home, orig) {
      var rest := orig[|home|..];
      assert (["~"] + rest)[1..] == rest;
      assert home + rest == orig;
    }
    CollapseNormal([], orig);
    assert [] + orig == orig;
  }

  /** A target "~/rest" expands to the home directory followed by `rest`. */
  lemma ExpandTilde(ctx: AppContext, home: Location, df: Dotfile, rest: seq<string>)
    requires Normal(home) && Normal(rest)
    requires df.target == Path(false, ["~"] + rest)
    ensures LexicalTarget(ctx, home, df) == Ok(home + rest)
  {
    assert (["~"] + rest)[1..] == rest;
    assert Normal(home + rest) by {
      forall i | 0 <= i < |home + rest| ensures NormalComponent((home + rest)[i]) {
        if i < |home| { assert (home + rest)[i] == home[i]; } else { assert (home + rest)[i] == rest[i - |home|]; }
      }
    }
    CollapseNormal([], home + rest);
    assert [] + (home + rest) == home + rest;
  }

  /** An absolute target is taken as it is, only normalised. */
  lemma ExpandAbsolute(ctx: AppContext, home: Location, df: Dotfile)
    requires df.target.absolute && WellFormed(df.target)
    ensures LexicalTarget(ctx, home, df) == Ok(Normalise([], df.target))
    ensures Normal(LexicalTarget(ctx, home, df).value)
  {
    NormaliseIsNormal([], df.target);
  }
}
