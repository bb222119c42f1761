/**
 * The discovery filter of src/services/scanner.py: the known-apps table,
 * the set of locations the managed records already occupy, and the table
 * entries found on the host outside that set.
 */
module Scanner {
  import opened Wrappers
  import opened Errors
  import opened PurePaths
  import opened FileSystem
  import opened CorePaths
  import opened Models
  import opened ConfigStore

  /** Application names and home-relative path texts, in the order the resource lists them. */
  type KnownApps = seq<(string, string)>

  /** A discovered file: the application name and the path under home, as joined, not resolved. */
  type Candidate = (string, Path)

  /** `_load_known_apps()`: the table the resource holds, or an empty table when it is missing or unreadable. */
  function LoadKnownApps(resource: Option<KnownApps>): KnownApps
  {
    match resource
    case None => []
    case Some(table) => table
  }

  // ---------------------------------------------------------------- managed locations

  /**
   * What `df.expanded_target.resolve()` adds to the managed set: a location,
   * nothing when it raises an OSError (a link loop), or an error that escapes.
   */
  function ManagedOf(fs: Fs, ctx: AppContext, home: Location, df: Dotfile): Result<Option<Location>, Error>
  {
    match ExpandedTarget(fs, ctx, home, df)
    case Err(e) => if e == OsError then Ok(None) else Err(e)
    case Ok(l) => Ok(Resolve(fs, l))
  }

  /** What one record contributes to the managed set. */
  type Contribution = Result<Option<Location>, Error>

  /** The set the contributions build, in order; the first error stops it. */
  function Gather(s: seq<Contribution>): (r: Result<set<Location>, Error>)
    ensures r.Ok? <==> forall i :: 0 <= i < |s| ==> s[i].Ok?
    ensures r.Ok? ==> forall l :: l in r.value <==> exists i :: 0 <= i < |s| && s[i] == Ok(Some(l))
    ensures r.Err? ==> exists i :: 0 <= i < |s| && s[i] == Err(r.error)
  {
    if s == [] then Ok({})
    else
      var init := s[..|s| - 1];
      assert forall i :: 0 <= i < |s| - 1 ==> init[i] == s[i];
      match Gather(init)
      case Err(e) => Err(e)
      case Ok(acc) =>
        match s[|s| - 1]
        case Err(e) => Err(e)
        case Ok(m) => Ok(if m.Some? then acc + {m.value} else acc)
  }

  /** One more contribution adds its location, adds nothing, or makes the set fail. */
  lemma GatherSnoc(s: seq<Contribution>, i: nat, acc: set<Location>)
    requires i < |s| && Gather(s[..i]) == Ok(acc)
    ensures Gather(s[..i + 1])
         == match s[i]
            case Err(e) => Err(e)
            case Ok(m) => Ok(if m.Some? then acc + {m.value} else acc)
  {
    assert s[..i + 1][..i] == s[..i];
  }

  /** The contributions of the records in `ds`, record by record. */
  function ManagedOfAll(fs: Fs, ctx: AppContext, home: Location, ds: seq<Dotfile>): (r: seq<Contribution>)
    ensures |r| == |ds|
    ensures forall i :: 0 <= i < |ds| ==> r[i] == ManagedOf(fs, ctx, home, ds[i])
  {
    seq(|ds|, i requires 0 <= i < |ds| => ManagedOf(fs, ctx, home, ds[i]))
  }

  /** Every error a record contributes is the one of a home directory that cannot be found. */
  lemma ManagedErrorsAll(fs: Fs, ctx: AppContext, home: Location, ds: seq<Dotfile>)
    ensures forall i :: 0 <= i < |ds| && ManagedOf(fs, ctx, home, ds[i]).Err? ==>
              ManagedOf(fs, ctx, home, ds[i]).error == HomeUnknown
  {
    forall i | 0 <= i < |ds| && ManagedOf(fs, ctx, home, ds[i]).Err?
      ensures ManagedOf(fs, ctx, home, ds[i]).error == HomeUnknown
    {
      ManagedOfErrors(fs, ctx, home, ds[i]);
    }
  }

  /** The managed set the first loop of `scan` builds from `ds`. */
  function ManagedSet(fs: Fs, ctx: AppContext, home: Location, ds: seq<Dotfile>): (r: Result<set<Location>, Error>)
    ensures r.Ok? <==> forall i :: 0 <= i < |ds| ==> ManagedOf(fs, ctx, home, ds[i]).Ok?
    ensures r.Ok? ==> forall l :: l in r.value <==> exists i :: 0 <= i < |ds| && ManagedOf(fs, ctx, home, ds[i]) == Ok(Some(l))
    ensures r.Err? ==> r.error == HomeUnknown
  {
    ManagedErrorsAll(fs, ctx, home, ds);
    Gather(ManagedOfAll(fs, ctx, home, ds))
  }

  /** One more record adds its resolved target, adds nothing, or makes the set fail. */
  lemma ManagedSetSnoc(fs: Fs, ctx: AppContext, home: Location, ds: seq<Dotfile>, i: nat, s: set<Location>)
    requires i < |ds| && ManagedSet(fs, ctx, home, ds[..i]) == Ok(s)
    ensures ManagedSet(fs, ctx, home, ds[..i + 1])
         == match ManagedOf(fs, ctx, home, ds[i])
            case Err(e) => Err(e)
            case Ok(m) => Ok(if m.Some? then s + {m.value} else s)
  {
    var all := ManagedOfAll(fs, ctx, home, ds);
    assert ManagedOfAll(fs, ctx, home, ds[..i + 1]) == all[..i + 1];
    assert ManagedOfAll(fs, ctx, home, ds[..i]) == all[..i];
    GatherSnoc(all, i, s);
  }

  /** The managed set holds exactly the expanded targets that resolve; the second resolve changes nothing. */
  lemma ManagedOfTarget(fs: Fs, ctx: AppContext, home: Location, df: Dotfile, l: Location)
    ensures ManagedOf(fs, ctx, home, df) == Ok(Some(l)) <==> ExpandedTarget(fs, ctx, home, df) == Ok(l)
  {
    var t := ExpandedTarget(fs, ctx, home, df);
    if t.Ok? {
      ResolveOfNonLink(fs, t.value);
    }
  }

  /** A target that loops is skipped; only a home directory that cannot be found escapes the loop. */
  lemma ManagedOfErrors(fs: Fs, ctx: AppContext, home: Location, df: Dotfile)
    ensures ExpandedTarget(fs, ctx, home, df) == Err(OsError) ==> ManagedOf(fs, ctx, home, df) == Ok(None)
    ensures ManagedOf(fs, ctx, home, df).Err? ==> ManagedOf(fs, ctx, home, df).error == HomeUnknown
  {
    var t := ExpandedTarget(fs, ctx, home, df);
    if t.Err? && t.error != OsError {
      var e := ExpandUser(home, df.target);
      assert e.Err?;
    }
  }

  // ---------------------------------------------------------------- candidates

  /** `Path.home() / rel`: an absolute `rel` replaces the home directory. */
  function FullPath(home: Location, rel: string): Path
  {
    Div(Path(true, home), Parse(rel))
  }

  /** The location a host path names. */
  function At(p: Path): Location
  {
    Normalise([], p)
  }

  /** What one table entry contributes to the second loop of `scan`. */
  function Pick(fs: Fs, home: Location, entry: (string, string), managed: set<Location>): Option<Candidate>
  {
    var full := FullPath(home, entry.1);
    if !Exists(fs, At(full)) && !IsSymlink(fs, At(full)) then None
    else
      match Resolve(fs, At(full))
      case None => None
      case Some(r) => if r in managed then None else Some((entry.0, full))
  }

  /** The candidates among a sequence of picks, in order. */
  function Somes(s: seq<Option<Candidate>>): (r: seq<Candidate>)
    ensures |r| <= |s|
  {
    if s == [] then [] else Somes(s[..|s| - 1]) + PickSeq(s[|s| - 1])
  }

  /** What each table entry in `known` contributes, entry by entry. */
  function PickAll(fs: Fs, home: Location, known: KnownApps, managed: set<Location>): (r: seq<Option<Candidate>>)
    ensures |r| == |known|
    ensures forall i :: 0 <= i < |known| ==> r[i] == Pick(fs, home, known[i], managed)
  {
    seq(|known|, i requires 0 <= i < |known| => Pick(fs, home, known[i], managed))
  }

  /** The candidates of the table entries in `known`, in table order; at most one per entry. */
  function Picks(fs: Fs, home: Location, known: KnownApps, managed: set<Location>): (r: seq<Candidate>)
    ensures |r| <= |known|
  {
    Somes(PickAll(fs, home, known, managed))
  }

  /** `scan()`: the candidates, or the error that loading the config or expanding a target raises. */
  function ScanResult(fs: Fs, ctx: AppContext, home: Location, known: KnownApps, stored: Stored): Result<seq<Candidate>, Error>
  {
    var ds :- Load(stored);
    var managed :- ManagedSet(fs, ctx, home, ds);
    Ok(Picks(fs, home, known, managed))
  }

  /** An entry is picked exactly when its path is there or is a link, resolves, and lands outside the managed set. */
  lemma PickIff(fs: Fs, home: Location, entry: (string, string), managed: set<Location>)
    ensures var full := FullPath(home, entry.1);
      Pick(fs, home, entry, managed).Some? <==>
        && (Exists(fs, At(full)) || IsSymlink(fs, At(full)))
        && Resolve(fs, At(full)).Some?
        && Resolve(fs, At(full)).value !in managed
    ensures Pick(fs, home, entry, managed).Some? ==> Pick(fs, home, entry, managed).value == (entry.0, FullPath(home, entry.1))
  {
  }

  /** Splitting a sequence of picks splits its candidates. */
  lemma {:induction false} SomesAppend(a: seq<Option<Candidate>>, b: seq<Option<Candidate>>)
    ensures Somes(a + b) == Somes(a) + Somes(b)
    decreases |b|
  {
    if b == [] {
      assert a + b == a;
    } else {
      var b' := b[..|b| - 1];
      assert (a + b)[..|a + b| - 1] == a + b';
      assert (a + b)[|a + b| - 1] == b[|b| - 1];
      SomesAppend(a, b');
    }
  }

  /** A candidate is among the picks exactly when one of them is that candidate. */
  lemma {:induction false} SomesMember(s: seq<Option<Candidate>>, c: Candidate)
    ensures c in Somes(s) <==> exists i :: 0 <= i < |s| && s[i] == Some(c)
    decreases |s|
  {
    if s != [] {
      var n := |s| - 1;
      var init := s[..n];
      SomesMember(init, c);
      assert c in PickSeq(s[n]) <==> s[n] == Some(c);
      if exists i :: 0 <= i < |init| && init[i] == Some(c) {
        var i :| 0 <= i < |init| && init[i] == Some(c);
        assert s[i] == init[i];
      }
      if exists i :: 0 <= i < |s| && s[i] == Some(c) {
        var i :| 0 <= i < |s| && s[i] == Some(c);
        if i < n { assert init[i] == s[i]; }
      }
    }
  }

  /** Scanning a table in two parts gives the candidates of the first part, then those of the second. */
  lemma PicksAppend(fs: Fs, home: Location, a: KnownApps, b: KnownApps, managed: set<Location>)
    ensures Picks(fs, home, a + b, managed) == Picks(fs, home, a, managed) + Picks(fs, home, b, managed)
  {
    var all := PickAll(fs, home, a + b, managed);
    var pa := PickAll(fs, home, a, managed);
    var pb := PickAll(fs, home, b, managed);
    assert all == pa + pb by {
      forall i | 0 <= i < |all| ensures all[i] == (pa + pb)[i] {
        if i < |a| { assert (a + b)[i] == a[i]; } else { assert (a + b)[i] == b[i - |a|]; }
      }
    }
    SomesAppend(pa, pb);
  }

  /** The candidates of one more entry follow those of the entries before it. */
  lemma PicksSnoc(fs: Fs, home: Location, known: KnownApps, managed: set<Location>, j: nat)
    requires j < |known|
    ensures Picks(fs, home, known[..j + 1], managed)
         == Picks(fs, home, known[..j], managed) + PickSeq(Pick(fs, home, known[j], managed))
  {
    var s := PickAll(fs, home, known[..j + 1], managed);
    assert s[..j] == PickAll(fs, home, known[..j], managed);
    assert s[j] == Pick(fs, home, known[j], managed);
  }

  /** A pick as a sequence of zero or one candidates. */
  function PickSeq(p: Option<Candidate>): seq<Candidate>
  {
    match p
    case Some(c) => [c]
    case None => []
  }

  /** A candidate is exactly what some table entry picks. */
  lemma PicksMember(fs: Fs, home: Location, known: KnownApps, managed: set<Location>, c: Candidate)
    ensures c in Picks(fs, home, known, managed) <==> exists i :: 0 <= i < |known| && Pick(fs, home, known[i], managed) == Some(c)
  {
    var s := PickAll(fs, home, known, managed);
    SomesMember(s, c);
    if exists i :: 0 <= i < |s| && s[i] == Some(c) {
      var i :| 0 <= i < |s| && s[i] == Some(c);
      assert Pick(fs, home, known[i], managed) == Some(c);
    }
  }

  /** No candidate resolves to the expanded target of a managed record. */
  lemma ScanExcludesManaged(fs: Fs, ctx: AppContext, home: Location, known: KnownApps, stored: Stored,
                            c: Candidate, df: Dotfile)
    requires ScanResult(fs, ctx, home, known, stored).Ok?
    requires c in ScanResult(fs, ctx, home, known, stored).value
    requires df in Load(stored).value
    ensures Resolve(fs, At(c.1)).Some?
    ensures ExpandedTarget(fs, ctx, home, df) != Ok(Resolve(fs, At(c.1)).value)
  {
    var ds := Load(stored).value;
    var managed := ManagedSet(fs, ctx, home, ds).value;
    PicksMember(fs, home, known, managed, c);
    var i :| 0 <= i < |known| && Pick(fs, home, known[i], managed) == Some(c);
    PickIff(fs, home, known[i], managed);
    var r := Resolve(fs, At(c.1)).value;
    var k :| 0 <= k < |ds| && ds[k] == df;
    ManagedOfTarget(fs, ctx, home, df, r);
  }

  /** Without a known-apps table a scan finds nothing. */
  lemma EmptyTableFindsNothing(fs: Fs, ctx: AppContext, home: Location, stored: Stored)
    ensures ScanResult(fs, ctx, home, LoadKnownApps(None), stored).Ok? ==>
            ScanResult(fs, ctx, home, LoadKnownApps(None), stored).value == []
  {
  }

  /** A dangling link at a table path is still a candidate: it is a link, and it resolves to where it points. */
  lemma DanglingLinkFound(fs: Fs, home: Location, entry: (string, string), managed: set<Location>)
    requires IsSymlink(fs, At(FullPath(home, entry.1))) && !Exists(fs, At(FullPath(home, entry.1)))
    requires Resolve(fs, At(FullPath(home, entry.1))).Some?
    requires Resolve(fs, At(FullPath(home, entry.1))).value !in managed
    ensures Pick(fs, home, entry, managed) == Some((entry.0, FullPath(home, entry.1)))
  {
  }

  // ---------------------------------------------------------------- the scanner

  class SystemScanner {
    const config: ConfigService
    const knownPaths: KnownApps

    constructor (service: ConfigService, resource: Option<KnownApps>)
      ensures config == service && knownPaths == LoadKnownApps(resource)
    {
      config := service;
      knownPaths := LoadKnownApps(resource);
    }

    /** The first loop of `scan()`: the resolved targets of the managed records. */
    static method CollectManaged(fs: Fs, ctx: AppContext, home: Location, ds: seq<Dotfile>)
      returns (r: Result<set<Location>, Error>)
      ensures r == ManagedSet(fs, ctx, home, ds)
    {
      var managed: set<Location> := {};
      var i := 0;
      while i < |ds|
        invariant 0 <= i <= |ds|
        invariant ManagedSet(fs, ctx, home, ds[..i]) == Ok(managed)
      {
        ManagedSetSnoc(fs, ctx, home, ds, i, managed);
        var t := ExpandedTarget(fs, ctx, home, ds[i]);
        if t.Err? {
          if t.error != OsError {
            assert !ManagedOf(fs, ctx, home, ds[i]).Ok?;
            ManagedOfErrors(fs, ctx, home, ds[i]);
            return Err(t.error);
          }
          i := i + 1;
          continue;
        }
        var q := Resolve(fs, t.value);
        if q.Some? {
          managed := managed + {q.value};
        }
        i := i + 1;
      }
      assert ds[..|ds|] == ds;
      r := Ok(managed);
    }

    /** The second loop of `scan()`: the table entries found on the host outside `managed`. */
    static method CollectCandidates(fs: Fs, home: Location, known: KnownApps, managed: set<Location>)
      returns (candidates: seq<Candidate>)
      ensures candidates == Picks(fs, home, known, managed)
    {
      candidates := [];
      var j := 0;
      while j < |known|
        invariant 0 <= j <= |known|
        invariant candidates == Picks(fs, home, known[..j], managed)
      {
        PicksSnoc(fs, home, known, managed, j);
        var name := known[j].0;
        var full := FullPath(home, known[j].1);
        if Exists(fs, At(full)) || IsSymlink(fs, At(full)) {
          var resolved := Resolve(fs, At(full));
          if resolved.Some? && resolved.value !in managed {
            candidates := candidates + [(name, full)];
          }
        }
        j := j + 1;
      }
      assert known[..|known|] == known;
    }

    /** `scan()`: builds the managed set, then walks the table keeping the unmanaged entries found. */
    method Scan(fs: Fs, ctx: AppContext, home: Location) returns (r: Result<seq<Candidate>, Error>)
      ensures r == ScanResult(fs, ctx, home, knownPaths, config.stored)
    {
      var loaded := Load(config.stored);
      if loaded.Err? {
        return Err(loaded.error);
      }
      var managed := CollectManaged(fs, ctx, home, loaded.value);
      if managed.Err? {
        return Err(managed.error);
      }
      var candidates := CollectCandidates(fs, home, knownPaths, managed.value);
      r := Ok(candidates);
    }
  }
}
