/**
 * The legacy `ConfigManager` of src/config_manager.py: an in-memory list of
 * dotfile records, appended to without deduplication and filtered by
 * profile ignoring letter case. The record class it imports from
 * src/dotfile.py is not defined there; the model gives it the two fields
 * its users read, `source_path` and `profile`.
 */
module LegacyConfig {
  import opened Wrappers
  import opened PurePaths
  import opened Text

  const AllProfiles: string := "all"

  datatype LegacyDotfile = LegacyDotfile(sourcePath: Path, profile: string)

  /** The records whose profile equals `profile` ignoring letter case, in order. */
  function MatchingProfile(ds: seq<LegacyDotfile>, profile: string): seq<LegacyDotfile>
  {
    if ds == [] then []
    else (if Lower(ds[0].profile) == Lower(profile) then [ds[0]] else []) + MatchingProfile(ds[1..], profile)
  }

  /** `get_dotfiles_by_profile(profile)` on the list `ds`. */
  function Selection(ds: seq<LegacyDotfile>, profile: string): seq<LegacyDotfile>
  {
    if Lower(profile) == AllProfiles then ds else MatchingProfile(ds, profile)
  }

  /** "all", in any letter case, selects the whole list. */
  lemma SelectAll(ds: seq<LegacyDotfile>, profile: string)
    requires Lower(profile) == Lower(AllProfiles)
    ensures Selection(ds, profile) == ds
  {
    assert Lower(AllProfiles) == AllProfiles;
  }

  /** "ALL" is "all". */
  lemma SelectAllUpper(ds: seq<LegacyDotfile>)
    ensures Selection(ds, "ALL") == ds
  {
    assert Lower("ALL") == "all";
  }

  /** Any other name selects exactly the records whose profile matches it ignoring case. */
  lemma {:induction false} MatchingMember(ds: seq<LegacyDotfile>, profile: string, d: LegacyDotfile)
    ensures d in MatchingProfile(ds, profile) <==> d in ds && Lower(d.profile) == Lower(profile)
  {
    if ds != [] {
      MatchingMember(ds[1..], profile, d);
      assert ds == [ds[0]] + ds[1..];
    }
  }

  /** The selection keeps the list order: selecting from a concatenation concatenates the selections. */
  lemma {:induction false} MatchingAppend(a: seq<LegacyDotfile>, b: seq<LegacyDotfile>, profile: string)
    ensures MatchingProfile(a + b, profile) == MatchingProfile(a, profile) + MatchingProfile(b, profile)
  {
    if a == [] {
      assert a + b == b;
    } else {
      var head := if Lower(a[0].profile) == Lower(profile) then [a[0]] else [];
      assert (a + b)[0] == a[0];
      assert (a + b)[1..] == a[1..] + b;
      assert MatchingProfile(a + b, profile) == head + MatchingProfile(a[1..] + b, profile);
      MatchingAppend(a[1..], b, profile);
      assert MatchingProfile(a, profile) == head + MatchingProfile(a[1..], profile);
      assert head + (MatchingProfile(a[1..], profile) + MatchingProfile(b, profile))
          == (head + MatchingProfile(a[1..], profile)) + MatchingProfile(b, profile);
    }
  }

  /** Upper-case letters of a profile name do not change the selection. */
  lemma SelectionIgnoresCase(ds: seq<LegacyDotfile>, profile: string)
    ensures Selection(ds, Lower(profile)) == Selection(ds, profile)
  {
    LowerIdempotent(profile);
    if Lower(profile) != AllProfiles {
      MatchingLower(ds, profile);
    }
  }

  lemma {:induction false} MatchingLower(ds: seq<LegacyDotfile>, profile: string)
    ensures MatchingProfile(ds, Lower(profile)) == MatchingProfile(ds, profile)
  {
    LowerIdempotent(profile);
    if ds != [] {
      MatchingLower(ds[1..], profile);
    }
  }

  class ConfigManager {
    var dotfiles: seq<LegacyDotfile>

    /** `ConfigManager(dotfiles)`: no list, or an empty one, gives an empty list. */
    constructor (given: Option<seq<LegacyDotfile>>)
      ensures given.None? ==> dotfiles == []
      ensures given.Some? ==> dotfiles == given.value
    {
      if given.Some? && given.value != [] {
        dotfiles := given.value;
      } else {
        dotfiles := [];
      }
    }

    /** `add_dotfile(d)`: appends, keeping duplicates. */
    method AddDotfile(d: LegacyDotfile)
      modifies this
      ensures dotfiles == old(dotfiles) + [d]
    {
      dotfiles := dotfiles + [d];
    }

    /** `get_dotfiles_by_profile(profile)`. */
    function DotfilesByProfile(profile: string): seq<LegacyDotfile>
      reads this
    {
      Selection(dotfiles, profile)
    }
  }
}
