/**
 * The config store of src/services/config_service.py: the records kept in
 * the config file, loading them with the profile defaulted, saving them
 * through a temporary file and an atomic replace, and adding a record
 * unless its source and target are already there.
 */
module ConfigStore {
  import opened Wrappers
  import opened Errors
  import opened PurePaths
  import opened FileSystem
  import opened CorePaths
  import opened Models

  /** One object of the stored JSON list, with its string members. */
  type Item = map<string, string>

  /**
   * What the config file holds: no file, content that does not read as a
   * list of objects with string members (empty text included), or such a list.
   */
  datatype Stored = Absent | Unreadable | Entries(items: seq<Item>)

  // ---------------------------------------------------------------- records

  /** The object `save_config` writes for one record. */
  function Encode(d: Dotfile): Item
  {
    map["source" := Show(d.source), "target" := Show(d.target), "profile" := d.profile]
  }

  function EncodeAll(ds: seq<Dotfile>): seq<Item>
  {
    seq(|ds|, i requires 0 <= i < |ds| => Encode(ds[i]))
  }

  /** The record `load_config` builds from one object; a missing source or target raises. */
  function Decode(item: Item): Result<Dotfile, Error>
  {
    if "source" !in item || "target" !in item then Err(ConfigError)
    else
      var profile := if "profile" in item then item["profile"] else DefaultProfile;
      Ok(MakeDotfile(Text(item["source"]), Text(item["target"]), profile))
  }

  /** All the records, or an error and none of them. */
  function DecodeAll(items: seq<Item>): (r: Result<seq<Dotfile>, Error>)
    ensures r.Ok? <==> forall i :: 0 <= i < |items| ==> Decode(items[i]).Ok?
    ensures r.Ok? ==> |r.value| == |items| && forall i :: 0 <= i < |items| ==> Decode(items[i]) == Ok(r.value[i])
    ensures r.Err? ==> r.error == ConfigError
  {
    if items == [] then Ok([])
    else
      var d :- Decode(items[0]);
      var rest :- DecodeAll(items[1..]);
      Ok([d] + rest)
  }

  /** `load_config()`. */
  function Load(s: Stored): Result<seq<Dotfile>, Error>
  {
    match s
    case Absent => Ok([])
    case Unreadable => Err(ConfigError)
    case Entries(items) => DecodeAll(items)
  }

  /** Well-formed paths are the ones that print and parse back unchanged. */
  predicate Storable(ds: seq<Dotfile>)
  {
    forall i :: 0 <= i < |ds| ==> WellFormed(ds[i].source) && WellFormed(ds[i].target)
  }

  /** An absent file loads as no records; an unreadable one raises ConfigError. */
  lemma LoadOutcomes(s: Stored)
    ensures s.Absent? ==> Load(s) == Ok([])
    ensures s.Unreadable? ==> Load(s) == Err(ConfigError)
    ensures Load(s).Err? ==> Load(s).error == ConfigError
  {
  }

  /** An object without "profile" loads with the default profile. */
  lemma ProfileDefaults(source: string, target: string)
    ensures Load(Entries([map["source" := source, "target" := target]]))
         == Ok([Dotfile(Parse(source), Parse(target), DefaultProfile)])
  {
    var item: Item := map["source" := source, "target" := target];
    var items: seq<Item> := [item];
    assert "profile" !in item && item["source"] == source && item["target"] == target;
    assert Decode(item) == Ok(Dotfile(Parse(source), Parse(target), DefaultProfile));
    assert items[1..] == [];
    assert DecodeAll(items[1..]) == Ok([]);
    var d := Dotfile(Parse(source), Parse(target), DefaultProfile);
    assert DecodeAll(items) == Ok([d] + []);
    assert [d] + [] == [d];
    assert items == [map["source" := source, "target" := target]];
  }

  /** One object without a source or target makes the whole load fail. */
  lemma LoadAllOrNothing(items: seq<Item>, i: nat)
    requires i < |items| && ("source" !in items[i] || "target" !in items[i])
    ensures Load(Entries(items)) == Err(ConfigError)
  {
  }

  /** Everything `load_config` returns holds well-formed paths. */
  lemma LoadedStorable(s: Stored)
    requires Load(s).Ok?
    ensures Storable(Load(s).value)
  {
    if s.Entries? {
      var ds := Load(s).value;
      forall i | 0 <= i < |ds| ensures WellFormed(ds[i].source) && WellFormed(ds[i].target) {
        assert Decode(s.items[i]) == Ok(ds[i]);
      }
    }
  }

  /** What `save_config` writes, `load_config` reads back: the same records in the same order. */
  lemma LoadRoundTrip(ds: seq<Dotfile>)
    requires Storable(ds)
    ensures Load(Entries(EncodeAll(ds))) == Ok(ds)
  {
    var items := EncodeAll(ds);
    forall i | 0 <= i < |ds| ensures Decode(items[i]) == Ok(ds[i]) {
      ParseShow(ds[i].source);
      ParseShow(ds[i].target);
    }
    var r := DecodeAll(items);
    assert r.value == ds by {
      assert |r.value| == |ds|;
      forall i | 0 <= i < |ds| ensures r.value[i] == ds[i] {
        assert Decode(items[i]) == Ok(r.value[i]);
      }
    }
  }

  // ---------------------------------------------------------------- saving

  /** Where a save may fail: making the temporary file, writing it, or replacing the config with it. */
  datatype SaveFault = NoFault | CreateFails | WriteFails | ReplaceFails

  /**
   * When the cleanup code learns the temporary file's name: after the JSON
   * is written (as the code does) or as soon as the file is made.
   */
  datatype TempBinding = AfterWrite | AtCreate

  /** The config file and the number of temporary files left beside it. */
  datatype Store = Store(stored: Stored, strayTemps: nat)

  /**
   * What the clean-up code of `save_config` knows of the temporary file:
   * none was made, one was made but `tmp_path` is not bound, or one was
   * made and `tmp_path` names it.
   */
  datatype Temp = NoTemp | Unnamed | Named

  /** The `except` branch: ConfigError, after unlinking the temporary file if `tmp_path` names it. */
  function Abort(st: Store, t: Temp): (Store, Option<Error>)
  {
    (if t == Unnamed then st.(strayTemps := st.strayTemps + 1) else st, Some(ConfigError))
  }

  /**
   * The store after `save_config(ds)` meets `fault`, and the error it
   * raises, step by step: make the temporary file, dump the JSON into it,
   * bind `tmp_path` (at `binding`), replace the config with it.
   */
  function SaveEffect(st: Store, ds: seq<Dotfile>, fault: SaveFault, binding: TempBinding): (Store, Option<Error>)
  {
    if fault == CreateFails then Abort(st, NoTemp)
    else
      var made := if binding == AtCreate then Named else Unnamed;
      if fault == WriteFails then Abort(st, made)
      else
        var written := Named;
        if fault == ReplaceFails then Abort(st, written)
        else (st.(stored := Entries(EncodeAll(ds))), None)
  }

  /** A save that goes through is read back as the records saved. */
  lemma SaveThenLoad(st: Store, ds: seq<Dotfile>, binding: TempBinding)
    requires Storable(ds)
    ensures SaveEffect(st, ds, NoFault, binding).1 == None
    ensures Load(SaveEffect(st, ds, NoFault, binding).0.stored) == Ok(ds)
  {
    LoadRoundTrip(ds);
  }

  /** A failed save raises ConfigError and leaves the previous config file as it was. */
  lemma FailedSaveKeepsConfig(st: Store, ds: seq<Dotfile>, fault: SaveFault, binding: TempBinding)
    requires fault != NoFault
    ensures SaveEffect(st, ds, fault, binding).0.stored == st.stored
    ensures SaveEffect(st, ds, fault, binding).1 == Some(ConfigError)
  {
  }

  /** As written, a failure while the JSON is written leaves the temporary file behind. */
  lemma AsWrittenWriteFaultLeavesTemp(st: Store, ds: seq<Dotfile>)
    ensures SaveEffect(st, ds, WriteFails, AfterWrite).0.strayTemps == st.strayTemps + 1
  {
  }

  /** With the name known from creation on, no failure leaves a temporary file. */
  lemma FailedSaveLeavesNoTemp(st: Store, ds: seq<Dotfile>, fault: SaveFault)
    requires fault != NoFault
    ensures SaveEffect(st, ds, fault, AtCreate).0 == st
  {
  }

  // ---------------------------------------------------------------- adding

  /** The key `add_dotfile` compares on: source and target, not profile. */
  predicate SamePair(a: Dotfile, b: Dotfile)
  {
    a.source == b.source && a.target == b.target
  }

  predicate HasPair(ds: seq<Dotfile>, d: Dotfile)
  {
    exists i :: 0 <= i < |ds| && SamePair(ds[i], d)
  }

  /** The records after `d` is added: unchanged when its pair is present, else `d` at the end. */
  function Added(ds: seq<Dotfile>, d: Dotfile): seq<Dotfile>
  {
    if HasPair(ds, d) then ds else ds + [d]
  }

  /** The number of records with the pair of `d`. */
  function CountPair(ds: seq<Dotfile>, d: Dotfile): nat
  {
    if ds == [] then 0 else (if SamePair(ds[0], d) then 1 else 0) + CountPair(ds[1..], d)
  }

  /** The store after `add_dotfile(d)`, and the error it raises. */
  function AddEffect(st: Store, d: Dotfile, fault: SaveFault, binding: TempBinding): (Store, Option<Error>)
  {
    match Load(st.stored)
    case Err(e) => (st, Some(e))
    case Ok(cur) => if HasPair(cur, d) then (st, None) else SaveEffect(st, cur + [d], fault, binding)
  }

  /** Adding keeps the earlier records in order and appends `d` exactly when its pair is new. */
  lemma AddedAppends(ds: seq<Dotfile>, d: Dotfile)
    ensures Added(ds, d)[..|ds|] == ds
    ensures |Added(ds, d)| == if HasPair(ds, d) then |ds| else |ds| + 1
    ensures !HasPair(ds, d) ==> Added(ds, d)[|ds|] == d
    ensures HasPair(Added(ds, d), d)
  {
    if !HasPair(ds, d) {
      assert SamePair((ds + [d])[|ds|], d);
    }
  }

  /** Adding a record with the same pair again changes nothing. */
  lemma AddedIdempotent(ds: seq<Dotfile>, d: Dotfile, e: Dotfile)
    requires SamePair(d, e)
    ensures Added(Added(ds, d), e) == Added(ds, d)
  {
    AddedAppends(ds, d);
    var i :| 0 <= i < |Added(ds, d)| && SamePair(Added(ds, d)[i], d);
    assert SamePair(Added(ds, d)[i], e);
  }

  lemma {:induction false} CountPairAppend(a: seq<Dotfile>, b: seq<Dotfile>, d: Dotfile)
    ensures CountPair(a + b, d) == CountPair(a, d) + CountPair(b, d)
  {
    if a == [] {
      assert a + b == b;
    } else {
      assert (a + b)[0] == a[0];
      assert (a + b)[1..] == a[1..] + b;
      CountPairAppend(a[1..], b, d);
    }
  }

  lemma {:induction false} CountPairZero(ds: seq<Dotfile>, d: Dotfile)
    ensures CountPair(ds, d) == 0 <==> !HasPair(ds, d)
  {
    if ds != [] {
      CountPairZero(ds[1..], d);
      if HasPair(ds[1..], d) {
        var i :| 0 <= i < |ds[1..]| && SamePair(ds[1..][i], d);
        assert SamePair(ds[i + 1], d);
      }
      if HasPair(ds, d) && !SamePair(ds[0], d) {
        var i :| 0 <= i < |ds| && SamePair(ds[i], d);
        assert SamePair(ds[1..][i - 1], d);
      }
    }
  }

  /** After adding `d`, its pair occurs once, or as often as it did before if it was there. */
  lemma AddedCount(ds: seq<Dotfile>, d: Dotfile)
    ensures CountPair(Added(ds, d), d) == if CountPair(ds, d) == 0 then 1 else CountPair(ds, d)
  {
    CountPairZero(ds, d);
    if !HasPair(ds, d) {
      CountPairAppend(ds, [d], d);
      assert [d][1..] == [];
    }
  }

  /** A load failure stops `add_dotfile` before anything changes; a present pair makes it a no-op. */
  lemma AddEffectCases(st: Store, d: Dotfile, fault: SaveFault, binding: TempBinding)
    ensures Load(st.stored).Err? ==> AddEffect(st, d, fault, binding) == (st, Some(ConfigError))
    ensures Load(st.stored).Ok? && HasPair(Load(st.stored).value, d) ==> AddEffect(st, d, fault, binding) == (st, None)
    ensures AddEffect(st, d, fault, binding).1.Some? ==> AddEffect(st, d, fault, binding).0.stored == st.stored
  {
  }

  /** A successful add is read back as the earlier records followed by `d` when its pair was new. */
  lemma AddThenLoad(st: Store, d: Dotfile, binding: TempBinding)
    requires Load(st.stored).Ok?
    requires WellFormed(d.source) && WellFormed(d.target)
    ensures Load(AddEffect(st, d, NoFault, binding).0.stored) == Ok(Added(Load(st.stored).value, d))
  {
    var cur := Load(st.stored).value;
    if !HasPair(cur, d) {
      LoadedStorable(st.stored);
      assert Storable(cur + [d]) by {
        forall i | 0 <= i < |cur + [d]| ensures WellFormed((cur + [d])[i].source) && WellFormed((cur + [d])[i].target) {
          if i < |cur| { assert (cur + [d])[i] == cur[i]; }
        }
      }
      LoadRoundTrip(cur + [d]);
    }
  }

  /** Adding the same source and target twice leaves the pair in the store exactly once when it was new. */
  lemma AddTwiceLeavesOne(st: Store, d: Dotfile, e: Dotfile, fault: SaveFault, binding: TempBinding)
    requires Load(st.stored).Ok? && !HasPair(Load(st.stored).value, d)
    requires WellFormed(d.source) && WellFormed(d.target)
    requires SamePair(d, e)
    ensures var st1 := AddEffect(st, d, NoFault, binding).0;
      && AddEffect(st1, e, fault, binding) == (st1, None)
      && Load(st1.stored).Ok? && CountPair(Load(st1.stored).value, d) == 1
  {
    var cur := Load(st.stored).value;
    AddThenLoad(st, d, binding);
    AddedAppends(cur, d);
    var i :| 0 <= i < |Added(cur, d)| && SamePair(Added(cur, d)[i], d);
    assert SamePair(Added(cur, d)[i], e);
    CountPairZero(cur, d);
    AddedCount(cur, d);
  }

  // ---------------------------------------------------------------- the service

  class ConfigService {
    const configPath: Location
    var stored: Stored
    var strayTemps: nat

    constructor (ctx: AppContext, initial: Stored)
      ensures configPath == ctx.configPath && stored == initial && strayTemps == 0
    {
      configPath := ctx.configPath;
      stored := initial;
      strayTemps := 0;
    }

    function State(): Store
      reads this
    {
      Store(stored, strayTemps)
    }

    /**
     * `save_config(ds)`: makes a temporary file beside the config, writes
     * the records into it and replaces the config with it. On a failure the
     * temporary file is unlinked only if `tmp_path` is bound by then: with
     * `AfterWrite`, as written, a failed write leaves it behind.
     */
    method SaveConfig(ds: seq<Dotfile>, fault: SaveFault, binding: TempBinding) returns (err: Option<Error>)
      modifies this
      ensures (State(), err) == SaveEffect(old(State()), ds, fault, binding)
    {
      if fault == CreateFails {
        return Some(ConfigError);
      }
      strayTemps := strayTemps + 1;
      var named := binding == AtCreate;
      if fault == WriteFails {
        if named {
          strayTemps := strayTemps - 1;
        }
        return Some(ConfigError);
      }
      named := true;
      if fault == ReplaceFails {
        if named {
          strayTemps := strayTemps - 1;
        }
        return Some(ConfigError);
      }
      stored := Entries(EncodeAll(ds));
      strayTemps := strayTemps - 1;
      err := None;
    }

    /** The scan of `add_dotfile` for a record with the pair of `d`. */
    static method FindPair(ds: seq<Dotfile>, d: Dotfile) returns (found: bool)
      ensures found == HasPair(ds, d)
    {
      var i := 0;
      while i < |ds|
        invariant 0 <= i <= |ds|
        invariant forall j :: 0 <= j < i ==> !SamePair(ds[j], d)
      {
        if ds[i].source == d.source && ds[i].target == d.target {
          assert SamePair(ds[i], d);
          return true;
        }
        i := i + 1;
      }
      found := false;
    }

    /** `add_dotfile(d)`: loads, looks for a record with the same pair, and otherwise appends and saves. */
    method AddDotfile(d: Dotfile, fault: SaveFault, binding: TempBinding) returns (err: Option<Error>)
      modifies this
      ensures (State(), err) == AddEffect(old(State()), d, fault, binding)
    {
      var loaded := Load(stored);
      if loaded.Err? {
        return Some(loaded.error);
      }
      var current := loaded.value;
      var present := FindPair(current, d);
      if present {
        return None;
      }
      err := SaveConfig(current + [d], fault, binding);
    }
  }
}
