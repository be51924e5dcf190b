/** What `set_brightness`, `change_brightness` and `check_config` do to the
    configuration dictionary, as functions of the dictionary before the
    call, and the properties of those functions. */
module ConfigOps {
  import opened Values
  import opened Brightness

  const BrightnessKey: string := "brightness"
  const DebugKey: string := "debug"

  /** The keys `check_config` fills in, each with its default, in order. */
  const Defaults: seq<(string, Value)> :=
    [(BrightnessKey, Int(DefaultBrightnessValue)), (DebugKey, Bool(false))]

  /** The two exceptions the brightness operations can raise. */
  datatype Error = KeyError(key: string) | TypeError

  datatype Result<T> = Ok(value: T) | Raised(error: Error)

  /** `after` is `before` with `key` bound to `v` and every other entry
      kept. */
  predicate StoresOnly(before: Config, after: Config, key: string, v: Value)
  {
    key in after && after[key] == v &&
    after.Keys == before.Keys + {key} &&
    forall k :: k in before && k != key ==> after[k] == before[k]
  }

  /** Both keys the controller relies on hold a non-null value. */
  predicate Filled(cfg: Config)
  {
    Lookup(cfg, BrightnessKey) != Null && Lookup(cfg, DebugKey) != Null
  }

  // ---------------------------------------------------------------------
  // set_brightness and change_brightness

  /** The configuration after `set_brightness(b)`: reading the old value
      raises `KeyError` when there is none; otherwise the clamped value is
      stored and nothing else changes. */
  function SetConfig(cfg: Config, b: int): (r: Result<Config>)
    ensures r.Raised? <==> BrightnessKey !in cfg
    ensures r.Raised? ==> r.error == KeyError(BrightnessKey)
    ensures r.Ok? ==> StoresOnly(cfg, r.value, BrightnessKey, Int(Clamp(b)))
    ensures r.Ok? ==> r.value.Keys == cfg.Keys
  {
    if BrightnessKey !in cfg then Raised(KeyError(BrightnessKey))
    else Ok(cfg[BrightnessKey := Int(Clamp(b))])
  }

  /** The configuration after `change_brightness(d)`: `KeyError` without a
      stored brightness, `TypeError` when the stored value is not an
      integer, otherwise the clamped sum is stored. */
  function ChangeConfig(cfg: Config, d: int): (r: Result<Config>)
    ensures BrightnessKey !in cfg ==> r == Raised(KeyError(BrightnessKey))
    ensures BrightnessKey in cfg && AsInt(cfg[BrightnessKey]).None? ==> r == Raised(TypeError)
    ensures BrightnessKey in cfg && AsInt(cfg[BrightnessKey]).Some? ==>
      r.Ok? && StoresOnly(cfg, r.value, BrightnessKey, Int(Clamp(d + AsInt(cfg[BrightnessKey]).value)))
  {
    if BrightnessKey !in cfg then Raised(KeyError(BrightnessKey))
    else match AsInt(cfg[BrightnessKey])
      case None => Raised(TypeError)
      case Some(stored) => SetConfig(cfg, d + stored)
  }

  /** Whatever was requested, a successful set leaves an integer brightness
      within the range. */
  lemma SetStoresInRange(cfg: Config, b: int)
    requires SetConfig(cfg, b).Ok?
    ensures var after := SetConfig(cfg, b).value;
      BrightnessKey in after && after[BrightnessKey].Int? && InRange(after[BrightnessKey].i)
  {
  }

  /** A boolean stored brightness takes part in the addition as 0 or 1
      (`True + d`), and the change stores an integer from then on. */
  lemma ChangeFromBool(cfg: Config, d: int, b: bool)
    requires BrightnessKey in cfg && cfg[BrightnessKey] == Bool(b)
    ensures ChangeConfig(cfg, d).Ok?
    ensures ChangeConfig(cfg, d).value[BrightnessKey] == Int(Clamp(d + if b then 1 else 0))
  {
  }

  /** Setting the same brightness twice is the same as setting it once. */
  lemma SetIdempotent(cfg: Config, b: int)
    requires SetConfig(cfg, b).Ok?
    ensures SetConfig(SetConfig(cfg, b).value, b) == SetConfig(cfg, b)
  {
    var once := SetConfig(cfg, b).value;
    assert once[BrightnessKey := Int(Clamp(b))] == once;
  }

  /** A change by zero from an in-range integer brightness leaves the
      configuration as it was. */
  lemma ChangeByZeroKeepsConfig(cfg: Config)
    requires BrightnessKey in cfg && cfg[BrightnessKey].Int? && InRange(cfg[BrightnessKey].i)
    ensures ChangeConfig(cfg, 0) == Ok(cfg)
  {
    assert cfg[BrightnessKey := cfg[BrightnessKey]] == cfg;
  }

  /** From an in-range integer brightness, a change by `d` moves the stored
      brightness by at most `|d|`. */
  lemma ChangeMovesAtMost(cfg: Config, d: int)
    requires BrightnessKey in cfg && cfg[BrightnessKey].Int? && InRange(cfg[BrightnessKey].i)
    ensures var r := ChangeConfig(cfg, d);
      r.Ok? && r.value[BrightnessKey].Int? &&
      Abs(r.value[BrightnessKey].i - cfg[BrightnessKey].i) <= Abs(d)
  {
    var stored := cfg[BrightnessKey].i;
    ClampNonExpansive(d + stored, stored);
  }

  /** Set and change keep both required keys non-null. */
  lemma SetAndChangeKeepFilled(cfg: Config, b: int, d: int)
    requires Filled(cfg)
    ensures SetConfig(cfg, b).Ok? && Filled(SetConfig(cfg, b).value)
    ensures ChangeConfig(cfg, d).Ok? ==> Filled(ChangeConfig(cfg, d).value)
  {
  }

  // ---------------------------------------------------------------------
  // check_config

  /** One step of `check_config`: a missing or null key gets its default. */
  function FillDefault(cfg: Config, key: string, def: Value): (r: Config)
  {
    if Lookup(cfg, key) == Null then cfg[key := def] else cfg
  }

  /** `check_config` over the defaults `ds`, taken in order. */
  function FillDefaults(cfg: Config, ds: seq<(string, Value)>): (r: Config)
    decreases |ds|
  {
    if ds == [] then cfg
    else FillDefault(FillDefaults(cfg, ds[..|ds| - 1]), ds[|ds| - 1].0, ds[|ds| - 1].1)
  }

  predicate DistinctKeys(ds: seq<(string, Value)>)
  {
    forall i, j :: 0 <= i < j < |ds| ==> ds[i].0 != ds[j].0
  }

  /** A key with a default ends up present: it keeps a non-null value it
      had, and takes the default otherwise. */
  lemma {:induction false} FillDefaultsAt(cfg: Config, ds: seq<(string, Value)>, i: nat)
    requires DistinctKeys(ds) && i < |ds|
    ensures var r := FillDefaults(cfg, ds); var key := ds[i].0;
      key in r &&
      r[key] == (if Lookup(cfg, key) == Null then ds[i].1 else cfg[key])
    decreases |ds|
  {
    var n := |ds| - 1;
    var front := ds[..n];
    if i < n {
      assert front[i] == ds[i];
      assert DistinctKeys(front) by {
        forall p, q | 0 <= p < q < |front| ensures front[p].0 != front[q].0 {
          assert front[p] == ds[p] && front[q] == ds[q];
        }
      }
      FillDefaultsAt(cfg, front, i);
      assert ds[n].0 != ds[i].0;
    } else {
      FillDefaultsElsewhere(cfg, front, ds[i].0);
    }
  }

  /** A key without a default is left exactly as it was (present or not). */
  lemma {:induction false} FillDefaultsElsewhere(cfg: Config, ds: seq<(string, Value)>, key: string)
    requires forall i :: 0 <= i < |ds| ==> ds[i].0 != key
    ensures var r := FillDefaults(cfg, ds);
      (key in r <==> key in cfg) && (key in r ==> r[key] == cfg[key])
    decreases |ds|
  {
    if ds != [] {
      var front := ds[..|ds| - 1];
      forall i | 0 <= i < |front| ensures front[i].0 != key {
        assert front[i] == ds[i];
      }
      FillDefaultsElsewhere(cfg, front, key);
    }
  }

  /** Running `check_config` twice is the same as running it once. */
  lemma FillDefaultsIdempotent(cfg: Config, ds: seq<(string, Value)>)
    requires DistinctKeys(ds)
    ensures FillDefaults(FillDefaults(cfg, ds), ds) == FillDefaults(cfg, ds)
  {
    var once := FillDefaults(cfg, ds);
    var twice := FillDefaults(once, ds);
    forall key | key in once || key in twice
      ensures key in once && key in twice && twice[key] == once[key]
    {
      if i :| 0 <= i < |ds| && ds[i].0 == key {
        FillDefaultsAt(cfg, ds, i);
        FillDefaultsAt(once, ds, i);
      } else {
        FillDefaultsElsewhere(cfg, ds, key);
        FillDefaultsElsewhere(once, ds, key);
      }
    }
    assert once.Keys == twice.Keys;
  }

  /** `check_config` with the controller's defaults: `brightness` and
      `debug` become present and non-null (50 and `False` where they were
      missing or null, their old value otherwise), and every other key is
      untouched. */
  lemma CheckConfigSpec(cfg: Config)
    ensures var r := FillDefaults(cfg, Defaults);
      Filled(r) &&
      BrightnessKey in r && DebugKey in r &&
      r[BrightnessKey] == (if Lookup(cfg, BrightnessKey) == Null then Int(DefaultBrightnessValue) else cfg[BrightnessKey]) &&
      r[DebugKey] == (if Lookup(cfg, DebugKey) == Null then Bool(false) else cfg[DebugKey]) &&
      forall key :: key != BrightnessKey && key != DebugKey ==>
        (key in r <==> key in cfg) && (key in r ==> r[key] == cfg[key])
  {
    var r := FillDefaults(cfg, Defaults);
    assert DistinctKeys(Defaults);
    FillDefaultsAt(cfg, Defaults, 0);
    FillDefaultsAt(cfg, Defaults, 1);
    forall key | key != BrightnessKey && key != DebugKey
      ensures (key in r <==> key in cfg) && (key in r ==> r[key] == cfg[key])
    {
      FillDefaultsElsewhere(cfg, Defaults, key);
    }
  }

  /** After `check_config`, `set_brightness` can no longer raise. */
  lemma CheckedConfigAcceptsSet(cfg: Config, b: int)
    ensures SetConfig(FillDefaults(cfg, Defaults), b).Ok?
  {
    CheckConfigSpec(cfg);
  }

  /** What the command-line entry point can meet: after the start-up
      `check_config`, `change_brightness` raises exactly when the loaded
      brightness is a string, and then raises `TypeError`. */
  lemma CheckedConfigChange(cfg: Config, d: int)
    ensures var r := ChangeConfig(FillDefaults(cfg, Defaults), d);
      (r.Raised? <==> Lookup(cfg, BrightnessKey).Str?) &&
      (r.Raised? ==> r.error == TypeError)
  {
    CheckConfigSpec(cfg);
  }
}
