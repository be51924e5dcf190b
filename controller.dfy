/** `MonitorController`: the configuration dictionary as state, the
    brightness operations that update it, the external brightness command
    and the save of the configuration file. */
module Controller {
  import opened Values
  import opened Brightness
  import opened Decimal
  import opened ConfigOps

  /** What `platform.system()` reports, as far as the controller cares. */
  datatype Platform = Windows | Darwin | OtherPlatform

  /** An external program and its argument list. */
  datatype Command = Command(program: string, args: seq<string>)

  /** How a brightness operation ends: normally, or with an exception. */
  datatype Outcome = Done | Failed(error: Error)

  /** The external command that applies brightness `b` on platform `p`:
      `ScreenBright.exe` on Windows, `ddcctl` for display 1 on macOS,
      nothing elsewhere. Its last argument is the decimal text of `b`. */
  function BrightnessCommand(p: Platform, b: int): (c: Option<Command>)
    ensures c.Some? <==> !p.OtherPlatform?
    ensures p.Windows? ==> c.value.program == "ScreenBright.exe"
    ensures p.Darwin? ==> c.value.program == "ddcctl"
    ensures c.Some? ==> |c.value.args| > 0 && ParseInt(c.value.args[|c.value.args| - 1]) == Some(b)
  {
    ParseIntOfIntToString(b);
    match p
    case Windows => Some(Command("ScreenBright.exe", ["-set", "brightness", IntToString(b)]))
    case Darwin => Some(Command("ddcctl", ["-d", "1", "-b", IntToString(b)]))
    case OtherPlatform => None
  }

  /** The commands run, in order, when brightness `b` is applied. */
  function CommandsFor(p: Platform, b: int): (cs: seq<Command>)
  {
    match BrightnessCommand(p, b)
    case Some(c) => [c]
    case None => []
  }

  class MonitorController {
    const platform: Platform
    /** The in-memory configuration dictionary. */
    var config: Config
    /** Every document written to the configuration file, oldest first. */
    ghost var saved: seq<Config>
    /** Every external brightness command run, oldest first. */
    ghost var issued: seq<Command>

    /** Start-up: the loaded document, or an empty one when the file does
        not exist (`None`), completed by `check_config`. */
    constructor (platform: Platform, loaded: Option<Config>)
      ensures this.platform == platform
      ensures config == FillDefaults(if loaded.Some? then loaded.value else map[], Defaults)
      ensures Filled(config)
      ensures saved == [] && issued == []
    {
      this.platform := platform;
      config := if loaded.Some? then loaded.value else map[];
      saved := [];
      issued := [];
      new;
      CheckConfig();
    }

    /** Runs the platform's brightness command; it does not touch the
        configuration. */
    method RunCommand(value: int)
      modifies this`issued
      ensures issued == old(issued) + CommandsFor(platform, value)
    {
      issued := issued + CommandsFor(platform, value);
    }

    /** Writes the in-memory configuration to the configuration file. */
    method SaveConfig()
      modifies this`saved
      ensures saved == old(saved) + [config]
    {
      saved := saved + [config];
    }

    /** `set_brightness`: `KeyError` when no brightness is stored; otherwise
        runs the command for the clamped value, stores it and saves the
        configuration, even when the stored value does not change. */
    method SetBrightness(brightness: int) returns (outcome: Outcome)
      modifies this`config, this`saved, this`issued
      ensures outcome.Done? <==> BrightnessKey in old(config)
      ensures outcome.Failed? ==>
        outcome.error == KeyError(BrightnessKey) &&
        config == old(config) && saved == old(saved) && issued == old(issued)
      ensures outcome.Done? ==>
        config == SetConfig(old(config), brightness).value &&
        config[BrightnessKey] == Int(Clamp(brightness)) &&
        saved == old(saved) + [config] &&
        issued == old(issued) + CommandsFor(platform, Clamp(brightness))
      ensures Filled(old(config)) ==> Filled(config)
    {
      if BrightnessKey !in config {
        return Failed(KeyError(BrightnessKey));
      }
      var clamped := Clamp(brightness);
      RunCommand(clamped);
      config := config[BrightnessKey := Int(clamped)];
      SaveConfig();
      outcome := Done;
    }

    /** `change_brightness`: adds the signed change to the stored
        brightness and sets the sum. */
    method ChangeBrightness(brightnessChange: int) returns (outcome: Outcome)
      modifies this`config, this`saved, this`issued
      ensures outcome.Done? <==> ChangeConfig(old(config), brightnessChange).Ok?
      ensures outcome.Failed? ==>
        outcome.error == ChangeConfig(old(config), brightnessChange).error &&
        config == old(config) && saved == old(saved) && issued == old(issued)
      ensures outcome.Done? ==>
        config == ChangeConfig(old(config), brightnessChange).value &&
        saved == old(saved) + [config] &&
        issued == old(issued) +
          CommandsFor(platform, Clamp(brightnessChange + AsInt(old(config)[BrightnessKey]).value))
      ensures Filled(old(config)) ==> Filled(config)
    {
      if BrightnessKey !in config {
        return Failed(KeyError(BrightnessKey));
      }
      var stored := AsInt(config[BrightnessKey]);
      if stored.None? {
        return Failed(TypeError);
      }
      outcome := SetBrightness(brightnessChange + stored.value);
    }

    /** `check_config`: each key in `Defaults` that is missing or null gets
        its default value. */
    method CheckConfig()
      modifies this`config
      ensures config == FillDefaults(old(config), Defaults)
      ensures Filled(config)
      ensures BrightnessKey in config && config[BrightnessKey] ==
        (if Lookup(old(config), BrightnessKey) == Null then Int(DefaultBrightnessValue) else old(config)[BrightnessKey])
      ensures DebugKey in config && config[DebugKey] ==
        (if Lookup(old(config), DebugKey) == Null then Bool(false) else old(config)[DebugKey])
      ensures forall key :: key != BrightnessKey && key != DebugKey ==>
        (key in config <==> key in old(config)) && (key in config ==> config[key] == old(config)[key])
    {
      for i := 0 to |Defaults|
        invariant config == FillDefaults(old(config), Defaults[..i])
      {
        var (key, def) := Defaults[i];
        assert Defaults[..i + 1][..i] == Defaults[..i];
        if Lookup(config, key) == Null {
          config := config[key := def];
        }
      }
      assert Defaults[..|Defaults|] == Defaults;
      CheckConfigSpec(old(config));
    }
  }

  /** The start-up configuration: the loaded document, or an empty one,
      completed by `check_config`. */
  function StartConfig(loaded: Option<Config>): (r: Config)
    ensures Filled(r)
  {
    CheckConfigSpec(if loaded.Some? then loaded.value else map[]);
    FillDefaults(if loaded.Some? then loaded.value else map[], Defaults)
  }

  /** The command-line entry point: construct the controller, then change
      the brightness by the requested step. After start-up a `KeyError` is
      impossible; a failure leaves the start-up state with nothing run or
      saved, and a success stores the in-range clamped sum, runs its command
      and saves once. */
  method ChangeFromCommandLine(platform: Platform, loaded: Option<Config>, step: int)
    returns (mn: MonitorController, outcome: Outcome)
    requires -100 <= step <= 100
    ensures outcome.Failed? <==>
      Lookup(if loaded.Some? then loaded.value else map[], BrightnessKey).Str?
    ensures outcome.Failed? ==> outcome == Failed(TypeError)
    ensures outcome.Failed? ==>
      mn.config == StartConfig(loaded) && mn.saved == [] && mn.issued == []
    ensures outcome.Done? ==>
      ChangeConfig(StartConfig(loaded), step).Ok? && AsInt(StartConfig(loaded)[BrightnessKey]).Some?
    ensures outcome.Done? ==>
      var start := StartConfig(loaded);
      var applied := Clamp(step + AsInt(start[BrightnessKey]).value);
      ChangeConfig(start, step).Ok? &&
      mn.config == ChangeConfig(start, step).value &&
      mn.config[BrightnessKey] == Int(applied) && InRange(applied) &&
      mn.saved == [mn.config] &&
      mn.issued == CommandsFor(platform, applied)
  {
    mn := new MonitorController(platform, loaded);
    CheckedConfigChange(if loaded.Some? then loaded.value else map[], step);
    outcome := mn.ChangeBrightness(step);
  }
}
