/** Keeps settings, settings file and platform on the same power state. */
module PowerControllers {
  import opened PowerTypes
  import opened Settings
  import opened SettingsStore
  import opened ModeChange
  import opened ModeChangeTheorems

  /** Synchronising the platform with freshly loaded settings: push the loaded state, or take
      the platform's state over when it refuses. `d` is the device as loaded. */
  function BootDevice(d: Device, readable: bool, env: Env): Device {
    if !readable || d.stored == d.platform then d
    else if Accepts(d.stored, env) then SetDevice(d, d.stored, env).0
    else d.(stored := d.platform, saved := Saving(d, d.platform, env.access))
  }

  /** After boot memory and platform agree exactly when they agreed as loaded or the platform
      could be read. The file agrees as well exactly when it holds the state settled on, or that
      state was written to it in a version that a reload accepts or replaces by the same. */
  lemma BootAgreement(d: Device, readable: bool, env: Env)
    ensures var t := BootDevice(d, readable, env);
            && (t.stored == t.platform <==> d.stored == d.platform || readable)
            && (InSync(t) <==>
                  var settled := if Accepts(d.stored, env) then d.stored else d.platform;
                  if d.stored == d.platform || !readable then InSync(d)
                  else if env.access == Writable then d.valid || settled == DEFAULT_STATE
                  else d.saved == settled)
  {
  }

  /** One wakeup source of a configuration, and the platform's answer to it. */
  datatype WakeupAnswer = WakeupAnswer(ok: bool, supported: bool)

  class PowerController {
    const storage: Storage
    const settings: PowerSettings
    var lastKnown: PowerState
    var platformState: PowerState     // the hardware's own state

    /** `saved` is what loading the file would yield now. */
    ghost function Value(): Device
      reads this, settings, storage
    {
      Device(settings.powerState, lastKnown, platformState, storage.SavedState(), settings.version == V1)
    }

    constructor (storage: Storage, platformState: PowerState, readable: bool, opt: Access, ram: Access, env: Env)
      modifies storage
      ensures fresh(settings) && this.storage == storage
      ensures var loaded := LoadSettings(old(storage.Value()), opt, ram);
              var state := loaded.record.powerState;
              && Value() == BootDevice(Device(state, state, platformState, Reload(loaded.disk.opt).powerState, opt != Unopened),
                                       readable, env)
              && settings.beforeReboot == loaded.beforeReboot
              && storage.ram == loaded.disk.ram
      ensures readable && opt != Unopened && env.access == Writable ==> InSync(Value())
    {
      var loaded := Load(storage, OptPath, opt, ram);
      if opt != Unopened {
        LoadIsIdempotent(old(storage.opt), opt, Unwritten);
      }
      this.storage, this.settings := storage, loaded;
      this.lastKnown, this.platformState := loaded.powerState, platformState;
      new;
      BootAgreement(Value(), readable, env);
      Init(readable, env);
    }

    method Init(readable: bool, env: Env)
      modifies this, settings`powerState, storage
      ensures Value() == BootDevice(old(Value()).(lastKnown := old(settings.powerState)), readable, env)
      ensures storage.ram == old(storage.ram)
    {
      lastKnown := settings.powerState;
      if !readable {
        return;
      }
      var currentState := platformState;
      if settings.powerState == currentState {
        return;
      }
      var status := SetPowerState(settings.powerState, env);
      if status == ErrorNone {
        return;
      }
      settings.powerState := currentState;
      SavedThen(env.access);
      var _ := settings.Save(storage, OptPath, env.access);
    }

    lemma SavedThen(access: Access)
      ensures Reload(SaveNode(storage.opt, settings.Value(), access)).powerState ==
              Saving(Value(), settings.powerState, access)
    {
      SaveThenLoad(storage.opt, settings.Value(), access);
    }

    /** Nothing changes unless the platform accepts; then memory, file and history follow it. */
    method SetPowerState(target: PowerState, env: Env) returns (status: Status)
      modifies this, settings`powerState, storage
      ensures (Value(), status) == SetDevice(old(Value()), target, env)
      ensures status == if env.ignoreDeepSleep && target == DeepSleep then ErrorIllegalState
                        else if env.platformOk then ErrorNone else ErrorGeneral
      ensures status == ErrorNone ==> settings.powerState == platformState == target
      ensures storage.ram == old(storage.ram)
    {
      if env.ignoreDeepSleep && target == DeepSleep {
        return ErrorIllegalState;
      }
      var current := settings.powerState;
      if env.platformOk {
        platformState := target;
        settings.powerState := target;
        SavedThen(env.access);
        var _ := settings.Save(storage, OptPath, env.access);
        lastKnown := current;
        status := ErrorNone;
      } else {
        status := ErrorGeneral;
      }
    }

    method GetPowerState() returns (current: PowerState, previous: PowerState)
      ensures Event(previous, current) == Event(Value().lastKnown, Value().stored)
    {
      current, previous := settings.powerState, lastKnown;
    }

    /** Every source is tried; an error of an unsupported source is not an error. */
    static method SetWakeupSourceConfig(answers: seq<WakeupAnswer>) returns (status: Status)
      ensures status == if exists i :: 0 <= i < |answers| && answers[i].supported && !answers[i].ok then ErrorGeneral else ErrorNone
    {
      var failed := false;
      for i := 0 to |answers|
        invariant failed <==> exists j :: 0 <= j < i && answers[j].supported && !answers[j].ok
      {
        if !answers[i].ok && answers[i].supported {
          failed := true;
        }
      }
      status := if failed then ErrorGeneral else ErrorNone;
    }

    /** The standby flag changes, in memory and in the file, only after the platform took it. */
    method SetNetworkStandbyMode(mode: bool, wifi: WakeupAnswer, lan: WakeupAnswer, access: Access) returns (status: Status)
      modifies settings`standby, storage
      ensures storage.ram == old(storage.ram)
      ensures var refused := (wifi.supported && !wifi.ok) || (lan.supported && !lan.ok);
              if mode == old(settings.standby) || refused then
                && status == (if mode == old(settings.standby) then ErrorNone else ErrorGeneral)
                && settings.standby == old(settings.standby) && storage.Value() == old(storage.Value())
                && Value() == old(Value())
              else
                && settings.standby == mode
                && storage.opt == SaveNode(old(storage.opt), settings.Value(), access)
                && (status == ErrorNone <==> access == Writable)
                && Value() == Saved(old(Value()), access)
    {
      if mode == settings.standby {
        return ErrorNone;
      }
      var answers := [wifi, lan];
      assert answers[0] == wifi && answers[1] == lan;
      status := SetWakeupSourceConfig(answers);
      if status == ErrorNone {
        settings.standby := mode;
        SavedThen(access);
        var ok := settings.Save(storage, OptPath, access);
        if !ok {
          status := ErrorGeneral;
        }
      }
    }

    /** The wakeup timeout changes in memory, and the settings are saved twice. */
    method SetDeepSleepTimer(timeOut: int, first: Access, second: Access) returns (status: Status)
      modifies settings`timeout, storage
      ensures status == ErrorNone && settings.timeout == Unsigned(timeOut)
      ensures storage.ram == old(storage.ram)
      ensures storage.opt == SaveNode(SaveNode(old(storage.opt), settings.Value(), first), settings.Value(), second)
      ensures Value() == Saved(Saved(old(Value()), first), second)
    {
      settings.timeout := Unsigned(timeOut);
      SavedThen(first);
      var _ := settings.Save(storage, OptPath, first);
      SavedThen(second);
      var _ := settings.Save(storage, OptPath, second);
      status := ErrorNone;
    }
  }
}
