/**
 * The two collaborators the coordinator keeps preferences in: the settings
 * store (the registry subkey SOFTWARE\<app> under the current user, a map
 * of DWORD values) and the "run at startup" registration, a boolean owned by
 * the platform. What the platform does to one handler call is an `Io` value:
 * whether the subkey opens, which reads and which writes fail, whether the
 * executable path resolves and whether the registration API succeeds.
 */
module Settings {
  import opened Wrappers

  /** A registry DWORD. */
  type U32 = x: int | 0 <= x < 0x1_0000_0000

  type Store = map<string, U32>

  const FirstTimeUseKey: string := "FirstTimeUse"
  const AutoUpdateKey: string := "AutoUpdate"

  datatype Io = Io(
    keyOpens: bool,                  // create_subkey succeeds
    readFails: set<string>,          // values that cannot be read as a DWORD
    writeFails: set<(string, U32)>,  // set_value calls that fail
    exeKnown: bool,                  // current_exe succeeds
    launchOk: bool)                  // enable, disable and is_enabled succeed

  /** `b as u32`. */
  function Flag(b: bool): U32
  {
    if b then 1 else 0
  }

  /** The stored value of `key`, if any, regardless of whether a read would fail. */
  function Lookup(s: Store, key: string): Option<U32>
  {
    if key in s then Some(s[key]) else None
  }

  /** get_value::<u32>: fails on a missing key and on one that cannot be read. */
  function Read(s: Store, io: Io, key: string): (r: Option<U32>)
    ensures r.Some? <==> key in s && key !in io.readFails
    ensures r.Some? ==> r == Lookup(s, key)
  {
    if key in s && key !in io.readFails then Some(s[key]) else None
  }

  predicate Writes(io: Io, key: string, v: U32)
  {
    (key, v) !in io.writeFails
  }

  /** set_value: the store after the write, which may fail. */
  function Written(s: Store, io: Io, key: string, v: U32): Store
  {
    if Writes(io, key, v) then s[key := v] else s
  }

  class SettingsStore {
    var values: Store

    constructor (values: Store)
      ensures this.values == values
    {
      this.values := values;
    }

    method GetValue(io: Io, key: string) returns (r: Option<U32>)
      ensures r == Read(values, io, key)
    {
      if key in values && key !in io.readFails {
        r := Some(values[key]);
      } else {
        r := None;
      }
    }

    method SetValue(io: Io, key: string, v: U32) returns (ok: bool)
      modifies this
      ensures ok == Writes(io, key, v)
      ensures values == Written(old(values), io, key, v)
    {
      ok := Writes(io, key, v);
      if ok {
        values := values[key := v];
      }
    }
  }

  class StartupRegistration {
    var enabled: bool

    constructor (enabled: bool)
      ensures this.enabled == enabled
    {
      this.enabled := enabled;
    }

    method Enable(io: Io) returns (ok: bool)
      modifies this
      ensures ok == io.launchOk
      ensures enabled == (old(enabled) || ok)
    {
      ok := io.launchOk;
      if ok {
        enabled := true;
      }
    }

    method Disable(io: Io) returns (ok: bool)
      modifies this
      ensures ok == io.launchOk
      ensures enabled == (old(enabled) && !ok)
    {
      ok := io.launchOk;
      if ok {
        enabled := false;
      }
    }

    method IsEnabled(io: Io) returns (r: Option<bool>)
      ensures r == if io.launchOk then Some(enabled) else None
    {
      r := if io.launchOk then Some(enabled) else None;
    }
  }
}
