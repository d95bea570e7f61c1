/** The settings object and the two files it lives in. */
module SettingsStore {
  import opened PowerTypes
  import opened Settings

  datatype Path = OptPath | RamPath

  /** The file system, as far as settings are concerned. */
  class Storage {
    var opt: Node
    var ram: Node

    constructor (opt: Node, ram: Node)
      ensures this.opt == opt && this.ram == ram
    {
      this.opt, this.ram := opt, ram;
    }

    function At(path: Path): Node
      reads this
    {
      if path == OptPath then opt else ram
    }

    function Value(): Disk
      reads this
    {
      Disk(opt, ram)
    }

    /** The power state that loading the persistent file would yield. */
    function SavedState(): PowerState
      reads this
    {
      Reload(opt).powerState
    }

    method Put(path: Path, n: Node)
      modifies this
      ensures Value() == if path == OptPath then Disk(n, old(ram)) else Disk(old(opt), n)
    {
      if path == OptPath {
        opt := n;
      } else {
        ram := n;
      }
    }
  }

  class PowerSettings {
    var magic: uint32
    var version: uint32
    var powerState: PowerState
    var beforeReboot: PowerState
    var timeout: uint32
    var standby: bool

    constructor ()
      ensures Value() == BLANK && beforeReboot == On
    {
      magic, version := 0, 0xFFFF_FFFF;
      powerState, beforeReboot := On, On;
      timeout, standby := DEFAULT_TIMEOUT, false;
    }

    function Value(): Record
      reads this
    {
      Record(magic, version, powerState, timeout, standby)
    }

    /** The version 1 reader: the fields change only if the whole record could be read. */
    method LoadV1(b: seq<byte>, length: uint32) returns (ok: bool)
      modifies this
      ensures ok <==> length == SIZE <= |b|
      ensures Value() == if ok then Decode(b) else old(Value())
      ensures beforeReboot == old(beforeReboot)
    {
      ok := false;
      if length == SIZE {
        var readSize := if |b| < SIZE then |b| else SIZE;
        if readSize == SIZE {
          magic := GetU32(b[0..4]);
          version := GetU32(b[4..8]);
          powerState := CodeState(GetU32(b[12..16]));
          timeout := GetU32(b[24..28]);
          standby := b[28] != 0;
          ok := true;
        }
      }
    }

    method InitDefaults()
      modifies this`magic, this`version
      ensures Value() == old(Value()).(magic := MAGIC, version := V1)
    {
      magic := MAGIC;
      version := V1;
    }

    /** Save fails exactly if the file cannot be opened or written; opening may create it. */
    method Save(storage: Storage, path: Path, access: Access) returns (ok: bool)
      modifies storage
      ensures ok <==> access == Writable
      ensures storage.At(path) == SaveNode(old(storage.At(path)), Value(), access)
      ensures storage.Value() == if path == OptPath then Disk(storage.opt, old(storage.ram)) else Disk(old(storage.opt), storage.ram)
    {
      if access == Unopened {
        return false;
      }
      var b := Contents(storage.At(path));
      storage.Put(path, Data(b));
      ok := access == Writable;
      if ok {
        storage.Put(path, Data(Overwrite(b, Encode(Value()))));
      }
    }
  }

  /** Opens, reads and if necessary repairs one file. */
  method LoadFile(storage: Storage, path: Path, access: Access) returns (settings: PowerSettings)
    modifies storage
    ensures fresh(settings)
    ensures settings.Value() == LoadNode(old(storage.At(path)), access).0
    ensures storage.At(path) == LoadNode(old(storage.At(path)), access).1
    ensures storage.Value() == if path == OptPath then Disk(storage.opt, old(storage.ram)) else Disk(old(storage.opt), storage.ram)
  {
    settings := new PowerSettings();
    if access != Unopened {
      var b := Contents(storage.At(path));
      storage.Put(path, Data(b));
      var ok := false;
      if |b| >= HEADER_SIZE && GetU32(b[4..8]) == V1 {
        ok := settings.LoadV1(b, GetU32(b[8..12]));
      }
      if !ok {
        settings.InitDefaults();
        var _ := settings.Save(storage, path, access);
      }
    }
  }

  /** Loading from the RAM path only reads that file; loading from the persistent path also
      fixes the state before reboot, by creating the RAM copy or by reading it. */
  method Load(storage: Storage, path: Path, opt: Access, ram: Access) returns (settings: PowerSettings)
    modifies storage
    ensures fresh(settings)
    ensures path == RamPath ==>
              && settings.Value() == LoadNode(old(storage.ram), ram).0
              && storage.Value() == Disk(old(storage.opt), LoadNode(old(storage.ram), ram).1)
    ensures path == OptPath ==>
              Loaded(settings.Value(), settings.beforeReboot, storage.Value()) == LoadSettings(old(storage.Value()), opt, ram)
    decreases path == OptPath
  {
    settings := LoadFile(storage, path, if path == OptPath then opt else ram);
    if path == RamPath {
      return;
    }
    settings.beforeReboot := settings.powerState;
    if storage.ram.Missing? {
      var _ := settings.Save(storage, RamPath, ram);
    } else {
      var ramSettings := Load(storage, RamPath, opt, ram);
      settings.beforeReboot := ramSettings.powerState;
    }
  }
}
