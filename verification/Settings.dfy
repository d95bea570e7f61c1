/** The persisted power settings: a fixed 32-byte record behind a versioned header,
    a load that repairs what it cannot read, and a copy on RAM storage that keeps the
    state the device had before its reboot. */
module Settings {
  import opened PowerTypes

  // ---------------------------------------------------------------- bytes

  type uint32 = x: int | 0 <= x < U32_RANGE

  function PutU32(x: uint32): (b: seq<byte>)
    ensures |b| == 4
  {
    var b0: int := x % 0x100;
    var b1: int := x / 0x100 % 0x100;
    var b2: int := x / 0x1_0000 % 0x100;
    var b3: int := x / 0x100_0000;
    [b0, b1, b2, b3]
  }

  function GetU32(b: seq<byte>): uint32
    requires |b| == 4
  {
    var b0: int, b1: int, b2: int, b3: int := b[0], b[1], b[2], b[3];
    b0 + 0x100 * b1 + 0x1_0000 * b2 + 0x100_0000 * b3
  }

  lemma U32RoundTrip(x: uint32)
    ensures GetU32(PutU32(x)) == x
  {
    var y := x / 0x100;
    var z := y / 0x100;
    assert x / 0x1_0000 == z && x / 0x100_0000 == z / 0x100;
  }

  // ---------------------------------------------------------------- record

  /** The fields of the settings that reach the file. */
  datatype Record = Record(magic: uint32, version: uint32, powerState: PowerState, timeout: uint32, standby: bool)

  const MAGIC: uint32 := 0xFEBE_EFAC
  const V1: uint32 := 1
  const HEADER_SIZE: nat := 12
  const SIZE: nat := 32             // the 64-byte structure without its 32 bytes of padding
  const DEFAULT_TIMEOUT: uint32 := 28800

  /** A settings object before anything was loaded into it, and one initialised to defaults. */
  const BLANK: Record := Record(0, 0xFFFF_FFFF, DEFAULT_STATE, DEFAULT_TIMEOUT, false)
  const DEFAULTS: Record := BLANK.(magic := MAGIC, version := V1)

  function StateCode(p: PowerState): uint32 {
    match p
    case Off => 0
    case Standby => 1
    case On => 2
    case LightSleep => 3
    case DeepSleep => 4
    case Unknown => 5
  }

  function CodeState(code: uint32): PowerState {
    match code
    case 0 => Off
    case 1 => Standby
    case 2 => On
    case 3 => LightSleep
    case 4 => DeepSleep
    case _ => Unknown
  }

  /** Magic, version, length, state, two unused words, timeout, the flag, three bytes of padding. */
  function Encode(r: Record): (b: seq<byte>)
    ensures |b| == SIZE
  {
    PutU32(r.magic) + PutU32(r.version) + PutU32(SIZE) + PutU32(StateCode(r.powerState)) + PutU32(0) + PutU32(0)
    + PutU32(r.timeout) + [if r.standby then 1 else 0, 0, 0, 0]
  }

  function Decode(b: seq<byte>): Record
    requires |b| >= SIZE
  {
    Record(GetU32(b[0..4]), GetU32(b[4..8]), CodeState(GetU32(b[12..16])), GetU32(b[24..28]), b[28] != 0)
  }

  /** The file is long enough, and its header names version 1 and the record's length. */
  predicate Readable(b: seq<byte>) {
    |b| >= SIZE && GetU32(b[4..8]) == V1 && GetU32(b[8..12]) == SIZE
  }

  lemma EncodedFields(r: Record, tail: seq<byte>)
    ensures var b := Encode(r) + tail;
            && Decode(b) == r
            && GetU32(b[4..8]) == r.version
            && GetU32(b[8..12]) == SIZE
  {
    var b := Encode(r) + tail;
    assert b[0..4] == PutU32(r.magic);
    assert b[4..8] == PutU32(r.version);
    assert b[8..12] == PutU32(SIZE);
    assert b[12..16] == PutU32(StateCode(r.powerState));
    assert b[24..28] == PutU32(r.timeout);
    U32RoundTrip(r.magic);
    U32RoundTrip(r.version);
    U32RoundTrip(SIZE);
    U32RoundTrip(StateCode(r.powerState));
    U32RoundTrip(r.timeout);
  }

  /** Four bytes, the least significant first. */
  function WordAt(b: seq<byte>, i: nat): int
    requires i + 4 <= |b|
  {
    var b0: int, b1: int, b2: int, b3: int := b[i], b[i + 1], b[i + 2], b[i + 3];
    b0 + 256 * (b1 + 256 * (b2 + 256 * b3))
  }

  lemma WordIsPut(b: seq<byte>, i: nat, x: uint32)
    requires i + 4 <= |b| && b[i..i + 4] == PutU32(x)
    ensures WordAt(b, i) == x
  {
    U32RoundTrip(x);
    assert b[i] == PutU32(x)[0] && b[i + 1] == PutU32(x)[1] && b[i + 2] == PutU32(x)[2] && b[i + 3] == PutU32(x)[3];
  }

  lemma Parts(r: Record)
    ensures var b := Encode(r);
            && b[0..4] == PutU32(r.magic) && b[4..8] == PutU32(r.version) && b[8..12] == PutU32(SIZE)
            && b[12..16] == PutU32(StateCode(r.powerState)) && b[16..20] == b[20..24] == PutU32(0)
            && b[24..28] == PutU32(r.timeout)
            && b[28..32] == [if r.standby then 1 else 0, 0, 0, 0]
  {
  }

  /** The bytes on the disk: little-endian words, and the numbers that stand for the states. */
  lemma FileLayout(r: Record)
    ensures var b := Encode(r);
            && WordAt(b, 0) == r.magic && WordAt(b, 4) == r.version && WordAt(b, 8) == 32
            && WordAt(b, 12) == (match r.powerState
                                 case Off => 0 case Standby => 1 case On => 2
                                 case LightSleep => 3 case DeepSleep => 4 case Unknown => 5)
            && WordAt(b, 16) == 0 && WordAt(b, 20) == 0 && WordAt(b, 24) == r.timeout
            && b[28..32] == [if r.standby then 1 else 0, 0, 0, 0]
  {
    var b := Encode(r);
    Parts(r);
    WordIsPut(b, 0, r.magic);
    WordIsPut(b, 4, r.version);
    WordIsPut(b, 8, SIZE);
    WordIsPut(b, 12, StateCode(r.powerState));
    WordIsPut(b, 16, 0);
    WordIsPut(b, 20, 0);
    WordIsPut(b, 24, r.timeout);
  }

  // ---------------------------------------------------------------- files

  /** Writing at the start of a file that is not truncated. */
  function Overwrite(b: seq<byte>, prefix: seq<byte>): seq<byte> {
    prefix + if |b| > |prefix| then b[|prefix|..] else []
  }

  /** A path without a file, or a file with contents. */
  datatype Node = Missing | Data(bytes: seq<byte>)

  function Contents(n: Node): seq<byte> {
    if n.Data? then n.bytes else []
  }

  function SaveNode(n: Node, r: Record, access: Access): Node {
    match access
    case Unopened => n
    case Unwritten => Data(Contents(n))
    case Writable => Data(Overwrite(Contents(n), Encode(r)))
  }

  /** Opening creates a missing file; unreadable contents are replaced by the defaults, in the
      file only if it can be written. */
  function LoadNode(n: Node, access: Access): (Record, Node) {
    if access == Unopened then (BLANK, n)
    else if Readable(Contents(n)) then (Decode(Contents(n)), Data(Contents(n)))
    else (DEFAULTS, SaveNode(n, DEFAULTS, access))
  }

  /** What loading the file yields when it can be opened. */
  function Reload(n: Node): Record {
    LoadNode(n, Unwritten).0
  }

  /** What was saved is loaded again, whatever the file held before, exactly for settings of
      version 1: a record of any other version is replaced by the defaults. A save that fails
      changes nothing that a load would yield. */
  lemma SaveThenLoad(n: Node, r: Record, access: Access)
    ensures Reload(SaveNode(n, r, Writable)) == r <==> r.version == V1
    ensures r.version == V1 ==> LoadNode(SaveNode(n, r, Writable), access).1 == SaveNode(n, r, Writable)
    ensures r.version != V1 ==> Reload(SaveNode(n, r, Writable)) == DEFAULTS
    ensures access != Writable ==> Reload(SaveNode(n, r, access)) == Reload(n)
  {
    var b := Contents(n);
    EncodedFields(r, if |b| > SIZE then b[SIZE..] else []);
  }

  /** Loading heals: for any bytes whatever, any later load that opens the file yields the same
      settings, of version 1; once the file could be written it stays as it is, and bytes beyond
      the record survive. */
  lemma LoadIsIdempotent(n: Node, access: Access, later: Access)
    requires access != Unopened
    ensures var (r, m) := LoadNode(n, access);
            && r.version == V1 && r == Reload(n)
            && (later != Unopened ==> LoadNode(m, later).0 == r)
            && Reload(LoadNode(m, later).1) == r
            && (access == Writable ==> LoadNode(m, later).1 == m)
            && (access == Writable ==> |Contents(m)| == Max(SIZE, |Contents(n)|))
            && (|Contents(n)| >= SIZE ==> |Contents(m)| >= SIZE && Contents(m)[SIZE..] == Contents(n)[SIZE..])
  {
    var b := Contents(n);
    if !Readable(b) {
      EncodedFields(DEFAULTS, if |b| > SIZE then b[SIZE..] else []);
    }
  }

  /** What a load yields otherwise: settings on, with eight hours and no network standby, which are
      of no valid version if the file could not be opened. */
  lemma UnreadableYieldsDefaults(n: Node, access: Access)
    ensures access == Unopened ==> LoadNode(n, access) == (Record(0, 0xFFFF_FFFF, On, 28800, false), n)
    ensures access != Unopened && !Readable(Contents(n)) ==> LoadNode(n, access).0 == Record(0xFEBE_EFAC, 1, On, 28800, false)
    ensures access != Unopened && Readable(Contents(n)) ==> LoadNode(n, access) == (Decode(Contents(n)), Data(Contents(n)))
  {
  }

  /** Every state survives the platform's numbering. */
  lemma StateCodesInvert(p: PowerState)
    ensures CodeState(StateCode(p)) == p
  {
  }

  // ---------------------------------------------------------------- state before reboot

  datatype Disk = Disk(opt: Node, ram: Node)

  /** The settings object and the disk after a load at plugin start. */
  datatype Loaded = Loaded(record: Record, beforeReboot: PowerState, disk: Disk)

  function LoadSettings(d: Disk, opt: Access, ram: Access): Loaded {
    var (record, node) := LoadNode(d.opt, opt);
    if d.ram.Missing? then
      Loaded(record, record.powerState, Disk(node, SaveNode(d.ram, record, ram)))
    else
      var (copy, ramNode) := LoadNode(d.ram, ram);
      Loaded(record, copy.powerState, Disk(node, ramNode))
  }

  /** What can happen to the settings while the device stays up: the plugin restarts, or
      changes its settings and saves them. */
  datatype Action =
    | Restart(opt: Access, ram: Access)
    | Change(powerState: PowerState, timeout: uint32, standby: bool, opt: Access)

  function Act(l: Loaded, a: Action): Loaded {
    match a
    case Restart(opt, ram) => LoadSettings(l.disk, opt, ram)
    case Change(powerState, timeout, standby, opt) =>
      var record := l.record.(powerState := powerState, timeout := timeout, standby := standby);
      l.(record := record, disk := l.disk.(opt := SaveNode(l.disk.opt, record, opt)))
  }

  function Session(l: Loaded, actions: seq<Action>): Loaded
    decreases |actions|
  {
    if actions == [] then l else Session(Act(l, actions[0]), actions[1..])
  }

  /** The state before reboot after some actions, where a copy of `state` is on RAM storage:
      that of the last restart, which reads the copy or, if it cannot open it, has none. */
  function BeforeReboot(first: PowerState, state: PowerState, actions: seq<Action>): PowerState
    decreases |actions|
  {
    if actions == [] then first
    else if actions[0].Change? then BeforeReboot(first, state, actions[1..])
    else BeforeReboot(if actions[0].ram == Unopened then DEFAULT_STATE else state, state, actions[1..])
  }

  /** Once there is a file on RAM storage, no restart and no change ever alters what it yields. */
  lemma {:induction false} SessionKeepsCopy(l: Loaded, actions: seq<Action>)
    requires !l.disk.ram.Missing?
    ensures var state := Reload(l.disk.ram).powerState;
            var t := Session(l, actions);
            && !t.disk.ram.Missing? && Reload(t.disk.ram).powerState == state
            && t.beforeReboot == BeforeReboot(l.beforeReboot, state, actions)
    decreases |actions|
  {
    if actions != [] {
      if actions[0].Restart? && actions[0].ram != Unopened {
        LoadIsIdempotent(l.disk.ram, actions[0].ram, Unwritten);
      }
      SessionKeepsCopy(Act(l, actions[0]), actions[1..]);
    }
  }

  predicate RestartsOpenCopy(actions: seq<Action>) {
    forall a :: a in actions && a.Restart? ==> a.ram != Unopened
  }

  lemma {:induction false} OpenedCopyIsRead(state: PowerState, actions: seq<Action>)
    requires RestartsOpenCopy(actions)
    ensures BeforeReboot(state, state, actions) == state
    decreases |actions|
  {
    if actions != [] {
      OpenedCopyIsRead(state, actions[1..]);
    }
  }

  lemma {:induction false} LastRestartDecides(first: PowerState, state: PowerState, actions: seq<Action>, last: Action)
    requires last.Restart?
    ensures BeforeReboot(first, state, actions + [last]) == if last.ram == Unopened then DEFAULT_STATE else state
    decreases |actions|
  {
    if actions == [] {
      assert ([] + [last])[1..] == [];
    } else {
      assert (actions + [last])[1..] == actions[1..] + [last];
      LastRestartDecides(if actions[0].Change? then first else if actions[0].ram == Unopened then DEFAULT_STATE else state,
                         state, actions[1..], last);
    }
  }

  /** Within one boot, which starts without a RAM copy, the first load that can write one fixes
      the state before reboot: it is that load's state, whatever follows, as long as restarts
      can open the copy. */
  lemma BeforeRebootIsStable(opt: Node, access: Access, actions: seq<Action>)
    requires RestartsOpenCopy(actions)
    ensures var first := LoadSettings(Disk(opt, Missing), access, Writable);
            Session(first, actions).beforeReboot == first.record.powerState
  {
    var first := LoadSettings(Disk(opt, Missing), access, Writable);
    SaveThenLoad(Missing, first.record, Writable);
    SessionKeepsCopy(first, actions);
    OpenedCopyIsRead(first.record.powerState, actions);
  }

  /** The settings in memory after some changes, and those of them that were last written. */
  function Remembered(r: Record, changes: seq<Action>): Record
    requires forall a :: a in changes ==> a.Change?
  {
    if changes == [] then r
    else
      var c := changes[|changes| - 1];
      assert c in changes;
      Record(r.magic, r.version, c.powerState, c.timeout, c.standby)
  }

  function LastWritten(found: Record, r: Record, changes: seq<Action>): Record
    requires forall a :: a in changes ==> a.Change?
  {
    if changes == [] then found
    else
      var c, before := changes[|changes| - 1], changes[..|changes| - 1];
      assert c in changes && forall a :: a in before ==> a in changes;
      if c.opt == Writable then Record(r.magic, r.version, c.powerState, c.timeout, c.standby) else LastWritten(found, r, before)
  }

  lemma SessionAppend(l: Loaded, actions: seq<Action>, a: Action)
    ensures Session(l, actions + [a]) == Act(Session(l, actions), a)
    decreases |actions|
  {
    if actions == [] {
      assert ([] + [a])[1..] == [];
      assert Session(Act(l, a), []) == Act(l, a);
    } else {
      assert (actions + [a])[1..] == actions[1..] + [a];
      SessionAppend(Act(l, actions[0]), actions[1..], a);
    }
  }

  /** After any changes of valid settings memory has the last one, and a restart that can open the
      file yields exactly the last one that was written, or what the file held before. */
  lemma {:induction false} RestartYieldsLastWritten(l: Loaded, changes: seq<Action>)
    requires (forall a :: a in changes ==> a.Change?) && l.record.version == V1
    ensures Session(l, changes).record == Remembered(l.record, changes)
    ensures Reload(Session(l, changes).disk.opt) == LastWritten(Reload(l.disk.opt), l.record, changes)
    decreases |changes|
  {
    if changes != [] {
      var c, before := changes[|changes| - 1], changes[..|changes| - 1];
      assert c in changes && forall a :: a in before ==> a in changes;
      assert changes == before + [c];
      RestartYieldsLastWritten(l, before);
      SessionAppend(l, before, c);
      var t := Session(l, before);
      SaveThenLoad(t.disk.opt, t.record.(powerState := c.powerState, timeout := c.timeout, standby := c.standby), c.opt);
    }
  }

  /** A load that could not even create the copy leaves the next restart to be the first load. */
  lemma {:induction false} ChangesLeaveCopy(l: Loaded, changes: seq<Action>)
    requires forall a :: a in changes ==> a.Change?
    ensures var t := Session(l, changes); t.disk.ram == l.disk.ram && t.beforeReboot == l.beforeReboot
    decreases |changes|
  {
    if changes != [] {
      assert changes[0] in changes;
      ChangesLeaveCopy(Act(l, changes[0]), changes[1..]);
    }
  }

  /** After a first load that created the copy, a restart reports that load's state exactly when
      the copy was written and the restart can open it, or the state is the default one anyway. */
  lemma RestartRemembersExactlyWhen(opt: Node, access: Access, ram: Access, actions: seq<Action>, last: Action)
    requires ram != Unopened && last.Restart?
    ensures var first := LoadSettings(Disk(opt, Missing), access, ram);
            Session(first, actions + [last]).beforeReboot == first.record.powerState <==>
            || (ram == Writable && last.ram != Unopened)
            || first.record.powerState == DEFAULT_STATE
  {
    var first := LoadSettings(Disk(opt, Missing), access, ram);
    SaveThenLoad(Missing, first.record, ram);
    if access != Unopened {
      LoadIsIdempotent(opt, access, Unwritten);
    }
    SessionKeepsCopy(first, actions + [last]);
    LastRestartDecides(first.beforeReboot, Reload(first.disk.ram).powerState, actions, last);
  }
}
