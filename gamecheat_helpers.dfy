/**
 * src/gamecheat/helpers.rs: a copy of the library's helpers that
 * src/gamecheat/lib.rs does not compile.
 * It shares the macros and the boxed errors of src/helpers.rs, keeps no
 * process id, and offers u32 reads and writes only. Its `GetImageBase` is
 * the same code as the one in src/helpers.rs, so `RootHelpers.GetImageBase`
 * models both.
 */
module GamecheatHelpers {
  import opened Ints
  import opened Results
  import opened LittleEndian
  import opened AsciiNames
  import opened Memory
  import opened Win32
  import opened Enumeration
  import RootHelpers

  type DynError = RootHelpers.DynError

  /** The rights `GetGameHandle` asks `OpenProcess` for: no `PROCESS_VM_OPERATION` here. */
  const ACCESS: bv32 := PROCESS_VM_READ | PROCESS_VM_WRITE | PROCESS_QUERY_INFORMATION

  /**
   * `GetProcessList` (src/gamecheat/helpers.rs): the `(pid, name)` pairs of
   * the entries after the first, with the same failures as the src/helpers.rs
   * version.
   */
  method GetProcessList(os: Os) returns (r: Result<seq<(u32, string)>, DynError>, ghost snapshot: u64, ghost complete: bool)
    requires os.Valid()
    modifies os
    ensures os.Valid() && os.SystemUnchanged()
    ensures r.Ok? ==> |os.processes| >= 1 && r.value <= ProcessRecords(os.processes[1..])
    ensures r.Ok? ==> (complete <==> r.value == ProcessRecords(os.processes[1..]))
    ensures os.processes == [] ==> r.Err?
    ensures r.Err? ==> r.error == RootHelpers.Message(RootHelpers.FIRST_ENTRY_FAILED) || r.error == RootHelpers.OsError(os.lastError)
    ensures r.Err? && r.error.OsError? ==> os.handles == old(os.handles) && os.closeLog == old(os.closeLog)
    ensures !(r.Err? && r.error.OsError?) ==>
      && snapshot !in old(os.handles)
      && os.closeLog == old(os.closeLog) + [snapshot]
      && os.handles - {snapshot} == old(os.handles)
      && (snapshot in os.handles ==> os.handles[snapshot].SnapshotObject?)
  {
    var raw := os.CreateToolhelp32Snapshot(TH32CS_SNAPPROCESS, 0);
    var created := RootHelpers.CheckFailureValue(raw, INVALID_HANDLE_VALUE, os.lastError);
    if created.Err? {
      return Err(created.error), 0, false;
    }
    var hProcessSnap := created.value;
    snapshot := hProcessSnap;
    var pe32 := ZEROED_ENTRY;
    var first;
    first, pe32 := os.Process32FirstW(hProcessSnap, pe32);
    if !first {
      var closed := os.CloseHandle(hProcessSnap);
      return Err(RootHelpers.Message(RootHelpers.FIRST_ENTRY_FAILED)), snapshot, false;
    }
    var processList;
    processList, complete := CollectProcesses(os, hProcessSnap, pe32);
    var closed := os.CloseHandle(hProcessSnap);
    return Ok(processList), snapshot, complete;
  }

  /**
   * An open process handle and the target's image base. `closed` records
   * that `drop` has run; `closeFailureLogged` that its `CloseHandle` failed
   * and was logged.
   */
  class GameHandle {
    const os: Os
    const handle: u64
    const image_base: u64
    ghost var closed: bool
    ghost var closeFailureLogged: bool

    ghost predicate Valid()
      reads this, os
    {
      os.Valid() && (!closed ==> IsProcessHandle(os.handles, handle))
    }

    /** The process the handle was opened on. */
    ghost function Target(): u32
      requires Valid() && !closed
      reads this, os
    {
      os.handles[handle].pid
    }

    /** The address space of that process. */
    ghost function Mem(): AddressSpace
      requires Valid() && !closed
      reads this, os
    {
      os.memory[Target()]
    }

    constructor (os: Os, handle: u64, image_base: u64)
      requires os.Valid() && IsProcessHandle(os.handles, handle)
      ensures Valid() && !closed && !closeFailureLogged
      ensures this.os == os && this.handle == handle && this.image_base == image_base
    {
      this.os := os;
      this.handle := handle;
      this.image_base := image_base;
      closed := false;
      closeFailureLogged := false;
    }

    /** `read_memory`: the n bytes at `image_base + offset`, read into a zeroed buffer. */
    method ReadMemory(offset: u64, n: nat) returns (r: Result<seq<u8>, DynError>)
      requires Valid() && !closed
      requires image_base + offset < TWO_64
      modifies os
      ensures Valid() && os.SystemUnchanged() && os.handles == old(os.handles) && os.closeLog == old(os.closeLog)
      ensures r.Ok? ==> Mapped(Mem(), image_base + offset, n) && r.value == Load(Mem(), image_base + offset, n)
      ensures r.Err? ==> r.error == RootHelpers.OsError(os.lastError)
    {
      var buffer := new u8[n](_ => 0);
      var finalAddress: u64 := image_base + offset;
      var ok := os.ReadProcessMemory(handle, finalAddress, buffer, n);
      var succeeded :- RootHelpers.CheckBool(ok, os.lastError);
      return Ok(buffer[..]);
    }

    /**
     * `write_memory`: copies value to `image_base + offset`. Only those
     * |value| bytes can change; a failed call may have written a prefix of
     * them (`written` bytes).
     */
    method WriteMemory(offset: u64, value: seq<u8>) returns (r: Result<(), DynError>, ghost written: nat)
      requires Valid() && !closed
      requires image_base + offset < TWO_64
      modifies os
      ensures Valid() && os.handles == old(os.handles) && os.closeLog == old(os.closeLog)
      ensures os.processes == old(os.processes) && os.modules == old(os.modules)
      ensures written <= |value|
      ensures os.memory == old(os.memory)[Target() := Store(old(Mem()), image_base + offset, value[..written])]
      ensures r.Ok? ==> written == |value| && Mapped(old(Mem()), image_base + offset, |value|)
      ensures r.Err? ==> r.error == RootHelpers.OsError(os.lastError)
    {
      var finalAddress: u64 := image_base + offset;
      var ok;
      ok, written := os.WriteProcessMemory(handle, finalAddress, value);
      var checked := RootHelpers.CheckBool(ok, os.lastError);
      if checked.Err? {
        return Err(checked.error), written;
      }
      return Ok(()), written;
    }

    /** `write_u32`: the four little-endian bytes of value at `image_base + offset`. */
    method WriteU32(offset: u64, value: u32) returns (r: Result<(), DynError>, ghost written: nat)
      requires Valid() && !closed
      requires image_base + offset < TWO_64
      modifies os
      ensures Valid() && os.handles == old(os.handles) && os.closeLog == old(os.closeLog)
      ensures os.processes == old(os.processes) && os.modules == old(os.modules)
      ensures written <= 4
      ensures os.memory == old(os.memory)[Target() := Store(old(Mem()), image_base + offset, EncodeU32(value)[..written])]
      ensures r.Ok? ==> written == 4 && Mapped(old(Mem()), image_base + offset, 4)
      ensures r.Err? ==> r.error == RootHelpers.OsError(os.lastError)
    {
      r, written := WriteMemory(offset, EncodeU32(value));
    }

    /** `read_u32`: the little-endian decoding of the four bytes at `image_base + offset`. */
    method ReadU32(offset: u64) returns (r: Result<u32, DynError>)
      requires Valid() && !closed
      requires image_base + offset < TWO_64
      modifies os
      ensures Valid() && os.SystemUnchanged() && os.handles == old(os.handles) && os.closeLog == old(os.closeLog)
      ensures r.Ok? ==> LoadU32(Mem(), image_base + offset) == Some(r.value)
      ensures r.Err? ==> r.error == RootHelpers.OsError(os.lastError)
    {
      var bytes :- ReadMemory(offset, 4);
      return Ok(DecodeU32(bytes));
    }

    /** `drop`: passes the handle to `CloseHandle` once; a failure is only logged. */
    method Drop()
      requires Valid() && !closed
      modifies this, os
      ensures Valid() && closed
      ensures os.SystemUnchanged()
      ensures os.closeLog == old(os.closeLog) + [handle]
      ensures closeFailureLogged <==> os.handles == old(os.handles)
      ensures !closeFailureLogged ==> os.handles == old(os.handles) - {handle}
    {
      var ok := os.CloseHandle(handle);
      closeFailureLogged := !ok;
      closed := true;
    }
  }

  /**
   * The write-then-read law on this accessor: when `write_u32` and then
   * `read_u32` at the same offset both succeed, the read returns the value written.
   */
  method WriteThenReadU32(gh: GameHandle, offset: u64, value: u32)
    returns (wrote: Result<(), DynError>, read: Result<u32, DynError>)
    requires gh.Valid() && !gh.closed
    requires gh.image_base + offset < TWO_64
    modifies gh.os
    ensures gh.Valid()
    ensures wrote.Ok? && read.Ok? ==> read.value == value
  {
    ghost var before := gh.Mem();
    ghost var address := gh.image_base + offset;
    ghost var written;
    wrote, written := gh.WriteU32(offset, value);
    ghost var after := gh.Mem();
    read := gh.ReadU32(offset);
    if wrote.Ok? && read.Ok? {
      assert EncodeU32(value)[..written] == EncodeU32(value);
      assert after == Store(before, address, EncodeU32(value));
      LoadU32AfterStore(before, address, value);
      assert LoadU32(after, address) == Some(value);
    }
  }

  /**
   * `GetGameHandle` (src/gamecheat/helpers.rs): `Ok(None)` when no listed
   * process has the name, and nothing is opened then; otherwise the first
   * match, in list order, opened with `ACCESS`, with its first module's base.
   */
  method GetGameHandle(os: Os, gameName: string)
    returns (r: Result<Option<GameHandle>, DynError>, ghost listed: Option<seq<(u32, string)>>)
    requires os.Valid()
    modifies os
    ensures os.Valid() && os.SystemUnchanged()
    ensures listed.Some? ==> |os.processes| >= 1 && listed.value <= ProcessRecords(os.processes[1..])
    ensures listed.None? ==> r.Err?
    ensures r == Ok(None) <==> listed.Some? && FindFirst(Names(listed.value), gameName) == None
    ensures r == Ok(None) ==> forall h :: IsProcessHandle(os.handles, h) ==> h in old(os.handles)
    ensures r.Ok? && r.value.Some? ==>
      && var gh := r.value.value;
      && fresh(gh) && gh.os == os && gh.Valid() && !gh.closed && !gh.closeFailureLogged
      && gh.handle !in old(os.handles)
      && listed.Some? && FindFirst(Names(listed.value), gameName).Some?
      && var pid := listed.value[FindFirst(Names(listed.value), gameName).value].0;
         && os.handles[gh.handle] == ProcessObject(pid, ACCESS)
         && pid in os.modules && |os.modules[pid]| > 0
         && gh.image_base == os.modules[pid][0].hModule
  {
    var processList, snapshot, complete := GetProcessList(os);
    if processList.Err? {
      return Err(processList.error), None;
    }
    listed := Some(processList.value);
    var gameInfo := FindFirst(Names(processList.value), gameName);
    if gameInfo.None? {
      return Ok(None), listed;
    }
    var processId := processList.value[gameInfo.value].0;
    var raw := os.OpenProcess(ACCESS, false, processId);
    var process := RootHelpers.CheckNull(raw, os.lastError);
    if process.Err? {
      return Err(process.error), listed;
    }
    var handle := process.value;
    var imageBase := RootHelpers.GetImageBase(os, handle);
    if imageBase.Err? {
      return Err(imageBase.error), listed;
    }
    var gameHandle := new GameHandle(os, handle, imageBase.value);
    return Ok(Some(gameHandle)), listed;
  }
}
