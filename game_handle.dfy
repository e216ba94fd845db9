/**
 * src/gamecheat/game_handle.rs: the result-mapping macros, the process and
 * module locator, and the `GameHandle` accessor with its typed little-endian
 * reads and writes at `image_base + offset`.
 */
module GamecheatGameHandle {
  import opened Ints
  import opened Results
  import opened LittleEndian
  import opened AsciiNames
  import opened Memory
  import opened Win32
  import opened Enumeration

  /**
   * The errors of the gamecheat library. `GameModuleNotFound` is the value
   * `GetImageBase` returns when no module matches.
   */
  datatype GamecheatError =
    | GameProcessNotFound(name: string)
    | OperationError(api: string, osError: u32)
    | ProcessEnumError
    | GameModuleNotFound

  /** `map_win_ptr!`: a null or `INVALID_HANDLE_VALUE` result is the failure of `api`. */
  function MapWinPtr(api: string, ret: u64, lastError: u32): (r: Result<u64, GamecheatError>)
    ensures r.Err? <==> ret == NULL || ret == INVALID_HANDLE_VALUE
    ensures r.Ok? ==> r.value == ret
    ensures r.Err? ==> r.error == OperationError(api, lastError)
  {
    if ret == NULL || ret == INVALID_HANDLE_VALUE then Err(OperationError(api, lastError)) else Ok(ret)
  }

  /** `map_win_bool!`: a false result is the failure of `api`. */
  function MapWinBool(api: string, ret: bool, lastError: u32): (r: Result<bool, GamecheatError>)
    ensures r.Err? <==> !ret
    ensures r.Ok? ==> r.value
    ensures r.Err? ==> r.error == OperationError(api, lastError)
  {
    if !ret then Err(OperationError(api, lastError)) else Ok(ret)
  }

  /** `map_win_int!`: a zero result is the failure of `api`. */
  function MapWinInt(api: string, ret: u32, lastError: u32): (r: Result<u32, GamecheatError>)
    ensures r.Err? <==> ret == 0
    ensures r.Ok? ==> r.value == ret && r.value > 0
    ensures r.Err? ==> r.error == OperationError(api, lastError)
  {
    if ret == 0 then Err(OperationError(api, lastError)) else Ok(ret)
  }

  /** The rights `GameHandle::new` asks `OpenProcess` for. */
  const ACCESS: bv32 := PROCESS_VM_READ | PROCESS_VM_WRITE | PROCESS_QUERY_INFORMATION

  /**
   * `GetProcessList`: the snapshot's entries from the second one on, in order;
   * the entry `Process32FirstW` fills is never listed. The snapshot handle is
   * passed to `CloseHandle` once on every path after it was created.
   */
  method GetProcessList(os: Os) returns (r: Result<seq<(u32, string)>, GamecheatError>, ghost snapshot: u64, ghost complete: bool)
    requires os.Valid()
    modifies os
    ensures os.Valid() && os.SystemUnchanged()
    ensures r.Ok? ==> |os.processes| >= 1 && r.value <= ProcessRecords(os.processes[1..])
    ensures r.Ok? ==> (complete <==> r.value == ProcessRecords(os.processes[1..]))
    ensures os.processes == [] ==> r.Err?
    ensures r.Err? ==> r.error == ProcessEnumError || r.error == OperationError("CreateToolhelp32Snapshot", os.lastError)
    ensures r.Err? && r.error.OperationError? ==> os.handles == old(os.handles) && os.closeLog == old(os.closeLog)
    ensures !(r.Err? && r.error.OperationError?) ==>
      && snapshot !in old(os.handles)
      && os.closeLog == old(os.closeLog) + [snapshot]
      && os.handles - {snapshot} == old(os.handles)
      && (snapshot in os.handles ==> os.handles[snapshot].SnapshotObject?)
  {
    var raw := os.CreateToolhelp32Snapshot(TH32CS_SNAPPROCESS, 0);
    var created := MapWinPtr("CreateToolhelp32Snapshot", raw, os.lastError);
    if created.Err? {
      return Err(created.error), 0, false;
    }
    var hProcessSnap := created.value;
    snapshot := hProcessSnap;
    var pe32 := ZEROED_ENTRY;
    var first;
    first, pe32 := os.Process32FirstW(hProcessSnap, pe32);
    if !first {
      var closed := os.CloseHandle(hProcessSnap);
      return Err(ProcessEnumError), snapshot, false;
    }
    var processList;
    processList, complete := CollectProcesses(os, hProcessSnap, pe32);
    var closed := os.CloseHandle(hProcessSnap);
    return Ok(processList), snapshot, complete;
  }

  /**
   * `GetImageBase` (game_handle.rs version): lists the process's modules, then
   * returns the first one whose base name equals gameName ignoring ASCII case.
   * `enumerated` is the list walked: empty when the sizing call failed, every
   * module otherwise. `scanned` is the number of modules compared without a
   * match: a failed name query ends the search there, even when a later
   * module would match.
   */
  method GetImageBase(os: Os, hProcess: u64, gameName: string)
    returns (r: Result<u64, GamecheatError>, ghost enumerated: seq<u64>, ghost scanned: nat)
    requires os.Valid()
    modifies os
    ensures os.Valid() && os.SystemUnchanged() && os.handles == old(os.handles) && os.closeLog == old(os.closeLog)
    ensures enumerated == [] || enumerated == Bases(ModulesOf(os, hProcess))
    ensures scanned <= |enumerated|
    ensures forall j :: 0 <= j < scanned ==> !EqIgnoreAsciiCase(ReportedNames(ModulesOf(os, hProcess), MAX_PATH)[j], gameName)
    ensures r.Ok? ==>
      && scanned < |enumerated| && r.value == enumerated[scanned]
      && FindFirst(ReportedNames(ModulesOf(os, hProcess), MAX_PATH), gameName) == Some(scanned)
    ensures r.Err? ==>
      || r.error == OperationError("EnumProcessModules", os.lastError)
      || (r.error == OperationError("GetModuleBaseNameW", os.lastError) && scanned < |enumerated|)
      || (r.error == GameModuleNotFound && scanned == |enumerated|)
    ensures r == Err(GameModuleNotFound) ==>
      enumerated == [] || FindFirst(ReportedNames(ModulesOf(os, hProcess), MAX_PATH), gameName) == None
  {
    var listed, hModules := ListModules(os, hProcess);
    var checked := MapWinBool("EnumProcessModules", listed, os.lastError);
    if checked.Err? {
      return Err(checked.error), [], 0;
    }
    enumerated := hModules[..];
    r, scanned := ScanModules(os, hProcess, hModules, gameName);
  }

  /** The `for h_module in h_modules` loop of `GetImageBase`. */
  method ScanModules(os: Os, hProcess: u64, hModules: array<u64>, gameName: string)
    returns (r: Result<u64, GamecheatError>, ghost scanned: nat)
    requires os.Valid()
    requires hModules[..] == [] || hModules[..] == Bases(ModulesOf(os, hProcess))
    modifies os
    ensures os.Valid() && os.SystemUnchanged() && os.handles == old(os.handles) && os.closeLog == old(os.closeLog)
    ensures scanned <= hModules.Length
    ensures forall j :: 0 <= j < scanned ==> !EqIgnoreAsciiCase(ReportedNames(ModulesOf(os, hProcess), MAX_PATH)[j], gameName)
    ensures r.Ok? ==>
      && scanned < hModules.Length && r.value == hModules[scanned]
      && FindFirst(ReportedNames(ModulesOf(os, hProcess), MAX_PATH), gameName) == Some(scanned)
    ensures r.Err? ==>
      || (r.error == OperationError("GetModuleBaseNameW", os.lastError) && scanned < hModules.Length)
      || (r.error == GameModuleNotFound && scanned == hModules.Length)
    ensures r == Err(GameModuleNotFound) ==>
      hModules.Length == 0 || FindFirst(ReportedNames(ModulesOf(os, hProcess), MAX_PATH), gameName) == None
  {
    ghost var mods := ModulesOf(os, hProcess);
    ghost var names := ReportedNames(mods, MAX_PATH);
    for i := 0 to hModules.Length
      invariant os.Valid() && os.SystemUnchanged() && os.handles == old(os.handles) && os.closeLog == old(os.closeLog)
      invariant ModulesOf(os, hProcess) == mods
      invariant forall j :: 0 <= j < i ==> !EqIgnoreAsciiCase(names[j], gameName)
    {
      scanned := i;
      var fileName := ModuleBaseName(os, hProcess, hModules[i], i);
      if fileName.Err? {
        return Err(fileName.error), scanned;
      }
      if EqIgnoreAsciiCase(fileName.value, gameName) {
        FindFirstIsFirst(names, gameName, i);
        return Ok(hModules[i]), scanned;
      }
    }
    return Err(GameModuleNotFound), hModules.Length;
  }

  /**
   * One pass of that loop up to the comparison: `GetModuleBaseNameW` into a
   * MAX_PATH buffer, `map_win_int!`, then the buffer's first `file_len`
   * characters. On success that is the i-th module's reported name.
   */
  method ModuleBaseName(os: Os, hProcess: u64, hModule: u64, ghost i: nat) returns (r: Result<string, GamecheatError>)
    requires os.Valid()
    requires i < |ModulesOf(os, hProcess)| && hModule == ModulesOf(os, hProcess)[i].hModule
    modifies os
    ensures os.Valid() && os.SystemUnchanged() && os.handles == old(os.handles) && os.closeLog == old(os.closeLog)
    ensures r.Ok? ==> r.value == ReportedNames(ModulesOf(os, hProcess), MAX_PATH)[i]
    ensures r.Err? ==> r.error == OperationError("GetModuleBaseNameW", os.lastError)
  {
    ghost var mods := ModulesOf(os, hProcess);
    var buffer := new char[MAX_PATH](_ => '\0');
    var fileLen := os.GetModuleBaseNameW(hProcess, hModule, buffer, MAX_PATH as u32);
    var length :- MapWinInt("GetModuleBaseNameW", fileLen, os.lastError);
    ModuleIndexOfBase(mods, i);
    return Ok(buffer[..length]);
  }

  /**
   * An open process handle and the image base of that process: the accessor
   * through which the core reads and writes. `closed` records that `drop` has
   * run; `closeFailureLogged` that its `CloseHandle` failed and was logged.
   */
  class GameHandle {
    const os: Os
    const handle: u64
    const image_base: u64
    ghost var closed: bool
    ghost var closeFailureLogged: bool

    ghost predicate Valid()
      reads this, os
    {
      os.Valid() && (!closed ==> IsProcessHandle(os.handles, handle))
    }

    /** The process the handle was opened on. */
    ghost function Target(): u32
      requires Valid() && !closed
      reads this, os
    {
      os.handles[handle].pid
    }

    /** The address space of that process. */
    ghost function Mem(): AddressSpace
      requires Valid() && !closed
      reads this, os
    {
      os.memory[Target()]
    }

    constructor (os: Os, handle: u64, image_base: u64)
      requires os.Valid() && IsProcessHandle(os.handles, handle)
      ensures Valid() && !closed && !closeFailureLogged
      ensures this.os == os && this.handle == handle && this.image_base == image_base
    {
      this.os := os;
      this.handle := handle;
      this.image_base := image_base;
      closed := false;
      closeFailureLogged := false;
    }

    /**
     * `GameHandle::new`: lists the processes, picks the first whose name equals
     * gameName ignoring ASCII case, opens it and finds its image base. When no
     * process matches it returns `GameProcessNotFound` and opens nothing.
     * `listed` is the process list when listing succeeded. A handle opened for a
     * process whose image base is not found stays open.
     */
    static method New(os: Os, gameName: string)
      returns (r: Result<GameHandle, GamecheatError>, ghost listed: Option<seq<(u32, string)>>)
      requires os.Valid()
      modifies os
      ensures os.Valid() && os.SystemUnchanged()
      ensures listed.Some? ==> |os.processes| >= 1 && listed.value <= ProcessRecords(os.processes[1..])
      ensures listed.None? ==> r.Err? && (r.error == ProcessEnumError || r.error.OperationError?)
      ensures r == Err(GameProcessNotFound(gameName)) <==>
        listed.Some? && FindFirst(Names(listed.value), gameName) == None
      ensures r == Err(GameProcessNotFound(gameName)) ==>
        forall h :: IsProcessHandle(os.handles, h) ==> h in old(os.handles)
      ensures r.Ok? ==>
        && fresh(r.value) && r.value.os == os && r.value.Valid()
        && !r.value.closed && !r.value.closeFailureLogged
        && r.value.handle !in old(os.handles)
        && listed.Some? && FindFirst(Names(listed.value), gameName).Some?
        && var pid := listed.value[FindFirst(Names(listed.value), gameName).value].0;
           && os.handles[r.value.handle] == ProcessObject(pid, ACCESS)
           && pid in os.modules
           && var found := FindFirst(ReportedNames(os.modules[pid], MAX_PATH), gameName);
              found.Some? && r.value.image_base == os.modules[pid][found.value].hModule
    {
      var processList, snapshot, complete := GetProcessList(os);
      if processList.Err? {
        return Err(processList.error), None;
      }
      listed := Some(processList.value);
      var gameInfo := FindFirst(Names(processList.value), gameName);
      if gameInfo.None? {
        return Err(GameProcessNotFound(gameName)), listed;
      }
      var processId := processList.value[gameInfo.value].0;
      ghost var before := os.handles;
      var raw := os.OpenProcess(ACCESS, false, processId);
      var process := MapWinPtr("OpenProcess", raw, os.lastError);
      if process.Err? {
        return Err(process.error), listed;
      }
      var handle := process.value;
      var imageBase, enumerated, scanned := GetImageBase(os, handle, gameName);
      if imageBase.Err? {
        return Err(imageBase.error), listed;
      }
      var gameHandle := new GameHandle(os, handle, imageBase.value);
      return Ok(gameHandle), listed;
    }

    /** `read_memory`: the n bytes at `image_base + offset`, read into a zeroed buffer. */
    method ReadMemory(offset: u64, n: nat) returns (r: Result<seq<u8>, GamecheatError>)
      requires Valid() && !closed
      requires image_base + offset < TWO_64
      modifies os
      ensures Valid() && os.SystemUnchanged() && os.handles == old(os.handles) && os.closeLog == old(os.closeLog)
      ensures r.Ok? ==> Mapped(Mem(), image_base + offset, n) && r.value == Load(Mem(), image_base + offset, n)
      ensures r.Err? ==> r.error == OperationError("ReadProcessMemory", os.lastError)
    {
      var buffer := new u8[n](_ => 0);
      var finalAddress: u64 := image_base + offset;
      var ok := os.ReadProcessMemory(handle, finalAddress, buffer, n);
      var succeeded :- MapWinBool("ReadProcessMemory", ok, os.lastError);
      return Ok(buffer[..]);
    }

    /**
     * `write_memory`: copies value to `image_base + offset`. Only those
     * |value| bytes of the target can change; on failure a prefix of them may
     * have been written (`written` bytes), and this is not detected.
     */
    method WriteMemory(offset: u64, value: seq<u8>) returns (r: Result<(), GamecheatError>, ghost written: nat)
      requires Valid() && !closed
      requires image_base + offset < TWO_64
      modifies os
      ensures Valid() && os.handles == old(os.handles) && os.closeLog == old(os.closeLog)
      ensures os.processes == old(os.processes) && os.modules == old(os.modules)
      ensures written <= |value|
      ensures os.memory == old(os.memory)[Target() := Store(old(Mem()), image_base + offset, value[..written])]
      ensures r.Ok? ==> written == |value| && Mapped(old(Mem()), image_base + offset, |value|)
      ensures r.Err? ==> r.error == OperationError("WriteProcessMemory", os.lastError)
    {
      var finalAddress: u64 := image_base + offset;
      var ok;
      ok, written := os.WriteProcessMemory(handle, finalAddress, value);
      var checked := MapWinBool("WriteProcessMemory", ok, os.lastError);
      if checked.Err? {
        return Err(checked.error), written;
      }
      return Ok(()), written;
    }

    /** `write_u8`: the byte value at `image_base + offset`. */
    method WriteU8(offset: u64, value: u8) returns (r: Result<(), GamecheatError>, ghost written: nat)
      requires Valid() && !closed
      requires image_base + offset < TWO_64
      modifies os
      ensures Valid() && os.handles == old(os.handles) && os.closeLog == old(os.closeLog)
      ensures os.processes == old(os.processes) && os.modules == old(os.modules)
      ensures written <= 1
      ensures os.memory == old(os.memory)[Target() := Store(old(Mem()), image_base + offset, [value][..written])]
      ensures r.Ok? ==> written == 1 && Mapped(old(Mem()), image_base + offset, 1)
      ensures r.Err? ==> r.error == OperationError("WriteProcessMemory", os.lastError)
    {
      r, written := WriteMemory(offset, [value]);
    }

    /** `read_u8`: the byte at `image_base + offset`. */
    method ReadU8(offset: u64) returns (r: Result<u8, GamecheatError>)
      requires Valid() && !closed
      requires image_base + offset < TWO_64
      modifies os
      ensures Valid() && os.SystemUnchanged() && os.handles == old(os.handles) && os.closeLog == old(os.closeLog)
      ensures r.Ok? ==> image_base + offset in Mem() && r.value == Mem()[image_base + offset]
      ensures r.Err? ==> r.error == OperationError("ReadProcessMemory", os.lastError)
    {
      var byte :- ReadMemory(offset, 1);
      return Ok(byte[0]);
    }

    /** `write_u16`: the two little-endian bytes of value at `image_base + offset`. */
    method WriteU16(offset: u64, value: u16) returns (r: Result<(), GamecheatError>, ghost written: nat)
      requires Valid() && !closed
      requires image_base + offset < TWO_64
      modifies os
      ensures Valid() && os.handles == old(os.handles) && os.closeLog == old(os.closeLog)
      ensures os.processes == old(os.processes) && os.modules == old(os.modules)
      ensures written <= 2
      ensures os.memory == old(os.memory)[Target() := Store(old(Mem()), image_base + offset, EncodeU16(value)[..written])]
      ensures r.Ok? ==> written == 2 && Mapped(old(Mem()), image_base + offset, 2)
      ensures r.Err? ==> r.error == OperationError("WriteProcessMemory", os.lastError)
    {
      r, written := WriteMemory(offset, EncodeU16(value));
    }

    /** `read_u16`: the little-endian decoding of the two bytes at `image_base + offset`. */
    method ReadU16(offset: u64) returns (r: Result<u16, GamecheatError>)
      requires Valid() && !closed
      requires image_base + offset < TWO_64
      modifies os
      ensures Valid() && os.SystemUnchanged() && os.handles == old(os.handles) && os.closeLog == old(os.closeLog)
      ensures r.Ok? ==> Mapped(Mem(), image_base + offset, 2) && r.value == DecodeU16(Load(Mem(), image_base + offset, 2))
      ensures r.Err? ==> r.error == OperationError("ReadProcessMemory", os.lastError)
    {
      var bytes :- ReadMemory(offset, 2);
      return Ok(DecodeU16(bytes));
    }

    /** `write_u32`: the four little-endian bytes of value at `image_base + offset`. */
    method WriteU32(offset: u64, value: u32) returns (r: Result<(), GamecheatError>, ghost written: nat)
      requires Valid() && !closed
      requires image_base + offset < TWO_64
      modifies os
      ensures Valid() && os.handles == old(os.handles) && os.closeLog == old(os.closeLog)
      ensures os.processes == old(os.processes) && os.modules == old(os.modules)
      ensures written <= 4
      ensures os.memory == old(os.memory)[Target() := Store(old(Mem()), image_base + offset, EncodeU32(value)[..written])]
      ensures r.Ok? ==> written == 4 && Mapped(old(Mem()), image_base + offset, 4)
      ensures r.Err? ==> r.error == OperationError("WriteProcessMemory", os.lastError)
    {
      r, written := WriteMemory(offset, EncodeU32(value));
    }

    /** `read_u32`: the little-endian decoding of the four bytes at `image_base + offset`. */
    method ReadU32(offset: u64) returns (r: Result<u32, GamecheatError>)
      requires Valid() && !closed
      requires image_base + offset < TWO_64
      modifies os
      ensures Valid() && os.SystemUnchanged() && os.handles == old(os.handles) && os.closeLog == old(os.closeLog)
      ensures r.Ok? ==> LoadU32(Mem(), image_base + offset) == Some(r.value)
      ensures r.Err? ==> r.error == OperationError("ReadProcessMemory", os.lastError)
    {
      var bytes :- ReadMemory(offset, 4);
      return Ok(DecodeU32(bytes));
    }

    /**
     * `drop`: passes the handle to `CloseHandle` once. A failure is logged
     * (`closeFailureLogged`, and the handle stays open) and not returned.
     */
    method Drop()
      requires Valid() && !closed
      modifies this, os
      ensures Valid() && closed
      ensures os.SystemUnchanged()
      ensures os.closeLog == old(os.closeLog) + [handle]
      ensures closeFailureLogged <==> os.handles == old(os.handles)
      ensures !closeFailureLogged ==> os.handles == old(os.handles) - {handle}
    {
      var ok := os.CloseHandle(handle);
      closeFailureLogged := !ok;
      closed := true;
    }
  }

  /**
   * The write-then-read law on the accessor: when `write_u32` and then
   * `read_u32` at the same offset both succeed, the read returns the value written.
   */
  method WriteThenReadU32(gh: GameHandle, offset: u64, value: u32)
    returns (wrote: Result<(), GamecheatError>, read: Result<u32, GamecheatError>)
    requires gh.Valid() && !gh.closed
    requires gh.image_base + offset < TWO_64
    modifies gh.os
    ensures gh.Valid()
    ensures wrote.Ok? && read.Ok? ==> read.value == value
  {
    ghost var before := gh.Mem();
    ghost var address := gh.image_base + offset;
    ghost var written;
    wrote, written := gh.WriteU32(offset, value);
    ghost var after := gh.Mem();
    read := gh.ReadU32(offset);
    if wrote.Ok? && read.Ok? {
      assert EncodeU32(value)[..written] == EncodeU32(value);
      assert after == Store(before, address, EncodeU32(value));
      LoadU32AfterStore(before, address, value);
      assert LoadU32(after, address) == Some(value);
    }
  }

  /** The same law for `write_u16` and `read_u16`. */
  method WriteThenReadU16(gh: GameHandle, offset: u64, value: u16)
    returns (wrote: Result<(), GamecheatError>, read: Result<u16, GamecheatError>)
    requires gh.Valid() && !gh.closed
    requires gh.image_base + offset < TWO_64
    modifies gh.os
    ensures gh.Valid()
    ensures wrote.Ok? && read.Ok? ==> read.value == value
  {
    ghost var before := gh.Mem();
    ghost var address := gh.image_base + offset;
    ghost var written;
    wrote, written := gh.WriteU16(offset, value);
    ghost var after := gh.Mem();
    read := gh.ReadU16(offset);
    if wrote.Ok? && read.Ok? {
      assert EncodeU16(value)[..written] == EncodeU16(value);
      assert after == Store(before, address, EncodeU16(value));
      LoadAfterStore(before, address, EncodeU16(value));
      DecodeEncodeU16(value);
    }
  }

  /** The same law for `write_u8` and `read_u8`. */
  method WriteThenReadU8(gh: GameHandle, offset: u64, value: u8)
    returns (wrote: Result<(), GamecheatError>, read: Result<u8, GamecheatError>)
    requires gh.Valid() && !gh.closed
    requires gh.image_base + offset < TWO_64
    modifies gh.os
    ensures gh.Valid()
    ensures wrote.Ok? && read.Ok? ==> read.value == value
  {
    ghost var before := gh.Mem();
    ghost var address := gh.image_base + offset;
    ghost var written;
    wrote, written := gh.WriteU8(offset, value);
    ghost var after := gh.Mem();
    read := gh.ReadU8(offset);
    if wrote.Ok? && read.Ok? {
      assert [value][..written] == [value];
      assert after == Store(before, address, [value]);
      LoadAfterStore(before, address, [value]);
      assert Load(after, address, 1)[0] == after[address];
    }
  }
}
