/**
 * src/helpers.rs: the tool's helpers. Errors are boxed `dyn Error`s: an
 * OS error read with `last_os_error`, or a fixed message. Its `GameHandle` also records the target's process id, and its
 * material commands use unchecked u32 arithmetic.
 */
module RootHelpers {
  import opened Ints
  import opened Results
  import opened LittleEndian
  import opened AsciiNames
  import opened Memory
  import opened Win32
  import opened Enumeration
  import opened Materials

  /**
   * `Box<dyn std::error::Error>` as the core fills it. `Panicked` stands for a
   * panic and is never returned by the real code, which unwinds instead.
   */
  datatype DynError =
    | OsError(code: u32)
    | Message(text: string)
    | Panicked(reason: string)

  const FIRST_ENTRY_FAILED: string := "failed to retrieve first process entry"
  const INDEX_OUT_OF_BOUNDS: string := "index out of bounds"

  /** The one-argument arm of `map_win_ptr!`: a null result is a failure. */
  function CheckNull(ret: u64, lastError: u32): (r: Result<u64, DynError>)
    ensures r.Err? <==> ret == NULL
    ensures r.Ok? ==> r.value == ret
    ensures r.Err? ==> r.error == OsError(lastError)
  {
    if ret == NULL then Err(OsError(lastError)) else Ok(ret)
  }

  /**
   * The two-argument arm of `map_win_ptr!`: only the given failure value is a
   * failure, so a null result passes.
   */
  function CheckFailureValue(ret: u64, failureValue: u64, lastError: u32): (r: Result<u64, DynError>)
    ensures r.Err? <==> ret == failureValue
    ensures r.Ok? ==> r.value == ret
    ensures r.Err? ==> r.error == OsError(lastError)
  {
    if ret == failureValue then Err(OsError(lastError)) else Ok(ret)
  }

  /** `map_win_bool!`: a false result is a failure. */
  function CheckBool(ret: bool, lastError: u32): (r: Result<bool, DynError>)
    ensures r.Err? <==> !ret
    ensures r.Ok? ==> r.value
    ensures r.Err? ==> r.error == OsError(lastError)
  {
    if !ret then Err(OsError(lastError)) else Ok(ret)
  }

  /** The rights `GetGameHandle` asks `OpenProcess` for. */
  const ACCESS: bv32 := PROCESS_VM_READ | PROCESS_VM_WRITE | PROCESS_VM_OPERATION | PROCESS_QUERY_INFORMATION

  datatype ProcessInfo = ProcessInfo(pid: u32, name: string)
  {
    /**
     * `compare_by_name`, which is `eq_ignore_ascii_case`, written as
     * equality of the two names with ASCII upper case lowered.
     */
    function CompareByName(other: string): (r: bool)
      ensures r <==> EqIgnoreAsciiCase(name, other)
    {
      Lowered(name) == Lowered(other)
    }
  }

  function Infos(records: seq<(u32, string)>): (r: seq<ProcessInfo>)
    ensures |r| == |records|
    ensures forall i :: 0 <= i < |records| ==> r[i] == ProcessInfo(records[i].0, records[i].1)
  {
    seq(|records|, i requires 0 <= i < |records| => ProcessInfo(records[i].0, records[i].1))
  }

  function InfoNames(infos: seq<ProcessInfo>): (r: seq<string>)
    ensures |r| == |infos|
    ensures forall i :: 0 <= i < |infos| ==> r[i] == infos[i].name
  {
    seq(|infos|, i requires 0 <= i < |infos| => infos[i].name)
  }

  /**
   * `GetProcessList` (src/helpers.rs): fails with the OS error when the
   * snapshot is `INVALID_HANDLE_VALUE`, and with a fixed message when the
   * first entry cannot be read; otherwise it lists the entries after the
   * first, as the shared loop collects them. The snapshot is passed to
   * `CloseHandle` once on both paths after it was created.
   */
  method GetProcessList(os: Os) returns (r: Result<seq<ProcessInfo>, DynError>, ghost snapshot: u64, ghost complete: bool)
    requires os.Valid()
    modifies os
    ensures os.Valid() && os.SystemUnchanged()
    ensures r.Ok? ==> |os.processes| >= 1 && r.value <= Infos(ProcessRecords(os.processes[1..]))
    ensures r.Ok? ==> (complete <==> r.value == Infos(ProcessRecords(os.processes[1..])))
    ensures os.processes == [] ==> r.Err?
    ensures r.Err? ==> r.error == Message(FIRST_ENTRY_FAILED) || r.error == OsError(os.lastError)
    ensures r.Err? && r.error.OsError? ==> os.handles == old(os.handles) && os.closeLog == old(os.closeLog)
    ensures !(r.Err? && r.error.OsError?) ==>
      && snapshot !in old(os.handles)
      && os.closeLog == old(os.closeLog) + [snapshot]
      && os.handles - {snapshot} == old(os.handles)
      && (snapshot in os.handles ==> os.handles[snapshot].SnapshotObject?)
  {
    var raw := os.CreateToolhelp32Snapshot(TH32CS_SNAPPROCESS, 0);
    var created := CheckFailureValue(raw, INVALID_HANDLE_VALUE, os.lastError);
    if created.Err? {
      return Err(created.error), 0, false;
    }
    var hProcessSnap := created.value;
    snapshot := hProcessSnap;
    var pe32 := ZEROED_ENTRY;
    var first;
    first, pe32 := os.Process32FirstW(hProcessSnap, pe32);
    if !first {
      var closed := os.CloseHandle(hProcessSnap);
      return Err(Message(FIRST_ENTRY_FAILED)), snapshot, false;
    }
    var records;
    records, complete := CollectProcesses(os, hProcessSnap, pe32);
    var closed := os.CloseHandle(hProcessSnap);
    return Ok(Infos(records)), snapshot, complete;
  }

  /**
   * `GetImageBase` (src/helpers.rs): the first module the listing returns,
   * with no name check. Indexing an empty list panics.
   */
  method GetImageBase(os: Os, hProcess: u64) returns (r: Result<u64, DynError>)
    requires os.Valid()
    modifies os
    ensures os.Valid() && os.SystemUnchanged() && os.handles == old(os.handles) && os.closeLog == old(os.closeLog)
    ensures r.Ok? ==> |ModulesOf(os, hProcess)| > 0 && r.value == ModulesOf(os, hProcess)[0].hModule
    ensures r.Err? ==> r.error == OsError(os.lastError) || r.error == Panicked(INDEX_OUT_OF_BOUNDS)
  {
    var listed, hModules := ListModules(os, hProcess);
    var checked := CheckBool(listed, os.lastError);
    if checked.Err? {
      return Err(checked.error);
    }
    if hModules.Length == 0 {
      return Err(Panicked(INDEX_OUT_OF_BOUNDS));
    }
    return Ok(hModules[0]);
  }

  /**
   * An open process handle, the target's process id and its image base.
   * `closed` records that `drop` has run; `closeFailureLogged` that its
   * `CloseHandle` failed and was reported on stderr.
   */
  class GameHandle {
    const os: Os
    const handle: u64
    const process_id: u32
    const image_base: u64
    ghost var closed: bool
    ghost var closeFailureLogged: bool

    ghost predicate Valid()
      reads this, os
    {
      os.Valid() && (!closed ==> IsProcessHandle(os.handles, handle) && os.handles[handle].pid == process_id)
    }

    /** The address space of the target process. */
    ghost function Mem(): AddressSpace
      requires Valid() && !closed
      reads this, os
    {
      os.memory[process_id]
    }

    constructor (os: Os, handle: u64, process_id: u32, image_base: u64)
      requires os.Valid() && IsProcessHandle(os.handles, handle) && os.handles[handle].pid == process_id
      ensures Valid() && !closed && !closeFailureLogged
      ensures this.os == os && this.handle == handle && this.process_id == process_id && this.image_base == image_base
    {
      this.os := os;
      this.handle := handle;
      this.process_id := process_id;
      this.image_base := image_base;
      closed := false;
      closeFailureLogged := false;
    }

    /** `read_memory`: the n bytes at `image_base + offset`, read into a zeroed buffer. */
    method ReadMemory(offset: u64, n: nat) returns (r: Result<seq<u8>, DynError>)
      requires Valid() && !closed
      requires image_base + offset < TWO_64
      modifies os
      ensures Valid() && os.SystemUnchanged() && os.handles == old(os.handles) && os.closeLog == old(os.closeLog)
      ensures r.Ok? ==> Mapped(Mem(), image_base + offset, n) && r.value == Load(Mem(), image_base + offset, n)
      ensures r.Err? ==> r.error == OsError(os.lastError)
    {
      var buffer := new u8[n](_ => 0);
      var finalAddress: u64 := image_base + offset;
      var ok := os.ReadProcessMemory(handle, finalAddress, buffer, n);
      var succeeded :- CheckBool(ok, os.lastError);
      return Ok(buffer[..]);
    }

    /**
     * `write_memory`: copies value to `image_base + offset`. Only those
     * |value| bytes can change; a failed call may have written a prefix of
     * them (`written` bytes).
     */
    method WriteMemory(offset: u64, value: seq<u8>) returns (r: Result<(), DynError>, ghost written: nat)
      requires Valid() && !closed
      requires image_base + offset < TWO_64
      modifies os
      ensures Valid() && os.handles == old(os.handles) && os.closeLog == old(os.closeLog)
      ensures os.processes == old(os.processes) && os.modules == old(os.modules)
      ensures written <= |value|
      ensures os.memory == old(os.memory)[process_id := Store(old(Mem()), image_base + offset, value[..written])]
      ensures r.Ok? ==> written == |value| && Mapped(old(Mem()), image_base + offset, |value|)
      ensures r.Err? ==> r.error == OsError(os.lastError)
    {
      var finalAddress: u64 := image_base + offset;
      var ok;
      ok, written := os.WriteProcessMemory(handle, finalAddress, value);
      var checked := CheckBool(ok, os.lastError);
      if checked.Err? {
        return Err(checked.error), written;
      }
      return Ok(()), written;
    }

    /** `drop`: passes the handle to `CloseHandle` once; a failure is only reported. */
    method Drop()
      requires Valid() && !closed
      modifies this, os
      ensures Valid() && closed
      ensures os.SystemUnchanged()
      ensures os.closeLog == old(os.closeLog) + [handle]
      ensures closeFailureLogged <==> os.handles == old(os.handles)
      ensures !closeFailureLogged ==> os.handles == old(os.handles) - {handle}
    {
      var ok := os.CloseHandle(handle);
      closeFailureLogged := !ok;
      closed := true;
    }
  }

  /**
   * `GetGameHandle` (src/helpers.rs): `Ok(None)` when no listed process has
   * the name, and nothing is opened then; otherwise the first match, in list
   * order, opened with `ACCESS`, with its pid and its first module's base.
   * A failure after `OpenProcess` succeeded leaves that handle open.
   */
  method GetGameHandle(os: Os, gameName: string)
    returns (r: Result<Option<GameHandle>, DynError>, ghost listed: Option<seq<ProcessInfo>>)
    requires os.Valid()
    modifies os
    ensures os.Valid() && os.SystemUnchanged()
    ensures listed.Some? ==> |os.processes| >= 1 && listed.value <= Infos(ProcessRecords(os.processes[1..]))
    ensures listed.None? ==> r.Err?
    ensures r == Ok(None) <==> listed.Some? && FindFirst(InfoNames(listed.value), gameName) == None
    ensures r == Ok(None) ==> forall h :: IsProcessHandle(os.handles, h) ==> h in old(os.handles)
    ensures r.Ok? && r.value.Some? ==>
      && var gh := r.value.value;
      && fresh(gh) && gh.os == os && gh.Valid() && !gh.closed && !gh.closeFailureLogged
      && gh.handle !in old(os.handles)
      && listed.Some? && FindFirst(InfoNames(listed.value), gameName).Some?
      && gh.process_id == listed.value[FindFirst(InfoNames(listed.value), gameName).value].pid
      && os.handles[gh.handle] == ProcessObject(gh.process_id, ACCESS)
      && gh.process_id in os.modules && |os.modules[gh.process_id]| > 0
      && gh.image_base == os.modules[gh.process_id][0].hModule
  {
    var processList, snapshot, complete := GetProcessList(os);
    if processList.Err? {
      return Err(processList.error), None;
    }
    listed := Some(processList.value);
    var gameInfo := FindFirst(InfoNames(processList.value), gameName);
    if gameInfo.None? {
      return Ok(None), listed;
    }
    var pid := processList.value[gameInfo.value].pid;
    var raw := os.OpenProcess(ACCESS, false, pid);
    var process := CheckNull(raw, os.lastError);
    if process.Err? {
      return Err(process.error), listed;
    }
    var handle := process.value;
    var imageBase := GetImageBase(os, handle);
    if imageBase.Err? {
      return Err(imageBase.error), listed;
    }
    var gameHandle := new GameHandle(os, handle, pid, imageBase.value);
    return Ok(Some(gameHandle)), listed;
  }

  /** The address of material's counter in the target. */
  function Slot(gh: GameHandle, material: Material): int {
    gh.image_base + Offset(material)
  }

  /**
   * `SetMaterial`: writes the little-endian bytes of value at the material's
   * offset and returns value; afterwards the counter reads as value.
   */
  method SetMaterial(gh: GameHandle, material: Material, value: u32) returns (r: Result<u32, DynError>, ghost written: nat)
    requires gh.Valid() && !gh.closed
    requires Slot(gh, material) < TWO_64
    modifies gh.os
    ensures gh.Valid() && gh.os.handles == old(gh.os.handles) && gh.os.closeLog == old(gh.os.closeLog)
    ensures gh.os.processes == old(gh.os.processes) && gh.os.modules == old(gh.os.modules)
    ensures written <= 4
    ensures gh.os.memory == old(gh.os.memory)[gh.process_id := Store(old(gh.Mem()), Slot(gh, material), EncodeU32(value)[..written])]
    ensures r.Ok? ==> r.value == value && LoadU32(gh.Mem(), Slot(gh, material)) == Some(value)
    ensures r.Err? ==> r.error == OsError(gh.os.lastError)
  {
    ghost var before := gh.Mem();
    var wrote;
    wrote, written := gh.WriteMemory(Offset(material), EncodeU32(value));
    if wrote.Err? {
      return Err(wrote.error), written;
    }
    assert EncodeU32(value)[..written] == EncodeU32(value);
    assert gh.Mem() == Store(before, Slot(gh, material), EncodeU32(value));
    LoadU32AfterStore(before, Slot(gh, material), value);
    return Ok(value), written;
  }

  /**
   * The read half of `AddMaterial` and `SubtractMaterial`: `read_memory` of
   * the counter's four bytes and `u32::from_le_bytes`.
   */
  method ReadMaterial(gh: GameHandle, material: Material) returns (r: Result<u32, DynError>)
    requires gh.Valid() && !gh.closed
    requires Slot(gh, material) < TWO_64
    modifies gh.os
    ensures gh.Valid() && gh.os.SystemUnchanged() && gh.os.handles == old(gh.os.handles) && gh.os.closeLog == old(gh.os.closeLog)
    ensures r.Ok? ==> LoadU32(gh.Mem(), Slot(gh, material)) == Some(r.value)
    ensures r.Err? ==> r.error == OsError(gh.os.lastError)
  {
    var bytes :- gh.ReadMemory(Offset(material), 4);
    return Ok(DecodeU32(bytes));
  }

  /**
   * `AddMaterial`: reads the counter, adds value with the unchecked `+=` and
   * writes the sum back at the same offset, as `SetMaterial` writes a value.
   * The caller must keep the sum within u32. `read` is the counter as read,
   * when the read succeeded; a failed read writes nothing.
   */
  method AddMaterial(gh: GameHandle, material: Material, value: u32)
    returns (r: Result<u32, DynError>, ghost read: Option<u32>, ghost written: nat)
    requires gh.Valid() && !gh.closed
    requires Slot(gh, material) < TWO_64
    requires LoadU32(gh.Mem(), Slot(gh, material)).Some? ==> LoadU32(gh.Mem(), Slot(gh, material)).value + value < TWO_32
    modifies gh.os
    ensures gh.Valid() && gh.os.handles == old(gh.os.handles) && gh.os.closeLog == old(gh.os.closeLog)
    ensures gh.os.processes == old(gh.os.processes) && gh.os.modules == old(gh.os.modules)
    ensures read.None? ==> r.Err? && gh.os.memory == old(gh.os.memory)
    ensures read.Some? ==>
      && read == LoadU32(old(gh.Mem()), Slot(gh, material)) && written <= 4
      && gh.os.memory == old(gh.os.memory)[gh.process_id := Store(old(gh.Mem()), Slot(gh, material), EncodeU32(read.value + value)[..written])]
    ensures r.Ok? ==>
      && read.Some? && r.value == read.value + value
      && LoadU32(gh.Mem(), Slot(gh, material)) == Some(r.value)
    ensures r.Err? ==> r.error == OsError(gh.os.lastError)
  {
    var amount := ReadMaterial(gh, material);
    if amount.Err? {
      return Err(amount.error), None, 0;
    }
    read := Some(amount.value);
    var materialAmount := amount.value;
    materialAmount := materialAmount + value;
    r, written := SetMaterial(gh, material, materialAmount);
  }

  /**
   * `SubtractMaterial`: reads the counter, subtracts value with the unchecked
   * `-=` and writes the difference back. The caller must keep value at most
   * the counter.
   */
  method SubtractMaterial(gh: GameHandle, material: Material, value: u32)
    returns (r: Result<u32, DynError>, ghost read: Option<u32>, ghost written: nat)
    requires gh.Valid() && !gh.closed
    requires Slot(gh, material) < TWO_64
    requires LoadU32(gh.Mem(), Slot(gh, material)).Some? ==> value <= LoadU32(gh.Mem(), Slot(gh, material)).value
    modifies gh.os
    ensures gh.Valid() && gh.os.handles == old(gh.os.handles) && gh.os.closeLog == old(gh.os.closeLog)
    ensures gh.os.processes == old(gh.os.processes) && gh.os.modules == old(gh.os.modules)
    ensures read.None? ==> r.Err? && gh.os.memory == old(gh.os.memory)
    ensures read.Some? ==>
      && read == LoadU32(old(gh.Mem()), Slot(gh, material)) && written <= 4
      && gh.os.memory == old(gh.os.memory)[gh.process_id := Store(old(gh.Mem()), Slot(gh, material), EncodeU32(read.value - value)[..written])]
    ensures r.Ok? ==>
      && read.Some? && r.value == read.value - value
      && LoadU32(gh.Mem(), Slot(gh, material)) == Some(r.value)
    ensures r.Err? ==> r.error == OsError(gh.os.lastError)
  {
    var amount := ReadMaterial(gh, material);
    if amount.Err? {
      return Err(amount.error), None, 0;
    }
    read := Some(amount.value);
    var materialAmount := amount.value;
    materialAmount := materialAmount - value;
    r, written := SetMaterial(gh, material, materialAmount);
  }
}
