/**
 * The operating system as abstract state, and each Win32 call the core makes
 * as a method on it. A call that the real OS may fail for reasons outside the
 * program (privilege, resources, a process that went away) fails here by a
 * nondeterministic choice; the contract says what holds in either case. Error
 * codes are opaque: a failing call stores some code in `lastError`, which is
 * what `GetLastError`, and so `std::io::Error::last_os_error()`, reads.
 */
module Win32 {
  import opened Ints
  import opened Results
  import opened Memory

  const NULL: u64 := 0
  /** `(HANDLE)-1` on a 64-bit target. */
  const INVALID_HANDLE_VALUE: u64 := 0xFFFF_FFFF_FFFF_FFFF
  const MAX_PATH: nat := 260
  const TH32CS_SNAPPROCESS: u32 := 0x0000_0002
  const PROCESS_VM_OPERATION: bv32 := 0x0008
  const PROCESS_VM_READ: bv32 := 0x0010
  const PROCESS_VM_WRITE: bv32 := 0x0020
  const PROCESS_QUERY_INFORMATION: bv32 := 0x0400
  /** `size_of::<HMODULE>()` on a 64-bit target. */
  const SIZE_OF_HMODULE: nat := 8
  /** The model hands out handle values from here on, in steps of four. */
  const FIRST_HANDLE: nat := 4

  /** The two fields of `PROCESSENTRY32W` the core reads. */
  datatype ProcessEntry = ProcessEntry(th32ProcessID: u32, szExeFile: seq<char>)

  /** `std::mem::zeroed::<PROCESSENTRY32W>()`. */
  const ZEROED_ENTRY: ProcessEntry := ProcessEntry(0, seq(MAX_PATH, _ => '\0'))

  /** A loaded module: its `HMODULE` (its load address) and its base name. */
  datatype ModuleInfo = ModuleInfo(hModule: u64, baseName: seq<char>)

  /** What an open handle refers to. */
  datatype KernelObject =
    | ProcessObject(pid: u32, access: bv32)
    | SnapshotObject(cursor: nat)  // index of the entry the next enumeration call returns

  predicate IsProcessHandle(handles: map<u64, KernelObject>, h: u64) {
    h in handles && handles[h].ProcessObject?
  }

  predicate IsSnapshotHandle(handles: map<u64, KernelObject>, h: u64) {
    h in handles && handles[h].SnapshotObject?
  }

  function Min(a: int, b: int): int {
    if a <= b then a else b
  }

  /** The `HMODULE`s of a module list, in list order. */
  function Bases(mods: seq<ModuleInfo>): (r: seq<u64>)
    ensures |r| == |mods|
    ensures forall i :: 0 <= i < |mods| ==> r[i] == mods[i].hModule
  {
    seq(|mods|, i requires 0 <= i < |mods| => mods[i].hModule)
  }

  predicate DistinctBases(mods: seq<ModuleInfo>) {
    forall i, j :: 0 <= i < j < |mods| ==> mods[i].hModule != mods[j].hModule
  }

  /** The position of the module loaded at hModule. */
  function ModuleIndex(mods: seq<ModuleInfo>, hModule: u64): (r: Option<nat>)
    ensures r.Some? ==> r.value < |mods| && mods[r.value].hModule == hModule
    ensures r.Some? ==> forall j :: 0 <= j < r.value ==> mods[j].hModule != hModule
    ensures r.None? <==> forall j :: 0 <= j < |mods| ==> mods[j].hModule != hModule
  {
    if mods == [] then None
    else if mods[0].hModule == hModule then Some(0)
    else
      match ModuleIndex(mods[1..], hModule)
      case None => None
      case Some(j) => Some(j + 1)
  }

  /** With distinct load addresses, the module found at mods[i].hModule is mods[i]. */
  lemma ModuleIndexOfBase(mods: seq<ModuleInfo>, i: nat)
    requires DistinctBases(mods) && i < |mods|
    ensures ModuleIndex(mods, mods[i].hModule) == Some(i)
  {
  }

  /**
   * What `GetModuleBaseNameW` leaves in a buffer of nSize wide characters: the
   * name, cut to nSize - 1 characters so that a terminating NUL fits.
   */
  function CopiedName(name: seq<char>, nSize: nat): (r: seq<char>)
    requires nSize >= 1
    ensures |r| <= |name| && |r| < nSize && r == name[..|r|]
    ensures |name| < nSize ==> r == name
  {
    name[..Min(|name|, nSize - 1)]
  }

  /** The base names of mods as a buffer of nSize characters reports them. */
  function ReportedNames(mods: seq<ModuleInfo>, nSize: nat): (r: seq<seq<char>>)
    requires nSize >= 1
    ensures |r| == |mods|
    ensures forall i :: 0 <= i < |mods| ==> r[i] == CopiedName(mods[i].baseName, nSize)
  {
    seq(|mods|, i requires 0 <= i < |mods| => CopiedName(mods[i].baseName, nSize))
  }

  class Os {
    /** The process table, in the order a snapshot enumerates it. */
    var processes: seq<ProcessEntry>
    /** The loaded modules of each process, in the order `EnumProcessModules` lists them. */
    var modules: map<u32, seq<ModuleInfo>>
    /** The address space of each live process. */
    var memory: map<u32, AddressSpace>
    /** The open handles of the calling process. */
    var handles: map<u64, KernelObject>
    var nextHandle: nat
    /** The calling thread's last-error code. */
    var lastError: u32
    /** Every handle passed to `CloseHandle`, in call order. */
    ghost var closeLog: seq<u64>

    ghost predicate Valid()
      reads this
    {
      && FIRST_HANDLE <= nextHandle
      // the OS always NUL-terminates `szExeFile`
      && (forall i :: 0 <= i < |processes| ==> '\0' in processes[i].szExeFile)
      // a module list's byte size fits the DWORD the API reports it in
      && (forall pid :: pid in modules ==> SIZE_OF_HMODULE * |modules[pid]| < TWO_32)
      && (forall pid :: pid in modules ==> DistinctBases(modules[pid]))
      && (forall h :: h in handles ==> FIRST_HANDLE <= h < nextHandle && h != INVALID_HANDLE_VALUE)
      && (forall h :: IsProcessHandle(handles, h) ==> handles[h].pid in memory)
    }

    /** The processes, their modules and their memory are the same as on entry. */
    twostate predicate SystemUnchanged()
      reads this
    {
      old(processes) == processes && old(modules) == modules && old(memory) == memory
    }

    constructor (processes: seq<ProcessEntry>, modules: map<u32, seq<ModuleInfo>>, memory: map<u32, AddressSpace>)
      requires forall i :: 0 <= i < |processes| ==> '\0' in processes[i].szExeFile
      requires forall pid :: pid in modules ==> SIZE_OF_HMODULE * |modules[pid]| < TWO_32
      requires forall pid :: pid in modules ==> DistinctBases(modules[pid])
      ensures Valid()
      ensures this.processes == processes && this.modules == modules && this.memory == memory
      ensures handles == map[] && closeLog == []
    {
      this.processes := processes;
      this.modules := modules;
      this.memory := memory;
      handles := map[];
      nextHandle := FIRST_HANDLE;
      lastError := 0;
      closeLog := [];
    }

    /** A failing call records some error code. */
    method SetLastError()
      modifies this`lastError
    {
      var code: u32 :| true;
      lastError := code;
    }

    /** Enters obj in the handle table under a value no open handle has. */
    method NewHandle(obj: KernelObject) returns (h: u64)
      requires Valid() && nextHandle < INVALID_HANDLE_VALUE
      requires obj.ProcessObject? ==> obj.pid in memory
      modifies this`handles, this`nextHandle
      ensures Valid()
      ensures h != NULL && h != INVALID_HANDLE_VALUE && h !in old(handles)
      ensures handles == old(handles)[h := obj]
    {
      h := nextHandle;
      handles := handles[h := obj];
      nextHandle := nextHandle + 4;
    }

    method CreateToolhelp32Snapshot(dwFlags: u32, th32ProcessID: u32) returns (h: u64)
      requires Valid()
      modifies this
      ensures Valid() && SystemUnchanged() && closeLog == old(closeLog)
      ensures h == INVALID_HANDLE_VALUE ==> handles == old(handles)
      ensures h != INVALID_HANDLE_VALUE ==>
        h != NULL && h !in old(handles) && handles == old(handles)[h := SnapshotObject(0)]
      ensures h != INVALID_HANDLE_VALUE ==> handles - {h} == old(handles)
    {
      var succeeds: bool :| true;
      if succeeds && nextHandle < INVALID_HANDLE_VALUE {
        h := NewHandle(SnapshotObject(0));
      } else {
        h := INVALID_HANDLE_VALUE;
        SetLastError();
      }
    }

    /** Copies the snapshot's first entry over lppe. */
    method Process32FirstW(hSnapshot: u64, lppe: ProcessEntry) returns (ok: bool, pe: ProcessEntry)
      requires Valid()
      modifies this
      ensures Valid() && SystemUnchanged() && closeLog == old(closeLog)
      ensures ok ==>
        && IsSnapshotHandle(old(handles), hSnapshot) && |processes| > 0
        && pe == processes[0]
        && handles == old(handles)[hSnapshot := SnapshotObject(1)]
      ensures !ok ==> handles == old(handles) && pe == lppe
      ensures handles - {hSnapshot} == old(handles) - {hSnapshot}
    {
      var succeeds: bool :| true;
      if IsSnapshotHandle(handles, hSnapshot) && |processes| > 0 && succeeds {
        ok, pe := true, processes[0];
        handles := handles[hSnapshot := SnapshotObject(1)];
      } else {
        ok, pe := false, lppe;
        SetLastError();
      }
    }

    /**
     * Copies the snapshot's next entry over lppe. It returns false both when the
     * snapshot has no more entries (then `exhausted` holds) and on any other failure.
     */
    method Process32NextW(hSnapshot: u64, lppe: ProcessEntry) returns (ok: bool, pe: ProcessEntry, ghost exhausted: bool)
      requires Valid()
      modifies this
      ensures Valid() && SystemUnchanged() && closeLog == old(closeLog)
      ensures ok ==>
        && IsSnapshotHandle(old(handles), hSnapshot)
        && old(handles)[hSnapshot].cursor < |processes|
        && pe == processes[old(handles)[hSnapshot].cursor]
        && handles == old(handles)[hSnapshot := SnapshotObject(old(handles)[hSnapshot].cursor + 1)]
      ensures !ok ==> handles == old(handles) && pe == lppe
      ensures handles - {hSnapshot} == old(handles) - {hSnapshot}
      ensures IsSnapshotHandle(handles, hSnapshot) == IsSnapshotHandle(old(handles), hSnapshot)
      ensures exhausted <==>
        !ok && IsSnapshotHandle(old(handles), hSnapshot) && old(handles)[hSnapshot].cursor >= |processes|
    {
      var succeeds: bool :| true;
      exhausted := false;
      if IsSnapshotHandle(handles, hSnapshot) && handles[hSnapshot].cursor < |processes| && succeeds {
        var cursor := handles[hSnapshot].cursor;
        ok, pe := true, processes[cursor];
        handles := handles[hSnapshot := SnapshotObject(cursor + 1)];
      } else {
        exhausted := IsSnapshotHandle(handles, hSnapshot) && handles[hSnapshot].cursor >= |processes|;
        ok, pe := false, lppe;
        SetLastError();
      }
    }

    method CloseHandle(hObject: u64) returns (ok: bool)
      requires Valid()
      modifies this
      ensures Valid() && SystemUnchanged()
      ensures closeLog == old(closeLog) + [hObject]
      ensures ok ==> hObject in old(handles) && handles == old(handles) - {hObject}
      ensures !ok ==> handles == old(handles)
      ensures handles - {hObject} == old(handles) - {hObject}
    {
      closeLog := closeLog + [hObject];
      var succeeds: bool :| true;
      if hObject in handles && succeeds {
        handles := handles - {hObject};
        ok := true;
      } else {
        ok := false;
        SetLastError();
      }
    }

    method OpenProcess(dwDesiredAccess: bv32, bInheritHandle: bool, dwProcessId: u32) returns (h: u64)
      requires Valid()
      modifies this
      ensures Valid() && SystemUnchanged() && closeLog == old(closeLog)
      ensures h == NULL ==> handles == old(handles)
      ensures h != NULL ==>
        && dwProcessId in memory && h != INVALID_HANDLE_VALUE && h !in old(handles)
        && handles == old(handles)[h := ProcessObject(dwProcessId, dwDesiredAccess)]
    {
      var succeeds: bool :| true;
      if dwProcessId in memory && succeeds && nextHandle < INVALID_HANDLE_VALUE {
        h := NewHandle(ProcessObject(dwProcessId, dwDesiredAccess));
      } else {
        h := NULL;
        SetLastError();
      }
    }

    /**
     * Fills lphModule with as many of the process's `HMODULE`s as cb bytes hold
     * and reports in cbNeeded the bytes the whole list takes. On failure
     * cbNeeded keeps the value lpcbNeeded passed in.
     */
    method EnumProcessModules(hProcess: u64, lphModule: array<u64>, cb: u32, lpcbNeeded: u32)
      returns (ok: bool, cbNeeded: u32)
      requires Valid() && cb as int / SIZE_OF_HMODULE <= lphModule.Length
      modifies this, lphModule
      ensures Valid() && SystemUnchanged() && handles == old(handles) && closeLog == old(closeLog)
      ensures ok ==>
        && IsProcessHandle(handles, hProcess) && handles[hProcess].pid in modules
        && var mods := modules[handles[hProcess].pid];
           var filled := Min(cb as int / SIZE_OF_HMODULE, |mods|);
           && cbNeeded as int == SIZE_OF_HMODULE * |mods|
           && lphModule[..filled] == Bases(mods)[..filled]
           && lphModule[filled..] == old(lphModule[filled..])
      ensures !ok ==> cbNeeded == lpcbNeeded && lphModule[..] == old(lphModule[..])
    {
      var succeeds: bool :| true;
      if IsProcessHandle(handles, hProcess) && handles[hProcess].pid in modules && succeeds {
        var mods := modules[handles[hProcess].pid];
        var filled := Min(cb as int / SIZE_OF_HMODULE, |mods|);
        forall i | 0 <= i < filled {
          lphModule[i] := mods[i].hModule;
        }
        ok, cbNeeded := true, (SIZE_OF_HMODULE * |mods|) as u32;
      } else {
        ok, cbNeeded := false, lpcbNeeded;
        SetLastError();
      }
    }

    /**
     * Copies the base name of the module at hModule into lpBaseName and returns
     * the number of characters copied, or 0 on failure.
     */
    method GetModuleBaseNameW(hProcess: u64, hModule: u64, lpBaseName: array<char>, nSize: u32)
      returns (len: u32)
      requires Valid() && nSize as int <= lpBaseName.Length
      modifies this, lpBaseName
      ensures Valid() && SystemUnchanged() && handles == old(handles) && closeLog == old(closeLog)
      ensures len > 0 ==>
        && IsProcessHandle(handles, hProcess) && handles[hProcess].pid in modules
        && nSize >= 1 && len as int < nSize as int
        && var mods := modules[handles[hProcess].pid];
           && ModuleIndex(mods, hModule).Some?
           && lpBaseName[..len] == CopiedName(mods[ModuleIndex(mods, hModule).value].baseName, nSize as int)
    {
      var succeeds: bool :| true;
      if && IsProcessHandle(handles, hProcess) && handles[hProcess].pid in modules
         && ModuleIndex(modules[handles[hProcess].pid], hModule).Some?
         && nSize >= 1 && succeeds
      {
        var mods := modules[handles[hProcess].pid];
        var name := CopiedName(mods[ModuleIndex(mods, hModule).value].baseName, nSize as int);
        forall i | 0 <= i < |name| {
          lpBaseName[i] := name[i];
        }
        lpBaseName[|name|] := '\0';
        len := |name| as u32;
        if len == 0 {
          SetLastError();
        }
      } else {
        len := 0;
        SetLastError();
      }
    }

    /** Copies the nSize bytes at lpBaseAddress of the process into lpBuffer. */
    method ReadProcessMemory(hProcess: u64, lpBaseAddress: u64, lpBuffer: array<u8>, nSize: nat)
      returns (ok: bool)
      requires Valid() && nSize <= lpBuffer.Length
      modifies this, lpBuffer
      ensures Valid() && SystemUnchanged() && handles == old(handles) && closeLog == old(closeLog)
      ensures ok ==>
        && IsProcessHandle(handles, hProcess)
        && Mapped(memory[handles[hProcess].pid], lpBaseAddress, nSize)
        && lpBuffer[..nSize] == Load(memory[handles[hProcess].pid], lpBaseAddress, nSize)
        && lpBuffer[nSize..] == old(lpBuffer[nSize..])
      ensures !ok ==> lpBuffer[..] == old(lpBuffer[..])
    {
      var succeeds: bool :| true;
      if IsProcessHandle(handles, hProcess) && Mapped(memory[handles[hProcess].pid], lpBaseAddress, nSize) && succeeds {
        var space := memory[handles[hProcess].pid];
        forall i | 0 <= i < nSize {
          lpBuffer[i] := space[lpBaseAddress + i];
        }
        ok := true;
      } else {
        ok := false;
        SetLastError();
      }
    }

    /**
     * Copies lpBuffer to lpBaseAddress of the process. A failed write may have
     * copied a prefix of the bytes; `written` (the count the API can report,
     * which the core does not ask for) says how many.
     */
    method WriteProcessMemory(hProcess: u64, lpBaseAddress: u64, lpBuffer: seq<u8>)
      returns (ok: bool, ghost written: nat)
      requires Valid()
      modifies this
      ensures Valid() && handles == old(handles) && closeLog == old(closeLog)
      ensures processes == old(processes) && modules == old(modules)
      ensures written <= |lpBuffer|
      ensures IsProcessHandle(handles, hProcess) ==>
        var pid := handles[hProcess].pid;
        memory == old(memory)[pid := Store(old(memory)[pid], lpBaseAddress, lpBuffer[..written])]
      ensures !IsProcessHandle(handles, hProcess) ==> memory == old(memory) && !ok
      ensures ok ==>
        && Mapped(old(memory)[handles[hProcess].pid], lpBaseAddress, |lpBuffer|)
        && written == |lpBuffer|
    {
      var succeeds: bool :| true;
      if IsProcessHandle(handles, hProcess) {
        var pid := handles[hProcess].pid;
        if Mapped(memory[pid], lpBaseAddress, |lpBuffer|) && succeeds {
          memory := memory[pid := Store(memory[pid], lpBaseAddress, lpBuffer)];
          assert lpBuffer[..|lpBuffer|] == lpBuffer;
          ok, written := true, |lpBuffer|;
        } else {
          var copied: nat :| copied <= |lpBuffer|;
          memory := memory[pid := Store(memory[pid], lpBaseAddress, lpBuffer[..copied])];
          ok, written := false, copied;
          SetLastError();
        }
      } else {
        ok, written := false, 0;
        SetLastError();
      }
    }
  }
}
