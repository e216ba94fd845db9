/**
 * The two enumeration steps that src/gamecheat/game_handle.rs,
 * src/helpers.rs and src/gamecheat/helpers.rs each spell out identically:
 * the `Process32NextW` loop that collects the process list and the pair of
 * `EnumProcessModules` calls that fetch a module list. Each file wraps them
 * with its own error handling.
 */
module Enumeration {
  import opened Ints
  import opened AsciiNames
  import opened Win32

  /** A snapshot entry as the core lists it: its pid and its name cut at the first NUL. */
  function Record(e: ProcessEntry): (u32, string)
    requires '\0' in e.szExeFile
  {
    (e.th32ProcessID, TruncateAtNul(e.szExeFile))
  }

  /** The records of a run of snapshot entries, in order. */
  function ProcessRecords(entries: seq<ProcessEntry>): seq<(u32, string)>
    requires forall i :: 0 <= i < |entries| ==> '\0' in entries[i].szExeFile
  {
    seq(|entries|, i requires 0 <= i < |entries| => Record(entries[i]))
  }

  function Names(list: seq<(u32, string)>): seq<string> {
    seq(|list|, i requires 0 <= i < |list| => list[i].1)
  }

  /** The modules of the process h refers to, or none when h is not a process handle. */
  ghost function ModulesOf(os: Os, h: u64): seq<ModuleInfo>
    reads os
  {
    if IsProcessHandle(os.handles, h) && os.handles[h].pid in os.modules
    then os.modules[os.handles[h].pid] else []
  }

  /**
   * The `while Process32NextW` loop of every `GetProcessList`, on a snapshot whose
   * first entry was read. The loop ends at the first false, whatever its
   * cause, so the list is a prefix of the remaining entries. `complete`
   * records that the snapshot was used up, which is exactly when the list
   * holds all of them.
   */
  method CollectProcesses(os: Os, hProcessSnap: u64, pe: ProcessEntry)
    returns (processList: seq<(u32, string)>, ghost complete: bool)
    requires os.Valid() && IsSnapshotHandle(os.handles, hProcessSnap)
    requires os.handles[hProcessSnap].cursor == 1 && |os.processes| >= 1
    modifies os
    ensures os.Valid() && os.SystemUnchanged() && os.closeLog == old(os.closeLog)
    ensures processList <= ProcessRecords(os.processes[1..])
    ensures complete <==> processList == ProcessRecords(os.processes[1..])
    ensures IsSnapshotHandle(os.handles, hProcessSnap)
    ensures complete <==> os.handles[hProcessSnap].cursor >= |os.processes|
    ensures os.handles - {hProcessSnap} == old(os.handles) - {hProcessSnap}
  {
    ghost var entries := os.processes;
    ghost var others := old(os.handles) - {hProcessSnap};
    processList := [];
    var more, pe32 := NextProcess(os, hProcessSnap, pe, 1);
    while more
      invariant os.Valid() && os.SystemUnchanged() && os.closeLog == old(os.closeLog)
      invariant os.processes == entries
      invariant IsSnapshotHandle(os.handles, hProcessSnap) && os.handles - {hProcessSnap} == others
      invariant os.handles[hProcessSnap].cursor == |processList| + if more then 2 else 1
      invariant |processList| + 1 <= |entries|
      invariant forall i :: 0 <= i < |processList| ==> processList[i] == Record(entries[i + 1])
      invariant more ==> |processList| + 1 < |entries| && pe32 == entries[|processList| + 1]
      decreases |entries| - |processList|
    {
      processList := processList + [Record(pe32)];
      more, pe32 := NextProcess(os, hProcessSnap, pe32, |processList| + 1);
    }
    complete := os.handles[hProcessSnap].cursor >= |entries|;
  }

  /** One `Process32NextW` call on a snapshot whose cursor is at entry k. */
  method NextProcess(os: Os, hProcessSnap: u64, pe: ProcessEntry, ghost k: nat) returns (more: bool, next: ProcessEntry)
    requires os.Valid() && IsSnapshotHandle(os.handles, hProcessSnap) && os.handles[hProcessSnap].cursor == k
    modifies os
    ensures os.Valid() && os.SystemUnchanged() && os.closeLog == old(os.closeLog)
    ensures IsSnapshotHandle(os.handles, hProcessSnap)
    ensures os.handles - {hProcessSnap} == old(os.handles) - {hProcessSnap}
    ensures more ==> k < |os.processes| && next == os.processes[k] && os.handles[hProcessSnap].cursor == k + 1
    ensures !more ==> os.handles[hProcessSnap].cursor == k
  {
    ghost var exhausted;
    more, next, exhausted := os.Process32NextW(hProcessSnap, pe);
  }

  /**
   * The two `EnumProcessModules` calls that start every `GetImageBase`: the first, with no
   * buffer, only sizes the list and its failure is ignored (the count stays
   * 0); the second fills a buffer of that many handles. `listed` is the
   * second call's result, which each caller maps to its own error.
   */
  method ListModules(os: Os, hProcess: u64) returns (listed: bool, hModules: array<u64>)
    requires os.Valid()
    modifies os
    ensures os.Valid() && os.SystemUnchanged() && os.handles == old(os.handles) && os.closeLog == old(os.closeLog)
    ensures fresh(hModules)
    ensures listed ==> hModules[..] == [] || hModules[..] == Bases(ModulesOf(os, hProcess))
  {
    ghost var mods := ModulesOf(os, hProcess);
    var cbNeeded: u32 := 0;
    var noModules := new u64[0];
    var sizing;
    sizing, cbNeeded := os.EnumProcessModules(hProcess, noModules, 0, cbNeeded);
    var moduleCount := cbNeeded as int / SIZE_OF_HMODULE;
    assert moduleCount == 0 || moduleCount == |mods|;
    hModules := new u64[moduleCount](_ => 0);
    listed, cbNeeded := os.EnumProcessModules(hProcess, hModules, cbNeeded, cbNeeded);
    assert hModules[..moduleCount] == hModules[..];
  }
}
