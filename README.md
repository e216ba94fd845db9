# Ghost of Tsushima material editor, modelled in Dafny

The repository is a small Windows tool that edits the game's "material"
counters (Blessing, Honor, Essence, tokens) inside the running game
process. It has four steps:

1. Find the game by comparing process names without regard to ASCII case.
   The names are taken from a `CreateToolhelp32Snapshot` process snapshot.
2. Open the process and find its image base. The image base is the address
   of a module listed by `EnumProcessModules`.
3. Read and write little-endian integers at `image_base + offset` with
   `ReadProcessMemory` and `WriteProcessMemory`.
4. Apply the material commands: *set*, *add* and *subtract*. Each one
   reads a u32 counter at a fixed offset and writes it back.

The code exists in three versions:
- the library in `src/gamecheat/game_handle.rs`, which uses typed errors;
- `src/gamecheat/helpers.rs`, a copy of the library's helpers that
  `src/gamecheat/lib.rs` does not compile;
- `src/helpers.rs`, the tool's helpers, which use boxed errors and unchecked
  arithmetic.

The commands of `src/cli/cli.rs` run against the library. They use checked
arithmetic.

## How the model is built

- The operating system is an object, `Win32.Os`. It holds:
  - the process table, in snapshot order;
  - each process's module list;
  - each process's address space, as a map from u64 address to byte;
  - the handle table and the thread's last-error code.

  Each Win32 call the core makes is a method on it. A call that the real OS
  can fail for reasons the program does not control fails by a
  nondeterministic choice. The contract states what holds in both cases.
  `Os.Valid()` holds the facts the real OS guarantees:
  - `szExeFile` is NUL-terminated;
  - module load addresses are distinct;
  - a module list's byte size fits in a DWORD;
  - handles are distinct and never `INVALID_HANDLE_VALUE`.
- The value layer is pure:
  - `LittleEndian`: `to_le_bytes` and `from_le_bytes`, with round-trip lemmas;
  - `AsciiNames`: `eq_ignore_ascii_case`, cutting a name at its first NUL, and
    the first-match search of `find_map`;
  - `Memory`: loads and stores on an address space, and how they commute;
  - `Materials`: the offset table and the display names, each with an
    inverse.
- Each core file has its own module. Each `GameHandle` is a class whose
  methods change the `Os` they hold. Each loop is a method with its
  invariants:
  - `GamecheatGameHandle` models `src/gamecheat/game_handle.rs`;
  - `RootHelpers` models `src/helpers.rs`;
  - `GamecheatHelpers` models `src/gamecheat/helpers.rs`;
  - `CliCommands` models the commands of `src/cli/cli.rs`.

  The `Process32NextW` loop and the two-call `EnumProcessModules` listing
  are the same code in all three files. They are modelled once, in
  `Enumeration`. `Enumeration.Record` is the `(th32ProcessID, name)` pair
  the loop pushes, with the name cut at its first NUL.
  `RootHelpers.Infos` wraps those pairs as the `ProcessInfo`s that
  `src/helpers.rs` pushes. `Enumeration.NextProcess` is the loop's
  `Process32NextW` step, stated in terms of the snapshot's cursor.

  `GetImageBase` in `src/gamecheat/helpers.rs` is the same code as in
  `src/helpers.rs`. `RootHelpers.GetImageBase` models both.
- The name test `eq_ignore_ascii_case` is `AsciiNames.EqIgnoreAsciiCase`.
  `compare_by_name` in `src/helpers.rs` is `eq_ignore_ascii_case` too. The
  model writes it as equality of the ASCII-lowered names
  (`RootHelpers.ProcessInfo.CompareByName`) and proves that this agrees
  with `AsciiNames.EqIgnoreAsciiCase`.
- `Materials` serves both `src/cli.rs` and `src/cli/cli.rs`, because the
  enum, the offsets and the names are identical in the two files.

### Where the code does not do what a reader would expect

The model follows the code in each of these cases.

- **Partial process list.** The `Process32NextW` loop ends at the first
  `false`, which it cannot tell apart from the end of the snapshot. A fault
  mid-enumeration therefore yields a prefix of the list with `Ok`.
  - The `GetProcessList` contracts promise a prefix.
  - The ghost `complete` records whether the snapshot was used up. The list
    is the whole list exactly when it was.
  - The entry `Process32FirstW` fills is never listed.
- **Leaked handle.** `GameHandle::new` and both `GetGameHandle`s do not
  close the process handle they opened when `GetImageBase` fails
  afterwards. The contracts of those methods do not promise that the
  handle is closed on that path.
- **A failed name query ends the scan.** In the game_handle.rs
  `GetImageBase`, a `GetModuleBaseNameW` returning 0 ends the module scan
  with an error, even when a later module would match (ghost `scanned`).
- **Sizing failure is ignored.** The sizing `EnumProcessModules` call's
  result is ignored. If it fails, the count stays 0 and the second call
  lists nothing. `GetImageBase` then reports `GameModuleNotFound` in
  game_handle.rs, or panics on `h_modules[0]` in the helpers files
  (`Panicked`).
- **The two forms of `map_win_ptr!` differ.** In the helpers files, the
  one-argument `map_win_ptr!` treats only null as failure, and the
  two-argument form treats only the given value as failure. The
  game_handle.rs form treats both null and `INVALID_HANDLE_VALUE` as
  failure.
- **Error type.** `GameModuleNotFound` is returned at
  src/gamecheat/game_handle.rs:229, but src/gamecheat/errors.rs:4-11
  does not declare it. `GamecheatError` includes it.
- **Error message.** The refused subtraction of `subtract_material`
  reports "overflow" (`SubtractOverflow`).
- **Constant value.** src/helpers.rs imports `PROCESS_VM_OPERATION` from
  `crate::api`. The constants in src/gamecheat/api.rs do not define it, so
  the Windows value 0x0008 is used.

## Model

| member | source | states |
|---|---|---|
| LittleEndian.ToLe | src/gamecheat/game_handle.rs:131-133 | `to_le_bytes` yields exactly n bytes |
| LittleEndian.FromLe | src/gamecheat/game_handle.rs:136-138 | `from_le_bytes` of n bytes is below 256^n |
| LittleEndian.FromLeToLe | src/gamecheat/game_handle.rs:141-148 | decoding the n-byte little-endian encoding of a value below 256^n gives the value back (by induction on n) |
| LittleEndian.ToLeFromLe | src/gamecheat/game_handle.rs:141-148 | encoding the decoded value of a byte string gives the same bytes back (by induction) |
| LittleEndian.ToLeInjective | src/gamecheat/game_handle.rs:141-143 | two values below 256^n with the same n-byte encoding are equal |
| LittleEndian.EncodeU16 | src/gamecheat/game_handle.rs:131-133 | `u16::to_le_bytes` gives 2 bytes that decode to the value |
| LittleEndian.DecodeU16 | src/gamecheat/game_handle.rs:136-138 | `u16::from_le_bytes` of 2 bytes is the value whose encoding is those bytes |
| LittleEndian.EncodeU32 | src/gamecheat/game_handle.rs:141-143 | `u32::to_le_bytes` gives 4 bytes that decode to the value |
| LittleEndian.DecodeU32 | src/gamecheat/game_handle.rs:146-148 | `u32::from_le_bytes` of 4 bytes is the value whose encoding is those bytes |
| LittleEndian.DecodeEncodeU16 | src/gamecheat/game_handle.rs:131-138 | decode after encode is the identity on u16 |
| LittleEndian.EncodeDecodeU16 | src/gamecheat/game_handle.rs:131-138 | encode after decode is the identity on 2-byte strings |
| LittleEndian.DecodeEncodeU32 | src/gamecheat/game_handle.rs:141-148 | decode after encode is the identity on u32 |
| LittleEndian.EncodeDecodeU32 | src/gamecheat/game_handle.rs:141-148 | encode after decode is the identity on 4-byte strings |
| LittleEndian.EncodeU32Example | src/gamecheat/game_handle.rs:141-143 | 0x0A0B0C0D is stored as the bytes 0D 0C 0B 0A |
| AsciiNames.AsciiLower | src/gamecheat/game_handle.rs:224 | ASCII lowering maps A-Z to a-z (code + 32) and leaves every other character alone |
| AsciiNames.Lowered | src/gamecheat/game_handle.rs:224 | lowering a name keeps its length and lowers each character |
| AsciiNames.EqIgnoreAsciiCase | src/gamecheat/game_handle.rs:224 | `eq_ignore_ascii_case` holds exactly when the two ASCII-lowered names are equal |
| AsciiNames.EqIgnoreAsciiCaseIsEquivalence | src/gamecheat/game_handle.rs:70 | the case-insensitive name match is reflexive, symmetric and transitive |
| AsciiNames.CaseInsensitiveExample | src/gamecheat/game_handle.rs:70 | "Foo.EXE" matches "foo.exe"; "foo.exe" does not match "foo.ex" |
| AsciiNames.Position | src/gamecheat/game_handle.rs:188 | `iter().position` finds the first index holding the character, and none exactly when it does not occur |
| AsciiNames.TruncateAtNul | src/gamecheat/game_handle.rs:187-189 | the name is the prefix of `szExeFile` before its first NUL and contains no NUL |
| AsciiNames.TruncateAtNulOfTerminated | src/gamecheat/game_handle.rs:187-189 | a NUL-free name followed by NUL and anything else is cut back to exactly that name |
| AsciiNames.FindFirst | src/gamecheat/game_handle.rs:67-70 | `find_map` with the name test: the index of the first matching name with no earlier match, or none exactly when no name matches |
| AsciiNames.FindFirstIsFirst | src/gamecheat/game_handle.rs:67-70 | any matching name at i means the search finds a match at or before i |
| AsciiNames.FindFirstPrefix | src/gamecheat/game_handle.rs:67-70 | a match found in a list stays the match when more names follow it |
| Memory.Load | src/gamecheat/game_handle.rs:89-101 | reading n mapped bytes yields exactly n bytes |
| Memory.Store | src/gamecheat/game_handle.rs:105-117 | writing never maps or unmaps an address |
| Memory.LoadU32 | src/gamecheat/game_handle.rs:146-148 | a u32 can be read at an address exactly when its four bytes are mapped |
| Memory.LoadAfterStore | src/gamecheat/game_handle.rs:105-117 | reading back the bytes just written gives exactly those bytes |
| Memory.StorePrefixSameOutside | src/gamecheat/game_handle.rs:105-117 | a write of value (or a prefix of it) changes nothing outside the `value.len()` bytes at the address |
| Memory.LoadDisjointStore | src/gamecheat/game_handle.rs:105-117 | a write does not change a read of a disjoint range |
| Memory.StoreOfLoad | src/gamecheat/game_handle.rs:89-117 | writing back what was read leaves the address space unchanged |
| Memory.StoreTwice | src/gamecheat/game_handle.rs:105-117 | a second write of the same length over the same bytes hides the first |
| Memory.LoadU32AfterStore | src/gamecheat/game_handle.rs:140-148 | `read_u32` after `write_u32` of v at a mapped address reads v |
| Win32.Bases | src/gamecheat/api.rs:86-91 | the `HMODULE` list has one entry per module, in list order |
| Win32.ModuleIndex | src/gamecheat/api.rs:92-97 | the module a `HMODULE` names: the first with that load address, or none exactly when none has it |
| Win32.ModuleIndexOfBase | src/gamecheat/api.rs:92-97 | with distinct load addresses, the i-th listed handle names the i-th module |
| Win32.CopiedName | src/gamecheat/api.rs:92-97 | `GetModuleBaseNameW` copies a prefix of the name shorter than the buffer, and the whole name when it fits |
| Win32.ReportedNames | src/gamecheat/game_handle.rs:213-223 | the names a MAX_PATH buffer reports, one per module in order |
| Win32.Os.constructor | src/gamecheat/api.rs:53-99 | a system with the given processes, modules and memory and no open handles |
| Win32.Os.CreateToolhelp32Snapshot | src/gamecheat/api.rs:83 | returns `INVALID_HANDLE_VALUE` with no new handle, or a fresh non-null snapshot handle positioned at the first entry |
| Win32.Os.Process32FirstW | src/gamecheat/api.rs:84 | on success copies the first entry and moves the snapshot to the second; on failure leaves the entry buffer and handles as they were |
| Win32.Os.Process32NextW | src/gamecheat/api.rs:85 | on success copies the entry at the cursor and advances it; false both when exhausted and on other failures; only this snapshot's cursor changes |
| Win32.Os.CloseHandle | src/gamecheat/api.rs:60 | records the call; on success removes an open handle, on failure changes no handle |
| Win32.Os.OpenProcess | src/gamecheat/api.rs:55-59 | returns null with no new handle, or a fresh handle to that live pid with the requested access |
| Win32.Os.EnumProcessModules | src/gamecheat/api.rs:86-91 | on success reports 8 bytes per module and fills as many handles as cb holds, in order, leaving the rest; on failure leaves the count and buffer |
| Win32.Os.GetModuleBaseNameW | src/gamecheat/api.rs:92-97 | a nonzero length means the handle names a module of the process and the buffer starts with its copied name |
| Win32.Os.ReadProcessMemory | src/gamecheat/api.rs:61-67 | on success the n bytes were mapped and the buffer holds them; on failure the buffer is untouched |
| Win32.Os.WriteProcessMemory | src/gamecheat/api.rs:68-74 | stores a prefix of the bytes (all of them on success, which needs them mapped) in that process and nowhere else |
| Enumeration.CollectProcesses | src/gamecheat/game_handle.rs:185-191 | the `Process32NextW` loop lists a prefix of the remaining entries as (pid, name cut at NUL); the list is all of them exactly when the snapshot was used up (`complete`) |
| Enumeration.ListModules | src/gamecheat/game_handle.rs:199-210 | the sized second `EnumProcessModules` yields no modules or all of them in order |
| GamecheatGameHandle.MapWinPtr | src/gamecheat/game_handle.rs:4-14 | Err(OperationError(call, last error)) exactly when the result is null or `INVALID_HANDLE_VALUE`, else Ok(result) |
| GamecheatGameHandle.MapWinBool | src/gamecheat/game_handle.rs:16-26 | Err(OperationError) exactly when the result is false |
| GamecheatGameHandle.MapWinInt | src/gamecheat/game_handle.rs:28-38 | Err(OperationError) exactly when the result is 0 |
| GamecheatGameHandle.GetProcessList | src/gamecheat/game_handle.rs:172-194 | lists, in order, a prefix of the entries after the first, all of them exactly when the snapshot was used up (`complete`); `ProcessEnumError` when the first entry fails; the snapshot is closed once on both paths |
| GamecheatGameHandle.GetImageBase | src/gamecheat/game_handle.rs:197-230 | returns the first module whose name matches, after all earlier modules failed to match; a failed name query aborts; `GameModuleNotFound` when the scanned list has no match |
| GamecheatGameHandle.ModuleBaseName | src/gamecheat/game_handle.rs:214-223 | a name query into a MAX_PATH buffer yields the module's reported name, or `OperationError("GetModuleBaseNameW")` |
| GamecheatGameHandle.ScanModules | src/gamecheat/game_handle.rs:213-229 | the `for` loop stops at the first match or the first failed name query; no match among the modules scanned before it |
| GamecheatGameHandle.GameHandle.constructor | src/gamecheat/game_handle.rs:59-62 | a live handle on an open process with its image base |
| GamecheatGameHandle.GameHandle.New | src/gamecheat/game_handle.rs:66-86 | opens the first process matching the name with read, write and query rights and the base of its first matching module; `GameProcessNotFound` exactly when the list has no match, and nothing is opened then |
| GamecheatGameHandle.GameHandle.ReadMemory | src/gamecheat/game_handle.rs:89-102 | on Ok, the n mapped bytes at `image_base + offset`; no state but the error code changes |
| GamecheatGameHandle.GameHandle.WriteMemory | src/gamecheat/game_handle.rs:105-117 | the target's memory becomes the old one with a prefix of value stored at `image_base + offset` (all of it on Ok); nothing else changes |
| GamecheatGameHandle.GameHandle.WriteU8 | src/gamecheat/game_handle.rs:120-122 | stores the one byte at the address |
| GamecheatGameHandle.GameHandle.ReadU8 | src/gamecheat/game_handle.rs:125-128 | the byte at the address |
| GamecheatGameHandle.GameHandle.WriteU16 | src/gamecheat/game_handle.rs:131-133 | stores the two little-endian bytes of the value |
| GamecheatGameHandle.GameHandle.ReadU16 | src/gamecheat/game_handle.rs:136-138 | the little-endian decoding of the two bytes at the address |
| GamecheatGameHandle.GameHandle.WriteU32 | src/gamecheat/game_handle.rs:141-143 | stores the four little-endian bytes of the value |
| GamecheatGameHandle.GameHandle.ReadU32 | src/gamecheat/game_handle.rs:146-148 | the u32 stored at the address |
| GamecheatGameHandle.GameHandle.Drop | src/gamecheat/game_handle.rs:160-168 | passes the handle to `CloseHandle` exactly once; a failure is only logged and leaves the handle table |
| GamecheatGameHandle.WriteThenReadU32 | src/gamecheat/game_handle.rs:140-148 | `read_u32` after a successful `write_u32` of v at the same offset returns v |
| GamecheatGameHandle.WriteThenReadU16 | src/gamecheat/game_handle.rs:130-138 | `read_u16` after a successful `write_u16` of v at the same offset returns v |
| GamecheatGameHandle.WriteThenReadU8 | src/gamecheat/game_handle.rs:119-128 | `read_u8` after a successful `write_u8` of v at the same offset returns v |
| Materials.Offset | src/cli/cli.rs:45-56 | each material's offset is a 4-aligned slot between `ESSENCE_OFFSET` and `GW2_TOKEN_OFFSET` |
| Materials.MaterialAt | src/cli/cli.rs:35-42 | the material whose slot is at an offset |
| Materials.MaterialAtOffset | src/cli.rs:43-54 | `MaterialAt` inverts `offset` |
| Materials.OffsetInjective | src/cli/cli.rs:45-56 | two materials share an offset exactly when they are the same |
| Materials.SlotsDisjoint | src/cli.rs:33-40 | the 4-byte slots of two different materials do not overlap |
| Materials.Name | src/cli/cli.rs:59-72 | every displayed name is non-empty |
| Materials.MaterialNamed | src/cli/cli.rs:59-72 | the material displayed as a given name |
| Materials.MaterialNamedName | src/cli.rs:57-70 | `MaterialNamed` inverts `Display` |
| Materials.NameInjective | src/cli/cli.rs:59-72 | two materials display alike exactly when they are the same |
| Materials.StoreLeavesOtherMaterials | src/cli/cli.rs:126-129 | a write of one counter's bytes leaves every other material's counter unchanged |
| RootHelpers.CheckNull | src/helpers.rs:4-11 | Err(last OS error) exactly when the result is null |
| RootHelpers.CheckFailureValue | src/helpers.rs:12-18 | Err(last OS error) exactly when the result equals the failure value |
| RootHelpers.CheckBool | src/helpers.rs:21-30 | Err(last OS error) exactly when the result is false |
| RootHelpers.ProcessInfo.CompareByName | src/helpers.rs:53-56 | `compare_by_name` (`eq_ignore_ascii_case`), written as equality of the ASCII-lowered names, holds exactly when `AsciiNames.EqIgnoreAsciiCase` does |
| RootHelpers.GetProcessList | src/helpers.rs:118-147 | OS error when the snapshot is `INVALID_HANDLE_VALUE`; the fixed message when the first entry fails; else a prefix of the later entries as `ProcessInfo`s, all of them exactly when the snapshot was used up; the snapshot is closed once |
| RootHelpers.GetImageBase | src/helpers.rs:150-161 | on Ok, the process has modules and the result is the first one's base; an empty list is the `h_modules[0]` panic |
| RootHelpers.GameHandle.constructor | src/helpers.rs:60-64 | a live handle on process_id with its image base |
| RootHelpers.GameHandle.ReadMemory | src/helpers.rs:68-84 | on Ok, exactly the n mapped bytes at `image_base + offset` |
| RootHelpers.GameHandle.WriteMemory | src/helpers.rs:87-103 | the process's memory becomes the old one with a prefix of value stored at the address (all `value.len()` bytes on Ok) |
| RootHelpers.GameHandle.Drop | src/helpers.rs:106-115 | passes the handle to `CloseHandle` once; a failure is only reported |
| RootHelpers.GetGameHandle | src/helpers.rs:164-191 | `Ok(None)` exactly when no listed name matches, opening nothing; else a handle on the first match with its pid and the base of its first module |
| RootHelpers.SetMaterial | src/helpers.rs:196-203 | stores the value's four little-endian bytes at the material's slot and returns the value, which the counter then holds |
| RootHelpers.ReadMaterial | src/helpers.rs:214-215 | the counter's u32 at the material's slot |
| RootHelpers.AddMaterial | src/helpers.rs:208-221 | writes back the counter read plus value at the same slot and returns it; a failed read writes nothing |
| RootHelpers.SubtractMaterial | src/helpers.rs:226-239 | writes back the counter read minus value at the same slot and returns it; a failed read writes nothing |
| GamecheatHelpers.GetProcessList | src/gamecheat/helpers.rs:121-146 | a prefix of the (pid, name) pairs after the first entry, all of them exactly when the snapshot was used up; names cut at NUL; the snapshot closed on both paths |
| GamecheatHelpers.GameHandle.constructor | src/gamecheat/helpers.rs:48-51 | a live handle on an open process with its image base |
| GamecheatHelpers.GameHandle.ReadMemory | src/gamecheat/helpers.rs:55-71 | on Ok, exactly the n mapped bytes at `image_base + offset` |
| GamecheatHelpers.GameHandle.WriteMemory | src/gamecheat/helpers.rs:74-86 | stores a prefix of value at the address (all on Ok) in the target only |
| GamecheatHelpers.GameHandle.WriteU32 | src/gamecheat/helpers.rs:89-91 | stores the four little-endian bytes of the value and nothing else |
| GamecheatHelpers.GameHandle.ReadU32 | src/gamecheat/helpers.rs:94-97 | the u32 stored at the address |
| GamecheatHelpers.GameHandle.Drop | src/gamecheat/helpers.rs:109-118 | passes the handle to `CloseHandle` once; a failure is only logged |
| GamecheatHelpers.WriteThenReadU32 | src/gamecheat/helpers.rs:89-97 | `read_u32` after a successful `write_u32` of v returns v |
| GamecheatHelpers.GetGameHandle | src/gamecheat/helpers.rs:163-183 | `Ok(None)` exactly when no listed name matches; else a handle on the first match (read, write, query rights) with its first module's base |
| CliCommands.CheckedAdd | src/cli/cli.rs:127 | `checked_add` is Some exactly when the sum fits in a u32, and then holds the sum |
| CliCommands.CheckedSub | src/cli/cli.rs:145 | `checked_sub` is Some exactly when value is at most the counter, and then holds the difference |
| CliCommands.CheckedSubUndoesAdd | src/cli/cli.rs:127-145 | subtracting value after a successful add of value restores the counter |
| CliCommands.CheckedAddUndoesSub | src/cli/cli.rs:127-145 | adding value after a successful subtract of value restores the counter |
| CliCommands.AddThenSubtractRestores | src/cli/cli.rs:120-150 | `subtract_material` of the amount `add_material` just added is accepted, and its write leaves the address space as it was before both |
| CliCommands.SubtractThenAddRestores | src/cli/cli.rs:120-150 | `add_material` of the amount `subtract_material` just took is accepted, and its write leaves the address space as it was before both |
| CliCommands.SetMaterial | src/cli/cli.rs:108-115 | writes value at the material's slot and returns exactly value, which the counter then holds |
| CliCommands.AddMaterial | src/cli/cli.rs:120-133 | if counter + value fits in a u32, writes and returns the sum; otherwise `AddOverflow` and no write; a failed read writes nothing |
| CliCommands.SubtractMaterial | src/cli/cli.rs:138-150 | if value is at most the counter, writes and returns the difference; otherwise `SubtractOverflow` and no write |

## Left out

- The Win32 FFI itself is not part of this model. That covers the `extern "C"` prototypes, the `PROCESSENTRY32W` layout beyond `th32ProcessID` and `szExeFile`, `dwSize`, and `VirtualProtectEx`. Each call is an abstract method on `Win32.Os`.
- OS error codes are opaque. `std::io::Error::last_os_error()` is the `lastError` field, and `CliError` and `DynError` carry the code or the message's operands, not the formatted text.
- Short reads and writes: the core passes a null byte-count pointer and relies only on the BOOL. On failure `ReadProcessMemory` is modelled as leaving the buffer untouched, and `WriteProcessMemory` as storing some prefix (ghost `written`).
- Argument parsing with clap (`Cli`, `Subcommands`) and the two `main`s are glue outside the core; src/cli/main.rs imports `infinite_ammo` and matches `Subcommands::Infinite`, and src/cli/cli.rs defines neither.
- Logging (`eprintln!`, `error!`) is modelled only as the ghost `closeFailureLogged` flag.
- Exactly-once close across copies: `GameHandle` derives `Clone`, and `Drop` closes the raw handle. A clone would close it twice. Each model class has one owner, and `Drop` requires it to be still open.
- Concurrency and the real OS: races with the target between read and write, PID reuse, privilege checks, and what the access rights allow. The rights are only recorded in the handle.
- UTF-16: a wide character is a Dafny `char`. `OsString::from_wide` is the identity, and case folding covers ASCII only, as `eq_ignore_ascii_case` does.
- `GamecheatGameHandle.GameHandle.ReadMemory`: the unchecked u64 addition `image_base + offset` is a precondition, not a wrap or panic. The same holds for every reader and writer, and for `Slot` in both material modules.
- RootHelpers.AddMaterial: the unchecked `+=` (a panic in debug builds, a wrap in release builds) is a precondition that the sum fits in a u32.
- RootHelpers.SubtractMaterial: the unchecked `-=` is a precondition that value is at most the counter.
- RootHelpers.GetImageBase: the panic on an empty module list is modelled as the error value `Panicked`, not as unwinding.
- The getters `handle()` and `image_base()` are the classes' constant fields.
- The ordered steps `new` takes (list, then open, then locate) run against a process table that does not change between the calls. A process that starts or exits meanwhile is not modelled.
