/**
 * The material commands of src/cli/cli.rs, on the gamecheat library's
 * `GameHandle`: set a counter, or add to or subtract from it with checked u32
 * arithmetic that refuses to wrap.
 */
module CliCommands {
  import opened Ints
  import opened Results
  import opened LittleEndian
  import opened Memory
  import opened Materials
  import opened GamecheatGameHandle

  /**
   * The boxed errors the commands return: a library error passed through by
   * `?`, or the message of a refused addition ("overflow occurred while adding
   * value {value} to {amount}") or subtraction ("overflow occurred while
   * subtracting value {value} from {amount}").
   */
  datatype CliError =
    | Gamecheat(cause: GamecheatError)
    | AddOverflow(value: u32, amount: u32)
    | SubtractOverflow(value: u32, amount: u32)

  /** `u32::checked_add`. */
  function CheckedAdd(a: u32, b: u32): (r: Option<u32>)
    ensures r.Some? <==> a + b < TWO_32
    ensures r.Some? ==> r.value == a + b
  {
    if a + b < TWO_32 then Some(a + b) else None
  }

  /** `u32::checked_sub`. */
  function CheckedSub(a: u32, b: u32): (r: Option<u32>)
    ensures r.Some? <==> b <= a
    ensures r.Some? ==> r.value == a - b
  {
    if b <= a then Some(a - b) else None
  }

  /** A subtraction undoes an addition that did not overflow. */
  lemma CheckedSubUndoesAdd(a: u32, b: u32)
    requires CheckedAdd(a, b).Some?
    ensures CheckedSub(CheckedAdd(a, b).value, b) == Some(a)
  {
  }

  /** An addition undoes a subtraction that did not underflow. */
  lemma CheckedAddUndoesSub(a: u32, b: u32)
    requires CheckedSub(a, b).Some?
    ensures CheckedAdd(CheckedSub(a, b).value, b) == Some(a)
  {
  }

  /**
   * `add_material` then `subtract_material` of the same amount on a counter:
   * the subtraction is accepted, and its write undoes the addition's, so the
   * address space is as before.
   */
  lemma AddThenSubtractRestores(m: AddressSpace, addr: int, counter: u32, value: u32)
    requires LoadU32(m, addr) == Some(counter)
    requires CheckedAdd(counter, value).Some?
    ensures CheckedSub(CheckedAdd(counter, value).value, value) == Some(counter)
    ensures Store(Store(m, addr, EncodeU32(CheckedAdd(counter, value).value)), addr, EncodeU32(counter)) == m
  {
    CheckedSubUndoesAdd(counter, value);
    StoreTwice(m, addr, EncodeU32(CheckedAdd(counter, value).value), EncodeU32(counter));
    EncodeDecodeU32(Load(m, addr, 4));
    StoreOfLoad(m, addr, 4);
  }

  /**
   * `subtract_material` then `add_material` of the same amount: the addition
   * is accepted and the address space is as before.
   */
  lemma SubtractThenAddRestores(m: AddressSpace, addr: int, counter: u32, value: u32)
    requires LoadU32(m, addr) == Some(counter)
    requires CheckedSub(counter, value).Some?
    ensures CheckedAdd(CheckedSub(counter, value).value, value) == Some(counter)
    ensures Store(Store(m, addr, EncodeU32(CheckedSub(counter, value).value)), addr, EncodeU32(counter)) == m
  {
    CheckedAddUndoesSub(counter, value);
    StoreTwice(m, addr, EncodeU32(CheckedSub(counter, value).value), EncodeU32(counter));
    EncodeDecodeU32(Load(m, addr, 4));
    StoreOfLoad(m, addr, 4);
  }

  /** The address of material's counter in the target. */
  function Slot(gh: GameHandle, material: Material): int {
    gh.image_base + Offset(material)
  }

  /**
   * `set_material`: `write_u32` of value at the material's offset; returns
   * value, which the counter then holds.
   */
  method SetMaterial(gh: GameHandle, material: Material, value: u32) returns (r: Result<u32, CliError>, ghost written: nat)
    requires gh.Valid() && !gh.closed
    requires Slot(gh, material) < TWO_64
    modifies gh.os
    ensures gh.Valid() && gh.os.handles == old(gh.os.handles) && gh.os.closeLog == old(gh.os.closeLog)
    ensures gh.os.processes == old(gh.os.processes) && gh.os.modules == old(gh.os.modules)
    ensures written <= 4
    ensures gh.os.memory == old(gh.os.memory)[gh.Target() := Store(old(gh.Mem()), Slot(gh, material), EncodeU32(value)[..written])]
    ensures r.Ok? ==> r.value == value && LoadU32(gh.Mem(), Slot(gh, material)) == Some(value)
    ensures r.Err? ==> r.error == Gamecheat(OperationError("WriteProcessMemory", gh.os.lastError))
  {
    ghost var before := gh.Mem();
    var wrote;
    wrote, written := gh.WriteU32(Offset(material), value);
    if wrote.Err? {
      return Err(Gamecheat(wrote.error)), written;
    }
    assert EncodeU32(value)[..written] == EncodeU32(value);
    assert gh.Mem() == Store(before, Slot(gh, material), EncodeU32(value));
    LoadU32AfterStore(before, Slot(gh, material), value);
    return Ok(value), written;
  }

  /**
   * `add_material`: reads the counter; when the sum with value fits in a
   * u32, writes it back at the same offset (the write of `set_material`) and
   * returns it, and otherwise returns `AddOverflow` without writing. `read` is
   * the counter as read, when the read succeeded.
   */
  method AddMaterial(gh: GameHandle, material: Material, value: u32)
    returns (r: Result<u32, CliError>, ghost read: Option<u32>, ghost written: nat)
    requires gh.Valid() && !gh.closed
    requires Slot(gh, material) < TWO_64
    modifies gh.os
    ensures gh.Valid() && gh.os.handles == old(gh.os.handles) && gh.os.closeLog == old(gh.os.closeLog)
    ensures gh.os.processes == old(gh.os.processes) && gh.os.modules == old(gh.os.modules)
    ensures read.None? ==>
      r == Err(Gamecheat(OperationError("ReadProcessMemory", gh.os.lastError))) && gh.os.memory == old(gh.os.memory)
    ensures read.Some? ==> read == LoadU32(old(gh.Mem()), Slot(gh, material))
    ensures read.Some? && CheckedAdd(read.value, value).None? ==>
      r == Err(AddOverflow(value, read.value)) && gh.os.memory == old(gh.os.memory)
    ensures read.Some? && CheckedAdd(read.value, value).Some? ==>
      && written <= 4
      && gh.os.memory == old(gh.os.memory)[gh.Target() := Store(old(gh.Mem()), Slot(gh, material), EncodeU32(read.value + value)[..written])]
      && (r.Err? ==> r.error == Gamecheat(OperationError("WriteProcessMemory", gh.os.lastError)))
    ensures r.Ok? ==>
      && read.Some? && read.value + value < TWO_32 && r.value == read.value + value
      && LoadU32(gh.Mem(), Slot(gh, material)) == Some(r.value)
  {
    var materialAmount := gh.ReadU32(Offset(material));
    if materialAmount.Err? {
      return Err(Gamecheat(materialAmount.error)), None, 0;
    }
    read := Some(materialAmount.value);
    var sum := CheckedAdd(materialAmount.value, value);
    if sum.Some? {
      r, written := SetMaterial(gh, material, sum.value);
      return r, read, written;
    }
    return Err(AddOverflow(value, materialAmount.value)), read, 0;
  }

  /**
   * `subtract_material`: reads the counter; when value is at most the
   * counter, writes the difference back and returns it, and otherwise returns
   * `SubtractOverflow` without writing.
   */
  method SubtractMaterial(gh: GameHandle, material: Material, value: u32)
    returns (r: Result<u32, CliError>, ghost read: Option<u32>, ghost written: nat)
    requires gh.Valid() && !gh.closed
    requires Slot(gh, material) < TWO_64
    modifies gh.os
    ensures gh.Valid() && gh.os.handles == old(gh.os.handles) && gh.os.closeLog == old(gh.os.closeLog)
    ensures gh.os.processes == old(gh.os.processes) && gh.os.modules == old(gh.os.modules)
    ensures read.None? ==>
      r == Err(Gamecheat(OperationError("ReadProcessMemory", gh.os.lastError))) && gh.os.memory == old(gh.os.memory)
    ensures read.Some? ==> read == LoadU32(old(gh.Mem()), Slot(gh, material))
    ensures read.Some? && CheckedSub(read.value, value).None? ==>
      r == Err(SubtractOverflow(value, read.value)) && gh.os.memory == old(gh.os.memory)
    ensures read.Some? && CheckedSub(read.value, value).Some? ==>
      && written <= 4
      && gh.os.memory == old(gh.os.memory)[gh.Target() := Store(old(gh.Mem()), Slot(gh, material), EncodeU32(read.value - value)[..written])]
      && (r.Err? ==> r.error == Gamecheat(OperationError("WriteProcessMemory", gh.os.lastError)))
    ensures r.Ok? ==>
      && read.Some? && value <= read.value && r.value == read.value - value
      && LoadU32(gh.Mem(), Slot(gh, material)) == Some(r.value)
  {
    var materialAmount := gh.ReadU32(Offset(material));
    if materialAmount.Err? {
      return Err(Gamecheat(materialAmount.error)), None, 0;
    }
    read := Some(materialAmount.value);
    var difference := CheckedSub(materialAmount.value, value);
    if difference.Some? {
      r, written := SetMaterial(gh, material, difference.value);
      return r, read, written;
    }
    return Err(SubtractOverflow(value, materialAmount.value)), read, 0;
  }
}
