/** Flat byte memory with bounds-checked access (emulator/memory.py). */
module Memory {
  import opened Wrappers

  /** Number of cells of a memory created without an explicit size: a full 16-bit address space. */
  const DefaultSize: nat := 0x10000

  /** `MemoryAccessError`, carrying the offending address. */
  datatype AccessError = MemoryAccessError(address: int)

  predicate IsByte(v: int) { 0 <= v < 0x100 }

  /** Every cell holds an unsigned 8-bit value. */
  predicate AllBytes(cells: seq<int>)
  {
    forall i :: 0 <= i < |cells| ==> IsByte(cells[i])
  }

  /** `_check_address`: the address names a cell; negative addresses never do. */
  predicate InRange(cells: seq<int>, address: int)
    ensures InRange(cells, address) <==> 0 <= address < |cells|
    ensures address < 0 ==> !InRange(cells, address)
  {
    0 <= address < |cells|
  }

  /** `read_byte` on the contents `cells`. */
  function Read(cells: seq<int>, address: int): (r: Result<int, AccessError>)
    ensures r.Err? <==> !InRange(cells, address)
    ensures r.Err? ==> r.error == MemoryAccessError(address)
    ensures r.Ok? && AllBytes(cells) ==> IsByte(r.value)
  {
    if InRange(cells, address) then Ok(cells[address]) else Err(MemoryAccessError(address))
  }

  /** `write_byte` on the contents `cells`: the new contents, or the error. */
  function Write(cells: seq<int>, address: int, value: int): (r: Result<seq<int>, AccessError>)
    ensures r.Err? <==> Read(cells, address).Err?
    ensures r.Err? ==> r.error == MemoryAccessError(address)
    ensures r.Ok? ==> |r.value| == |cells|
    ensures r.Ok? ==> Read(r.value, address) == Ok(value % 0x100)
    ensures r.Ok? ==> forall b :: b != address ==> Read(r.value, b) == Read(cells, b)
    ensures r.Ok? && AllBytes(cells) ==> AllBytes(r.value)
  {
    if InRange(cells, address) then Ok(cells[address := value % 0x100]) else Err(MemoryAccessError(address))
  }

  /** A zero-filled byte array whose size is fixed at construction. */
  class Memory {
    const data: array<int>

    ghost predicate Valid()
      reads data
    {
      AllBytes(data[..])
    }

    /** The contents, cell by cell. */
    ghost function Cells(): seq<int>
      reads data
    {
      data[..]
    }

    /** `Memory(size)`: `size` zero bytes. */
    constructor (size: nat)
      ensures Valid() && fresh(data)
      ensures Cells() == seq(size, _ => 0)
    {
      data := new int[size](_ => 0);
    }

    /** `_check_address`, answered instead of raised. */
    predicate CheckAddress(address: int)
      reads data
      ensures CheckAddress(address) <==> InRange(data[..], address)
      ensures address < 0 ==> !CheckAddress(address)
    {
      0 <= address < data.Length
    }

    /** `write_byte`: stores the low 8 bits of `value`; a rejected address changes no cell. */
    method WriteByte(address: int, value: int) returns (r: Outcome<AccessError>)
      requires Valid()
      modifies data
      ensures Valid()
      ensures r.Fail? <==> !CheckAddress(address)
      ensures var w := Write(old(Cells()), address, value);
        (w.Ok? ==> r.Pass? && Cells() == w.value) &&
        (w.Err? ==> r == Fail(w.error) && Cells() == old(Cells()))
    {
      if !CheckAddress(address) {
        return Fail(MemoryAccessError(address));
      }
      data[address] := value % 0x100;
      r := Pass;
    }

    /** `read_byte`: the stored byte, or the error; never changes a cell. */
    method ReadByte(address: int) returns (r: Result<int, AccessError>)
      requires Valid()
      ensures r == Read(Cells(), address)
      ensures r.Ok? ==> IsByte(r.value)
    {
      if !CheckAddress(address) {
        return Err(MemoryAccessError(address));
      }
      r := Ok(data[address]);
    }
  }
}
