/**
 * The arithmetic unit that emulator/cpu.py imports from emulator/alu.py.
 * That file is not part of this model: only the behaviour its callers and
 * tests rely on is stated here, as an assumed contract.
 */
module Alu {

  /** What one 8-bit addition produces: the wrapped result and the two flags. */
  datatype Sum = Sum(result: int, zero: bool, carry: bool)

  /** The assumed `add`: the carry and the 8-bit result together give back the true sum. */
  function AddBytes(a: int, b: int): (s: Sum)
    requires 0 <= a < 0x100 && 0 <= b < 0x100
    ensures 0 <= s.result < 0x100
    ensures s.result + (if s.carry then 0x100 else 0) == a + b
    ensures s.zero <==> s.result == 0
  {
    var raw := a + b;
    Sum(raw % 0x100, raw % 0x100 == 0, raw > 0xFF)
  }

  /** The unit's two observable flags, updated as a side effect of `Add`. */
  class Alu {
    var zeroFlag: bool
    var carryFlag: bool

    /** Both flags start clear (assumed). */
    constructor ()
      ensures !zeroFlag && !carryFlag
    {
      zeroFlag, carryFlag := false, false;
    }

    /** `add(a, b)`: returns the 8-bit sum and records its flags. */
    method Add(a: int, b: int) returns (result: int)
      requires 0 <= a < 0x100 && 0 <= b < 0x100
      modifies this
      ensures result == AddBytes(a, b).result
      ensures zeroFlag == AddBytes(a, b).zero && carryFlag == AddBytes(a, b).carry
    {
      var s := AddBytes(a, b);
      result, zeroFlag, carryFlag := s.result, s.zero, s.carry;
    }
  }
}
