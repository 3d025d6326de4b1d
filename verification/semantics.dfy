/**
 * One fetch-decode-execute cycle of emulator/cpu.py, as a function of the
 * machine state. The class in module Cpu is proved to follow it.
 */
module Semantics {
  import opened Wrappers
  import Register
  import Memory
  import Alu

  const LdaImmediate: int := 0xA9
  const StaAbsolute: int := 0x8D
  const AddImmediate: int := 0x69
  const JmpAbsolute: int := 0x4C
  const Nop: int := 0xEA
  const Bne: int := 0xD0
  const Beq: int := 0xF0

  /** The opcodes `step` dispatches on; every other byte is unimplemented. */
  const Implemented: set<int> := {LdaImmediate, StaAbsolute, AddImmediate, JmpAbsolute, Nop, Bne, Beq}

  /** Everything a step can read or change: the three registers, the ALU flags and memory. */
  datatype Machine = Machine(
    accumulator: int,
    programCounter: int,
    stackPointer: int,
    zeroFlag: bool,
    carryFlag: bool,
    memory: seq<int>)

  /** The register widths and the byte cells. */
  predicate Valid(m: Machine)
  {
    0 <= m.accumulator < 0x100 &&
    0 <= m.programCounter < 0x10000 &&
    0 <= m.stackPointer < 0x100 &&
    Memory.AllBytes(m.memory)
  }

  /** The two ways `step` fails: a `MemoryAccessError` passed on unchanged, or an unimplemented opcode. */
  datatype Error = MemoryAccess(address: int) | UnimplementedOpcode(opcode: int)

  /** A memory read whose failure is reported as the step's error. */
  function Fetch(m: Machine, address: int): (r: Result<int, Error>)
    ensures r.Err? <==> !(0 <= address < |m.memory|)
    ensures r.Err? ==> r.error == MemoryAccess(address)
    ensures r.Ok? ==> r.value == m.memory[address]
    ensures r.Ok? && Valid(m) ==> 0 <= r.value < 0x100
  {
    match Memory.Read(m.memory, address)
    case Ok(b) => Ok(b)
    case Err(e) => Err(MemoryAccess(e.address))
  }

  /**
   * `(high << 8) | low`: the little-endian absolute address. Since `low` is a
   * byte it fills only the eight bits the shift leaves clear, so the `|` is a sum.
   */
  function AbsoluteAddress(low: int, high: int): (a: int)
    requires 0 <= low < 0x100 && 0 <= high < 0x100
    ensures 0 <= a < 0x10000
    ensures a % 0x100 == low && a / 0x100 == high
  {
    high * 0x100 + low
  }

  /** The operand byte of a branch read as a signed 8-bit two's-complement offset. */
  function SignedOffset(b: int): (o: int)
    requires 0 <= b < 0x100
    ensures -0x80 <= o < 0x80
    ensures (b - o) % 0x100 == 0
  {
    if b >= 0x80 then b - 0x100 else b
  }

  /** `_execute_lda_immediate`. */
  function ExecuteLdaImmediate(m: Machine): (r: Result<Machine, Error>)
    requires Valid(m)
    ensures var pc := m.programCounter;
      if pc + 1 < |m.memory| then
        r == Ok(m.(accumulator := m.memory[pc + 1], programCounter := (pc + 2) % 0x10000))
      else
        r == Err(MemoryAccess(pc + 1))
  {
    var pc := m.programCounter;
    var value :- Fetch(m, pc + 1);
    Ok(m.(accumulator := Register.Mask8(value), programCounter := Register.Mask16(pc + 2)))
  }

  /** `_execute_sta_absolute`. */
  function ExecuteStaAbsolute(m: Machine): (r: Result<Machine, Error>)
    requires Valid(m)
    ensures var pc := m.programCounter;
      if pc + 2 < |m.memory| then
        var target := m.memory[pc + 2] * 0x100 + m.memory[pc + 1];
        if target < |m.memory| then
          r == Ok(m.(memory := m.memory[target := m.accumulator], programCounter := (pc + 3) % 0x10000))
        else
          r == Err(MemoryAccess(target))
      else
        r == Err(MemoryAccess(if pc + 1 < |m.memory| then pc + 2 else pc + 1))
  {
    var pc := m.programCounter;
    var low :- Fetch(m, pc + 1);
    var high :- Fetch(m, pc + 2);
    var address := AbsoluteAddress(low, high);
    match Memory.Write(m.memory, address, m.accumulator)
    case Err(e) => Err(MemoryAccess(e.address))
    case Ok(cells) => Ok(m.(memory := cells, programCounter := Register.Mask16(pc + 3)))
  }

  /** `_execute_add_immediate`: the accumulator plus the operand, through the ALU. */
  function ExecuteAddImmediate(m: Machine): (r: Result<Machine, Error>)
    requires Valid(m)
    ensures var pc := m.programCounter;
      if pc + 1 < |m.memory| then
        var sum := m.accumulator + m.memory[pc + 1];
        r == Ok(m.(accumulator := sum % 0x100, zeroFlag := sum % 0x100 == 0, carryFlag := sum > 0xFF,
                   programCounter := (pc + 2) % 0x10000))
      else
        r == Err(MemoryAccess(pc + 1))
  {
    var pc := m.programCounter;
    var operand :- Fetch(m, pc + 1);
    var s := Alu.AddBytes(m.accumulator, operand);
    Ok(m.(accumulator := Register.Mask8(s.result), zeroFlag := s.zero, carryFlag := s.carry,
          programCounter := Register.Mask16(pc + 2)))
  }

  /** `_execute_nop`. */
  function ExecuteNop(m: Machine): (r: Result<Machine, Error>)
    requires Valid(m)
    ensures r == Ok(m.(programCounter := (m.programCounter + 1) % 0x10000))
  {
    Ok(m.(programCounter := Register.Mask16(m.programCounter + 1)))
  }

  /** `_execute_jmp_absolute`. */
  function ExecuteJmpAbsolute(m: Machine): (r: Result<Machine, Error>)
    requires Valid(m)
    ensures var pc := m.programCounter;
      if pc + 2 < |m.memory| then
        r == Ok(m.(programCounter := m.memory[pc + 2] * 0x100 + m.memory[pc + 1]))
      else
        r == Err(MemoryAccess(if pc + 1 < |m.memory| then pc + 2 else pc + 1))
  {
    var pc := m.programCounter;
    var low :- Fetch(m, pc + 1);
    var high :- Fetch(m, pc + 2);
    Ok(m.(programCounter := Register.Mask16(AbsoluteAddress(low, high))))
  }

  /** The shared body of `_execute_bne` and `_execute_beq`: branch relative to pc + 2 when `taken`. */
  function Branch(m: Machine, taken: bool): (r: Result<Machine, Error>)
    requires Valid(m)
    ensures var pc := m.programCounter;
      if pc + 1 < |m.memory| then
        var offset := if taken then SignedOffset(m.memory[pc + 1]) else 0;
        r == Ok(m.(programCounter := (pc + 2 + offset) % 0x10000))
      else
        r == Err(MemoryAccess(pc + 1))
  {
    var pc := m.programCounter;
    var raw :- Fetch(m, pc + 1);
    var offset := SignedOffset(raw);
    var next := pc + 2;
    Ok(m.(programCounter := Register.Mask16(if taken then next + offset else next)))
  }

  /** `_execute_bne`: branch when the zero flag is clear. */
  function ExecuteBne(m: Machine): (r: Result<Machine, Error>)
    requires Valid(m)
    ensures var pc := m.programCounter;
      if pc + 1 < |m.memory| then
        r.Ok? && r.value == m.(programCounter := r.value.programCounter) &&
        r.value.programCounter ==
          if !m.zeroFlag then (pc + 2 + SignedOffset(m.memory[pc + 1])) % 0x10000 else (pc + 2) % 0x10000
      else
        r == Err(MemoryAccess(pc + 1))
  {
    Branch(m, !m.zeroFlag)
  }

  /** `_execute_beq`: branch when the zero flag is set. */
  function ExecuteBeq(m: Machine): (r: Result<Machine, Error>)
    requires Valid(m)
    ensures var pc := m.programCounter;
      if pc + 1 < |m.memory| then
        r.Ok? && r.value == m.(programCounter := r.value.programCounter) &&
        r.value.programCounter ==
          if m.zeroFlag then (pc + 2 + SignedOffset(m.memory[pc + 1])) % 0x10000 else (pc + 2) % 0x10000
      else
        r == Err(MemoryAccess(pc + 1))
  {
    Branch(m, m.zeroFlag)
  }

  /** `step`: fetch the opcode at the program counter and run its handler. */
  function Step(m: Machine): (r: Result<Machine, Error>)
    requires Valid(m)
    ensures m.programCounter >= |m.memory| ==> r == Err(MemoryAccess(m.programCounter))
    ensures m.programCounter < |m.memory| && m.memory[m.programCounter] !in Implemented ==>
      r == Err(UnimplementedOpcode(m.memory[m.programCounter]))
    ensures r.Ok? ==> Valid(r.value) && r.value.stackPointer == m.stackPointer
    ensures r.Ok? ==> |r.value.memory| == |m.memory|
    ensures r.Ok? && m.memory[m.programCounter] != StaAbsolute ==> r.value.memory == m.memory
    ensures r.Ok? && m.memory[m.programCounter] != AddImmediate ==>
      r.value.zeroFlag == m.zeroFlag && r.value.carryFlag == m.carryFlag
  {
    var opcode :- Fetch(m, m.programCounter);
    if opcode == LdaImmediate then ExecuteLdaImmediate(m)
    else if opcode == StaAbsolute then ExecuteStaAbsolute(m)
    else if opcode == AddImmediate then ExecuteAddImmediate(m)
    else if opcode == JmpAbsolute then ExecuteJmpAbsolute(m)
    else if opcode == Nop then ExecuteNop(m)
    else if opcode == Bne then ExecuteBne(m)
    else if opcode == Beq then ExecuteBeq(m)
    else Err(UnimplementedOpcode(opcode))
  }

  /** `n` calls of `step` in a row, stopping at the first failure. */
  function Run(m: Machine, n: nat): (r: Result<Machine, Error>)
    requires Valid(m)
    ensures r.Ok? ==> Valid(r.value) && r.value.stackPointer == m.stackPointer
    ensures r.Ok? ==> |r.value.memory| == |m.memory|
    decreases n
  {
    if n == 0 then Ok(m)
    else
      match Step(m)
      case Err(e) => Err(e)
      case Ok(next) => Run(next, n - 1)
  }

  /** Running `a + b` steps is running `a` steps and then `b` more from where they end. */
  lemma {:induction false} RunAdditive(m: Machine, a: nat, b: nat)
    requires Valid(m)
    ensures Run(m, a + b) == match Run(m, a) case Err(e) => Err(e) case Ok(mid) => Run(mid, b)
    decreases a
  {
    if a > 0 {
      match Step(m)
      case Err(e) =>
      case Ok(next) =>
        RunAdditive(next, a - 1, b);
        assert a + b - 1 == (a - 1) + b;
    }
  }
}
