/** The CPU object of emulator/cpu.py: registers, memory and ALU updated in place. */
module Cpu {
  import opened Wrappers
  import Register
  import Memory
  import Alu
  import opened Semantics

  class Cpu {
    const accumulator: Register.Register8
    const programCounter: Register.Register16
    const stackPointer: Register.Register8
    const memory: Memory.Memory
    const alu: Alu.Alu

    /** Each component keeps its own invariant, and the two 8-bit registers are distinct cells. */
    ghost predicate Valid()
      reads accumulator, programCounter, stackPointer, memory.data, alu
    {
      accumulator != stackPointer &&
      accumulator.Valid() && programCounter.Valid() && stackPointer.Valid() && memory.Valid()
    }

    /** The state the object stands for. */
    ghost function Model(): Machine
      reads accumulator, programCounter, stackPointer, memory.data, alu
    {
      Machine(accumulator.value, programCounter.value, stackPointer.value,
              alu.zeroFlag, alu.carryFlag, memory.Cells())
    }

    /** `CPU()`: zeroed registers and memory, except the stack pointer at 0xFF. */
    constructor ()
      ensures Valid() && Semantics.Valid(Model())
      ensures fresh(accumulator) && fresh(programCounter) && fresh(stackPointer)
      ensures fresh(memory) && fresh(memory.data) && fresh(alu)
      ensures Model() == Machine(0, 0, 0xFF, false, false, seq(Memory.DefaultSize, _ => 0))
    {
      accumulator := new Register.Register8();
      programCounter := new Register.Register16();
      stackPointer := new Register.Register8();
      memory := new Memory.Memory(Memory.DefaultSize);
      alu := new Alu.Alu();
      new;
      stackPointer.Set(0xFF);
    }

    /** `step`: one instruction; on failure it reports the error and the state is as before. */
    method Step() returns (r: Outcome<Error>)
      requires Valid()
      modifies accumulator, programCounter, memory.data, alu
      ensures Valid()
      ensures var s := Semantics.Step(old(Model()));
        (s.Ok? ==> r.Pass? && Model() == s.value) &&
        (s.Err? ==> r == Fail(s.error) && Model() == old(Model()))
    {
      var pc := programCounter.Get();
      var fetched := memory.ReadByte(pc);
      if fetched.Err? {
        return Fail(MemoryAccess(fetched.error.address));
      }
      var opcode := fetched.value;
      if opcode == LdaImmediate {
        r := ExecuteLdaImmediate();
      } else if opcode == StaAbsolute {
        r := ExecuteStaAbsolute();
      } else if opcode == AddImmediate {
        r := ExecuteAddImmediate();
      } else if opcode == JmpAbsolute {
        r := ExecuteJmpAbsolute();
      } else if opcode == Nop {
        r := ExecuteNop();
      } else if opcode == Bne {
        r := ExecuteBne();
      } else if opcode == Beq {
        r := ExecuteBeq();
      } else {
        r := Fail(UnimplementedOpcode(opcode));
      }
    }

    /** `_execute_lda_immediate`. */
    method ExecuteLdaImmediate() returns (r: Outcome<Error>)
      requires Valid()
      modifies accumulator, programCounter
      ensures Valid()
      ensures var s := Semantics.ExecuteLdaImmediate(old(Model()));
        (s.Ok? ==> r.Pass? && Model() == s.value) &&
        (s.Err? ==> r == Fail(s.error) && Model() == old(Model()))
    {
      var pc := programCounter.Get();
      var value := memory.ReadByte(pc + 1);
      if value.Err? {
        return Fail(MemoryAccess(value.error.address));
      }
      accumulator.Set(value.value);
      programCounter.Set(pc + 2);
      r := Pass;
    }

    /** `_execute_sta_absolute`. */
    method ExecuteStaAbsolute() returns (r: Outcome<Error>)
      requires Valid()
      modifies programCounter, memory.data
      ensures Valid()
      ensures var s := Semantics.ExecuteStaAbsolute(old(Model()));
        (s.Ok? ==> r.Pass? && Model() == s.value) &&
        (s.Err? ==> r == Fail(s.error) && Model() == old(Model()))
    {
      var pc := programCounter.Get();
      var low := memory.ReadByte(pc + 1);
      if low.Err? {
        return Fail(MemoryAccess(low.error.address));
      }
      var high := memory.ReadByte(pc + 2);
      if high.Err? {
        return Fail(MemoryAccess(high.error.address));
      }
      var address := AbsoluteAddress(low.value, high.value);
      var value := accumulator.Get();
      var written := memory.WriteByte(address, value);
      if written.Fail? {
        return Fail(MemoryAccess(written.error.address));
      }
      programCounter.Set(pc + 3);
      r := Pass;
    }

    /** `_execute_add_immediate`. */
    method ExecuteAddImmediate() returns (r: Outcome<Error>)
      requires Valid()
      modifies accumulator, programCounter, alu
      ensures Valid()
      ensures var s := Semantics.ExecuteAddImmediate(old(Model()));
        (s.Ok? ==> r.Pass? && Model() == s.value) &&
        (s.Err? ==> r == Fail(s.error) && Model() == old(Model()))
    {
      var pc := programCounter.Get();
      var operand := memory.ReadByte(pc + 1);
      if operand.Err? {
        return Fail(MemoryAccess(operand.error.address));
      }
      var accumulatorValue := accumulator.Get();
      var result := alu.Add(accumulatorValue, operand.value);
      accumulator.Set(result);
      programCounter.Set(pc + 2);
      r := Pass;
    }

    /** `_execute_nop`. */
    method ExecuteNop() returns (r: Outcome<Error>)
      requires Valid()
      modifies programCounter
      ensures Valid()
      ensures r.Pass? && Model() == Semantics.ExecuteNop(old(Model())).value
    {
      var pc := programCounter.Get();
      programCounter.Set(pc + 1);
      r := Pass;
    }

    /** `_execute_jmp_absolute`. */
    method ExecuteJmpAbsolute() returns (r: Outcome<Error>)
      requires Valid()
      modifies programCounter
      ensures Valid()
      ensures var s := Semantics.ExecuteJmpAbsolute(old(Model()));
        (s.Ok? ==> r.Pass? && Model() == s.value) &&
        (s.Err? ==> r == Fail(s.error) && Model() == old(Model()))
    {
      var pc := programCounter.Get();
      var low := memory.ReadByte(pc + 1);
      if low.Err? {
        return Fail(MemoryAccess(low.error.address));
      }
      var high := memory.ReadByte(pc + 2);
      if high.Err? {
        return Fail(MemoryAccess(high.error.address));
      }
      var target := AbsoluteAddress(low.value, high.value);
      programCounter.Set(target);
      r := Pass;
    }

    /** The shared body of `_execute_bne` and `_execute_beq`. */
    method BranchIf(taken: bool) returns (r: Outcome<Error>)
      requires Valid()
      modifies programCounter
      ensures Valid()
      ensures var s := Semantics.Branch(old(Model()), taken);
        (s.Ok? ==> r.Pass? && Model() == s.value) &&
        (s.Err? ==> r == Fail(s.error) && Model() == old(Model()))
    {
      var pc := programCounter.Get();
      var raw := memory.ReadByte(pc + 1);
      if raw.Err? {
        return Fail(MemoryAccess(raw.error.address));
      }
      var offset := raw.value;
      if offset >= 0x80 {
        offset := offset - 0x100;
      }
      pc := pc + 2;
      if taken {
        pc := pc + offset;
      }
      programCounter.Set(pc);
      r := Pass;
    }

    /** `_execute_bne`: branch when the zero flag is clear. */
    method ExecuteBne() returns (r: Outcome<Error>)
      requires Valid()
      modifies programCounter
      ensures Valid()
      ensures var s := Semantics.ExecuteBne(old(Model()));
        (s.Ok? ==> r.Pass? && Model() == s.value) &&
        (s.Err? ==> r == Fail(s.error) && Model() == old(Model()))
    {
      r := BranchIf(!alu.zeroFlag);
    }

    /** `_execute_beq`: branch when the zero flag is set. */
    method ExecuteBeq() returns (r: Outcome<Error>)
      requires Valid()
      modifies programCounter
      ensures Valid()
      ensures var s := Semantics.ExecuteBeq(old(Model()));
        (s.Ok? ==> r.Pass? && Model() == s.value) &&
        (s.Err? ==> r == Fail(s.error) && Model() == old(Model()))
    {
      r := BranchIf(alu.zeroFlag);
    }
  }
}
