/** Instruction scenarios and whole programs from the test suite, stated over `Step` and `Run`. */
module Programs {
  import opened Wrappers
  import opened Semantics

  /** A machine whose memory has the size the CPU gives it and whose program starts at 0. */
  predicate AtReset(m: Machine)
  {
    Valid(m) && |m.memory| == 0x10000 && m.programCounter == 0
  }

  /** LDA #$42 loads the operand and advances by two (tests/test_cpu.py). */
  lemma LoadImmediate(m: Machine)
    requires AtReset(m) && m.memory[0] == LdaImmediate && m.memory[1] == 0x42
    ensures Step(m) == Ok(m.(accumulator := 0x42, programCounter := 2))
  {
  }

  /** STA $0200 stores the accumulator and advances by three (tests/test_cpu.py). */
  lemma StoreAbsolute(m: Machine)
    requires AtReset(m) && m.accumulator == 0x99
    requires m.memory[0] == StaAbsolute && m.memory[1] == 0x00 && m.memory[2] == 0x02
    ensures Step(m).Ok? && Step(m).value.memory[0x0200] == 0x99 && Step(m).value.programCounter == 3
  {
  }

  /** JMP goes to its target forward and backward, whatever the current pc (tests/test_cpu_jumps.py). */
  lemma JumpForwardAndBackward(m: Machine, pc: int)
    requires AtReset(m) && 0 <= pc < 0x10000 - 2
    requires m.memory[pc] == JmpAbsolute && m.memory[pc + 1] == 0x50 && m.memory[pc + 2] == 0x00
    ensures Step(m.(programCounter := pc)) == Ok(m.(programCounter := 0x0050))
  {
  }

  /** The branch targets of tests/test_cpu_jumps.py and of the BEQ check inside emulator/cpu.py. */
  lemma BranchTargets(m: Machine)
    requires AtReset(m)
    requires m.memory[0] == Bne && m.memory[1] == 0x0A
    requires m.memory[0x10] == Bne && m.memory[0x11] == 0xFA
    ensures Step(m.(zeroFlag := false)) == Ok(m.(zeroFlag := false, programCounter := 0x000C))
    ensures Step(m.(zeroFlag := true)) == Ok(m.(zeroFlag := true, programCounter := 0x0002))
    ensures Step(m.(zeroFlag := false, programCounter := 0x10)) == Ok(m.(zeroFlag := false, programCounter := 0x000C))
  {
  }

  /** BEQ +5 branches to 7 when the zero flag is set and falls through to 2 when it is clear. */
  lemma BranchIfEqual(m: Machine)
    requires AtReset(m) && m.memory[0] == Beq && m.memory[1] == 0x05
    ensures Step(m.(zeroFlag := true)) == Ok(m.(zeroFlag := true, programCounter := 0x0007))
    ensures Step(m.(zeroFlag := false)) == Ok(m.(zeroFlag := false, programCounter := 0x0002))
  {
  }

  /** A backward branch from the bottom of memory wraps to the top of the 16-bit space. */
  lemma BranchBelowZeroWraps(m: Machine)
    requires AtReset(m) && !m.zeroFlag && m.memory[0] == Bne && m.memory[1] == 0xF9
    ensures Step(m) == Ok(m.(programCounter := 0xFFFB))
  {
  }

  /** An operand fetch past the last cell fails, naming the unwrapped address pc + 1. */
  lemma OperandPastEnd(m: Machine)
    requires Valid(m) && |m.memory| == 0x10000 && m.programCounter == 0xFFFF
    requires m.memory[0xFFFF] == LdaImmediate
    ensures Step(m) == Err(MemoryAccess(0x10000))
  {
  }

  /** Bytes the CPU does not implement, 0xFF and the index-register loads 0xA2 and 0xA0 among them, fail. */
  lemma Unimplemented(m: Machine)
    requires AtReset(m) && m.memory[0] in {0xFF, 0xA2, 0xA0}
    ensures Step(m) == Err(UnimplementedOpcode(m.memory[0]))
  {
  }

  /**
   * LDA #a; ADD #b; STA target, the shape of the addition and overflow programs
   * of tests/test_programs.py: three steps leave the wrapped sum in the
   * accumulator and at `target`, with the carry set exactly when it wrapped.
   */
  lemma {:induction false} AddAndStore(m: Machine, a: int, b: int, low: int, high: int)
    requires AtReset(m)
    requires m.memory[0] == LdaImmediate && m.memory[1] == a
    requires m.memory[2] == AddImmediate && m.memory[3] == b
    requires m.memory[4] == StaAbsolute && m.memory[5] == low && m.memory[6] == high
    ensures var sum := (a + b) % 0x100;
      Run(m, 3) == Ok(m.(accumulator := sum, zeroFlag := sum == 0, carryFlag := a + b > 0xFF,
                         memory := m.memory[high * 0x100 + low := sum], programCounter := 7))
  {
    var sum := (a + b) % 0x100;
    var m1 := m.(accumulator := a, programCounter := 2);
    var m2 := m1.(accumulator := sum, zeroFlag := sum == 0, carryFlag := a + b > 0xFF, programCounter := 4);
    var m3 := m2.(memory := m.memory[high * 0x100 + low := sum], programCounter := 7);
    assert Step(m) == Ok(m1);
    assert Step(m1) == Ok(m2);
    assert Step(m2) == Ok(m3);
    assert Run(m2, 1) == Ok(m3);
  }

  /** tests/test_programs.py, the addition program: 5 + 10 is stored at $0200 and the pc is at 7. */
  lemma AdditionProgram(m: Machine)
    requires AtReset(m)
    requires m.memory[0] == LdaImmediate && m.memory[1] == 0x05
    requires m.memory[2] == AddImmediate && m.memory[3] == 0x0A
    requires m.memory[4] == StaAbsolute && m.memory[5] == 0x00 && m.memory[6] == 0x02
    ensures Run(m, 3).Ok? && Run(m, 3).value.accumulator == 0x0F
    ensures Run(m, 3).value.memory[0x0200] == 0x0F && Run(m, 3).value.programCounter == 7
  {
    AddAndStore(m, 0x05, 0x0A, 0x00, 0x02);
  }

  /** tests/test_programs.py, the overflow program: 255 + 2 wraps to 1, stored at $0400, with the carry set. */
  lemma OverflowProgram(m: Machine)
    requires AtReset(m)
    requires m.memory[0] == LdaImmediate && m.memory[1] == 0xFF
    requires m.memory[2] == AddImmediate && m.memory[3] == 0x02
    requires m.memory[4] == StaAbsolute && m.memory[5] == 0x00 && m.memory[6] == 0x04
    ensures Run(m, 3).Ok? && Run(m, 3).value.accumulator == 0x01
    ensures Run(m, 3).value.memory[0x0400] == 0x01 && Run(m, 3).value.carryFlag
  {
    AddAndStore(m, 0xFF, 0x02, 0x00, 0x04);
  }

  /** How many times a loop that decrements a byte until it is zero runs when it starts from `a`. */
  function Passes(a: int): (n: int)
    requires 0 <= a < 0x100
    ensures 1 <= n <= 0x100
  {
    if a == 0 then 0x100 else a
  }

  /** The loop of the countdown program of tests/test_loops.py: ADD #$FF; STA $0200; BNE -7, at address 2. */
  predicate CountdownLoop(mem: seq<int>)
  {
    |mem| == 0x10000 &&
    mem[2] == AddImmediate && mem[3] == 0xFF &&
    mem[4] == StaAbsolute && mem[5] == 0x00 && mem[6] == 0x02 &&
    mem[7] == Bne && mem[8] == 0xF9
  }

  /** One pass of the countdown loop: decrement, store, and branch back unless the result is zero. */
  lemma {:induction false} CountdownPass(m: Machine)
    requires Valid(m) && CountdownLoop(m.memory) && m.programCounter == 2
    ensures var k := (m.accumulator + 0xFF) % 0x100;
      Run(m, 3) == Ok(m.(accumulator := k, zeroFlag := k == 0, carryFlag := m.accumulator > 0,
                         memory := m.memory[0x0200 := k], programCounter := if k == 0 then 9 else 2))
  {
    var k := (m.accumulator + 0xFF) % 0x100;
    var m1 := m.(accumulator := k, zeroFlag := k == 0, carryFlag := m.accumulator > 0, programCounter := 4);
    var m2 := m1.(memory := m.memory[0x0200 := k], programCounter := 7);
    var m3 := m2.(programCounter := if k == 0 then 9 else 2);
    assert Step(m) == Ok(m1);
    assert Step(m1) == Ok(m2);
    assert Step(m2) == Ok(m3);
    assert Run(m2, 1) == Ok(m3);
  }

  /** From the top of the countdown loop, the loop runs `Passes` times and exits at 9 with everything zero. */
  lemma {:induction false} CountdownFrom(m: Machine)
    requires Valid(m) && CountdownLoop(m.memory) && m.programCounter == 2
    ensures Run(m, 3 * Passes(m.accumulator)) ==
      Ok(m.(accumulator := 0, zeroFlag := true, carryFlag := true,
            memory := m.memory[0x0200 := 0], programCounter := 9))
    decreases Passes(m.accumulator)
  {
    CountdownPass(m);
    var k := (m.accumulator + 0xFF) % 0x100;
    if k != 0 {
      var next := m.(accumulator := k, zeroFlag := false, carryFlag := m.accumulator > 0,
                     memory := m.memory[0x0200 := k], programCounter := 2);
      assert Passes(k) == Passes(m.accumulator) - 1;
      CountdownFrom(next);
      RunAdditive(m, 3, 3 * Passes(k));
      assert next.memory[0x0200 := 0] == m.memory[0x0200 := 0];
    }
  }

  /** LDA #n followed by the countdown loop. */
  predicate CountdownProgram(mem: seq<int>, n: int)
  {
    CountdownLoop(mem) && mem[0] == LdaImmediate && mem[1] == n
  }

  /** The countdown program always terminates: after 1 + 3 * Passes(n) steps the pc is just past the loop. */
  lemma {:induction false} Countdown(m: Machine, n: int)
    requires AtReset(m) && CountdownProgram(m.memory, n)
    ensures 0 <= n < 0x100
    ensures Run(m, 1 + 3 * Passes(n)) ==
      Ok(m.(accumulator := 0, zeroFlag := true, carryFlag := true,
            memory := m.memory[0x0200 := 0], programCounter := 9))
  {
    var m1 := m.(accumulator := n, programCounter := 2);
    assert Step(m) == Ok(m1);
    CountdownFrom(m1);
    RunAdditive(m, 1, 3 * Passes(n));
  }

  /** tests/test_loops.py, countdown from 5: sixteen steps. */
  lemma CountdownFromFive(m: Machine)
    requires AtReset(m) && CountdownProgram(m.memory, 5)
    ensures Run(m, 16).Ok?
    ensures Run(m, 16).value.accumulator == 0 && Run(m, 16).value.memory[0x0200] == 0
    ensures Run(m, 16).value.programCounter == 0x0009
  {
    Countdown(m, 5);
  }

  /** The loop of the second program of tests/test_loops.py: ADD #$FF; BNE -4; NOP, at address 2. */
  predicate CounterLoop(mem: seq<int>)
  {
    |mem| == 0x10000 &&
    mem[2] == AddImmediate && mem[3] == 0xFF &&
    mem[4] == Bne && mem[5] == 0xFC &&
    mem[6] == Nop
  }

  /** One pass of the counter loop: decrement and branch back unless the result is zero. */
  lemma {:induction false} CounterPass(m: Machine)
    requires Valid(m) && CounterLoop(m.memory) && m.programCounter == 2
    ensures var k := (m.accumulator + 0xFF) % 0x100;
      Run(m, 2) == Ok(m.(accumulator := k, zeroFlag := k == 0, carryFlag := m.accumulator > 0,
                         programCounter := if k == 0 then 6 else 2))
  {
    var k := (m.accumulator + 0xFF) % 0x100;
    var m1 := m.(accumulator := k, zeroFlag := k == 0, carryFlag := m.accumulator > 0, programCounter := 4);
    var m2 := m1.(programCounter := if k == 0 then 6 else 2);
    assert Step(m) == Ok(m1);
    assert Step(m1) == Ok(m2);
    assert Run(m1, 1) == Ok(m2);
  }

  /** From the top of the counter loop, the loop runs `Passes` times and stops on the NOP at 6. */
  lemma {:induction false} CounterFrom(m: Machine)
    requires Valid(m) && CounterLoop(m.memory) && m.programCounter == 2
    ensures Run(m, 2 * Passes(m.accumulator)) ==
      Ok(m.(accumulator := 0, zeroFlag := true, carryFlag := true, programCounter := 6))
    decreases Passes(m.accumulator)
  {
    CounterPass(m);
    var k := (m.accumulator + 0xFF) % 0x100;
    if k != 0 {
      var next := m.(accumulator := k, zeroFlag := false, carryFlag := m.accumulator > 0, programCounter := 2);
      assert Passes(k) == Passes(m.accumulator) - 1;
      CounterFrom(next);
      RunAdditive(m, 2, 2 * Passes(k));
    }
  }

  /** The whole counter program from LDA #n reaches the NOP at 6 for every start byte, after 1 + 2 * Passes(n) steps. */
  lemma {:induction false} Counter(m: Machine, n: int)
    requires AtReset(m) && CounterLoop(m.memory) && m.memory[0] == LdaImmediate && m.memory[1] == n
    ensures 0 <= n < 0x100
    ensures Run(m, 1 + 2 * Passes(n)) ==
      Ok(m.(accumulator := 0, zeroFlag := true, carryFlag := true, programCounter := 6))
  {
    var m1 := m.(accumulator := n, programCounter := 2);
    assert Step(m) == Ok(m1);
    CounterFrom(m1);
    RunAdditive(m, 1, 2 * Passes(n));
  }

  /** tests/test_loops.py, counter from 3: LDA #3, three passes, then the NOP, eight steps ending at 7. */
  lemma {:induction false} CounterFromThree(m: Machine)
    requires AtReset(m) && CounterLoop(m.memory) && m.memory[0] == LdaImmediate && m.memory[1] == 3
    ensures Run(m, 8) == Ok(m.(accumulator := 0, zeroFlag := true, carryFlag := true, programCounter := 7))
  {
    var m1 := m.(accumulator := 3, programCounter := 2);
    var m7 := m.(accumulator := 0, zeroFlag := true, carryFlag := true, programCounter := 6);
    assert Step(m) == Ok(m1);
    CounterFrom(m1);
    RunAdditive(m, 1, 6);
    RunAdditive(m, 7, 1);
    assert Step(m7) == Ok(m7.(programCounter := 7));
  }
}
