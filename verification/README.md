# Simple8 emulator core, modelled in Dafny

A model of the Simple8 virtual CPU: two fixed-width register cells, a flat
bounds-checked byte memory, an adder with zero and carry flags, and a CPU whose
`step` fetches one opcode at the program counter and runs one of seven
instructions (LDA immediate `0xA9`, STA absolute `0x8D`, ADD immediate `0x69`,
JMP absolute `0x4C`, NOP `0xEA`, BNE `0xD0`, BEQ `0xF0`). The opcode bytes are
the MOS 6502's, but `0x69` is a plain add with no carry-in.

Modules, one per component:

- `Wrappers` — `Result` and `Outcome`, which stand in for the raised exceptions.
- `Register` (emulator/register.py) — `Mask8`/`Mask16` (the `& 0xFF` and `& 0xFFFF` masks, which equal Dafny's Euclidean `%` also for negative values) and the classes `Register8` and `Register16`.
- `Memory` (emulator/memory.py) — `Read`/`Write` on a sequence of cells, which state what `read_byte`/`write_byte` do, and the class `Memory` over an `array<int>` whose methods are proved to follow them. `MemoryAccessError` is a datatype carrying the address.
- `Alu` — the adder that emulator/cpu.py imports. emulator/alu.py is not part of this model. Its behaviour is an assumed contract: result `(a + b) % 256`, carry iff `a + b > 255`, zero iff the result is 0. Both flags are assumed to start clear.
- `Semantics` (emulator/cpu.py) — the machine state as a value, one function per instruction handler, `Step` and `Run` (`n` steps in a row).
- `Cpu` (emulator/cpu.py) — the class `Cpu` with register, memory and ALU objects. Its `Step` and handler methods change those objects in place. Each method is proved to move `Model()` exactly as the corresponding `Semantics` function says, and to leave `Model()` untouched when it fails.
- `Programs` (tests/) — the instruction scenarios and the whole programs of the test suite, as lemmas over `Step` and `Run`. The two loop programs are proved to terminate for every start value, not only for the tested one.

tests/test_index_registers.py:4-34 expects X and Y registers and the loads LDX
`0xA2` and LDY `0xA0`. emulator/cpu.py has neither, so those bytes reach the
unimplemented branch at emulator/cpu.py:36-37, as `Programs.Unimplemented` shows.
The model follows the code.

## Model

| member | source | states |
|---|---|---|
| `Register.Mask8` | emulator/register.py:13 | the result is in [0, 255], differs from the input by a multiple of 256, and equals the input when it is already a byte (so storing what `get` returned changes nothing, and masking twice equals masking once) |
| `Register.Mask16` | emulator/register.py:24 | the same for 16 bits: in [0, 65535], congruent modulo 65536 (negative inputs included), identity on values already in range |
| `Register.Register8.constructor` | emulator/register.py:4-5 | a new 8-bit register reads 0 |
| `Register.Register8.Get` | emulator/register.py:7-9 | returns the stored value, which is always in [0, 255]; it changes nothing |
| `Register.Register8.Set` | emulator/register.py:11-13 | afterwards the value is `v mod 256` and the range invariant holds; setting the current value back changes nothing |
| `Register.Register16.constructor` | emulator/register.py:17-18 | a new 16-bit register reads 0 |
| `Register.Register16.Get` | emulator/register.py:20-21 | returns the stored value, always in [0, 65535]; it changes nothing |
| `Register.Register16.Set` | emulator/register.py:23-24 | afterwards the value is `v mod 65536` and the range invariant holds; setting the current value back changes nothing |
| `Register.WrapExamples` | tests/test_register.py:10-24 | 0x2C is kept, 0x100 wraps to 0 and 0x101 to 1; for 16 bits, -1 gives 0xFFFF |
| `Memory.InRange` | emulator/memory.py:7-10 | holds exactly when 0 <= address < size; negative addresses are rejected |
| `Memory.Memory.CheckAddress` | emulator/memory.py:7-10 | holds exactly when 0 <= address < size of the array, the same check as `InRange` on the current cells; negative addresses are rejected |
| `Memory.Read` | emulator/memory.py:17-20 | fails with `MemoryAccessError(address)` exactly when the address is negative or not below the size; a byte memory yields a byte |
| `Memory.Write` | emulator/memory.py:12-15 | fails exactly when `Read` at that address fails, with the same error; on success the size is unchanged, reading the address back gives `value mod 256`, every other address reads as before, and all cells stay bytes |
| `Memory.Memory.constructor` | emulator/memory.py:4-5 | a new memory of size `size` holds `size` zero bytes |
| `Memory.Memory.WriteByte` | emulator/memory.py:12-15 | fails iff `_check_address` rejects the address, and then no cell changes; otherwise the contents become what `Write` gives; cells stay bytes |
| `Memory.Memory.ReadByte` | emulator/memory.py:17-20 | returns what `Read` gives on the current contents, a byte on success, and changes no cell |
| `Alu.AddBytes` | tests/test_programs.py:96-102 | (assumed contract of the adder) the result is a byte, result plus 256 when the carry is set equals the true sum, and the zero flag is set iff the result is 0 |
| `Alu.Alu.constructor` | emulator/cpu.py:13 | (assumed) a new ALU has both flags clear |
| `Alu.Alu.Add` | emulator/cpu.py:67 | returns the `AddBytes` result and records its zero and carry flags |
| `Semantics.Fetch` | emulator/cpu.py:20 | a fetch fails with the memory error for that address iff it is out of range, and otherwise yields the byte stored there |
| `Semantics.AbsoluteAddress` | emulator/cpu.py:53-55 | the address is in [0, 0xFFFF], its low byte is the first operand and its high byte the second |
| `Semantics.SignedOffset` | emulator/cpu.py:89-92 | the offset is in [-128, 127] and congruent to the raw byte modulo 256 (two's complement) |
| `Semantics.ExecuteLdaImmediate` | emulator/cpu.py:39-47 | accumulator becomes mem[pc+1], pc becomes (pc+2) mod 2^16, nothing else changes; fails with the address pc+1 when that is outside memory |
| `Semantics.ExecuteStaAbsolute` | emulator/cpu.py:49-60 | mem[hi*256+lo] becomes the accumulator and pc becomes (pc+3) mod 2^16, with the accumulator and every other cell unchanged; the first out-of-range read (pc+1, then pc+2) or the target address is the error |
| `Semantics.ExecuteAddImmediate` | emulator/cpu.py:62-69 | accumulator becomes (acc + mem[pc+1]) mod 256, carry iff the true sum exceeds 255, zero iff the new accumulator is 0, pc advances by 2; memory unchanged |
| `Semantics.ExecuteNop` | emulator/cpu.py:71-74 | pc advances by exactly 1 (mod 2^16) and nothing else changes |
| `Semantics.ExecuteJmpAbsolute` | emulator/cpu.py:76-84 | pc becomes hi*256+lo whatever its current value, nothing else changes; the first out-of-range operand read is the error |
| `Semantics.Branch` | emulator/cpu.py:86-114 | the operand is read even when the branch is not taken; pc becomes (pc+2+offset) mod 2^16 when taken and (pc+2) mod 2^16 otherwise; flags and memory untouched |
| `Semantics.ExecuteBne` | emulator/cpu.py:86-99 | pc moves by the signed offset relative to pc+2 exactly when the zero flag is clear, otherwise to pc+2; only pc changes |
| `Semantics.ExecuteBeq` | emulator/cpu.py:101-114 | pc moves by the signed offset relative to pc+2 exactly when the zero flag is set, otherwise to pc+2; only pc changes |
| `Semantics.Step` | emulator/cpu.py:17-37 | an opcode fetch outside memory fails with that address; a byte outside the seven opcodes fails with `UnimplementedOpcode` carrying it; a successful step keeps the register and byte invariants, never changes the stack pointer or the memory size, changes memory only for STA and the flags only for ADD |
| `Semantics.Run` | tests/test_loops.py:38-63 | repeated steps keep the invariants, the stack pointer and the memory size |
| `Semantics.RunAdditive` | tests/test_loops.py:38-63 | running a+b steps equals running a steps and then b more, failures included |
| `Cpu.Cpu.constructor` | emulator/cpu.py:7-14 | a new CPU has accumulator 0, pc 0, stack pointer 0xFF, both flags clear and 65536 zero bytes of memory |
| `Cpu.Cpu.Step` | emulator/cpu.py:17-37 | the object's state moves exactly as `Semantics.Step` says; on a failure the error is returned and no register, flag or cell has changed; the stack pointer is outside its frame |
| `Cpu.Cpu.ExecuteLdaImmediate` | emulator/cpu.py:39-47 | the in-place handler follows `Semantics.ExecuteLdaImmediate`, changing nothing when the operand read fails |
| `Cpu.Cpu.ExecuteStaAbsolute` | emulator/cpu.py:49-60 | follows `Semantics.ExecuteStaAbsolute`; the store happens only after both operand reads succeed |
| `Cpu.Cpu.ExecuteAddImmediate` | emulator/cpu.py:62-69 | follows `Semantics.ExecuteAddImmediate`, with the flags held by the ALU object |
| `Cpu.Cpu.ExecuteNop` | emulator/cpu.py:71-74 | follows `Semantics.ExecuteNop` |
| `Cpu.Cpu.ExecuteJmpAbsolute` | emulator/cpu.py:76-84 | follows `Semantics.ExecuteJmpAbsolute` |
| `Cpu.Cpu.BranchIf` | emulator/cpu.py:86-114 | follows `Semantics.Branch` for the given condition |
| `Cpu.Cpu.ExecuteBne` | emulator/cpu.py:86-99 | follows `Semantics.ExecuteBne`, reading the ALU's zero flag |
| `Cpu.Cpu.ExecuteBeq` | emulator/cpu.py:101-114 | follows `Semantics.ExecuteBeq`, reading the ALU's zero flag |
| `Programs.LoadImmediate` | tests/test_cpu.py:17-31 | `A9 42` at 0 loads 0x42 and leaves pc at 2 |
| `Programs.StoreAbsolute` | tests/test_cpu.py:34-48 | `8D 00 02` with accumulator 0x99 stores 0x99 at 0x0200 and leaves pc at 3 |
| `Programs.JumpForwardAndBackward` | tests/test_cpu_jumps.py:18-30 | `4C 50 00` jumps to 0x0050 from any pc |
| `Programs.BranchTargets` | tests/test_cpu_jumps.py:33-76 | BNE 0x0A from 0 goes to 0x000C when zero is clear and to 2 when set; BNE 0xFA from 0x10 goes to 0x000C |
| `Programs.BranchIfEqual` | tests/test_cpu_jumps.py:79-90 | BEQ 0x05 goes to 7 when zero is set and falls through to 2 when clear (the latter as in emulator/cpu.py:116-126) |
| `Programs.BranchBelowZeroWraps` | emulator/cpu.py:94-99 | BNE -7 from pc 0 wraps to 0xFFFB |
| `Programs.OperandPastEnd` | emulator/cpu.py:43-44 | LDA at 0xFFFF fails with the memory error for address 0x10000, which is not wrapped |
| `Programs.Unimplemented` | emulator/cpu.py:36-37 | 0xFF, 0xA2 and 0xA0 fail with `UnimplementedOpcode` carrying the byte |
| `Programs.AddAndStore` | tests/test_programs.py:3-32 | LDA #a; ADD #b; STA target leaves the wrapped sum in the accumulator and at the target, carry iff a+b > 255, pc at 7 |
| `Programs.AdditionProgram` | tests/test_programs.py:3-32 | 5 + 10: accumulator 0x0F, mem[0x0200] = 0x0F, pc 7 |
| `Programs.OverflowProgram` | tests/test_programs.py:75-102 | 255 + 2: accumulator 1, mem[0x0400] = 1, carry set |
| `Programs.CountdownPass` | tests/test_loops.py:40-43 | one pass decrements, stores the new value at 0x0200 and branches back to 2 unless it reached 0, when the pc is 9 |
| `Programs.CountdownFrom` | tests/test_loops.py:40-68 | from the top of the loop with accumulator a, 3 * Passes(a) steps end at pc 9 with accumulator 0, zero and carry set and mem[0x0200] = 0 |
| `Programs.Countdown` | tests/test_loops.py:4-68 | the whole countdown program terminates for every start byte n, after 1 + 3 * Passes(n) steps |
| `Programs.CountdownFromFive` | tests/test_loops.py:38-68 | from 5: after 16 steps accumulator 0, mem[0x0200] = 0, pc 0x0009 |
| `Programs.CounterPass` | tests/test_loops.py:102-104 | one pass of ADD #$FF; BNE -4 decrements and branches back unless it reached 0 |
| `Programs.CounterFrom` | tests/test_loops.py:102-112 | from the top of that loop with accumulator a, 2 * Passes(a) steps stop at the NOP with accumulator 0 |
| `Programs.Counter` | tests/test_loops.py:71-118 | the whole counter program from LDA #n reaches the NOP for every start byte n, after 1 + 2 * Passes(n) steps, with accumulator 0 |
| `Programs.CounterFromThree` | tests/test_loops.py:71-118 | from 3: after 8 steps accumulator 0 and pc 7 |
| `Programs.Passes` | tests/test_loops.py:60-63 | a decrement-until-zero loop starting from a byte runs between 1 and 256 times |

## Left out

- emulator/alu.py is not part of this model; `Alu.AddBytes` and `Alu.Alu` state the behaviour the CPU and the tests rely on as an assumption, including both flags starting clear.
- Error messages: the hexadecimal formatting of the `MemoryAccessError` and `NotImplementedError` messages is not modelled; the errors carry the address or the opcode.
- Exceptions become returned values (`Result`, `Outcome`); Python's unwinding is not modelled beyond "the state is as before".
- `Memory.Memory.constructor` takes a `nat` size; a negative size, which makes Python's `bytearray` raise, is not modelled.
- The test function defined inside the CPU class at emulator/cpu.py:116-126 is test code; its assertion is `Programs.BranchIfEqual`.
- `Programs.Unimplemented` covers the index-register tests of tests/test_index_registers.py only as far as the code goes: the CPU has no X or Y registers, so LDX and LDY fail.
- The accumulator-workflow program of tests/test_programs.py:35-72 is not restated; `Programs.AddAndStore` covers a single addition.
- Type-level mistakes Python would raise (non-integer values) are not modelled; every value is an integer.
