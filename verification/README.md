# CHIP-8 style CPU core, modelled in Dafny

This project models an early snapshot of a CHIP-8 style interpreter. Its
CPU holds one 16-bit instruction word, the current operation, and a file of
exactly two unsigned 8-bit registers. Running the CPU does three things:

- It reads the current operation.
- It splits the word into the four 4-bit fields `C X Y D` with masks and
  shifts.
- It matches the field tuple. Only `8XY4` is implemented: it adds register Y
  into register X in place. Every other word stops the interpreter with
  "opcode not implemented".

The model has two modules:

- `Opcode` (`opcode.dfy`) is the pure part. It defines the `uint8` byte
  type, the `Nibbles` field tuple, `Decode` (masks and shifts on a `bv16`
  word) and `Dispatch` (the match). `Encode` is the inverse of `Decode`: it
  lays nibbles out as a word, as the comments of the entry point do for
  `0x8014`. Lemmas state that the fields rebuild the word exactly, that
  decoding and encoding are inverse, and which words select the addition.
- `Cpu` (`cpu.dfy`) is the state. It defines the `Cpu` class, with the
  current operation as a field and the register file as an `array<uint8>`
  updated in place. `Run` and `Add` are methods, and each is proved against
  a value-level function (`Execute`, `AddRegisters`). Panics become a
  `Fault` value: `NotImplemented(opcode)`, `IndexOutOfBounds(index, len)` or
  `AddOverflow`. The methods report `Result<()>`: `Ok(())` or `Err(fault)`.
  When a step faults, no register has been written.

Modelling choices:

- The opcode is a `bv16` because the source treats it as bits.
- Register values and decoded fields are an int-based `uint8`. The source
  uses them as numbers: an index and a checked sum.
- `u8 +=` follows the debug-build rule: a sum above 255 is a fault, not a
  wrap-around.
- In `registers[x] += registers[y]` Rust evaluates the right operand first.
  So an out-of-range `y` is reported before an out-of-range `x`, and both
  bounds checks come before the overflow check.

Full CHIP-8 has more: 16 registers, memory, a program counter, a call
stack, and an `8XY4` that wraps modulo 256 and writes a carry flag into
register 0xF. The instruction-set reference linked at src/main.rs:4
describes it. This snapshot has none of that. It has two registers, no flag
write and checked addition, so the model follows the code. Likewise, the comment on
the constructor calls the zero word a no-op, but the code has no arm for it.
A fresh CPU therefore faults when run (`FreshCpuRun`).

## Model

| member | source | states |
|---|---|---|
| `Opcode.Decode` | src/main.rs:30-33 | each of the four decoded fields is below 16 |
| `Opcode.DecodeValue` | src/main.rs:30-33 | the fields rebuild the word exactly: `c*0x1000 + x*0x100 + y*0x10 + d` equals the opcode |
| `Opcode.DecodeInjective` | src/main.rs:30-33 | two words with the same four fields are the same word, so decoding loses nothing |
| `Opcode.EncodeDecode` | src/main.rs:30-33 | laying the four decoded fields back out as nibbles `CXYD` gives the original word |
| `Opcode.DecodeEncode` | src/main.rs:30-33 | a word laid out from four nibbles decodes to those four nibbles (the layout is the one the comments at src/main.rs:48-51 spell out for `0x8014`) |
| `Opcode.Dispatch` | src/main.rs:35-37 | the catch-all arm keeps the offending word; the add arm carries register indices below 16 |
| `Opcode.DispatchByMask` | src/main.rs:35-36 | the add arm is taken exactly when `opcode & 0xF00F == 0x8004` (class 8 and sub-selector 4), whatever X and Y are |
| `Opcode.AddReachable` | src/main.rs:35-36 | for every pair of nibble register indices X and Y some word selects the addition of Y into X |
| `Opcode.AddWord` | src/main.rs:30-36 | a word that selects the addition equals `0x8004 + x*0x100 + y*0x10` for the indices it carries |
| `Cpu.AddRegisters` | src/main.rs:41-42 | success exactly when both indices are in range and the sum is at most 255; on success register x holds the old x plus the old y, the length is kept and every other register is unchanged; `y` out of range, then `x` out of range, then overflow give the matching fault |
| `Cpu.Execute` | src/main.rs:27-38 | a run performs `AddRegisters(x, y)` on the decoded indices when the word matches `8XY4`, and otherwise fails with `NotImplemented` carrying the word |
| `Cpu.Cpu.constructor` | src/main.rs:15-20 | a new CPU has current operation 0 and both registers 0 |
| `Cpu.Cpu.ReadOpcode` | src/main.rs:23-25 | returns the current operation and modifies nothing |
| `Cpu.Cpu.Add` | src/main.rs:41-43 | in place, the register file becomes what `AddRegisters` computes; on a fault it is left as it was; the current operation is untouched |
| `Cpu.Cpu.Run` | src/main.rs:27-39 | in place, the register file becomes what `Execute` computes from the current operation; on a fault it is left as it was and the fault is reported; on a CPU with its two registers, a run succeeds only if the current operation is `0x8004`, `0x8014`, `0x8104` or `0x8114` |
| `Cpu.AddSameRegisterDoubles` | src/main.rs:42 | adding a register into itself succeeds exactly when its value is below 128, and then doubles it |
| `Cpu.SucceedingOpcodes` | src/main.rs:11-42 | with two registers only `0x8004`, `0x8014`, `0x8104` and `0x8114` can complete a run |
| `Cpu.SubSelectorFiveFaults` | src/main.rs:35-37 | `0x8015` (class 8, sub-selector 5) fails as not implemented and carries `0x8015` |
| `Cpu.FreshCpuRun` | src/main.rs:15-37 | running a fresh CPU fails as not implemented on word 0, and both registers stay 0 |
| `Cpu.MainScenario` | src/main.rs:46-58 | with current operation `0x8014` and registers 5 and 10, a run succeeds with register 0 = 15 and register 1 = 10 |

## Left out

- Panic messages, including the hexadecimal formatting of the opcode, are left out. A fault is a value carrying the opcode or the index and length.
- The release-build behaviour of `u8 +=` (wrapping) is left out. The model uses the debug-build rule: overflow is a fault.
- `main` as a program entry point and its `assert_eq!` are left out. Its steps are the `MainScenario` method, and the assertion is that method's postcondition.
- Memory, a program counter, a fetch loop, a call stack, CALL/RETURN/HALT and the register 0xF carry flag are left out. None of them exist in this snapshot of the code.
