/** The interpreter state and its single execution step.

    A CPU holds the word of the current operation and a file of two
    registers. Running it decodes the word, takes the one implemented
    instruction (`8XY4`, add register Y into register X) or stops with a
    fault. Faults that the interpreter raises as panics are returned here as
    values: an unimplemented opcode, a register index past the end of the
    register file, and an addition whose sum does not fit in a byte
    (checked arithmetic, as in a debug build). */
module Cpu {
  import opened Opcode

  /** The register file holds exactly two registers. */
  const RegisterCount := 2

  /** Why a step stops instead of completing. */
  datatype Fault =
    | NotImplemented(opcode: bv16)
    | IndexOutOfBounds(index: nat, len: nat)
    | AddOverflow

  /** The value a step computes, or the fault that ends it. The methods
      that change the CPU in place report `Result<()>`: success carries
      nothing, the new state is in the registers. */
  datatype Result<T> = Ok(value: T) | Err(fault: Fault)

  /** Adds register `y` into register `x` of the register file `regs`.
      The right-hand operand is read first, so an out-of-range `y` is
      reported before an out-of-range `x`; both are read before the sum is
      checked against the byte range. */
  function AddRegisters(regs: seq<uint8>, x: uint8, y: uint8): (r: Result<seq<uint8>>)
    ensures r.Ok? <==> x as int < |regs| && y as int < |regs| && regs[x] as int + regs[y] as int < 0x100
    ensures r.Ok? ==> |r.value| == |regs|
    ensures r.Ok? ==> r.value[x] as int == regs[x] as int + regs[y] as int
    ensures r.Ok? ==> forall i :: 0 <= i < |regs| && i != x as int ==> r.value[i] == regs[i]
    ensures |regs| <= y as int ==> r == Err(IndexOutOfBounds(y as nat, |regs|))
    ensures y as int < |regs| <= x as int ==> r == Err(IndexOutOfBounds(x as nat, |regs|))
    ensures x as int < |regs| && y as int < |regs| && 0x100 <= regs[x] as int + regs[y] as int ==> r == Err(AddOverflow)
  {
    if |regs| <= y as int then Err(IndexOutOfBounds(y as nat, |regs|))
    else if |regs| <= x as int then Err(IndexOutOfBounds(x as nat, |regs|))
    else if 0x100 <= regs[x] as int + regs[y] as int then Err(AddOverflow)
    else Ok(regs[x as int := regs[x] + regs[y]])
  }

  /** One run of the interpreter on the word `opcode` and the register file
      `regs`: decode, match, execute. */
  function Execute(opcode: bv16, regs: seq<uint8>): (r: Result<seq<uint8>>)
    ensures opcode & 0xF00F == 0x8004 ==> r == AddRegisters(regs, Decode(opcode).x, Decode(opcode).y)
    ensures opcode & 0xF00F != 0x8004 ==> r == Err(NotImplemented(opcode))
  {
    DispatchByMask(opcode);
    match Dispatch(opcode)
    case Add(x, y) => AddRegisters(regs, x, y)
    case Unimplemented(word) => Err(NotImplemented(word))
  }

  /** The state after a step: on success the register file holds the
      computed value; on a fault the step is abandoned before any register
      is written. */
  predicate Applied(r: Result<seq<uint8>>, before: seq<uint8>, outcome: Result<()>, after: seq<uint8>)
  {
    match r
    case Ok(regs) => outcome == Ok(()) && after == regs
    case Err(f) => outcome == Err(f) && after == before
  }

  class Cpu {
    /** The word of the operation to run. */
    var currentOperation: bv16
    /** The register file; the array itself is never replaced. */
    const registers: array<uint8>

    ghost predicate Valid()
      reads this
    {
      registers.Length == RegisterCount
    }

    /** A fresh CPU: the current operation is the zero word and both
        registers are zero. */
    constructor ()
      ensures Valid() && fresh(registers)
      ensures currentOperation == 0 && registers[..] == [0, 0]
    {
      currentOperation := 0;
      registers := new uint8[] [0, 0];
    }

    /** The word of the current operation; nothing changes. */
    method ReadOpcode() returns (opcode: bv16)
      ensures opcode == currentOperation
    {
      opcode := currentOperation;
    }

    /** `registers[x] += registers[y]` in place. */
    method Add(x: uint8, y: uint8) returns (outcome: Result<()>)
      modifies registers
      ensures unchanged(this)
      ensures Applied(AddRegisters(old(registers[..]), x, y), old(registers[..]), outcome, registers[..])
    {
      if registers.Length <= y as int {
        return Err(IndexOutOfBounds(y as nat, registers.Length));
      }
      var addend := registers[y];
      if registers.Length <= x as int {
        return Err(IndexOutOfBounds(x as nat, registers.Length));
      }
      if 0x100 <= registers[x] as int + addend as int {
        return Err(AddOverflow);
      }
      registers[x] := registers[x] + addend;
      outcome := Ok(());
    }

    /** Reads the current operation, splits it into nibbles and runs the
        addition for `8XY4`; any other word is not implemented. With the
        two registers of a valid CPU, a run completes only for the four
        words that add among registers 0 and 1. */
    method Run() returns (outcome: Result<()>)
      requires Valid()
      modifies registers
      ensures Valid() && unchanged(this)
      ensures Applied(Execute(currentOperation, old(registers[..])), old(registers[..]), outcome, registers[..])
      ensures outcome.Ok? ==> currentOperation in {0x8004, 0x8014, 0x8104, 0x8114}
    {
      var opcode := ReadOpcode();
      var n := Decode(opcode);
      if n.c == 8 && n.d == 4 {
        outcome := Add(n.x, n.y);
      } else {
        outcome := Err(NotImplemented(opcode));
      }
      if outcome.Ok? {
        SucceedingOpcodes(opcode, old(registers[..]));
      }
    }
  }

  /** Adding a register into itself doubles it: the old value is read for
      both operands before the write. */
  lemma AddSameRegisterDoubles(regs: seq<uint8>, x: uint8)
    requires x as int < |regs|
    ensures AddRegisters(regs, x, x).Ok? <==> regs[x] < 0x80
    ensures AddRegisters(regs, x, x).Ok? ==> AddRegisters(regs, x, x).value[x] as int == 2 * regs[x] as int
  {
  }

  /** With two registers only four words can complete a run: `8XY4` with
      X and Y each 0 or 1. */
  lemma SucceedingOpcodes(opcode: bv16, regs: seq<uint8>)
    requires |regs| == RegisterCount
    requires Execute(opcode, regs).Ok?
    ensures opcode == 0x8004 || opcode == 0x8014 || opcode == 0x8104 || opcode == 0x8114
  {
  }

  /** `0x8015` has class 8 but sub-selector 5, so it is not implemented and
      the fault carries the word. */
  lemma SubSelectorFiveFaults(regs: seq<uint8>)
    ensures Execute(0x8015, regs) == Err(NotImplemented(0x8015))
  {
  }

  /** A fresh CPU cannot run: the zero word it starts with matches no
      implemented instruction, so the run faults. */
  method FreshCpuRun() returns (outcome: Result<()>, r0: uint8, r1: uint8)
    ensures outcome == Err(NotImplemented(0))
    ensures r0 == 0 && r1 == 0
  {
    var cpu := new Cpu();
    outcome := cpu.Run();
    r0, r1 := cpu.registers[0], cpu.registers[1];
  }

  /** The worked scenario of the entry point: `0x8014` on registers 5 and
      10 leaves 15 in register 0 and 10 in register 1. */
  method MainScenario() returns (outcome: Result<()>, r0: uint8, r1: uint8)
    ensures outcome == Ok(())
    ensures r0 == 15 && r1 == 10
  {
    var cpu := new Cpu();
    cpu.currentOperation := 0x8014;
    cpu.registers[0] := 5;
    cpu.registers[1] := 10;
    outcome := cpu.Run();
    r0, r1 := cpu.registers[0], cpu.registers[1];
  }
}
