/** Properties of the virtual machine: how division rounds, how the ordering
    comparisons read negative numbers, what one instruction may change, how
    the run loop depends on its bound, and the behaviour of each opcode on
    the small programs of src/vm.rs's tests. */
module MachineFacts {
  import opened Wrappers
  import opened Instructions
  import opened Machine

  // ---------------------------------------------------------------------
  // Machine integers
  // ---------------------------------------------------------------------

  /** Division rounds toward zero and the remainder follows the dividend,
      whatever the signs. */
  lemma DivisionSigns()
    ensures TruncDiv(7, 2) == 3 && TruncRem(7, 2) == 1
    ensures TruncDiv(-7, 2) == -3 && TruncRem(-7, 2) == -1
    ensures TruncDiv(7, -2) == -3 && TruncRem(7, -2) == 1
    ensures TruncDiv(-7, -2) == 3 && TruncRem(-7, -2) == -1
  {
  }

  /** GTE, LTE, LT and GT compare `usize` casts: two values of the same sign
      compare as integers, and a negative value is above every non-negative
      one. */
  lemma UnsignedOrder(a: i32, b: i32)
    ensures Compare(LT, a, b) <==> (if (a < 0) == (b < 0) then a < b else a >= 0)
    ensures Compare(GTE, a, b) <==> !Compare(LT, a, b)
    ensures Compare(GT, a, b) <==> Compare(LT, b, a)
    ensures Compare(LTE, a, b) <==> !Compare(GT, a, b)
  {
  }

  // ---------------------------------------------------------------------
  // What one instruction changes
  // ---------------------------------------------------------------------

  /** An opcode that does not stop the machine is executed with the program
      counter just past it. */
  lemma StepExecutes(v: VM)
    requires Valid(v) && v.pc < |v.program| && !Stops(FromByte(v.program[v.pc]))
    ensures Step(v) == Execute(FromByte(v.program[v.pc]), v.(pc := v.pc + 1))
  {
  }

  /** Each part of the state has the instructions that may change it: only
      ALOC resizes the heap, only DIV sets the remainder, only a comparison
      sets the flag, and only LOAD and the arithmetic write registers. */
  lemma StepFrame(vm: VM)
    requires Valid(vm) && vm.pc < |vm.program| && Step(vm).Stepped?
    ensures var r, op := Step(vm).vm, FromByte(vm.program[vm.pc]);
      && (r.heapLen != vm.heapLen ==> op == ALOC)
      && (r.remainder != vm.remainder ==> op == DIV)
      && (r.equalFlag != vm.equalFlag ==> IsComparison(op))
      && (r.registers != vm.registers ==> op == LOAD || IsArithmetic(op))
  {
    var op, v := FromByte(vm.program[vm.pc]), vm.(pc := vm.pc + 1);
    if !Stops(op) {
      StepExecutes(vm);
      if IsArithmetic(op) {
        assert Execute(op, v) == Binary(op, v);
      } else if IsComparison(op) {
        assert Execute(op, v) == Comparison(op, v);
      } else if IsJump(op) {
        assert Execute(op, v) == Jump(op, v);
      } else if op == ALOC {
        assert Execute(op, v) == Allocate(v);
      } else if op == LOAD {
        assert Execute(op, v) == Load(v);
      }
    }
  }

  // ---------------------------------------------------------------------
  // The run loop
  // ---------------------------------------------------------------------

  /** Once a bounded loop finishes, more fuel changes nothing: the bound only
      decides whether the loop gets far enough. */
  lemma {:induction false} LoopFuelMonotone(step: VM --> Executed, vm: VM, f: nat, g: nat)
    requires KeepsValid(step) && Valid(vm) && f <= g && !Loop(step, vm, f).OutOfFuel?
    ensures Loop(step, vm, g) == Loop(step, vm, f)
    decreases f
  {
    if step(vm).Stepped? && !step(vm).halted {
      LoopFuelMonotone(step, step(vm).vm, f - 1, g - 1);
    }
  }

  /** A run that ends, halted or panicked, ends the same way with any larger
      bound. */
  lemma RunFuelMonotone(vm: VM, f: nat, g: nat)
    requires Valid(vm) && f <= g && !Run(vm, f).OutOfFuel?
    ensures Run(vm, g) == Run(vm, f)
  {
    LoopFuelMonotone(Step, vm, f, g);
  }

  /** `run` is `run_once` repeated: an instruction that does not stop the
      machine hands the rest of the run to the state it leaves. */
  lemma RunContinues(vm: VM, fuel: nat)
    requires Valid(vm) && RunOnce(vm).Some? && !Step(vm).halted
    ensures Run(vm, fuel + 1) == Run(RunOnce(vm).value, fuel)
  {
  }

  // ---------------------------------------------------------------------
  // One instruction at a time
  // ---------------------------------------------------------------------

  /** An arithmetic instruction whose two source bytes name registers reads
      them and leaves the rest to `StoreResult`. */
  lemma ArithmeticStep(v: VM)
    requires Valid(v) && v.pc < |v.program| && IsArithmetic(FromByte(v.program[v.pc]))
    requires Names(v, 1) && Names(v, 2)
    ensures Step(v) == StoreResult(FromByte(v.program[v.pc]), Source(v, 1), Source(v, 2), v.(pc := v.pc + 3))
  {
    var op, u := FromByte(v.program[v.pc]), v.(pc := v.pc + 1);
    StepExecutes(v);
    assert Execute(op, u) == Binary(op, u);
    assert Source(u, 0) == Source(v, 1) && Source(u, 1) == Source(v, 2);
    assert u.(pc := u.pc + 2) == v.(pc := v.pc + 3);
  }

  /** A comparison whose two source bytes name registers sets the flag to its
      test of them and moves past its four bytes. */
  lemma ComparisonStep(v: VM)
    requires Valid(v) && v.pc < |v.program| && IsComparison(FromByte(v.program[v.pc]))
    requires Names(v, 1) && Names(v, 2)
    ensures Step(v) == Stepped(false, v.(
      pc := v.pc + 4,
      equalFlag := Compare(FromByte(v.program[v.pc]), Source(v, 1), Source(v, 2))))
  {
    var op, u := FromByte(v.program[v.pc]), v.(pc := v.pc + 1);
    StepExecutes(v);
    assert Execute(op, u) == Comparison(op, u);
    assert Source(u, 0) == Source(v, 1) && Source(u, 1) == Source(v, 2);
  }

  // ---------------------------------------------------------------------
  // The opcodes on the programs of the source's tests
  // ---------------------------------------------------------------------

  /** A machine about to run `program` from its start. */
  predicate Loaded(vm: VM, program: seq<byte>) {
    Valid(vm) && vm.pc == 0 && vm.program == program
  }

  /** A machine that has just read the opcode at the start of `program`. */
  predicate Decoded(vm: VM, program: seq<byte>) {
    Valid(vm) && vm.pc == 1 && vm.program == program
  }

  lemma HaltExample(vm: VM)
    requires Loaded(vm, [5, 0, 0, 0])
    ensures Step(vm) == Stepped(true, vm.(pc := 1))
  {
  }

  lemma IllegalExample(vm: VM)
    requires Loaded(vm, [254, 0, 0, 0])
    ensures Step(vm) == Stepped(true, vm.(pc := 1))
  {
  }

  lemma LoadExample(vm: VM)
    requires Decoded(vm, [0, 0, 1, 244])
    ensures Execute(LOAD, vm) == Stepped(false, vm.(pc := 4, registers := vm.registers[0 := 500]))
  {
  }

  lemma AddExample(vm: VM)
    requires Decoded(vm, [1, 0, 1, 2]) && vm.registers[0] == 5 && vm.registers[1] == 10
    ensures Execute(ADD, vm) == Stepped(false, vm.(pc := 4, registers := vm.registers[2 := 15]))
  {
  }

  lemma SubExample(vm: VM)
    requires Decoded(vm, [2, 1, 0, 2]) && vm.registers[0] == 5 && vm.registers[1] == 10
    ensures Execute(SUB, vm) == Stepped(false, vm.(pc := 4, registers := vm.registers[2 := 5]))
  {
  }

  lemma MulExample(vm: VM)
    requires Decoded(vm, [3, 0, 1, 2]) && vm.registers[0] == 5 && vm.registers[1] == 10
    ensures Execute(MUL, vm) == Stepped(false, vm.(pc := 4, registers := vm.registers[2 := 50]))
  {
  }

  lemma DivExample(vm: VM)
    requires Decoded(vm, [4, 1, 0, 2]) && vm.registers[0] == 5 && vm.registers[1] == 10
    ensures Execute(DIV, vm) == Stepped(false, vm.(pc := 4, registers := vm.registers[2 := 2], remainder := 0))
  {
    assert TruncDiv(10, 5) == 2 && TruncRem(10, 5) == 0;
  }

  /** DIV on a negative dividend: -7 / 2 is -3 with remainder -1, which is
      kept as the `u32` 2^32 - 1. */
  lemma NegativeDivExample(vm: VM)
    requires Decoded(vm, [4, 0, 1, 2]) && vm.registers[0] == -7 && vm.registers[1] == 2
    ensures Execute(DIV, vm) == Stepped(false, vm.(pc := 4, registers := vm.registers[2 := -3], remainder := 0xffff_ffff))
  {
    assert TruncDiv(-7, 2) == -3 && TruncRem(-7, 2) == -1;
  }

  /** DIV by zero panics. */
  lemma DivByZeroExample(vm: VM)
    requires Decoded(vm, [4, 0, 1, 2]) && vm.registers[1] == 0
    ensures Execute(DIV, vm) == Crashed
  {
  }

  /** The most negative `i32` divided by -1 overflows, and so panics. */
  lemma DivOverflowExample(vm: VM)
    requires Decoded(vm, [4, 0, 1, 2]) && vm.registers[0] == I32_MIN && vm.registers[1] == -1
    ensures Execute(DIV, vm) == Crashed
  {
  }

  lemma JumpExample(vm: VM)
    requires Decoded(vm, [6, 0, 0, 0]) && vm.registers[0] == 1
    ensures Execute(JMP, vm) == Stepped(false, vm.(pc := 1))
  {
  }

  lemma JumpForwardExample(vm: VM)
    requires Decoded(vm, [7, 0, 0, 0, 5, 0, 0, 0]) && vm.registers[0] == 2
    ensures Execute(JMPF, vm) == Stepped(false, vm.(pc := 4))
  {
  }

  lemma JumpBackwardExample(vm: VM)
    requires Valid(vm) && vm.pc == 5 && vm.program == [0, 0, 0, 10, 8, 1, 0, 0] && vm.registers[1] == 6
    ensures Execute(JMPB, vm) == Stepped(false, vm.(pc := 0))
  {
  }

  /** JMPB past the start of the program panics. */
  lemma JumpBackwardTooFar(vm: VM)
    requires Decoded(vm, [8, 0, 0, 0]) && vm.registers[0] == 3
    ensures Execute(JMPB, vm) == Crashed
  {
  }

  lemma JumpIfEqualExample(vm: VM)
    requires Decoded(vm, [10, 0, 0, 0, 17, 0, 0, 0, 17, 0, 0, 0]) && vm.registers[0] == 7 && vm.equalFlag
    ensures Execute(JEQ, vm) == Stepped(false, vm.(pc := 7))
  {
  }

  /** With the flag clear JEQ reads nothing: the next opcode is its operand
      byte, here 0, a LOAD. */
  lemma JumpIfEqualFallsThrough(vm: VM)
    requires Decoded(vm, [10, 0, 0, 0, 17, 0, 0, 0, 17, 0, 0, 0]) && !vm.equalFlag
    ensures Execute(JEQ, vm) == Stepped(false, vm)
  {
  }

  lemma JumpIfNotEqualExample(vm: VM)
    requires Decoded(vm, [11, 0, 0, 0, 17, 0, 0, 0, 17, 0, 0, 0]) && vm.registers[0] == 7 && !vm.equalFlag
    ensures Execute(JNE, vm) == Stepped(false, vm.(pc := 7))
  {
  }

  /** With the flag set JNE stays just past its operand. */
  lemma JumpIfNotEqualStays(vm: VM)
    requires Decoded(vm, [11, 0, 0, 0, 17, 0, 0, 0, 17, 0, 0, 0]) && vm.registers[0] == 7 && vm.equalFlag
    ensures Execute(JNE, vm) == Stepped(false, vm.(pc := 2))
  {
  }

  lemma AllocateExample(vm: VM)
    requires Decoded(vm, [18, 0, 0, 0]) && vm.registers[0] == 1024 && vm.heapLen == 0
    ensures Execute(ALOC, vm) == Stepped(false, vm.(pc := 4, heapLen := 1024))
  {
  }

  /** Shrinking the heap below zero panics. */
  lemma AllocateNegativeExample(vm: VM)
    requires Decoded(vm, [18, 0, 0, 0]) && vm.registers[0] == -1 && vm.heapLen == 0
    ensures Execute(ALOC, vm) == Crashed
  {
  }

  lemma NopExample(vm: VM)
    requires Decoded(vm, [17, 0, 0, 0])
    ensures Execute(NOP, vm) == Stepped(false, vm.(pc := 4))
  {
  }

  /** The comparisons the source's tests make; by `ComparisonStep` they are
      the flags those programs leave. */
  lemma ComparisonExamples()
    ensures Compare(EQ, 10, 10) && !Compare(EQ, 10, 20)
    ensures !Compare(NEQ, 10, 10) && Compare(NEQ, 10, 20)
    ensures Compare(LTE, 10, 10) && Compare(LTE, 10, 20) && !Compare(LTE, 10, 6)
    ensures Compare(GTE, 10, 10) && !Compare(GTE, 10, 20) && Compare(GTE, 10, 6)
    ensures !Compare(LT, 7, 7) && Compare(LT, 7, 17)
    ensures !Compare(GT, 7, 7) && !Compare(GT, 7, 17)
  {
  }

  /** The `usize` casts make -1 greater than 1. */
  lemma NegativeComparesHigh()
    ensures !Compare(LT, -1, 1) && Compare(GT, -1, 1) && Compare(LT, 1, -1)
  {
  }

  lemma EqualExample(vm: VM)
    requires Decoded(vm, [9, 0, 1, 0]) && vm.registers[0] == 10 && vm.registers[1] == 10
    ensures Execute(EQ, vm) == Stepped(false, vm.(pc := 4, equalFlag := true))
  {
  }

  /** GT on -1 and 1 sets the flag: -1 reads as 2^64 - 1. */
  lemma GreaterNegativeExample(vm: VM)
    requires Decoded(vm, [15, 0, 1, 0]) && vm.registers[0] == -1 && vm.registers[1] == 1
    ensures Execute(GT, vm) == Stepped(false, vm.(pc := 4, equalFlag := true))
  {
  }
}
