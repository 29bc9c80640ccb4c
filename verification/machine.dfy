/** The register virtual machine (src/vm.rs): 32 signed 32-bit registers, a
    byte program, a program counter, a zero-filled heap, the remainder of the
    last division and an equality flag. A Rust panic (an index out of bounds,
    an arithmetic overflow, a division by zero, a failed allocation) is the
    explicit outcome `Crashed`. */
module Machine {
  import opened Wrappers
  import opened Instructions

  const REGISTER_COUNT: nat := 32
  /** The largest length of a Rust vector. */
  const ISIZE_MAX: int := 0x7fff_ffff_ffff_ffff

  /** The heap only ever holds zero bytes, so its length is all there is to it. */
  datatype VM = VM(
    registers: seq<i32>,
    pc: nat,
    program: seq<byte>,
    heapLen: nat,
    remainder: u32,
    equalFlag: bool)

  /** What the Rust types guarantee: a fixed register file, a `usize` program
      counter and a program no longer than a vector can be. */
  predicate Valid(vm: VM) {
    && |vm.registers| == REGISTER_COUNT
    && vm.pc < USIZE_LIMIT
    && |vm.program| <= ISIZE_MAX
  }

  /** The result of executing one instruction: whether the machine stopped,
      and its state; or a panic. */
  datatype Executed = Stepped(halted: bool, vm: VM) | Crashed

  function NewVM(): (vm: VM)
    ensures Valid(vm)
    ensures forall i :: 0 <= i < REGISTER_COUNT ==> vm.registers[i] == 0
    ensures vm.pc == 0 && vm.program == [] && vm.heapLen == 0
    ensures vm.remainder == 0 && !vm.equalFlag
  {
    VM(seq(REGISTER_COUNT, _ => 0), 0, [], 0, 0, false)
  }

  // ---------------------------------------------------------------------
  // Machine integers
  // ---------------------------------------------------------------------

  /** `x as usize` for an `i32`: a negative value is sign-extended, so it
      becomes a number just below 2^64. */
  function AsUsize(x: i32): (n: nat)
    ensures n < USIZE_LIMIT
    ensures n % USIZE_LIMIT == x % USIZE_LIMIT
    ensures x >= 0 <==> n <= I32_MAX
  {
    if x >= 0 then x else USIZE_LIMIT + x
  }

  /** `x as u32` for an `i32`: the same 32 bits read unsigned. */
  function AsU32(x: i32): (n: u32)
    ensures n % U32_LIMIT == x % U32_LIMIT
  {
    if x >= 0 then x else U32_LIMIT + x
  }

  /** `n as i32` for a `usize`: the low 32 bits read signed. */
  function AsI32(n: nat): (x: i32)
    ensures x % U32_LIMIT == n % U32_LIMIT
    ensures n <= I32_MAX ==> x == n
  {
    var m := n % U32_LIMIT;
    if m > I32_MAX then m - U32_LIMIT else m
  }

  /** A checked `i32` result: out of range is an overflow panic. */
  function Checked(x: int): (r: Option<i32>)
    ensures r.Some? <==> I32_MIN <= x <= I32_MAX
    ensures r.Some? ==> r.value == x
  {
    if I32_MIN <= x <= I32_MAX then Some(x) else None
  }

  function Abs(x: int): nat {
    if x < 0 then -x else x
  }

  /** Rust's `/` on integers: the quotient of the magnitudes, negated when
      the signs differ, so it is rounded toward zero. */
  function TruncDiv(a: int, b: int): (q: int)
    requires b != 0
    ensures Abs(q) * Abs(b) <= Abs(a) < (Abs(q) + 1) * Abs(b)
    ensures q > 0 ==> (a < 0) == (b < 0)
    ensures q < 0 ==> (a < 0) != (b < 0)
  {
    var m := Abs(a) / Abs(b);
    var q := if (a < 0) == (b < 0) then m else -m;
    RoundedTowardZero(a, b, q);
    q
  }

  /** The quotient of the magnitudes, with the sign the operands' signs give,
      is the multiple of the divisor nearest to the dividend toward zero. */
  lemma RoundedTowardZero(a: int, b: int, q: int)
    requires b != 0 && q == (if (a < 0) == (b < 0) then Abs(a) / Abs(b) else -(Abs(a) / Abs(b)))
    ensures Abs(q) * Abs(b) <= Abs(a) < (Abs(q) + 1) * Abs(b)
    ensures q > 0 ==> (a < 0) == (b < 0)
    ensures q < 0 ==> (a < 0) != (b < 0)
  {
    var x, y := Abs(a), Abs(b);
    var m := x / y;
    assert Abs(q) == m;
    assert x == y * m + x % y;
    assert (m + 1) * y == m * y + y;
  }

  /** Rust's `%` on integers: smaller than the divisor, with the sign of the
      dividend. */
  function TruncRem(a: int, b: int): (r: int)
    requires b != 0
    ensures Abs(r) < Abs(b)
    ensures a >= 0 ==> r >= 0
    ensures a <= 0 ==> r <= 0
  {
    if a < 0 then -(Abs(a) % Abs(b)) else Abs(a) % Abs(b)
  }

  /** The two operators together are Rust's division: quotient times divisor
      plus remainder gives back the dividend. */
  lemma TruncDivision(a: int, b: int)
    requires b != 0
    ensures a == b * TruncDiv(a, b) + TruncRem(a, b)
  {
    var q, m := Abs(a) / Abs(b), Abs(a) % Abs(b);
    SignedDivision(a, b, q, m);
    assert TruncDiv(a, b) == (if (a < 0) == (b < 0) then q else -q);
    assert TruncRem(a, b) == (if a < 0 then -m else m);
  }

  /** Division of the magnitudes gives back the signed dividend once the
      quotient takes the sign the operands' signs give, and the remainder the
      dividend's sign. */
  lemma SignedDivision(a: int, b: int, q: int, m: int)
    requires b != 0 && Abs(a) == Abs(b) * q + m
    ensures a == b * (if (a < 0) == (b < 0) then q else -q) + (if a < 0 then -m else m)
  {
    var y := Abs(b);
    if a < 0 && b < 0 {
      assert b * q == -(y * q);
    } else if a < 0 {
      assert b * -q == -(y * q);
    } else if b < 0 {
      assert b * -q == y * q;
    }
  }

  // ---------------------------------------------------------------------
  // Fetching
  // ---------------------------------------------------------------------

  /** `next_8_bits`: the byte at the program counter, which moves past it. */
  function Fetch(vm: VM): (r: Option<(byte, VM)>)
    ensures r.Some? <==> vm.pc < |vm.program|
    ensures r.Some? ==> r.value.0 == vm.program[vm.pc] && r.value.1 == vm.(pc := vm.pc + 1)
  {
    if vm.pc < |vm.program| then Some((vm.program[vm.pc], vm.(pc := vm.pc + 1))) else None
  }

  /** Two bytes as a big-endian `u16`: the high byte shifted left by 8 within
      16 bits, or-ed with the low byte. The shifted value has a zero low byte,
      so the or adds. */
  function Join16(hi: byte, lo: byte): (n: int)
    ensures 0 <= n < 0x1_0000
    ensures n / 256 == hi && n % 256 == lo
  {
    (hi * 256) % 0x1_0000 + lo
  }

  /** `next_16_bits`: the big-endian 16-bit value at the program counter. */
  function Fetch16(vm: VM): (r: Option<(int, VM)>)
    ensures r.Some? <==> vm.pc + 1 < |vm.program|
    ensures r.Some? ==>
      && r.value.0 == (vm.program[vm.pc] as int) * 256 + vm.program[vm.pc + 1] as int
      && r.value.1 == vm.(pc := vm.pc + 2)
  {
    if vm.pc + 1 < |vm.program| then
      Some((Join16(vm.program[vm.pc], vm.program[vm.pc + 1]), vm.(pc := vm.pc + 2)))
    else None
  }

  /** A register read; an index past the register file panics. */
  function Register(vm: VM, index: byte): Option<i32>
    requires Valid(vm)
  {
    if index < REGISTER_COUNT then Some(vm.registers[index]) else None
  }

  /** A register operand: an index byte read from the program, then the
      register it names. */
  function FetchRegister(vm: VM): (r: Option<(i32, VM)>)
    requires Valid(vm)
    ensures r.Some? <==> vm.pc < |vm.program| && vm.program[vm.pc] < REGISTER_COUNT
    ensures r.Some? ==>
      && r.value.0 == vm.registers[vm.program[vm.pc]]
      && r.value.1 == vm.(pc := vm.pc + 1)
  {
    match Fetch(vm)
    case None => None
    case Some((i, v)) =>
      match Register(v, i)
      case None => None
      case Some(x) => Some((x, v))
  }

  // ---------------------------------------------------------------------
  // Instructions
  // ---------------------------------------------------------------------

  /** The operand byte `k` places after the program counter exists and names
      a register. */
  predicate Names(vm: VM, k: nat) {
    vm.pc + k < |vm.program| && vm.program[vm.pc + k] < REGISTER_COUNT
  }

  /** The register named by operand byte `k`. */
  function Source(vm: VM, k: nat): i32
    requires Valid(vm) && Names(vm, k)
  {
    vm.registers[vm.program[vm.pc + k]]
  }

  predicate IsArithmetic(op: Opcode) {
    op == ADD || op == SUB || op == MUL || op == DIV
  }

  /** The exact value an arithmetic opcode computes, before the overflow check. */
  function Arith(op: Opcode, a: int, b: int): int
    requires IsArithmetic(op) && (op == DIV ==> b != 0)
  {
    if op == ADD then a + b
    else if op == SUB then a - b
    else if op == MUL then a * b
    else TruncDiv(a, b)
  }

  /** ADD, SUB, MUL and DIV `a b dest`: `dest := a op b`. Overflow and
      division by zero panic; DIV also keeps the remainder, read as a `u32`.
      The two source operands are read first; `StoreResult` states the rest. */
  function Binary(op: Opcode, vm: VM): (r: Executed)
    requires Valid(vm) && IsArithmetic(op)
    ensures !(Names(vm, 0) && Names(vm, 1)) ==> r == Crashed
    ensures Names(vm, 0) && Names(vm, 1) ==>
      r == StoreResult(op, Source(vm, 0), Source(vm, 1), vm.(pc := vm.pc + 2))
  {
    match FetchRegister(vm)
    case None => Crashed
    case Some((a, v1)) =>
      match FetchRegister(v1)
      case None => Crashed
      case Some((b, v2)) => StoreResult(op, a, b, v2)
  }

  /** The end of an arithmetic instruction, once both operands are read: the
      checked result goes into the register the next byte names. */
  function StoreResult(op: Opcode, a: i32, b: i32, vm: VM): (r: Executed)
    requires Valid(vm) && IsArithmetic(op)
    ensures r.Stepped? <==>
      && (op == DIV ==> b != 0)
      && I32_MIN <= Arith(op, a, b) <= I32_MAX
      && Names(vm, 0)
    ensures r.Stepped? ==>
      && !r.halted
      && r.vm == vm.(
        pc := vm.pc + 1,
        registers := vm.registers[vm.program[vm.pc] := Arith(op, a, b)],
        remainder := if op == DIV then AsU32(TruncRem(a, b)) else vm.remainder)
  {
    if op == DIV && b == 0 then Crashed
    else
      match Checked(Arith(op, a, b))
      case None => Crashed
      case Some(x) =>
        match Fetch(vm)
        case None => Crashed
        case Some((d, v)) =>
          if d >= REGISTER_COUNT then Crashed
          else
            var v1 := v.(registers := v.registers[d := x]);
            if op == DIV then Stepped(false, v1.(remainder := AsU32(TruncRem(a, b))))
            else Stepped(false, v1)
  }

  /** LOAD `dest hi lo`: the big-endian 16-bit immediate goes into `dest`. */
  function Load(vm: VM): (r: Executed)
    requires Valid(vm)
    ensures r.Stepped? <==> vm.pc + 2 < |vm.program| && vm.program[vm.pc] < REGISTER_COUNT
    ensures r.Stepped? ==>
      && !r.halted
      && r.vm == vm.(
        pc := vm.pc + 3,
        registers := vm.registers[vm.program[vm.pc] :=
          (vm.program[vm.pc + 1] as int) * 256 + vm.program[vm.pc + 2] as int])
  {
    match Fetch(vm)
    case None => Crashed
    case Some((d, v1)) =>
      match Fetch16(v1)
      case None => Crashed
      case Some((n, v2)) =>
        if d >= REGISTER_COUNT then Crashed
        else Stepped(false, v2.(registers := v2.registers[d := n]))
  }

  predicate IsComparison(op: Opcode) {
    op == EQ || op == NEQ || op == GTE || op == LTE || op == LT || op == GT
  }

  /** The test a comparison opcode makes. The ordering tests compare the two
      values cast to `usize`. */
  function Compare(op: Opcode, a: i32, b: i32): bool
    requires IsComparison(op)
  {
    if op == EQ then a == b
    else if op == NEQ then a != b
    else if op == GTE then AsUsize(a) >= AsUsize(b)
    else if op == LTE then AsUsize(a) <= AsUsize(b)
    else if op == LT then AsUsize(a) < AsUsize(b)
    else AsUsize(a) > AsUsize(b)
  }

  /** EQ, NEQ, GTE, LTE, LT and GT `a b _`: the flag records the test; the
      third byte is skipped unread. */
  function Comparison(op: Opcode, vm: VM): (r: Executed)
    requires Valid(vm) && IsComparison(op)
    ensures r.Stepped? <==> Names(vm, 0) && Names(vm, 1)
    ensures r.Stepped? ==>
      && !r.halted
      && r.vm == vm.(pc := vm.pc + 3, equalFlag := Compare(op, Source(vm, 0), Source(vm, 1)))
  {
    match FetchRegister(vm)
    case None => Crashed
    case Some((a, v1)) =>
      match FetchRegister(v1)
      case None => Crashed
      case Some((b, v2)) => Stepped(false, v2.(pc := v2.pc + 1, equalFlag := Compare(op, a, b)))
  }

  predicate IsJump(op: Opcode) {
    op == JMP || op == JMPF || op == JMPB || op == JEQ || op == JNE
  }

  /** Where a jump goes once it has read the value `x` of its register
      operand, `pc` being the address just past the operand. JMP and JEQ go
      to `x` cast to `usize`; JMPF and JMPB move forward or back by that
      much, and leaving the `usize` range panics (`None`); JNE goes to `x`
      only when the flag is clear. */
  function Target(op: Opcode, pc: nat, x: i32, flag: bool): (t: Option<nat>)
    requires IsJump(op) && pc < USIZE_LIMIT
    ensures t.Some? ==> t.value < USIZE_LIMIT
    ensures t.None? <==>
      || (op == JMPF && pc + AsUsize(x) >= USIZE_LIMIT)
      || (op == JMPB && AsUsize(x) > pc)
    ensures op == JMPF && t.Some? ==> t.value - pc == AsUsize(x)
    ensures op == JMPB && t.Some? ==> pc - t.value == AsUsize(x)
    ensures op == JNE ==> t == Some(if flag then pc else AsUsize(x))
    ensures op == JMP || op == JEQ ==> t == Some(AsUsize(x))
  {
    if op == JMPF then
      if pc + AsUsize(x) >= USIZE_LIMIT then None else Some(pc + AsUsize(x))
    else if op == JMPB then
      if AsUsize(x) > pc then None else Some(pc - AsUsize(x))
    else if op == JNE && flag then Some(pc)
    else Some(AsUsize(x))
  }

  /** JMP, JMPF, JMPB, JEQ and JNE `a`: read the register operand and move
      the program counter to the target. JEQ with the flag clear reads
      nothing, so its operand byte is executed next as an opcode. A jump
      changes nothing but the program counter. */
  function Jump(op: Opcode, vm: VM): (r: Executed)
    requires Valid(vm) && IsJump(op) && vm.pc <= |vm.program|
    ensures op == JEQ && !vm.equalFlag ==> r == Stepped(false, vm)
    ensures !(op == JEQ && !vm.equalFlag) ==>
      && (r.Stepped? <==> Names(vm, 0) && Target(op, vm.pc + 1, Source(vm, 0), vm.equalFlag).Some?)
      && (r.Stepped? ==> r.vm.pc == Target(op, vm.pc + 1, Source(vm, 0), vm.equalFlag).value)
    ensures r.Stepped? ==> !r.halted && r.vm == vm.(pc := r.vm.pc)
  {
    if op == JEQ && !vm.equalFlag then Stepped(false, vm)
    else
      match FetchRegister(vm)
      case None => Crashed
      case Some((x, v)) =>
        match Target(op, v.pc, x, vm.equalFlag)
        case None => Crashed
        case Some(t) => Stepped(false, v.(pc := t))
  }

  /** ALOC `a _ _`: resize the heap to its length, cast to `i32`, plus the
      value in `a`. An `i32` overflow panics, and so does a negative length,
      which as a `usize` is beyond any allocation. Two bytes are skipped. */
  function Allocate(vm: VM): (r: Executed)
    requires Valid(vm)
    ensures r.Stepped? <==> Names(vm, 0) && 0 <= AsI32(vm.heapLen) + Source(vm, 0) <= I32_MAX
    ensures r.Stepped? ==>
      && !r.halted
      && r.vm == vm.(pc := vm.pc + 3, heapLen := AsI32(vm.heapLen) + Source(vm, 0))
  {
    match FetchRegister(vm)
    case None => Crashed
    case Some((bytes, v)) =>
      match Checked(AsI32(v.heapLen) + bytes)
      case None => Crashed
      case Some(newLen) =>
        if newLen < 0 then Crashed
        else Stepped(false, v.(heapLen := newLen, pc := v.pc + 2))
  }

  /** The opcodes that stop the machine: HLT, and the two it cannot execute. */
  predicate Stops(op: Opcode) {
    op == HLT || op == IGL || op == LBL
  }

  /** The instruction an opcode other than the stopping ones performs, with
      the program counter just past the opcode. None of them stops the
      machine, and none changes the program. */
  function Execute(op: Opcode, vm: VM): (r: Executed)
    requires Valid(vm) && vm.pc <= |vm.program| && !Stops(op)
    ensures r.Stepped? ==> !r.halted && Valid(r.vm) && r.vm.program == vm.program
    ensures op == NOP ==> r == Stepped(false, vm.(pc := vm.pc + 3))
  {
    if IsArithmetic(op) then Binary(op, vm)
    else if IsComparison(op) then Comparison(op, vm)
    else if op == LOAD then Load(vm)
    else if IsJump(op) then Jump(op, vm)
    else if op == ALOC then Allocate(vm)
    else Stepped(false, vm.(pc := vm.pc + 3))
  }

  /** `execute_instruction`: past the end of the program the machine stops
      without moving; otherwise the opcode is decoded and the program counter
      moves past it. HLT, and an opcode the machine cannot execute, stop it;
      any other opcode is executed. `halted` is the value the source returns. */
  function Step(vm: VM): (r: Executed)
    requires Valid(vm)
    ensures r.Stepped? ==> Valid(r.vm) && r.vm.program == vm.program
    ensures vm.pc >= |vm.program| ==> r == Stepped(true, vm)
    ensures (r.Stepped? && r.halted) <==>
      (vm.pc >= |vm.program| || Stops(FromByte(vm.program[vm.pc])))
    ensures vm.pc < |vm.program| && Stops(FromByte(vm.program[vm.pc])) ==>
      r == Stepped(true, vm.(pc := vm.pc + 1))
  {
    if vm.pc >= |vm.program| then Stepped(true, vm)
    else
      var op := FromByte(vm.program[vm.pc]);
      var v := vm.(pc := vm.pc + 1);
      if Stops(op) then Stepped(true, v) else Execute(op, v)
  }

  /** How a bounded run ends: the machine stopped, it panicked, or the fuel
      ran out first. */
  datatype Finished = Halted(vm: VM) | Faulted | OutOfFuel

  /** What the run loop needs of the instruction it repeats: on a valid
      machine it is defined, and it leaves the machine valid with the same
      program. */
  ghost predicate KeepsValid(step: VM --> Executed) {
    forall v :: Valid(v) ==>
      && step.requires(v)
      && (step(v).Stepped? ==> Valid(step(v).vm) && step(v).vm.program == v.program)
  }

  /** A loop that repeats `step` until it reports that the machine stopped.
      The source loops without bound; `fuel` caps the number of rounds. */
  function Loop(step: VM --> Executed, vm: VM, fuel: nat): (r: Finished)
    requires KeepsValid(step) && Valid(vm)
    ensures r.Halted? ==> Valid(r.vm) && r.vm.program == vm.program
    ensures fuel == 0 ==> r == OutOfFuel
    decreases fuel
  {
    if fuel == 0 then OutOfFuel
    else
      match step(vm)
      case Crashed => Faulted
      case Stepped(halted, next) => if halted then Halted(next) else Loop(step, next, fuel - 1)
  }

  /** `run`: execute instructions until one reports that the machine
      stopped. */
  function Run(vm: VM, fuel: nat): (r: Finished)
    requires Valid(vm)
    ensures r.Halted? ==> Valid(r.vm) && r.vm.program == vm.program
    ensures vm.pc >= |vm.program| && fuel > 0 ==> r == Halted(vm)
  {
    Loop(Step, vm, fuel)
  }

  /** `run_once`: execute one instruction and drop whether it stopped the
      machine; `None` is a panic. */
  function RunOnce(vm: VM): (r: Option<VM>)
    requires Valid(vm)
    ensures r.None? <==> Step(vm).Crashed?
    ensures r.Some? ==> Valid(r.value) && r.value.program == vm.program
  {
    match Step(vm)
    case Crashed => None
    case Stepped(_, next) => Some(next)
  }
}
