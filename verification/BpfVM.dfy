/** The BPF virtual machine (xnet/bpf/vm.go, xnet/bpf/vm_instructions.go) and
    whole programs (xnet/bpf/asm.go). */
module BpfVM {
  import opened Frames
  import opened Bpf

  datatype Machine = Machine(a: bv32, x: bv32, scratch: seq<bv32>)

  const SLOTS: nat := 16

  const START := Machine(0, 0, [0, 0, 0, 0, 0, 0, 0, 0, 0, 0, 0, 0, 0, 0, 0, 0])

  /** What one instruction does: go on after skipping some, return a number, end
      the program without one, report an unknown instruction, or panic. */
  datatype Effect = Goto(machine: Machine, skip: nat) | Return(n: nat) | Stop | Unknown | Panic

  // ---- the instructions ----

  function ShiftLeft(a: bv32, n: bv32): bv32 { if n >= 32 then 0 else a << n }

  function ShiftRight(a: bv32, n: bv32): bv32 { if n >= 32 then 0 else a >> n }

  function Remainder(a: bv32, v: bv32): bv32
    requires v != 0
  {
    a % v
  }

  function ALU(op: ALUOp, a: bv32, v: bv32): bv32
    requires v == 0 ==> op != OP_DIV && op != OP_MOD
  {
    match op
    case 0x00 => a + v
    case 0x10 => a - v
    case 0x20 => a * v
    case 0x30 => a / v
    case 0x40 => a | v
    case 0x50 => a & v
    case 0x60 => ShiftLeft(a, v)
    case 0x70 => ShiftRight(a, v)
    case 0x90 => Remainder(a, v)
    case 0xa0 => a ^ v
    case _ => a
  }

  function Holds(cond: JumpTest, a: bv32, v: bv32): bool {
    match cond
    case Equal => a == v
    case NotEqual => a != v
    case GreaterThan => a > v
    case LessThan => a < v
    case GreaterOrEqual => a >= v
    case LessOrEqual => a <= v
    case BitsSet => a & v != 0
    case BitsNotSet => a & v == 0
    case UnknownTest => false
  }

  datatype Loaded = Value(v: bv32) | OutOfBounds | BadSize

  function Load(packet: seq<bv8>, offset: nat, size: int): Loaded {
    if offset + size > |packet| then OutOfBounds
    else
      match size
      case 1 => Value(packet[offset] as bv32)
      case 2 => Value(((packet[offset] as bv32) << 8) | (packet[offset + 1] as bv32))
      case 4 =>
        Value(((packet[offset] as bv32) << 24) | ((packet[offset + 1] as bv32) << 16) |
              ((packet[offset + 2] as bv32) << 8) | (packet[offset + 3] as bv32))
      case _ => BadSize
  }

  function HeaderLength(b: bv8): bv32 { ((b & 0xf) as bv32) * 4 }

  function LoadA(m: Machine, r: Loaded): Effect {
    match r
    case Value(v) => Goto(m.(a := v), 0)
    case OutOfBounds => Stop
    case BadSize => Panic
  }

  function Nat(k: bv32): nat { k as nat }

  function Truncate(n: nat): bv32 { (n % 0x1_0000_0000) as bv32 }

  function Step(ins: Instruction, m: Machine, packet: seq<bv8>): Effect
    requires |m.scratch| == SLOTS
  {
    match ins
    case ALUOpConstant(op, val) =>
      if val == 0 && (op == OP_DIV || op == OP_MOD) then Panic else Goto(m.(a := ALU(op, m.a, val)), 0)
    case ALUOpX(op) =>
      if m.x == 0 && (op == OP_DIV || op == OP_MOD) then Stop else Goto(m.(a := ALU(op, m.a, m.x)), 0)
    case Jump(skip) => Goto(m, Nat(skip))
    case JumpIf(cond, val, st, sf) => Goto(m, if Holds(cond, m.a, val) then st else sf)
    case JumpIfX(cond, st, sf) => Goto(m, if Holds(cond, m.a, m.x) then st else sf)
    case LoadAbsolute(off, size) => LoadA(m, Load(packet, Nat(off), size))
    case LoadIndirect(off, size) => LoadA(m, Load(packet, Nat(off) + Nat(m.x), size))
    case LoadMemShift(off) =>
      if Nat(off) + 1 > |packet| then Stop else Goto(m.(x := HeaderLength(packet[Nat(off)])), 0)
    case LoadConstant(dst, val) =>
      if dst == REG_A then Goto(m.(a := val), 0) else if dst == REG_X then Goto(m.(x := val), 0) else Goto(m, 0)
    case LoadExtension(num) => if num == EXT_LEN then Goto(m.(a := Truncate(|packet|)), 0) else Panic
    case LoadScratch(dst, n) =>
      if dst != REG_A && dst != REG_X then Goto(m, 0)
      else if n < 0 || n >= SLOTS then Panic
      else if dst == REG_A then Goto(m.(a := m.scratch[n]), 0)
      else Goto(m.(x := m.scratch[n]), 0)
    case StoreScratch(src, n) =>
      if src != REG_A && src != REG_X then Goto(m, 0)
      else if n < 0 || n >= SLOTS then Panic
      else if src == REG_A then Goto(m.(scratch := m.scratch[n := m.a]), 0)
      else Goto(m.(scratch := m.scratch[n := m.x]), 0)
    case RetA => Return(Nat(m.a))
    case RetConstant(val) => Return(Nat(val))
    case TAX => Goto(m.(x := m.a), 0)
    case TXA => Goto(m.(a := m.x), 0)
    case NegateA => Unknown
    case RawInstruction(_) => Unknown
  }

  // ---- programs ----

  /** How a run ends. */
  datatype Result = Returned(n: nat) | Stopped | FellOff | Failed(at: nat) | Panicked

  /** A run from instruction pc on, with the number of instructions it takes. */
  function Exec(p: seq<Instruction>, packet: seq<bv8>, pc: nat, m: Machine): (r: (Result, nat))
    requires |m.scratch| == SLOTS
    decreases |p| - pc
  {
    if pc >= |p| then (FellOff, 0)
    else
      match Step(p[pc], m, packet)
      case Goto(m', skip) => var (r, n) := Exec(p, packet, pc + 1 + skip, m'); (r, n + 1)
      case Return(n) => (Returned(n), 1)
      case Stop => (Stopped, 1)
      case Unknown => (Failed(pc), 1)
      case Panic => (Panicked, 1)
  }

  function RunOf(p: seq<Instruction>, packet: seq<bv8>): Result { Exec(p, packet, 0, START).0 }

  /** What NewVM demands of an instruction with so many after it. */
  predicate Accepts(ins: Instruction, after: int) {
    && Assemble(ins).Some?
    && match ins
       case Jump(skip) => Nat(skip) < after
       case JumpIf(_, _, st, sf) => st < after && sf < after
       case JumpIfX(_, st, sf) => st < after && sf < after
       case ALUOpConstant(op, val) => val == 0 ==> op != OP_DIV && op != OP_MOD
       case LoadExtension(num) => num == EXT_LEN
       case _ => true
  }

  predicate Accepted(p: seq<Instruction>) {
    && p != [] && (p[|p| - 1].RetA? || p[|p| - 1].RetConstant?)
    && forall i :: 0 <= i < |p| ==> Accepts(p[i], |p| - (i + 1))
  }

  /** What assembling checks. */
  lemma AssembleChecks(ins: Instruction)
    requires Assemble(ins).Some?
    ensures ins.LoadScratch? || ins.StoreScratch? ==> 0 <= ins.n < SLOTS
    ensures ins.LoadAbsolute? || ins.LoadIndirect? ==> ins.size in {1, 2, 4}
  {
  }

  lemma LoadSafe(m: Machine, packet: seq<bv8>, offset: nat, size: int)
    requires size in {1, 2, 4}
    ensures LoadA(m, Load(packet, offset, size)).Goto? || LoadA(m, Load(packet, offset, size)).Stop?
  {
  }

  lemma StepSafe(ins: Instruction, m: Machine, packet: seq<bv8>, after: int)
    requires |m.scratch| == SLOTS && Accepts(ins, after)
    ensures !Step(ins, m, packet).Panic?
  {
    hide Assemble, ALU, Holds, Truncate, Load, LoadA, HeaderLength, Nat;
    AssembleChecks(ins);
    if ins.LoadAbsolute? || ins.LoadIndirect? {
      PacketLoadSafe(ins, m, packet);
    }
  }

  lemma PacketLoadSafe(ins: Instruction, m: Machine, packet: seq<bv8>)
    requires ins.LoadAbsolute? || ins.LoadIndirect?
    requires |m.scratch| == SLOTS && ins.size in {1, 2, 4}
    ensures !Step(ins, m, packet).Panic?
  {
    hide Load, LoadA, Nat;
    match ins {
      case LoadAbsolute(off, size) => LoadSafe(m, packet, Nat(off), size);
      case LoadIndirect(off, size) => LoadSafe(m, packet, Nat(off) + Nat(m.x), size);
    }
  }

  lemma StepStaysInside(ins: Instruction, m: Machine, packet: seq<bv8>, after: int)
    requires |m.scratch| == SLOTS && Accepts(ins, after)
    ensures Step(ins, m, packet).Goto? && after > 0 ==> Step(ins, m, packet).skip < after
    ensures Step(ins, m, packet).Goto? ==> !ins.RetA? && !ins.RetConstant?
    ensures Step(ins, m, packet).Unknown? <==> ins.NegateA? || ins.RawInstruction?
  {
    hide Assemble, ALU, Holds, Truncate, Load, HeaderLength, Nat;
  }

  /** An accepted program ends on every packet, within as many instructions as
      it has, without leaving the program and without a panic; and it fails only
      at an instruction the machine does not implement. */
  lemma {:induction false} AcceptedIsSafe(p: seq<Instruction>, packet: seq<bv8>, pc: nat, m: Machine)
    requires Accepted(p) && pc < |p| && |m.scratch| == SLOTS
    ensures var (r, n) := Exec(p, packet, pc, m);
            && !r.Panicked? && !r.FellOff? && n <= |p| - pc
            && (r.Failed? ==> pc <= r.at < |p| && (p[r.at].NegateA? || p[r.at].RawInstruction?))
    decreases |p| - pc
  {
    hide Step, Accepts;
    StepSafe(p[pc], m, packet, |p| - (pc + 1));
    StepStaysInside(p[pc], m, packet, |p| - (pc + 1));
    ScratchKept(p[pc], m, packet);
    match Step(p[pc], m, packet) {
      case Goto(m', skip) => AcceptedIsSafe(p, packet, pc + 1 + skip, m');
      case _ =>
    }
  }

  lemma ScratchKept(ins: Instruction, m: Machine, packet: seq<bv8>)
    requires |m.scratch| == SLOTS
    ensures Step(ins, m, packet).Goto? ==> |Step(ins, m, packet).machine.scratch| == SLOTS
  {
    hide ALU, Holds, Truncate, Load, HeaderLength, Nat;
  }

  // ---- the package's loops ----

  /** Assemble over a program: all raw instructions, or the index of the first
      instruction that does not assemble. */
  method AssembleProgram(insts: seq<Instruction>) returns (ret: array<Raw>, bad: Option<nat>)
    ensures fresh(ret) && ret.Length == |insts|
    ensures bad.None? ==> forall i :: 0 <= i < |insts| ==> Assemble(insts[i]) == Some(ret[i])
    ensures bad.Some? ==>
              && bad.value < |insts| && Assemble(insts[bad.value]).None?
              && forall i :: 0 <= i < bad.value ==> Assemble(insts[i]).Some?
  {
    hide Assemble;
    ret := new Raw[|insts|];
    for i := 0 to |insts|
      invariant forall j :: 0 <= j < i ==> Assemble(insts[j]) == Some(ret[j])
    {
      var r := Assemble(insts[i]);
      if r.None? {
        return ret, Some(i);
      }
      ret[i] := r.value;
    }
    bad := None;
  }

  /** Disassemble over a program. */
  method DisassembleProgram(raw: seq<Raw>) returns (insts: array<Instruction>, allDecoded: bool)
    ensures fresh(insts) && insts.Length == |raw|
    ensures forall i :: 0 <= i < |raw| ==> insts[i] == Disassemble(raw[i])
    ensures allDecoded <==> forall i :: 0 <= i < |raw| ==> !Disassemble(raw[i]).RawInstruction?
  {
    hide Disassemble;
    insts := new Instruction[|raw|];
    allDecoded := true;
    for i := 0 to |raw|
      invariant forall j :: 0 <= j < i ==> insts[j] == Disassemble(raw[j])
      invariant allDecoded <==> forall j :: 0 <= j < i ==> !Disassemble(raw[j]).RawInstruction?
    {
      insts[i] := Disassemble(raw[i]);
      if insts[i].RawInstruction? {
        allDecoded := false;
      }
    }
  }

  /** NewVM: whether it returns without an error. */
  method NewVM(filter: seq<Instruction>) returns (ok: bool)
    ensures ok <==> Accepted(filter)
  {
    hide Assemble, Nat;
    if |filter| == 0 {
      return false;
    }
    for i := 0 to |filter|
      invariant forall j :: 0 <= j < i ==> Assemble(filter[j]).Some? ==> Accepts(filter[j], |filter| - (j + 1))
    {
      var check := |filter| - (i + 1);
      match filter[i] {
        case Jump(skip) =>
          if check <= Nat(skip) { return false; }
        case JumpIf(_, _, skipTrue, skipFalse) =>
          if check <= skipTrue { return false; }
          if check <= skipFalse { return false; }
        case JumpIfX(_, skipTrue, skipFalse) =>
          if check <= skipTrue { return false; }
          if check <= skipFalse { return false; }
        case ALUOpConstant(op, val) =>
          if val == 0 && (op == OP_DIV || op == OP_MOD) { return false; }
        case LoadExtension(num) =>
          if num != EXT_LEN { return false; }
        case _ =>
      }
    }
    if !filter[|filter| - 1].RetA? && !filter[|filter| - 1].RetConstant? {
      return false;
    }
    var _, bad := AssembleProgram(filter);
    ok := bad.None?;
  }

  /** What an instruction did to the registers: a jump, or the end of the run. */
  ghost predicate Does(ins: Instruction, packet: seq<bv8>, m: Machine, m': Machine, jump: nat, end: Option<Effect>)
    requires |m.scratch| == SLOTS
  {
    && Step(ins, m, packet) == (if end.Some? then end.value else Goto(m', jump))
    && (end.Some? ==> !end.value.Goto?)
  }

  /** The instructions that load from the packet. */
  method ExecuteLoad(ins: Instruction, packet: seq<bv8>, regA: bv32, regX: bv32, ghost scratch: seq<bv32>)
    returns (a: bv32, x: bv32, end: Option<Effect>)
    requires |scratch| == SLOTS && (ins.LoadAbsolute? || ins.LoadIndirect? || ins.LoadMemShift? || ins.LoadExtension?)
    ensures Does(ins, packet, Machine(regA, regX, scratch), Machine(a, x, scratch), 0, end)
  {
    hide ALU, Holds, Truncate, Load, HeaderLength, Nat;
    a, x, end := regA, regX, None;
    match ins {
      case LoadAbsolute(off, size) =>
        a, end := LoadInto(a, Load(packet, Nat(off), size));
      case LoadIndirect(off, size) =>
        a, end := LoadInto(a, Load(packet, Nat(off) + Nat(x), size));
      case LoadMemShift(off) =>
        if Nat(off) + 1 > |packet| {
          end := Some(Stop);
        } else {
          x := HeaderLength(packet[Nat(off)]);
        }
      case LoadExtension(num) =>
        if num == EXT_LEN {
          a := Truncate(|packet|);
        } else {
          end := Some(Panic);
        }
    }
  }

  /** The instructions that use the scratch slots. */
  method ExecuteScratch(ins: Instruction, ghost packet: seq<bv8>, regA: bv32, regX: bv32, regScratch: array<bv32>)
    returns (a: bv32, x: bv32, end: Option<Effect>)
    requires regScratch.Length == SLOTS && (ins.LoadScratch? || ins.StoreScratch?)
    modifies regScratch
    ensures Does(ins, packet, Machine(regA, regX, old(regScratch[..])), Machine(a, x, regScratch[..]), 0, end)
  {
    hide ALU, Holds, Truncate, Load, HeaderLength, Nat;
    a, x, end := regA, regX, None;
    match ins {
      case LoadScratch(dst, n) =>
        if dst == REG_A || dst == REG_X {
          if n < 0 || n >= SLOTS {
            end := Some(Panic);
          } else if dst == REG_A {
            a := regScratch[n];
          } else {
            x := regScratch[n];
          }
        }
      case StoreScratch(src, n) =>
        if src == REG_A || src == REG_X {
          if n < 0 || n >= SLOTS {
            end := Some(Panic);
          } else {
            regScratch[n] := if src == REG_A then a else x;
          }
        }
    }
  }

  /** The other instructions. */
  method ExecuteRegisters(ins: Instruction, ghost packet: seq<bv8>, regA: bv32, regX: bv32, ghost scratch: seq<bv32>)
    returns (a: bv32, x: bv32, jump: nat, end: Option<Effect>)
    requires |scratch| == SLOTS && !ins.LoadAbsolute? && !ins.LoadIndirect? && !ins.LoadMemShift? && !ins.LoadExtension?
    requires !ins.LoadScratch? && !ins.StoreScratch?
    ensures Does(ins, packet, Machine(regA, regX, scratch), Machine(a, x, scratch), jump, end)
  {
    hide ALU, Holds, Truncate, Load, HeaderLength, Nat;
    a, x, jump, end := regA, regX, 0, None;
    match ins {
      case ALUOpConstant(op, val) =>
        if val == 0 && (op == OP_DIV || op == OP_MOD) {
          end := Some(Panic);
        } else {
          a := ALU(op, a, val);
        }
      case ALUOpX(op) =>
        if x == 0 && (op == OP_DIV || op == OP_MOD) {
          end := Some(Stop);
        } else {
          a := ALU(op, a, x);
        }
      case Jump(skip) =>
        jump := Nat(skip);
      case JumpIf(cond, val, skipTrue, skipFalse) =>
        jump := if Holds(cond, a, val) then skipTrue else skipFalse;
      case JumpIfX(cond, skipTrue, skipFalse) =>
        jump := if Holds(cond, a, x) then skipTrue else skipFalse;
      case LoadConstant(dst, val) =>
        if dst == REG_A { a := val; } else if dst == REG_X { x := val; }
      case RetA =>
        end := Some(Return(Nat(a)));
      case RetConstant(val) =>
        end := Some(Return(Nat(val)));
      case TAX =>
        x := a;
      case TXA =>
        a := x;
      case NegateA =>
        end := Some(Unknown);
      case RawInstruction(_) =>
        end := Some(Unknown);
    }
  }

  /** The body of the loop of VM.Run: one instruction on the registers.  A panic
      of the source is the effect Panic. */
  method Execute(ins: Instruction, packet: seq<bv8>, regA: bv32, regX: bv32, regScratch: array<bv32>)
    returns (a: bv32, x: bv32, jump: nat, end: Option<Effect>)
    requires regScratch.Length == SLOTS
    modifies regScratch
    ensures Does(ins, packet, Machine(regA, regX, old(regScratch[..])), Machine(a, x, regScratch[..]), jump, end)
  {
    hide Does;
    jump := 0;
    if ins.LoadAbsolute? || ins.LoadIndirect? || ins.LoadMemShift? || ins.LoadExtension? {
      a, x, end := ExecuteLoad(ins, packet, regA, regX, regScratch[..]);
    } else if ins.LoadScratch? || ins.StoreScratch? {
      a, x, end := ExecuteScratch(ins, packet, regA, regX, regScratch);
    } else {
      a, x, jump, end := ExecuteRegisters(ins, packet, regA, regX, regScratch[..]);
    }
  }

  method LoadInto(regA: bv32, r: Loaded) returns (a: bv32, end: Option<Effect>)
    ensures a == (if r.Value? then r.v else regA)
    ensures end == if r.Value? then None else if r.OutOfBounds? then Some(Stop) else Some(Panic)
  {
    match r {
      case Value(v) => return v, None;
      case OutOfBounds => return regA, Some(Stop);
      case BadSize => return regA, Some(Panic);
    }
  }

  /** VM.Run */
  method Run(filter: seq<Instruction>, packet: seq<bv8>) returns (r: Result)
    ensures r == RunOf(filter, packet)
  {
    hide Step;
    var regA, regX: bv32 := 0, 0;
    var regScratch := new bv32[SLOTS](_ => 0);
    assert regScratch[..] == START.scratch;
    var i := 0;
    while i < |filter|
      invariant RunOf(filter, packet) == Exec(filter, packet, i, Machine(regA, regX, regScratch[..])).0
      decreases |filter| - i
    {
      var a, x, jump, end := Execute(filter[i], packet, regA, regX, regScratch);
      if end.Some? {
        match end.value {
          case Return(n) => return Returned(n);
          case Stop => return Stopped;
          case Unknown => return Failed(i);
          case Panic => return Panicked;
        }
      }
      regA, regX := a, x;
      i := i + 1 + jump;
    }
    return FellOff;
  }
}
