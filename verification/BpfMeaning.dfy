/** Assembling and disassembling BPF programs keeps their meaning: for which
    instructions, and for whole programs (xnet/bpf/asm.go). */
module BpfMeaning {
  import opened Frames
  import opened Bpf
  import opened BpfVM

  ghost predicate SameMeaning(i: Instruction, j: Instruction) {
    forall m: Machine, packet: seq<bv8> :: |m.scratch| == SLOTS ==> Step(i, m, packet) == Step(j, m, packet)
  }

  lemma NormalJumpMeans(cond: JumpTest, st: Skip, sf: Skip, a: bv32, v: bv32)
    ensures var (c, t, f) := NormalJump(cond, st, sf);
            (if Holds(c, a, v) then t else f) == (if Holds(cond, a, v) then st else sf)
  {
    hide NormalJump;
    NormalJumpIs(cond, st, sf);
    if !cond.UnknownTest? { OppositeHolds(cond, a, v); }
    hide Holds;
  }

  lemma OppositeHolds(cond: JumpTest, a: bv32, v: bv32)
    requires !cond.UnknownTest?
    ensures Holds(Opposite(cond), a, v) == !Holds(cond, a, v)
  {
    hide Holds;
    match cond {
      case Equal => EqualOrNot(a, v);
      case NotEqual => EqualOrNot(a, v);
      case GreaterThan => GreaterOrNot(a, v);
      case LessOrEqual => GreaterOrNot(a, v);
      case GreaterOrEqual => LessOrNot(a, v);
      case LessThan => LessOrNot(a, v);
      case BitsSet => SetOrNot(a, v);
      case BitsNotSet => SetOrNot(a, v);
    }
  }

  lemma EqualOrNot(a: bv32, v: bv32)
    ensures Holds(NotEqual, a, v) == !Holds(Equal, a, v)
  {
  }

  lemma GreaterOrNot(a: bv32, v: bv32)
    ensures Holds(LessOrEqual, a, v) == !Holds(GreaterThan, a, v)
  {
  }

  lemma LessOrNot(a: bv32, v: bv32)
    ensures Holds(GreaterOrEqual, a, v) == !Holds(LessThan, a, v)
  {
  }

  lemma SetOrNot(a: bv32, v: bv32)
    ensures Holds(BitsNotSet, a, v) == !Holds(BitsSet, a, v)
  {
  }

  lemma NormalMeans(ins: Instruction, m: Machine, packet: seq<bv8>)
    requires |m.scratch| == SLOTS && RoundTrips(ins)
    ensures Step(Normal(ins), m, packet) == Step(ins, m, packet)
  {
    hide ALU, Holds, Truncate, Load, HeaderLength, Nat, NormalJump, Disassemble, KnownRaw;
    match ins {
      case JumpIf(cond, val, st, sf) => NormalJumpMeans(cond, st, sf, m.a, val);
      case JumpIfX(cond, st, sf) => NormalJumpMeans(cond, st, sf, m.a, m.x);
      case RawInstruction(raw) => KnownRawIs(raw);
      case _ =>
    }
  }

  const EMPTY: seq<bv8> := []

  /** An absolute load from an offset beyond every packet ends the program, and
      what it decodes to does not. */
  lemma FarLoadDiffers(off: bv32, size: int)
    requires off > 0xffff_efff && size in {1, 2, 4}
    ensures var j := Disassemble(Assemble(LoadAbsolute(off, size)).value);
            Step(LoadAbsolute(off, size), START, EMPTY) != Step(j, START, EMPTY)
  {
    hide Disassemble, Assemble, ALU, Holds, Truncate, Nat;
    FarLoadDecodes(off, size);
  }

  lemma KnownRawDiffers(raw: Raw)
    requires KnownRaw(raw)
    ensures Step(RawInstruction(raw), START, EMPTY) != Step(Disassemble(raw), START, EMPTY)
  {
    hide ALU, Holds, Truncate, Load, Disassemble, KnownRaw;
    KnownRawIs(raw);
  }

  // ---- operators that the package does not know ----

  /** In machine code the operator makes a jump that goes nowhere. */
  predicate JumpsNowhere(op: ALUOp, k: bv32) {
    op & 3 == 1 && (op & 0xf0 in {0x10, 0x20, 0x30, 0x40} || (op & 0xf0 == 0x00 && k == 0))
  }

  /** v changes no operand of the operator. */
  predicate Neutral(op: ALUOp, v: bv32) {
    if op in {0x20, 0x30} then v == 1
    else if op == 0x50 then v == 0xffff_ffff
    else op in {0x00, 0x10, 0x40, 0x60, 0x70, 0xa0} && v == 0
  }

  /** The machine ignores an operator that it does not know; what the machine code
      does instead must have no effect either. */
  predicate HarmlessConstant(op: ALUOp, val: bv32) {
    JumpsNowhere(op, val) || (op & 3 == 0 && op & 8 == 0 && Neutral(op & 0xf0, val))
  }

  predicate HarmlessX(op: ALUOp) { JumpsNowhere(op, 0) }

  /** The instructions that mean the same after assembling and disassembling. */
  predicate KeepsMeaning(ins: Instruction) {
    || RoundTrips(ins)
    || (ins.ALUOpConstant? && HarmlessConstant(ins.op, ins.val))
    || (ins.ALUOpX? && HarmlessX(ins.op))
  }

  lemma NeutralKeeps(op: ALUOp, v: bv32, a: bv32)
    requires Neutral(op, v)
    ensures KnownOp(op) && (v == 0 ==> op != OP_DIV && op != OP_MOD) && ALU(op, a, v) == a
  {
  }

  /** No divisor is neutral for the remainder. */
  lemma RemainderChanges(v: bv32) returns (a: bv32)
    requires v != 0
    ensures Remainder(a, v) != a
  {
    hide Remainder;
    if v <= 0x8000_0000 {
      a := 0x8000_0000;
      SmallRemainder(v);
    } else {
      a := 0xffff_ffff;
      LargeRemainder(v);
    }
  }

  lemma SmallRemainder(v: bv32)
    requires 0 < v <= 0x8000_0000
    ensures Remainder(0x8000_0000, v) != 0x8000_0000
  {
    HalfRemainder(v);
    assert Remainder(0x8000_0000, v) == 0x8000_0000 as bv32 % v;
    hide Remainder;
  }

  lemma HalfRemainder(v: bv32)
    requires 0 < v <= 0x8000_0000
    ensures 0x8000_0000 as bv32 % v != 0x8000_0000
  {
  }

  lemma LargeRemainder(v: bv32)
    requires v > 0x8000_0000
    ensures Remainder(0xffff_ffff, v) != 0xffff_ffff
  {
  }

  lemma RemainderIs(a: bv32, v: bv32)
    requires v != 0
    ensures ALU(OP_MOD, a, v) == Remainder(a, v)
  {
    hide Remainder;
  }

  lemma QuotientChanges(v: bv32)
    requires v > 1
    ensures ALU(OP_DIV, 1, v) != 1
  {
  }

  lemma ShiftChanges(v: bv32)
    requires v != 0
    ensures ALU(0x60, 1, v) != 1 && ALU(0x70, 1, v) != 1
  {
  }

  lemma ProductChanges(v: bv32)
    requires v != 1
    ensures ALU(0x20, 1, v) != 1
  {
  }

  lemma MaskChanges(v: bv32)
    requires v != 0xffff_ffff
    ensures ALU(0x50, 0xffff_ffff, v) != 0xffff_ffff
  {
  }

  lemma SumChanges(v: bv32)
    requires v != 0
    ensures ALU(0x00, 0, v) != 0 && ALU(0x10, 0, v) != 0 && ALU(0x40, 0, v) != 0 && ALU(0xa0, 0, v) != 0
  {
  }

  /** Any operand that is not neutral changes some register. */
  lemma NotNeutralChanges(op: ALUOp, v: bv32) returns (a: bv32)
    requires KnownOp(op) && !Neutral(op, v) && (v == 0 ==> op != OP_DIV && op != OP_MOD)
    ensures ALU(op, a, v) != a
  {
    hide ALU, Remainder;
    if op == OP_MOD {
      a := RemainderChanges(v);
      RemainderIs(a, v);
    } else if op == OP_DIV {
      a := 1;
      QuotientChanges(v);
    } else if op == 0x60 || op == 0x70 {
      a := 1;
      ShiftChanges(v);
    } else if op == 0x20 {
      a := 1;
      ProductChanges(v);
    } else if op == 0x50 {
      a := 0xffff_ffff;
      MaskChanges(v);
    } else {
      a := 0;
      SumChanges(v);
    }
  }

  /** What the operator becomes in machine code. */
  lemma UnknownDecodes(op: ALUOp, k: bv32, x: bool)
    ensures var raw := Raw(if x then 0x4 | 0x8 | op else 0x4 | op, 0, 0, k);
            && (op & 3 == 0 ==> Disassemble(raw) == DisassembleALU(raw))
            && (op & 3 == 1 ==> Disassemble(raw) == DisassembleJump(raw))
            && (op & 3 > 1 ==>
                 var j := Disassemble(raw);
                 j.RetA? || j.RetConstant? || j.TAX? || j.TXA? || j.RawInstruction?)
            && raw.op & 0xf0 == op & 0xf0 && raw.op & 8 == (if x then 8 else op & 8)
  {
    hide DisassembleALU, DisassembleJump, DisassembleLoad;
    OperatorBits(op);
  }

  lemma OperatorBits(op: ALUOp)
    ensures (0x4 | op) & 0x7 == 0x4 | (op & 3) && (0x4 | op) & 0xf0 == op & 0xf0 && (0x4 | op) & 8 == op & 8
    ensures (0x4 | 0x8 | op) & 0x7 == 0x4 | (op & 3) && (0x4 | 0x8 | op) & 0xf0 == op & 0xf0
    ensures (0x4 | 0x8 | op) & 8 == 8 && op & 3 in {0, 1, 2, 3}
  {
  }

  /** Two machines on which no copy, no return and no unknown instruction goes on
      unchanged. */
  const APART := START.(a := 1)

  lemma StopsOrCopies(j: Instruction)
    requires j.RetA? || j.RetConstant? || j.TAX? || j.TXA? || j.RawInstruction? || j.NegateA?
    ensures Step(j, APART, EMPTY) != Goto(APART, 0)
  {
    hide Nat;
  }

  lemma JumpMeans(op: ALUOp, k: bv32, raw: Raw, m: Machine, packet: seq<bv8>)
    requires |m.scratch| == SLOTS && raw.jt == raw.jf == 0 && raw.k == k && raw.op & 0xf0 == op & 0xf0 && op & 3 == 1
    ensures JumpsNowhere(op, k) ==> Step(DisassembleJump(raw), m, packet) == Goto(m, 0)
    ensures !JumpsNowhere(op, k) ==> Step(DisassembleJump(raw), m, packet) != Goto(m, 0)
  {
    hide Holds;
    NatZero(k);
    hide Nat;
  }

  lemma NatZero(k: bv32)
    ensures Nat(k) == 0 <==> k == 0
  {
  }

  /** The register operand of a known operator is not always neutral. */
  lemma RegisterChanges(op: ALUOp) returns (m: Machine)
    requires KnownOp(op)
    ensures |m.scratch| == SLOTS && Step(ALUOpX(op), m, EMPTY) != Goto(m, 0)
  {
    hide ALU;
    var v: bv32 := if op in {0x20, 0x30} then 2 else 1;
    var a := NotNeutralChanges(op, v);
    m := START.(a := a, x := v);
  }

  lemma ConstantChanges(op: ALUOp, v: bv32) returns (m: Machine)
    requires KnownOp(op) && !Neutral(op, v)
    ensures |m.scratch| == SLOTS && Step(ALUOpConstant(op, v), m, EMPTY) != Goto(m, 0)
  {
    hide ALU, Neutral;
    m := START;
    if v != 0 || (op != OP_DIV && op != OP_MOD) {
      var a := NotNeutralChanges(op, v);
      m := START.(a := a);
    }
  }

  ghost predicate Idle(j: Instruction) {
    forall m: Machine, packet: seq<bv8> :: |m.scratch| == SLOTS ==> Step(j, m, packet) == Goto(m, 0)
  }

  lemma NotIdle(j: Instruction, m: Machine)
    requires |m.scratch| == SLOTS && Step(j, m, EMPTY) != Goto(m, 0)
    ensures !Idle(j)
  {
  }

  /** The ALU instructions without an effect. */
  lemma IdleALU(j: Instruction)
    requires (j.ALUOpConstant? && KnownOp(j.op)) || (j.ALUOpX? && KnownOp(j.op))
    ensures Idle(j) <==> j.ALUOpConstant? && Neutral(j.op, j.val)
  {
    hide Step, Neutral, ALU, Idle;
    if j.ALUOpX? {
      var m := RegisterChanges(j.op);
      NotIdle(j, m);
    } else if Neutral(j.op, j.val) {
      NeutralIsIdle(j.op, j.val);
    } else {
      var m := ConstantChanges(j.op, j.val);
      NotIdle(j, m);
    }
  }

  lemma NeutralIsIdle(op: ALUOp, v: bv32)
    requires Neutral(op, v)
    ensures Idle(ALUOpConstant(op, v))
  {
    hide ALU, Neutral;
    forall m: Machine, packet: seq<bv8> | |m.scratch| == SLOTS
      ensures Step(ALUOpConstant(op, v), m, packet) == Goto(m, 0)
    {
      NeutralKeeps(op, v, m.a);
    }
  }

  lemma IdleDecoded(op: ALUOp, k: bv32, x: bool, raw: Raw)
    requires raw == Raw(if x then 0x4 | 0x8 | op else 0x4 | op, 0, 0, k)
    ensures Idle(Disassemble(raw)) <==>
              JumpsNowhere(op, k) || (op & 3 == 0 && !x && op & 8 == 0 && Neutral(op & 0xf0, k))
  {
    hide Step, Disassemble, DisassembleALU, DisassembleJump, Neutral, Idle, JumpsNowhere;
    UnknownDecodes(op, k, x);
    if op & 3 == 0 {
      IdleOperation(op, k, raw);
      NotAJump(op, k);
    } else if op & 3 == 1 {
      IdleJump(op, k, raw);
    } else {
      StopsOrCopies(Disassemble(raw));
      NotIdle(Disassemble(raw), APART);
      NotAJump(op, k);
    }
  }

  lemma NotAJump(op: ALUOp, k: bv32)
    requires op & 3 != 1
    ensures !JumpsNowhere(op, k)
  {
  }

  lemma IdleJump(op: ALUOp, k: bv32, raw: Raw)
    requires raw.jt == raw.jf == 0 && raw.k == k && raw.op & 0xf0 == op & 0xf0 && op & 3 == 1
    ensures Idle(DisassembleJump(raw)) <==> JumpsNowhere(op, k)
  {
    hide Step, DisassembleJump, JumpsNowhere;
    forall m: Machine, packet: seq<bv8> | |m.scratch| == SLOTS
      ensures Step(DisassembleJump(raw), m, packet) == Goto(m, 0) <==> JumpsNowhere(op, k)
    {
      JumpMeans(op, k, raw, m, packet);
    }
    JumpMeans(op, k, raw, START, EMPTY);
  }

  lemma IdleOperation(op: ALUOp, k: bv32, raw: Raw)
    requires raw.k == k && raw.op & 0xf0 == op & 0xf0
    ensures Idle(DisassembleALU(raw)) <==> raw.op & 8 == 0 && Neutral(op & 0xf0, k)
  {
    hide Step, Neutral, Idle;
    var j := DisassembleALU(raw);
    XBit(raw.op);
    if KnownOp(op & 0xf0) {
      IdleALU(j);
    } else {
      StopsOrCopies(j);
      NotIdle(j, APART);
      UnknownNotNeutral(op & 0xf0, k);
    }
  }

  lemma XBit(op: ALUOp)
    ensures op & 8 == 0 || op & 8 == 8
  {
  }

  lemma UnknownNotNeutral(op: ALUOp, v: bv32)
    requires !KnownOp(op)
    ensures !Neutral(op, v)
  {
  }

  /** An operator that the machine does not know does nothing. */
  lemma UnknownIsIdle(ins: Instruction, j: Instruction)
    requires (ins.ALUOpConstant? || ins.ALUOpX?) && !KnownOp(ins.op)
    ensures SameMeaning(ins, j) <==> Idle(j)
  {
    forall m: Machine, packet: seq<bv8> | |m.scratch| == SLOTS ensures Step(ins, m, packet) == Goto(m, 0) {
      Ignored(ins, m, packet);
    }
    hide Step;
  }

  lemma Ignored(ins: Instruction, m: Machine, packet: seq<bv8>)
    requires |m.scratch| == SLOTS && (ins.ALUOpConstant? || ins.ALUOpX?) && !KnownOp(ins.op)
    ensures Step(ins, m, packet) == Goto(m, 0)
  {
  }

  lemma UnknownKeeps(ins: Instruction)
    requires (ins.ALUOpConstant? || ins.ALUOpX?) && !KnownOp(ins.op)
    ensures SameMeaning(ins, Disassemble(Assemble(ins).value)) <==> KeepsMeaning(ins)
  {
    hide Step, Disassemble, Idle, SameMeaning, Neutral, JumpsNowhere;
    var raw := Assemble(ins).value;
    UnknownIsIdle(ins, Disassemble(raw));
    IdleDecoded(ins.op, raw.k, ins.ALUOpX?, raw);
  }

  lemma RoundTripMeans(ins: Instruction)
    requires Assemble(ins).Some? && RoundTrips(ins)
    ensures SameMeaning(ins, Disassemble(Assemble(ins).value))
  {
    hide Step, Disassemble;
    var j := Disassemble(Assemble(ins).value);
    DecodeEncode(ins);
    forall m: Machine, packet: seq<bv8> | |m.scratch| == SLOTS ensures Step(ins, m, packet) == Step(j, m, packet) {
      NormalMeans(ins, m, packet);
    }
  }

  lemma Differ(i: Instruction, j: Instruction)
    requires Step(i, START, EMPTY) != Step(j, START, EMPTY)
    ensures !SameMeaning(i, j)
  {
  }

  /** Of all instructions that NewVM takes, exactly those mean the same after
      assembling and disassembling. */
  lemma ExactlyKeepsMeaning(ins: Instruction)
    requires Accepts(ins, 0x1_0000_0000)
    ensures SameMeaning(ins, Disassemble(Assemble(ins).value)) <==> KeepsMeaning(ins)
  {
    hide Step, Disassemble, SameMeaning, HarmlessConstant, HarmlessX, KnownRaw;
    var j := Disassemble(Assemble(ins).value);
    if RoundTrips(ins) {
      RoundTripMeans(ins);
    } else if ins.LoadAbsolute? {
      AssembleChecks(ins);
      FarLoadDiffers(ins.off, ins.size);
      Differ(ins, j);
    } else if ins.RawInstruction? {
      KnownRawDiffers(ins.raw);
      Differ(ins, j);
    } else {
      UnknownKeeps(ins);
    }
  }

  lemma KeptMeans(ins: Instruction, m: Machine, packet: seq<bv8>)
    requires Assemble(ins).Some? && KeepsMeaning(ins) && |m.scratch| == SLOTS
    ensures Step(Disassemble(Assemble(ins).value), m, packet) == Step(ins, m, packet)
  {
    hide Step, Disassemble, HarmlessConstant, HarmlessX, RoundTrips;
    if RoundTrips(ins) {
      RoundTripMeans(ins);
    } else {
      assert !KnownOp(ins.op) by { NotRoundTrip(ins); }
      UnknownKeeps(ins);
    }
  }

  lemma NotRoundTrip(ins: Instruction)
    requires (ins.ALUOpConstant? || ins.ALUOpX?) && !RoundTrips(ins)
    ensures !KnownOp(ins.op)
  {
  }

  // ---- whole programs ----

  /** q is what disassembling the machine code of p gives. */
  ghost predicate Recovered(p: seq<Instruction>, q: seq<Instruction>) {
    && |q| == |p| && (forall i :: 0 <= i < |p| ==> Assemble(p[i]).Some?)
    && forall i :: 0 <= i < |p| ==> q[i] == Disassemble(Assemble(p[i]).value)
  }

  ghost predicate AllKeep(p: seq<Instruction>) { forall i :: 0 <= i < |p| ==> KeepsMeaning(p[i]) }

  /** Disassembling the machine code of a program gives a program with the same
      runs. */
  lemma {:induction false} SameRuns(p: seq<Instruction>, q: seq<Instruction>, packet: seq<bv8>, pc: nat, m: Machine)
    requires Recovered(p, q) && AllKeep(p) && |m.scratch| == SLOTS
    ensures Exec(q, packet, pc, m) == Exec(p, packet, pc, m)
    decreases |p| - pc
  {
    hide Step, Disassemble, Assemble, KeepsMeaning;
    if pc < |p| {
      KeptMeans(p[pc], m, packet);
      match Step(p[pc], m, packet) {
        case Goto(m', skip) =>
          ScratchKept(p[pc], m, packet);
          SameRuns(p, q, packet, pc + 1 + skip, m');
        case _ =>
      }
    }
  }

  lemma NormalAccepted(ins: Instruction, after: int)
    requires Accepts(ins, after) && RoundTrips(ins)
    ensures Accepts(Normal(ins), after)
  {
    hide Disassemble, KnownRaw;
    if ins.RawInstruction? { KnownRawIs(ins.raw); } else { NormalEncodes(ins); }
  }

  /** What an operator without an effect becomes is accepted, with an instruction
      after it. */
  lemma HarmlessAccepted(op: ALUOp, k: bv32, x: bool, after: int)
    requires after > 0
    requires JumpsNowhere(op, k) || (op & 3 == 0 && !x && op & 8 == 0 && Neutral(op & 0xf0, k))
    ensures Accepts(Disassemble(Raw(if x then 0x4 | 0x8 | op else 0x4 | op, 0, 0, k)), after)
  {
    hide Disassemble, ALU, Nat;
    UnknownDecodes(op, k, x);
    NatZero(k);
    if op & 3 == 0 { NeutralKeeps(op & 0xf0, k, 0); }
  }

  lemma KeptAccepted(ins: Instruction, after: int)
    requires Accepts(ins, after) && KeepsMeaning(ins) && (after > 0 || RoundTrips(ins))
    ensures Accepts(Disassemble(Assemble(ins).value), after)
  {
    hide Disassemble, JumpsNowhere, Neutral;
    if RoundTrips(ins) {
      DecodeEncode(ins);
      NormalAccepted(ins, after);
    } else if ins.ALUOpConstant? {
      HarmlessAccepted(ins.op, ins.val, false, after);
    } else {
      HarmlessAccepted(ins.op, 0, true, after);
    }
  }

  /** NewVM accepts the recovered program too. */
  lemma RecoveredIsAccepted(p: seq<Instruction>, q: seq<Instruction>)
    requires Accepted(p) && Recovered(p, q) && AllKeep(p)
    ensures Accepted(q)
  {
    hide Disassemble, Assemble, KeepsMeaning, Accepts;
    ReturnRoundTrips(p[|p| - 1]);
    forall i | 0 <= i < |q| ensures Accepts(q[i], |q| - (i + 1)) {
      KeptAccepted(p[i], |p| - (i + 1));
    }
    DecodeEncode(p[|p| - 1]);
  }

  lemma ReturnRoundTrips(ins: Instruction)
    requires ins.RetA? || ins.RetConstant?
    ensures RoundTrips(ins) && Normal(ins) == ins
  {
  }
}
