/** BPF instructions and their encoding (xnet/bpf/constants.go,
    xnet/bpf/instructions.go, xnet/bpf/asm.go). */
module Bpf {
  import opened Frames

  type Register = bv16
  const REG_A: Register := 0
  const REG_X: Register := 1

  type ALUOp = bv16

  /** The operators of the package; aluOpNeg, 0x80, has its own instruction. */
  predicate KnownOp(op: ALUOp) {
    op in {0x00, 0x10, 0x20, 0x30, 0x40, 0x50, 0x60, 0x70, 0x90, 0xa0}
  }

  const OP_DIV: ALUOp := 0x30
  const OP_MOD: ALUOp := 0x90

  datatype JumpTest =
    | Equal | NotEqual | GreaterThan | LessThan | GreaterOrEqual | LessOrEqual | BitsSet | BitsNotSet
    | UnknownTest

  type Skip = n: nat | n < 256

  datatype Raw = Raw(op: bv16, jt: Skip, jf: Skip, k: bv32)

  datatype Instruction =
    | LoadConstant(dst: Register, val: bv32)
    | LoadScratch(dst: Register, n: int)
    | LoadAbsolute(off: bv32, size: int)
    | LoadIndirect(off: bv32, size: int)
    | LoadMemShift(off: bv32)
    | LoadExtension(num: bv64)
    | StoreScratch(src: Register, n: int)
    | ALUOpConstant(op: ALUOp, val: bv32)
    | ALUOpX(op: ALUOp)
    | NegateA
    | Jump(skip: bv32)
    | JumpIf(cond: JumpTest, val: bv32, skipTrue: Skip, skipFalse: Skip)
    | JumpIfX(cond: JumpTest, skipTrue: Skip, skipFalse: Skip)
    | RetA
    | RetConstant(val: bv32)
    | TXA
    | TAX
    | RawInstruction(raw: Raw)

  /** The extension that returns the packet's length. */
  const EXT_LEN: bv64 := 1

  // ---- assembling ----

  function AssembleLoad(dst: Register, size: int, mode: bv16, k: bv32): Option<Raw> {
    if dst != REG_A && dst != REG_X then None
    else
      match size
      case 1 => Some(Raw(dst | 0x10 | mode, 0, 0, k))
      case 2 => Some(Raw(dst | 0x08 | mode, 0, 0, k))
      case 4 => Some(Raw(dst | mode, 0, 0, k))
      case _ => None
  }

  function SlotBits(n: int): bv32
    requires 0 <= n <= 15
  {
    n as bv32
  }

  /** The condition in machine code, and whether the targets change places. */
  function MachineTest(test: JumpTest): Option<(bv16, bool)> {
    match test
    case Equal => Some((0x10, false))
    case NotEqual => Some((0x10, true))
    case GreaterThan => Some((0x20, false))
    case LessOrEqual => Some((0x20, true))
    case GreaterOrEqual => Some((0x30, false))
    case LessThan => Some((0x30, true))
    case BitsSet => Some((0x40, false))
    case BitsNotSet => Some((0x40, true))
    case UnknownTest => None
  }

  function JumpToRaw(test: JumpTest, operand: bv16, k: bv32, skipTrue: Skip, skipFalse: Skip): Option<Raw> {
    match MachineTest(test)
    case None => None
    case Some((cond, flip)) =>
      Some(Raw(0x5 | cond | operand, if flip then skipFalse else skipTrue, if flip then skipTrue else skipFalse, k))
  }

  function Assemble(ins: Instruction): Option<Raw> {
    match ins
    case LoadConstant(dst, val) => AssembleLoad(dst, 4, 0x00, val)
    case LoadScratch(dst, n) => if n < 0 || n > 15 then None else AssembleLoad(dst, 4, 0x60, SlotBits(n))
    case LoadAbsolute(off, size) => AssembleLoad(REG_A, size, 0x20, off)
    case LoadIndirect(off, size) => AssembleLoad(REG_A, size, 0x40, off)
    case LoadMemShift(off) => AssembleLoad(REG_X, 1, 0xa0, off)
    case LoadExtension(num) =>
      if num == EXT_LEN then AssembleLoad(REG_A, 4, 0x80, 0)
      else AssembleLoad(REG_A, 4, 0x20, ((num - 0x1000) & 0xffff_ffff) as bv32)
    case StoreScratch(src, n) =>
      if n < 0 || n > 15 then None
      else if src == REG_A then Some(Raw(0x2, 0, 0, SlotBits(n)))
      else if src == REG_X then Some(Raw(0x3, 0, 0, SlotBits(n)))
      else None
    case ALUOpConstant(op, val) => Some(Raw(0x4 | op, 0, 0, val))
    case ALUOpX(op) => Some(Raw(0x4 | 0x8 | op, 0, 0, 0))
    case NegateA => Some(Raw(0x4 | 0x80, 0, 0, 0))
    case Jump(skip) => Some(Raw(0x5, 0, 0, skip))
    case JumpIf(cond, val, st, sf) => JumpToRaw(cond, 0x0, val, st, sf)
    case JumpIfX(cond, st, sf) => JumpToRaw(cond, 0x8, 0, st, sf)
    case RetA => Some(Raw(0x6 | 0x10, 0, 0, 0))
    case RetConstant(val) => Some(Raw(0x6, 0, 0, val))
    case TXA => Some(Raw(0x7 | 0x80, 0, 0, 0))
    case TAX => Some(Raw(0x7, 0, 0, 0))
    case RawInstruction(raw) => Some(raw)
  }

  // ---- disassembling ----

  predicate IsSlot(k: bv32) { k <= 15 }

  function SlotOf(k: bv32): int { k as int }

  function ExtensionOf(k: bv32): bv64 { (0x1000 + k) as bv64 }

  function DisassembleLoad(ri: Raw): Instruction { LoadOf(ri, ri.op & 0x1, ri.op & 0x18, ri.op & 0xe0) }

  function LoadOf(ri: Raw, reg: Register, width: bv16, mode: bv16): Instruction {
    if width == 0x18 then RawInstruction(ri)
    else
      var size := if width == 0x00 then 4 else if width == 0x08 then 2 else 1;
      match mode
      case 0x00 => if size != 4 then RawInstruction(ri) else LoadConstant(reg, ri.k)
      case 0x60 => if size != 4 || !IsSlot(ri.k) then RawInstruction(ri) else LoadScratch(reg, SlotOf(ri.k))
      case 0x20 =>
        if ri.k > 0xffff_efff then LoadExtension(ExtensionOf(ri.k)) else LoadAbsolute(ri.k, size)
      case 0x40 => LoadIndirect(ri.k, size)
      case 0x80 => if size != 4 then RawInstruction(ri) else LoadExtension(EXT_LEN)
      case 0xa0 => LoadMemShift(ri.k)
      case _ => RawInstruction(ri)
  }

  function DisassembleALU(ri: Raw): Instruction {
    var op := ri.op & 0xf0;
    if KnownOp(op) then (if ri.op & 0x8 == 0x8 then ALUOpX(op) else ALUOpConstant(op, ri.k))
    else if op == 0x80 then NegateA
    else RawInstruction(ri)
  }

  /** jumpOpToTest: a jump without a true target reads as the opposite jump. */
  function JumpOpToTest(op: bv16, skipTrue: Skip, skipFalse: Skip): (r: (JumpTest, Skip, Skip))
    requires op in {0x10, 0x20, 0x30, 0x40}
  {
    if skipTrue == 0 then
      (if op == 0x10 then NotEqual else if op == 0x20 then LessOrEqual else if op == 0x30 then LessThan
        else BitsNotSet, skipFalse, 0)
    else
      (if op == 0x10 then Equal else if op == 0x20 then GreaterThan else if op == 0x30 then GreaterOrEqual
        else BitsSet, skipTrue, skipFalse)
  }

  function DisassembleJump(ri: Raw): Instruction {
    var op := ri.op & 0xf0;
    if op == 0x00 then Jump(ri.k)
    else if op in {0x10, 0x20, 0x30, 0x40} then
      var (cond, st, sf) := JumpOpToTest(op, ri.jt, ri.jf);
      if ri.op & 0x8 == 0x8 then JumpIfX(cond, st, sf) else JumpIf(cond, ri.k, st, sf)
    else RawInstruction(ri)
  }

  function Disassemble(ri: Raw): Instruction {
    match ri.op & 0x7
    case 0 => DisassembleLoad(ri)
    case 1 => DisassembleLoad(ri)
    case 2 => if ri.op != 0x2 || !IsSlot(ri.k) then RawInstruction(ri) else StoreScratch(REG_A, SlotOf(ri.k))
    case 3 => if ri.op != 0x3 || !IsSlot(ri.k) then RawInstruction(ri) else StoreScratch(REG_X, SlotOf(ri.k))
    case 4 => DisassembleALU(ri)
    case 5 => DisassembleJump(ri)
    case 6 => if ri.op == 0x16 then RetA else if ri.op == 0x6 then RetConstant(ri.k) else RawInstruction(ri)
    case _ => if ri.op == 0x7 then TAX else if ri.op == 0x87 then TXA else RawInstruction(ri)
  }

  // ---- decoding undoes encoding ----

  /** Machine code that the disassembler knows, other than a negation, bit by
      bit. */
  predicate KnownRaw(raw: Raw) {
    match raw.op & 0x7
    case 2 => raw.op == 0x2 && IsSlot(raw.k)
    case 3 => raw.op == 0x3 && IsSlot(raw.k)
    case 4 => KnownOp(raw.op & 0xf0)
    case 5 => raw.op & 0xf0 in {0x00, 0x10, 0x20, 0x30, 0x40}
    case 6 => raw.op in {0x6, 0x16}
    case 7 => raw.op in {0x7, 0x87}
    case _ => KnownLoad(raw.op & 0x18, raw.op & 0xe0, raw.k)
  }

  /** Four-byte constants, scratch slots and the packet's length, and one, two or
      four bytes of the packet. */
  predicate KnownLoad(width: bv16, mode: bv16, k: bv32) {
    || (width == 0x00 && (mode == 0x00 || mode == 0x80 || (mode == 0x60 && IsSlot(k))))
    || (width != 0x18 && (mode == 0x20 || mode == 0x40 || mode == 0xa0))
  }

  lemma KnownLoadIs(raw: Raw, reg: Register, width: bv16, mode: bv16)
    ensures KnownLoad(width, mode, raw.k) <==> !LoadOf(raw, reg, width, mode).RawInstruction?
    ensures !LoadOf(raw, reg, width, mode).NegateA?
  {
    hide IsSlot, SlotOf, ExtensionOf;
  }

  lemma KnownRawIs(raw: Raw)
    ensures KnownRaw(raw) <==> !Disassemble(raw).RawInstruction? && !Disassemble(raw).NegateA?
  {
    hide KnownLoad, LoadOf, IsSlot, SlotOf;
    KnownLoadIs(raw, raw.op & 0x1, raw.op & 0x18, raw.op & 0xe0);
  }

  /** The instructions that come back from machine code: absolute loads from
      0xfffff000 on are calls of extensions there, unknown operators spill into
      other fields, and a raw instruction must not be one that the disassembler
      knows. */
  predicate RoundTrips(ins: Instruction) {
    match ins
    case LoadAbsolute(off, _) => off <= 0xffff_efff
    case LoadExtension(num) => num < 0x1000
    case ALUOpConstant(op, _) => KnownOp(op)
    case ALUOpX(op) => KnownOp(op)
    case RawInstruction(raw) => !KnownRaw(raw)
    case _ => true
  }

  /** The jump that the disassembler prefers among those with the same meaning. */
  function NormalJump(test: JumpTest, skipTrue: Skip, skipFalse: Skip): (JumpTest, Skip, Skip) {
    match MachineTest(test)
    case None => (test, skipTrue, skipFalse)
    case Some((cond, flip)) => JumpOpToTest(cond, if flip then skipFalse else skipTrue,
      if flip then skipTrue else skipFalse)
  }

  function Normal(ins: Instruction): Instruction {
    match ins
    case JumpIf(cond, val, st, sf) => var (c, t, f) := NormalJump(cond, st, sf); JumpIf(c, val, t, f)
    case JumpIfX(cond, st, sf) => var (c, t, f) := NormalJump(cond, st, sf); JumpIfX(c, t, f)
    case RawInstruction(raw) => Disassemble(raw)
    case _ => ins
  }

  lemma SlotBitsBack(n: int)
    requires 0 <= n <= 15
    ensures IsSlot(SlotBits(n)) && SlotOf(SlotBits(n)) == n
  {
  }

  lemma DecodeScratch(ins: Instruction)
    requires (ins.LoadScratch? || ins.StoreScratch?) && Assemble(ins).Some?
    ensures Disassemble(Assemble(ins).value) == ins
  {
    hide SlotBits, IsSlot, SlotOf;
    SlotBitsBack(ins.n);
  }

  lemma DecodeLoad(ins: Instruction)
    requires ins.LoadConstant? || ins.LoadMemShift?
    requires Assemble(ins).Some? && RoundTrips(ins)
    ensures Disassemble(Assemble(ins).value) == ins
  {
    match ins {
      case LoadConstant(_, _) =>
      case LoadMemShift(_) =>
    }
  }

  lemma DecodeAbsolute(ins: Instruction)
    requires ins.LoadAbsolute? && Assemble(ins).Some? && RoundTrips(ins)
    ensures Disassemble(Assemble(ins).value) == ins
  {
    hide IsSlot, SlotOf, SlotBits, ExtensionOf;
  }

  lemma DecodeIndirect(ins: Instruction)
    requires ins.LoadIndirect? && Assemble(ins).Some?
    ensures Disassemble(Assemble(ins).value) == ins
  {
    hide IsSlot, SlotOf, SlotBits, ExtensionOf;
  }

  lemma ExtensionBits(num: bv64)
    requires num < 0x1000
    ensures var k := ((num - 0x1000) & 0xffff_ffff) as bv32; k > 0xffff_efff && ExtensionOf(k) == num
  {
  }

  lemma DecodeExtension(num: bv64)
    requires num < 0x1000
    ensures Disassemble(Assemble(LoadExtension(num)).value) == LoadExtension(num)
  {
    if num != EXT_LEN { ExtensionBits(num); }
  }

  lemma DecodeALU(op: ALUOp, val: bv32)
    requires KnownOp(op)
    ensures Disassemble(Assemble(ALUOpConstant(op, val)).value) == ALUOpConstant(op, val)
  {
  }

  lemma DecodeALUX(op: ALUOp)
    requires KnownOp(op)
    ensures Disassemble(Assemble(ALUOpX(op)).value) == ALUOpX(op)
  {
  }

  lemma DecodeJump(cond: JumpTest, val: bv32, st: Skip, sf: Skip)
    requires !cond.UnknownTest?
    ensures Disassemble(Assemble(JumpIf(cond, val, st, sf)).value) == Normal(JumpIf(cond, val, st, sf))
    ensures Disassemble(Assemble(JumpIfX(cond, st, sf)).value) == Normal(JumpIfX(cond, st, sf))
  {
  }

  /** Disassembling an assembled instruction gives it back, with jumps in their
      preferred form. */
  lemma DecodeEncode(ins: Instruction)
    requires Assemble(ins).Some? && RoundTrips(ins)
    ensures Disassemble(Assemble(ins).value) == Normal(ins)
  {
    hide Disassemble;
    match ins {
      case LoadExtension(num) => DecodeExtension(num);
      case StoreScratch(_, _) => DecodeScratch(ins);
      case ALUOpConstant(op, val) => DecodeALU(op, val);
      case ALUOpX(op) => DecodeALUX(op);
      case JumpIf(cond, val, st, sf) => DecodeJump(cond, val, st, sf);
      case JumpIfX(cond, st, sf) => DecodeJump(cond, 0, st, sf);
      case LoadConstant(_, _) => DecodeLoad(ins);
      case LoadScratch(_, _) => DecodeScratch(ins);
      case LoadAbsolute(_, _) => DecodeAbsolute(ins);
      case LoadIndirect(_, _) => DecodeIndirect(ins);
      case LoadMemShift(_) => DecodeLoad(ins);
      case _ => DecodeRest(ins);
    }
  }

  lemma DecodeRest(ins: Instruction)
    requires ins.RetA? || ins.RetConstant? || ins.TXA? || ins.TAX? || ins.Jump? || ins.NegateA? || ins.RawInstruction?
    requires Assemble(ins).Some? && RoundTrips(ins)
    ensures Disassemble(Assemble(ins).value) == Normal(ins)
  {
    hide KnownRaw;
  }

  function Opposite(test: JumpTest): JumpTest {
    match test
    case Equal => NotEqual
    case NotEqual => Equal
    case GreaterThan => LessOrEqual
    case LessOrEqual => GreaterThan
    case GreaterOrEqual => LessThan
    case LessThan => GreaterOrEqual
    case BitsSet => BitsNotSet
    case BitsNotSet => BitsSet
    case UnknownTest => UnknownTest
  }

  lemma NormalJumpIs(test: JumpTest, skipTrue: Skip, skipFalse: Skip)
    ensures var r := NormalJump(test, skipTrue, skipFalse);
            || r == (test, skipTrue, skipFalse)
            || (!test.UnknownTest? && r == (Opposite(test), skipFalse, skipTrue))
  {
  }

  lemma FarLoadDecodes(off: bv32, size: int)
    requires off > 0xffff_efff && size in {1, 2, 4}
    ensures Assemble(LoadAbsolute(off, size)).Some?
            && Disassemble(Assemble(LoadAbsolute(off, size)).value).LoadExtension?
  {
  }

  /** The preferred form has the same machine code. */
  lemma NormalEncodes(ins: Instruction)
    requires Assemble(ins).Some? && RoundTrips(ins) && !ins.RawInstruction?
    ensures Assemble(Normal(ins)) == Assemble(ins)
  {
  }
}
