/**
 The s390x property table: the base property record of every opcode the
 compiler generates. An opcode without a row gets the all-zero record,
 which the resolver treats as fatal.

 The table is written in two parts: `RowShape` gives each opcode's row as
 one of a few flag combinations, and `ShapeFlags` spells out each
 combination's flags, so that the row of an opcode is
 `ShapeFlags(RowShape(op))`.
 */
module ProgTable {
  import opened Flags
  import opened Opcodes
  import opened Obj

  /** A width class. */
  type Size = f: Flag | f in SizeClasses witness SizeQ

  /** The flag combinations the table's rows use. */
  datatype Shape =
    | PseudoSkip
    | PseudoOnly
    | PseudoRightWrite
    | PseudoLeftRead
    | BreakOnly
    | OKOnly
    | LeftReadOnly
    | LeftReadRightWrite
    | ThreeOperand(size: Size)
    | ReadBoth(size: Size)
    | ReadWrite(size: Size)
    | Convert(size: Size)
    | MoveConvert(size: Size)
    | MoveSame(size: Size)
    | StoreToAddr(size: Size)
    | LoadFromAddr(size: Size)
    | JumpBreak
    | CallOnly
    | CondJump
    | NoRow

  /** The flag word of each combination. */
  function ShapeFlags(k: Shape): FlagSet
  {
    match k
    case PseudoSkip => {Pseudo, Skip}
    case PseudoOnly => {Pseudo}
    case PseudoRightWrite => {Pseudo, RightWrite}
    case PseudoLeftRead => {Pseudo, LeftRead}
    case BreakOnly => {Break}
    case OKOnly => {OK}
    case LeftReadOnly => {LeftRead}
    case LeftReadRightWrite => {LeftRead, RightWrite}
    // From and the middle register into To, e.g. ADD
    case ThreeOperand(size) => {size, LeftRead, RegRead, RightWrite}
    // reads both operands and writes neither: compares and storage-to-storage operations
    case ReadBoth(size) => {size, LeftRead, RightRead}
    case ReadWrite(size) => {size, LeftRead, RightWrite}
    case Convert(size) => {size, LeftRead, RightWrite, Conv}
    case MoveConvert(size) => {size, LeftRead, RightWrite, Move, Conv}
    case MoveSame(size) => {size, LeftRead, RightWrite, Move}
    // reads From and writes through the address To
    case StoreToAddr(size) => {size, LeftRead, RightAddr, RightWrite}
    // reads through the address From and writes To
    case LoadFromAddr(size) => {size, LeftAddr, LeftRead, RightWrite}
    case JumpBreak => {Jump, Break}
    case CallOnly => {Call}
    case CondJump => {Cjmp}
    case NoRow => {}
  }

  /** The table proper: the row of each opcode, in the order the source lists them. */
  function RowShape(op: Opcode): Shape
  {
    match op
    case TYPE => PseudoSkip
    case TEXT => PseudoOnly
    case FUNCDATA => PseudoOnly
    case PCDATA => PseudoOnly
    case UNDEF => BreakOnly
    case USEFIELD => OKOnly
    case CHECKNIL => LeftReadOnly
    case VARDEF => PseudoRightWrite
    case VARKILL => PseudoRightWrite
    case VARLIVE => PseudoLeftRead
    // NOP also stands for the USED and SET annotations
    case NOP => LeftReadRightWrite

    case ADD => ThreeOperand(SizeQ)
    case SUB => ThreeOperand(SizeQ)
    case NEG => ThreeOperand(SizeQ)
    case AND => ThreeOperand(SizeQ)
    case OR => ThreeOperand(SizeQ)
    case XOR => ThreeOperand(SizeQ)
    case MULLD => ThreeOperand(SizeQ)
    case MULLW => ThreeOperand(SizeL)
    case MULHDU => ThreeOperand(SizeL)
    case DIVD => ThreeOperand(SizeQ)
    case DIVDU => ThreeOperand(SizeQ)
    case SLD => ThreeOperand(SizeQ)
    case SRD => ThreeOperand(SizeQ)
    case SRAD => ThreeOperand(SizeQ)
    case CMP => ReadBoth(SizeQ)
    case CMPU => ReadBoth(SizeQ)

    case FADD => ThreeOperand(SizeD)
    case FADDS => ThreeOperand(SizeF)
    case FSUB => ThreeOperand(SizeD)
    case FSUBS => ThreeOperand(SizeF)
    case FMUL => ThreeOperand(SizeD)
    case FMULS => ThreeOperand(SizeF)
    case FDIV => ThreeOperand(SizeD)
    case FDIVS => ThreeOperand(SizeF)
    case FCMPU => ReadBoth(SizeD)
    case CEBR => ReadBoth(SizeF)
    case LEDBR => Convert(SizeD)
    case LDEBR => Convert(SizeD)
    case FSQRT => ReadWrite(SizeD)

    case CEFBRA => Convert(SizeF)
    case CDFBRA => Convert(SizeD)
    case CEGBRA => Convert(SizeF)
    case CDGBRA => Convert(SizeD)
    case CFEBRA => Convert(SizeL)
    case CFDBRA => Convert(SizeL)
    case CGEBRA => Convert(SizeQ)
    case CGDBRA => Convert(SizeQ)
    case CELFBR => Convert(SizeF)
    case CDLFBR => Convert(SizeD)
    case CELGBR => Convert(SizeF)
    case CDLGBR => Convert(SizeD)
    case CLFEBR => Convert(SizeL)
    case CLFDBR => Convert(SizeL)
    case CLGEBR => Convert(SizeQ)
    case CLGDBR => Convert(SizeQ)

    case MOVB => MoveConvert(SizeB)
    case MOVBZ => MoveConvert(SizeB)
    case MOVH => MoveConvert(SizeW)
    case MOVHZ => MoveConvert(SizeW)
    case MOVW => MoveConvert(SizeL)
    case MOVWZ => MoveConvert(SizeL)
    case MOVD => MoveSame(SizeQ)
    case FMOVS => MoveConvert(SizeF)
    case FMOVD => MoveSame(SizeD)

    case MVC => ReadBoth(SizeQ)
    case CLC => ReadBoth(SizeQ)
    case XC => ReadBoth(SizeQ)
    case OC => ReadBoth(SizeQ)
    case NC => ReadBoth(SizeQ)

    case BR => JumpBreak
    case BL => CallOnly
    case BEQ => CondJump
    case BNE => CondJump
    case BGE => CondJump
    case BLT => CondJump
    case BGT => CondJump
    case BLE => CondJump
    case CMPBEQ => CondJump
    case CMPBNE => CondJump
    case CMPBGE => CondJump
    case CMPBLT => CondJump
    case CMPBGT => CondJump
    case CMPBLE => CondJump
    case CMPUBEQ => CondJump
    case CMPUBNE => CondJump
    case CMPUBGE => CondJump
    case CMPUBLT => CondJump
    case CMPUBGT => CondJump
    case CMPUBLE => CondJump

    case CLEAR => StoreToAddr(SizeQ)

    case STMG => StoreToAddr(SizeQ)
    case STMY => StoreToAddr(SizeL)
    case LMG => LoadFromAddr(SizeQ)
    case LMY => LoadFromAddr(SizeL)

    case RET => BreakOnly

    case Unlisted(_) => NoRow
  }

  /** The table row of `op`: the flag word, and no register preset. */
  function Entry(op: Opcode): (info: ProgInfo)
    ensures info.reguse == {} && info.regset == {} && info.regindex == {}
    // exhaustiveness: exactly the opcodes without a row have the zero word
    ensures info.flags == {} <==> op.Unlisted?
  {
    ProgInfo(ShapeFlags(RowShape(op)), {}, {}, {})
  }

  /** Each combination has at most one width class and none asks for post-increment addressing. */
  lemma ShapeWidths(k: Shape)
    ensures SizeCount(ShapeFlags(k)) <= 1
    ensures PostInc !in ShapeFlags(k)
  {
  }

  /** Which combinations transfer control. */
  lemma ShapeControl(k: Shape)
    ensures Break in ShapeFlags(k) <==> k.JumpBreak? || k.BreakOnly?
    ensures Jump in ShapeFlags(k) <==> k.JumpBreak?
    ensures Call in ShapeFlags(k) <==> k.CallOnly?
    ensures Cjmp in ShapeFlags(k) <==> k.CondJump?
  {
  }

  /** How the combinations that carry an instruction class access their operands. */
  lemma ShapeAccess(k: Shape)
    ensures var f := ShapeFlags(k);
      && (RegRead in f ==> LeftRead in f && RightWrite in f && RightRead !in f && SizeCount(f) == 1)
      && (Move in f || Conv in f ==> LeftRead in f && RightWrite in f && SizeCount(f) == 1)
      && (Pseudo in f ==> SizeCount(f) == 0 && RegRead !in f)
  {
  }

  /** Every row has at most one width class and none asks for post-increment addressing. */
  lemma RowWidths(op: Opcode)
    ensures SizeCount(Entry(op).flags) <= 1
    ensures PostInc !in Entry(op).flags
  {
    ShapeWidths(RowShape(op));
  }

  /** A compare reads both of its operands and writes neither. */
  lemma CompareRows(op: Opcode)
    requires IsCompare(op)
    ensures LeftRead in Entry(op).flags && RightRead in Entry(op).flags
    ensures RightWrite !in Entry(op).flags && LeftWrite !in Entry(op).flags
  {
  }

  /** Exactly BR, RET and UNDEF do not fall through. */
  lemma BreakRows(op: Opcode)
    ensures Break in Entry(op).flags <==> IsBlockEnd(op)
    ensures op.RET? || op.UNDEF? ==> Entry(op).flags == {Break}
  {
    ShapeControl(RowShape(op));
    JumpShape(op);
    BreakShape(op);
  }

  /** Exactly BR has the jump-and-break row. */
  lemma JumpShape(op: Opcode)
    ensures RowShape(op).JumpBreak? <==> op.BR?
  {
  }

  /** Exactly RET and UNDEF have the break-only row. */
  lemma BreakShape(op: Opcode)
    ensures RowShape(op).BreakOnly? <==> op.RET? || op.UNDEF?
  {
  }

  /** Exactly BR is an unconditional jump, and it does not fall through either. */
  lemma JumpRows(op: Opcode)
    ensures Jump in Entry(op).flags <==> op.BR?
    ensures op.BR? ==> Entry(op).flags == {Jump, Break}
  {
    ShapeControl(RowShape(op));
    JumpShape(op);
  }

  /** Exactly BL is a call, and its row carries nothing else. */
  lemma CallRows(op: Opcode)
    ensures Call in Entry(op).flags <==> op.BL?
    ensures Call in Entry(op).flags ==> Entry(op).flags == {Call}
  {
    ShapeControl(RowShape(op));
    assert RowShape(op).CallOnly? <==> op.BL?;
  }

  /** Exactly the conditional branches are conditional jumps, and their rows carry nothing else. */
  lemma CondBranchRows(op: Opcode)
    ensures Cjmp in Entry(op).flags <==> IsCondBranch(op)
    ensures Cjmp in Entry(op).flags ==> Entry(op).flags == {Cjmp}
  {
    ShapeControl(RowShape(op));
    assert RowShape(op).CondJump? <==> IsCondBranch(op);
  }

  /** A row that reads the middle register reads From, writes To, and has one width. */
  lemma RegReadRows(op: Opcode)
    ensures var f := Entry(op).flags;
      RegRead in f ==> LeftRead in f && RightWrite in f && RightRead !in f && SizeCount(f) == 1
  {
    ShapeAccess(RowShape(op));
  }

  /** Moves and conversions read From, write To, and have one width. */
  lemma MoveConvRows(op: Opcode)
    ensures var f := Entry(op).flags;
      Move in f || Conv in f ==> LeftRead in f && RightWrite in f && SizeCount(f) == 1
  {
    ShapeAccess(RowShape(op));
  }

  /** A pseudo-instruction has no width and no middle register. */
  lemma PseudoRows(op: Opcode)
    ensures var f := Entry(op).flags;
      Pseudo in f ==> SizeCount(f) == 0 && RegRead !in f
  {
    ShapeAccess(RowShape(op));
  }

  /** The register-range forms name their memory operand as an address. */
  lemma MultipleRows(op: Opcode)
    ensures IsLoadMultiple(op) ==> LeftAddr in Entry(op).flags && RightWrite in Entry(op).flags
    ensures IsStoreMultiple(op) ==> RightAddr in Entry(op).flags && LeftRead in Entry(op).flags
  {
  }
}
