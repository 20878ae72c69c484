/**
 The part of the object-file layer's instruction record the resolver looks
 at: the opcode, the middle register, and for each of the two operands its
 addressing type, its register and whether it names a symbol; and the
 property record the resolver fills in.
 */
module Obj {
  import opened Flags
  import opened Opcodes

  /** The source keeps register numbers in a signed 16-bit field. */
  type Int16 = x: int | -0x8000 <= x < 0x8000

  /**
   A register number: an int16 other than its largest value 0x7FFF. As the
   upper end of a register range that value would make the source's 16-bit
   loop counter wrap around and never stop; no register has that number.
   */
  type RegNum = x: int | -0x8000 <= x < 0x7FFF

  /** The operand addressing types of the object-file layer. */
  datatype AddrType =
    | TypeNone | TypeBranch | TypeTextSize | TypeMem | TypeConst | TypeFConst
    | TypeSConst | TypeReg | TypeAddr | TypeShift | TypeRegReg | TypeRegReg2
    | TypeIndir | TypeRegList

  /** An operand; `hasSym` says whether its symbol pointer is non-nil. */
  datatype Addr = Addr(kind: AddrType, reg: RegNum, hasSym: bool)

  /** An instruction: opcode, middle register (0 when absent), From and To operands. */
  datatype Prog = Prog(op: Opcode, reg: RegNum, from: Addr, to: Addr)

  /**
   The property record: the flag word and three register sets (registers
   read, registers written, registers used to form addresses). A register
   set holds register numbers; the source's one-bit-per-register masks are
   its encoding.
   */
  datatype ProgInfo = ProgInfo(flags: FlagSet, reguse: set<int>, regset: set<int>, regindex: set<int>)

  /** A memory reference or an address computation, whose register is a base. */
  predicate IsMemOrAddr(a: Addr)
  {
    a.kind == TypeMem || a.kind == TypeAddr
  }

  /** The address of a symbol. */
  predicate IsSymAddr(a: Addr)
  {
    a.kind == TypeAddr && a.hasSym
  }

  /** `r` is the named (non-zero) base register of a memory or address operand. */
  predicate IsBaseReg(a: Addr, r: int)
  {
    IsMemOrAddr(a) && a.reg != 0 && r == a.reg
  }
}
