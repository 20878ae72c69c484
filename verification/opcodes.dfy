/**
 The opcodes the s390x backend hands to the property table: the portable
 pseudo-instructions of the object-file layer followed by the s390x
 mnemonics, in the order of the table. Every other opcode value of the
 architecture (those the compiler never generates) is `Unlisted`.
 */
module Opcodes {

  datatype Opcode =
    // portable pseudo-instructions
    | TYPE | TEXT | FUNCDATA | PCDATA | UNDEF | USEFIELD | CHECKNIL
    | VARDEF | VARKILL | VARLIVE | NOP
    // integer
    | ADD | SUB | NEG | AND | OR | XOR | MULLD | MULLW | MULHDU
    | DIVD | DIVDU | SLD | SRD | SRAD | CMP | CMPU
    // floating point
    | FADD | FADDS | FSUB | FSUBS | FMUL | FMULS | FDIV | FDIVS
    | FCMPU | CEBR | LEDBR | LDEBR | FSQRT
    // conversions
    | CEFBRA | CDFBRA | CEGBRA | CDGBRA | CFEBRA | CFDBRA | CGEBRA | CGDBRA
    | CELFBR | CDLFBR | CELGBR | CDLGBR | CLFEBR | CLFDBR | CLGEBR | CLGDBR
    // moves
    | MOVB | MOVBZ | MOVH | MOVHZ | MOVW | MOVWZ | MOVD | FMOVS | FMOVD
    // storage-to-storage operations
    | MVC | CLC | XC | OC | NC
    // jumps
    | BR | BL | BEQ | BNE | BGE | BLT | BGT | BLE
    | CMPBEQ | CMPBNE | CMPBGE | CMPBLT | CMPBGT | CMPBLE
    | CMPUBEQ | CMPUBNE | CMPUBGE | CMPUBLT | CMPUBGT | CMPUBLE
    // macros
    | CLEAR
    // load/store multiple
    | STMG | STMY | LMG | LMY
    // portable return
    | RET
    // any opcode value without a row in the table
    | Unlisted(code: int)

  /** The load-multiple forms: they write a range of registers. */
  predicate IsLoadMultiple(op: Opcode)
  {
    match op
    case LMG | LMY => true
    case _ => false
  }

  /** The store-multiple forms: they read a range of registers. */
  predicate IsStoreMultiple(op: Opcode)
  {
    match op
    case STMG | STMY => true
    case _ => false
  }

  /** The compare instructions (integer, unsigned, and both float widths). */
  predicate IsCompare(op: Opcode)
  {
    match op
    case CMP | CMPU | FCMPU | CEBR => true
    case _ => false
  }

  /** The instructions after which control does not fall through. */
  predicate IsBlockEnd(op: Opcode)
  {
    match op
    case BR | RET | UNDEF => true
    case _ => false
  }

  /** The conditional branches, including compare-and-branch. */
  predicate IsCondBranch(op: Opcode)
  {
    match op
    case BEQ | BNE | BGE | BLT | BGT | BLE => true
    case CMPBEQ | CMPBNE | CMPBGE | CMPBLT | CMPBGT | CMPBLE => true
    case CMPUBEQ | CMPUBNE | CMPUBGE | CMPUBLT | CMPUBGT | CMPUBLE => true
    case _ => false
  }
}
