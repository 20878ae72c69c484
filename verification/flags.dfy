/**
 The instruction property bits shared by every backend (the optimizer's
 `Pseudo`, `LeftRead`, `SizeQ`, ... constants). The source combines them as
 bits of a 32-bit word; here a flag word is a set of flags, so `|` is union,
 `&^` is difference and "the word is zero" is "the set is empty".
 */
module Flags {

  datatype Flag =
    // instruction class
    | Pseudo | OK | Skip
    // natural operand width
    | SizeB | SizeW | SizeL | SizeQ | SizeF | SizeD
    // operand access
    | LeftAddr | LeftRead | LeftWrite
    | RegRead | CanRegRead
    | RightAddr | RightRead | RightWrite
    // instruction class, continued
    | Move | Conv | Cjmp | Break | Call | Jump
    // flags that only other architectures use; no s390x entry carries them
    | SetCarry | UseCarry | KillCarry | ShiftCX | ImulAXDX
    // addressing with a side effect on the base register
    | PostInc

  type FlagSet = set<Flag>

  /** The operand-width classes. */
  const SizeClasses: FlagSet := {SizeB, SizeW, SizeL, SizeQ, SizeF, SizeD}

  /** Read-and-write of the left operand (declared by the s390x backend). */
  const LeftRdwr: FlagSet := {LeftRead, LeftWrite}

  /** Read-and-write of the right operand (declared by the s390x backend). */
  const RightRdwr: FlagSet := {RightRead, RightWrite}

  /** Number of width classes present in a flag word. */
  function SizeCount(f: FlagSet): nat
  {
    (if SizeB in f then 1 else 0) + (if SizeW in f then 1 else 0) +
    (if SizeL in f then 1 else 0) + (if SizeQ in f then 1 else 0) +
    (if SizeF in f then 1 else 0) + (if SizeD in f then 1 else 0)
  }
}
