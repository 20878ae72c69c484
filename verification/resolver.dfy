/**
 The property resolver: copies an opcode's table row, stops with a fatal
 error when the row is zero, and refines the copy from the instruction's
 operands in four steps.
 */
module Resolver {
  import opened Wrappers
  import opened Flags
  import opened Opcodes
  import opened Obj
  import opened ProgTable

  /** The base registers an operand contributes (none for register 0 or a non-memory operand). */
  function BaseRegs(a: Addr): set<int>
  {
    if IsMemOrAddr(a) && a.reg != 0 then {a.reg} else {}
  }

  /**
   The registers `lo`, `lo + 1`, ..., `hi`, collected upwards from `lo` as
   the source's range loops do; empty when `lo > hi`.
   */
  function RegRange(lo: int, hi: int): (s: set<int>)
    ensures forall r :: r in s <==> lo <= r <= hi
    decreases hi - lo
  {
    if lo > hi then {} else {lo} + RegRange(lo + 1, hi)
  }

  /**
   Step 1: a row that reads the middle register, on an instruction that has
   none, reads the right operand instead.
   */
  function DegradeRegRead(p: Prog, info: ProgInfo): (out: ProgInfo)
    ensures out.reguse == info.reguse && out.regset == info.regset && out.regindex == info.regindex
    ensures RegRead in out.flags <==> RegRead in info.flags && p.reg != 0
    ensures RightRead in out.flags <==> RightRead in info.flags || (RegRead in info.flags && p.reg == 0)
    ensures forall g :: g != RegRead && g != RightRead ==> (g in out.flags <==> g in info.flags)
  {
    if RegRead in info.flags && p.reg == 0 then
      info.(flags := info.flags - {RegRead} + {RightRead})
    else
      info
  }

  /**
   Step 2: the named base registers of memory and address operands are
   address registers, and, under post-increment addressing, also written.
   */
  function CollectBaseRegs(p: Prog, info: ProgInfo): (out: ProgInfo)
    ensures out.flags == info.flags && out.reguse == info.reguse
    ensures forall r :: r in out.regindex <==> r in info.regindex || IsBaseReg(p.from, r) || IsBaseReg(p.to, r)
    ensures forall r :: r in out.regset <==>
              r in info.regset || (PostInc in info.flags && (IsBaseReg(p.from, r) || IsBaseReg(p.to, r)))
  {
    var bases := BaseRegs(p.from) + BaseRegs(p.to);
    info.(regindex := info.regindex + bases,
          regset := if PostInc in info.flags then info.regset + bases else info.regset)
  }

  /**
   Step 3: a row that reads From, on an instruction whose From is the
   address of a symbol, uses that address instead of reading a value.
   */
  function ReclassifySymAddr(p: Prog, info: ProgInfo): (out: ProgInfo)
    ensures out.reguse == info.reguse && out.regset == info.regset && out.regindex == info.regindex
    ensures LeftRead in out.flags <==> LeftRead in info.flags && !IsSymAddr(p.from)
    ensures LeftAddr in out.flags <==> LeftAddr in info.flags || (LeftRead in info.flags && IsSymAddr(p.from))
    ensures forall g :: g != LeftRead && g != LeftAddr ==> (g in out.flags <==> g in info.flags)
  {
    if IsSymAddr(p.from) && LeftRead in info.flags then
      info.(flags := info.flags - {LeftRead} + {LeftAddr})
    else
      info
  }

  /**
   Step 4: load multiple writes every register from the middle register up
   to To's register; store multiple reads every register from From's
   register up to the middle register.
   */
  function ExpandRange(p: Prog, info: ProgInfo): (out: ProgInfo)
    ensures out.flags == info.flags && out.regindex == info.regindex
    ensures forall r :: r in out.regset <==> r in info.regset || (IsLoadMultiple(p.op) && p.reg <= r <= p.to.reg)
    ensures forall r :: r in out.reguse <==> r in info.reguse || (IsStoreMultiple(p.op) && p.from.reg <= r <= p.reg)
  {
    if IsLoadMultiple(p.op) then
      info.(regset := info.regset + RegRange(p.reg, p.to.reg))
    else if IsStoreMultiple(p.op) then
      info.(reguse := info.reguse + RegRange(p.from.reg, p.reg))
    else
      info
  }

  /**
   The four steps in the source's order, applied to a base record: what
   each flag and each register set of the result is, in terms of the base
   record and the operands.
   */
  function Refine(p: Prog, base: ProgInfo): (out: ProgInfo)
    ensures RegRead in out.flags <==> RegRead in base.flags && p.reg != 0
    ensures RightRead in out.flags <==> RightRead in base.flags || (RegRead in base.flags && p.reg == 0)
    ensures LeftRead in out.flags <==> LeftRead in base.flags && !IsSymAddr(p.from)
    ensures LeftAddr in out.flags <==> LeftAddr in base.flags || (LeftRead in base.flags && IsSymAddr(p.from))
    ensures forall g :: g !in {RegRead, RightRead, LeftRead, LeftAddr} ==> (g in out.flags <==> g in base.flags)
    ensures forall x :: x in out.regindex <==> x in base.regindex || IsBaseReg(p.from, x) || IsBaseReg(p.to, x)
    ensures forall x :: x in out.regset <==>
              || x in base.regset
              || (PostInc in base.flags && (IsBaseReg(p.from, x) || IsBaseReg(p.to, x)))
              || (IsLoadMultiple(p.op) && p.reg <= x <= p.to.reg)
    ensures forall x :: x in out.reguse <==> x in base.reguse || (IsStoreMultiple(p.op) && p.from.reg <= x <= p.reg)
  {
    ExpandRange(p, ReclassifySymAddr(p, CollectBaseRegs(p, DegradeRegRead(p, base))))
  }

  /**
   The resolver: the table row of `p.op` refined by the operands of `p`,
   or `None` for the fatal "unknown instruction" stop.
   */
  function Resolve(p: Prog): (r: Option<ProgInfo>)
    // fatal exactly for an opcode without a row
    ensures r.None? <==> p.op.Unlisted?
    ensures r.Some? ==> r.value == Refine(p, Entry(p.op))
  {
    var base := Entry(p.op);
    if base.flags == {} then None else Some(Refine(p, base))
  }

  /**
   Refining a record with no preset register and no post-increment: the
   register sets come from the operands alone.
   */
  lemma RefineFreshRegisters(p: Prog, base: ProgInfo)
    requires base.regindex == {} && base.regset == {} && base.reguse == {}
    requires PostInc !in base.flags
    ensures forall x :: x in Refine(p, base).regindex <==> IsBaseReg(p.from, x) || IsBaseReg(p.to, x)
    ensures forall x :: x in Refine(p, base).regset <==> IsLoadMultiple(p.op) && p.reg <= x <= p.to.reg
    ensures forall x :: x in Refine(p, base).reguse <==> IsStoreMultiple(p.op) && p.from.reg <= x <= p.reg
  {
    var out := Refine(p, base);
    forall x
      ensures x in out.regset <==> IsLoadMultiple(p.op) && p.reg <= x <= p.to.reg
    {
      assert x !in base.regset;
    }
    forall x
      ensures x in out.reguse <==> IsStoreMultiple(p.op) && p.from.reg <= x <= p.reg
    {
      assert x !in base.reguse;
    }
  }

  /**
   The register sets of a resolved record, in terms of the operands alone:
   a row presets no register and never asks for post-increment addressing.
   */
  lemma ResolvedRegisters(p: Prog)
    requires !p.op.Unlisted?
    ensures Resolve(p).Some?
    // address registers: exactly the named bases of memory and address operands
    ensures forall x :: x in Resolve(p).value.regindex <==> IsBaseReg(p.from, x) || IsBaseReg(p.to, x)
    // registers written: exactly the load-multiple range
    ensures forall x :: x in Resolve(p).value.regset <==> IsLoadMultiple(p.op) && p.reg <= x <= p.to.reg
    // registers read: exactly the store-multiple range
    ensures forall x :: x in Resolve(p).value.reguse <==> IsStoreMultiple(p.op) && p.from.reg <= x <= p.reg
  {
    var base := Entry(p.op);
    RowWidths(p.op);
    RefineFreshRegisters(p, base);
    assert Resolve(p) == Some(Refine(p, base));
  }

  /** For an opcode with a row, the resolved flag word is never zero. */
  lemma ResolvedNonEmpty(p: Prog)
    requires !p.op.Unlisted?
    ensures Resolve(p).Some? && Resolve(p).value.flags != {}
  {
  }

  // The four steps inspect only what the others leave alone: every two of
  // them commute, so the steps give the same record in any order.

  lemma DegradeCollectCommute(p: Prog, info: ProgInfo)
    ensures DegradeRegRead(p, CollectBaseRegs(p, info)) == CollectBaseRegs(p, DegradeRegRead(p, info))
  {
  }

  lemma DegradeReclassifyCommute(p: Prog, info: ProgInfo)
    ensures DegradeRegRead(p, ReclassifySymAddr(p, info)) == ReclassifySymAddr(p, DegradeRegRead(p, info))
  {
  }

  lemma DegradeExpandCommute(p: Prog, info: ProgInfo)
    ensures DegradeRegRead(p, ExpandRange(p, info)) == ExpandRange(p, DegradeRegRead(p, info))
  {
  }

  lemma CollectReclassifyCommute(p: Prog, info: ProgInfo)
    ensures CollectBaseRegs(p, ReclassifySymAddr(p, info)) == ReclassifySymAddr(p, CollectBaseRegs(p, info))
  {
  }

  lemma CollectExpandCommute(p: Prog, info: ProgInfo)
    ensures CollectBaseRegs(p, ExpandRange(p, info)) == ExpandRange(p, CollectBaseRegs(p, info))
  {
  }

  lemma ReclassifyExpandCommute(p: Prog, info: ProgInfo)
    ensures ReclassifySymAddr(p, ExpandRange(p, info)) == ExpandRange(p, ReclassifySymAddr(p, info))
  {
  }

  /** In particular, the source's order and its reverse give the same record. */
  lemma StepsIndependent(p: Prog, base: ProgInfo)
    ensures ExpandRange(p, ReclassifySymAddr(p, CollectBaseRegs(p, DegradeRegRead(p, base))))
         == DegradeRegRead(p, CollectBaseRegs(p, ReclassifySymAddr(p, ExpandRange(p, base))))
  {
  }

  /** A set holding exactly the registers `lo..lo + 3` is the display of those four. */
  lemma FourRegisters(s: set<int>, lo: int)
    requires forall x :: x in s <==> lo <= x <= lo + 3
    ensures s == {lo, lo + 1, lo + 2, lo + 3}
  {
    var d := {lo, lo + 1, lo + 2, lo + 3};
    forall x
      ensures x in s <==> x in d
    {
      assert x in d <==> lo <= x <= lo + 3;
    }
  }

  /** Load multiple from R2 up to R5 writes exactly R2, R3, R4 and R5. */
  lemma LoadMultipleExample(p: Prog)
    requires IsLoadMultiple(p.op) && p.reg == 2 && p.to.reg == 5
    ensures Resolve(p).Some? && Resolve(p).value.regset == {2, 3, 4, 5}
  {
    ResolvedRegisters(p);
    FourRegisters(Resolve(p).value.regset, 2);
  }

  /** Store multiple from R1 up to R4 reads exactly R1, R2, R3 and R4. */
  lemma StoreMultipleExample(p: Prog)
    requires IsStoreMultiple(p.op) && p.from.reg == 1 && p.reg == 4
    ensures Resolve(p).Some? && Resolve(p).value.reguse == {1, 2, 3, 4}
  {
    ResolvedRegisters(p);
    FourRegisters(Resolve(p).value.reguse, 1);
  }

  /**
   The source's range loop: a 16-bit counter from `lo` while it is at most
   `hi`, adding each register to `acc`. Since `hi` is below the largest
   int16, the counter never wraps.
   */
  method WalkRange(lo: RegNum, hi: RegNum, acc: set<int>) returns (out: set<int>)
    ensures forall x :: x in out <==> x in acc || lo <= x <= hi
  {
    out := acc;
    var x: Int16 := lo;
    while x <= hi
      invariant lo <= x && (x <= hi + 1 || x == lo)
      invariant forall y :: y in out <==> y in acc || lo <= y < x
      decreases hi - x
    {
      out := out + {x};
      x := x + 1;
    }
  }

  /** Step 2 as the source writes it: one operand after the other. */
  method CollectBaseRegsInPlace(p: Prog, before: ProgInfo) returns (info: ProgInfo)
    ensures info == CollectBaseRegs(p, before)
  {
    info := before;
    if IsMemOrAddr(p.from) && p.from.reg != 0 {
      info := info.(regindex := info.regindex + {p.from.reg});
      if PostInc in info.flags {
        info := info.(regset := info.regset + {p.from.reg});
      }
    }
    if IsMemOrAddr(p.to) && p.to.reg != 0 {
      info := info.(regindex := info.regindex + {p.to.reg});
      if PostInc in info.flags {
        info := info.(regset := info.regset + {p.to.reg});
      }
    }
  }

  /** Step 4 as the source writes it: a range loop for the load- and store-multiple forms. */
  method ExpandRangeInPlace(p: Prog, before: ProgInfo) returns (info: ProgInfo)
    ensures info == ExpandRange(p, before)
  {
    info := before;
    if IsLoadMultiple(p.op) {
      var regset := WalkRange(p.reg, p.to.reg, info.regset);
      assert regset == before.regset + RegRange(p.reg, p.to.reg);
      info := info.(regset := regset);
    } else if IsStoreMultiple(p.op) {
      var reguse := WalkRange(p.from.reg, p.reg, info.reguse);
      assert reguse == before.reguse + RegRange(p.from.reg, p.reg);
      info := info.(reguse := reguse);
    }
  }

  /**
   The four steps written as the source writes them: the copy of a row
   updated in place, one step after the other.
   */
  method RefineInPlace(p: Prog, base: ProgInfo) returns (info: ProgInfo)
    ensures info == Refine(p, base)
  {
    info := base;
    if RegRead in info.flags && p.reg == 0 {
      info := info.(flags := info.flags - {RegRead} + {RightRead});
    }
    info := CollectBaseRegsInPlace(p, info);
    if IsSymAddr(p.from) && LeftRead in info.flags {
      info := info.(flags := info.flags - {LeftRead} + {LeftAddr});
    }
    info := ExpandRangeInPlace(p, info);
  }

  /** The resolver as the source writes it: copy the row, stop on a zero row, refine. */
  method Proginfo(p: Prog) returns (r: Option<ProgInfo>)
    ensures r == Resolve(p)
  {
    var info := Entry(p.op);
    if info.flags == {} {
      return None;
    }
    info := RefineInPlace(p, info);
    return Some(info);
  }
}
