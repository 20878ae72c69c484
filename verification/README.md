# s390x instruction properties

A Dafny model of the instruction-property classifier of the Go compiler's
s390x backend (`src/cmd/compile/internal/s390x/prog.go`). It has two parts:

- **`progtable`**, a static table from opcode to a flag word. The flags say which
  operands an instruction reads, writes or uses as an address (`LeftRead`,
  `RegRead`, `RightWrite`, `RightAddr`, ...). They give its class (`Pseudo`,
  `Jump`, `Cjmp`, `Call`, `Break`, `Move`, `Conv`, ...) and its operand width
  (`SizeB` ... `SizeD`). An opcode with no row gets the all-zero record.
- **`proginfo`**, the resolver. It copies an instruction's row and stops with
  a fatal error if the row is zero. It then refines the copy from the
  operands in four steps:
  1. `RegRead` becomes `RightRead` when there is no middle register.
  2. The named base registers of memory and address operands go into
    `Regindex`. They also go into `Regset` under post-increment addressing.
  3. `LeftRead` becomes `LeftAddr` when From is the address of a symbol.
  4. Load multiple (`LMG`, `LMY`) writes a register range. Store multiple
    (`STMG`, `STMY`) reads one.

Layout:

- `flags.dfy` (`Flags`): the flag enumeration. A flag word is a `set<Flag>`.
  It also holds the width classes and the `LeftRdwr`/`RightRdwr` pairs.
- `opcodes.dfy` (`Opcodes`): the closed opcode datatype, plus opcode families
  (compares, conditional branches, load/store multiple, block ends). An opcode
  value without a row is `Unlisted(code)`.
- `obj.dfy` (`Obj`): operands (`Addr`), instructions (`Prog`) and the
  property record (`ProgInfo`). Its three register masks are sets of
  register numbers. Register numbers are 16-bit.
- `progtable.dfy` (`ProgTable`): the table. `RowShape` gives each opcode's row
  as one of a few named flag combinations, in the source's order.
  `ShapeFlags` spells each combination out. `Entry` is the resulting row.
  Lemmas state the shape every row keeps.
- `resolver.dfy` (`Resolver`): each refinement step is a pure function with a
  contract. `Refine` composes them and `Resolve` is the whole resolver, with
  `None` for the fatal stop. `Proginfo` and its helper methods are the same
  resolver written the way the source writes it: a record updated in place,
  and 16-bit counters walking the register ranges. Each is proved equal to
  its functional counterpart.

Three facts about the table and the resolver shape the model:

- The `CLEAR` macro row is `SizeQ|LeftRead|RightAddr|RightWrite`
  (prog.go:137).
- A base register goes into `Regset` only when the instruction's own flag
  word has `PostInc` (prog.go:162, 169). No row of the table sets `PostInc`.
- A row has at most one width class. These rows have none: the
  pseudo-instructions `TYPE`, `TEXT`, `FUNCDATA`, `PCDATA`, `VARDEF`,
  `VARKILL` and `VARLIVE`; `UNDEF`, `USEFIELD`, `CHECKNIL` and `NOP`; `BR`,
  `BL` and the conditional branches; and `RET` (prog.go:28-41, 115-134, 145).

## Model

| member | source | states |
|---|---|---|
| `ProgTable.Entry` | src/cmd/compile/internal/s390x/prog.go:27-146 | A row sets only the flag word; all three register masks are empty. A row's flag word is zero exactly when the opcode has no row. |
| `ProgTable.RowWidths` | src/cmd/compile/internal/s390x/prog.go:27-146 | Every row has at most one width class, and no row carries `PostInc`. |
| `ProgTable.CompareRows` | src/cmd/compile/internal/s390x/prog.go:58-71 | `CMP`, `CMPU`, `FCMPU` and `CEBR` read both operands and write neither. |
| `ProgTable.BreakRows` | src/cmd/compile/internal/s390x/prog.go:27-146 | Exactly `BR`, `RET` and `UNDEF` carry `Break`. `RET` and `UNDEF` carry nothing else. |
| `ProgTable.JumpShape` | src/cmd/compile/internal/s390x/prog.go:115 | Exactly `BR` has the row made of `Jump` and `Break`. |
| `ProgTable.BreakShape` | src/cmd/compile/internal/s390x/prog.go:27-146 | Exactly `RET` and `UNDEF` have the `Break`-only row. |
| `ProgTable.JumpRows` | src/cmd/compile/internal/s390x/prog.go:115 | Exactly `BR` carries `Jump`, and its row is exactly `Jump` and `Break`. |
| `ProgTable.CallRows` | src/cmd/compile/internal/s390x/prog.go:116 | Exactly `BL` carries `Call`, and its row carries nothing else. |
| `ProgTable.CondBranchRows` | src/cmd/compile/internal/s390x/prog.go:117-134 | Exactly the conditional and compare-and-branch opcodes carry `Cjmp`, and their rows carry nothing else. |
| `ProgTable.RegReadRows` | src/cmd/compile/internal/s390x/prog.go:44-69 | Every row with `RegRead` also has `LeftRead` and `RightWrite`. It lacks `RightRead` and has exactly one width. |
| `ProgTable.MoveConvRows` | src/cmd/compile/internal/s390x/prog.go:72-105 | Every `Move` or `Conv` row reads From, writes To, and has exactly one width. |
| `ProgTable.PseudoRows` | src/cmd/compile/internal/s390x/prog.go:28-37 | A `Pseudo` row has no width class and no `RegRead`. |
| `ProgTable.MultipleRows` | src/cmd/compile/internal/s390x/prog.go:139-143 | Load multiple has `LeftAddr` and `RightWrite`. Store multiple has `RightAddr` and `LeftRead`. |
| `Resolver.RegRange` | src/cmd/compile/internal/s390x/prog.go:182-184 | Collecting registers upwards from `lo` while at most `hi` yields exactly the registers between them. It yields the empty set when `lo > hi`. |
| `Resolver.DegradeRegRead` | src/cmd/compile/internal/s390x/prog.go:155-158 | `RegRead` survives only with a non-zero middle register. `RightRead` is gained exactly when `RegRead` was dropped. No other flag or register changes. |
| `Resolver.CollectBaseRegs` | src/cmd/compile/internal/s390x/prog.go:160-172 | `Regindex` gains exactly the non-zero registers of From and To operands of type MEM or ADDR. `Regset` gains the same registers exactly when the flag word has `PostInc`, whatever the operand's read or write flags. Flags and `Reguse` are unchanged. |
| `Resolver.ReclassifySymAddr` | src/cmd/compile/internal/s390x/prog.go:174-177 | When From is an ADDR with a symbol and `LeftRead` is set, `LeftRead` is replaced by `LeftAddr`. Otherwise both are unchanged. No other flag or register changes. |
| `Resolver.ExpandRange` | src/cmd/compile/internal/s390x/prog.go:179-190 | Load multiple adds exactly `Reg..To.Reg` to `Regset`. Store multiple adds exactly `From.Reg..Reg` to `Reguse`. Other opcodes change nothing. |
| `Resolver.Refine` | src/cmd/compile/internal/s390x/prog.go:155-190 | States, for any base record, what each flag and each register set of the refined record is, in terms of the base record and the operands. |
| `Resolver.Resolve` | src/cmd/compile/internal/s390x/prog.go:148-153 | Resolution is fatal exactly for an opcode without a row. Otherwise the result is the row refined by the four steps. |
| `Resolver.RefineFreshRegisters` | src/cmd/compile/internal/s390x/prog.go:160-190 | Refining a record with no preset register and no `PostInc`: `Regindex` is exactly the named MEM/ADDR bases, `Regset` exactly the load-multiple range, `Reguse` exactly the store-multiple range. |
| `Resolver.ResolvedRegisters` | src/cmd/compile/internal/s390x/prog.go:150-190 | `Regindex` is exactly the named MEM/ADDR base registers. No row has `PostInc`, so `Regset` is exactly the load-multiple range and empty for every other opcode. `Reguse` is exactly the store-multiple range. |
| `Resolver.ResolvedNonEmpty` | src/cmd/compile/internal/s390x/prog.go:150-177 | For an opcode with a row, the refined flag word is never zero. |
| `Resolver.DegradeCollectCommute` | src/cmd/compile/internal/s390x/prog.go:155-190 | `DegradeRegRead` and `CollectBaseRegs` commute. With the other five pairs, the four steps give the same record in any order. |
| `Resolver.DegradeReclassifyCommute` | src/cmd/compile/internal/s390x/prog.go:155-190 | `DegradeRegRead` and `ReclassifySymAddr` commute. With the other five pairs, the four steps give the same record in any order. |
| `Resolver.DegradeExpandCommute` | src/cmd/compile/internal/s390x/prog.go:155-190 | `DegradeRegRead` and `ExpandRange` commute. With the other five pairs, the four steps give the same record in any order. |
| `Resolver.CollectReclassifyCommute` | src/cmd/compile/internal/s390x/prog.go:155-190 | `CollectBaseRegs` and `ReclassifySymAddr` commute. With the other five pairs, the four steps give the same record in any order. |
| `Resolver.CollectExpandCommute` | src/cmd/compile/internal/s390x/prog.go:155-190 | `CollectBaseRegs` and `ExpandRange` commute. With the other five pairs, the four steps give the same record in any order. |
| `Resolver.ReclassifyExpandCommute` | src/cmd/compile/internal/s390x/prog.go:155-190 | `ReclassifySymAddr` and `ExpandRange` commute. With the other five pairs, the four steps give the same record in any order. |
| `Resolver.StepsIndependent` | src/cmd/compile/internal/s390x/prog.go:155-190 | The source's order of the four steps and the reverse order give the same record. |
| `Resolver.LoadMultipleExample` | src/cmd/compile/internal/s390x/prog.go:181-184 | Load multiple with middle register 2 and To register 5 writes exactly {2, 3, 4, 5}. |
| `Resolver.StoreMultipleExample` | src/cmd/compile/internal/s390x/prog.go:186-189 | Store multiple with From register 1 and middle register 4 reads exactly {1, 2, 3, 4}. |
| `Resolver.WalkRange` | src/cmd/compile/internal/s390x/prog.go:182-184 | The 16-bit range loop adds exactly the registers `lo..hi` to the accumulated set, and its counter never wraps. |
| `Resolver.CollectBaseRegsInPlace` | src/cmd/compile/internal/s390x/prog.go:160-172 | The in-place base-register updates, operand by operand, give the same record as `CollectBaseRegs`. |
| `Resolver.ExpandRangeInPlace` | src/cmd/compile/internal/s390x/prog.go:179-190 | The switch with its two range loops gives the same record as `ExpandRange`. |
| `Resolver.RefineInPlace` | src/cmd/compile/internal/s390x/prog.go:155-190 | The in-place sequence of the four steps gives the same record as `Refine`. |
| `Resolver.Proginfo` | src/cmd/compile/internal/s390x/prog.go:148-191 | The resolver as written has the same outcome as `Resolve`, fatal stop included. |

## Left out

- The fatal error's message and the process abort are not modelled. `Resolve` returns `None` instead.
- The bit layout of the flag constants is not modelled. The constants are defined outside this file, and a flag word is a set of an enumeration.
- The bit layout of `RtoB` is not modelled, because it is defined outside this file. Register masks are sets of register numbers: `RtoB` is taken as injective. The model's sets hold every register number in a load or store range and every non-zero base, including numbers for which `RtoB` sets no bit. For example, `LMG` from register 0 puts 0 into `Regset`.
- `Obj.RegNum` excludes the int16 value 0x7FFF. As the upper end of a register range, it would make the source's 16-bit loop counter wrap around and never stop. No register has that number.
- The rest of the instruction and operand records is not modelled: offsets, symbol contents, links and positions. An operand keeps only its type, its register and whether its symbol is non-nil.
- `Opcodes.Opcode` lists only the opcodes that have rows. Every other opcode value is `Unlisted(code)`; the model does not list the architecture's unused mnemonics one by one.
- The `LeftRdwr` and `RightRdwr` constants are defined in `Flags`. No row of the table uses them, so no member states anything about them.
- The table is a package-level variable that is never written after its initialisation; `proginfo` only reads it. It is modelled as a pure function, so there is no initialisation to model.
- Downstream users of the record are not modelled: liveness, register allocation, scheduling. Neither is the assembler that builds instructions.
