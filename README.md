# Thunder interrupt core, modelled in Dafny

This project models the interrupt core of the Thunder x86_64 kernel (Rust) and proves properties of the model. It has five modules, one per source file.

- `Idt` (`idt.dfy`) models `src/kernel/arch/x86/interrupts/idt.rs`:
  - 16-byte gate descriptors (`Entry`) and their masked read-modify-write setters;
  - the 31-slot `InterruptDescriptorTable`, modelled as a class over an array that its methods update slot by slot;
  - the limit/base operand that `load` hands to `lidt`;
  - the boot-time `IDT` block, which registers handlers on vectors 0-8, 10-14, 16, 17, 19, 20 and 30.
- `PageFault` (`page_fault.dfy`) models `src/kernel/arch/x86/interrupts/page_fault.rs`:
  - the decoder `PageFaultBuilder::build`, which maps a page-fault error code and the CR2 address to a `PageFault` record;
  - the `AccessMode` and `PageFaultErrorCode` enums, with their discriminants and `name()` strings.
- `Registers` (`registers.dfy`) models `src/kernel/arch/x86/registers.rs`:
  - the packed `StackFrame` of 20 machine words and the named offset of each register;
  - each `dump`, as the list of lines it prints;
  - the `{:016x}` rendering, proved to round-trip.
- `LegacyIdt` (`legacy_idt.dfy`) models `src/kernel/interupts/idt.rs`:
  - the earlier 16-slot table, whose IST and attribute bytes are bit-field records;
  - `init`, `set_handler`, `enable_interrupts`, `disable_interrupts` and `set_presentation`, as in-place methods on a class.
- `Print` (`print.dfy`) models `src/kernel/lib/print.rs`:
  - the VGA text `Writer`: a cursor column and a two-dimensional character buffer;
  - `write_byte`, `write_str`, `new_line` and `clear_row` as methods; `write_str`, `new_line` and `clear_row` keep the source's loops;
  - specifications of those methods as functions on a screen value.

Field values are bit-vectors (`u8` = `bv8`, up to `u64`/`usize` = `bv64`): the descriptor fields of both tables, the page-fault error code and address, and the bytes the writer prints. Every `as u16` / `as u32` truncation is written out as a mask. Four kinds of integer are natural numbers instead:

- a `Registers` word is a natural number below 2^64, which is what its hexadecimal rendering needs;
- table indices (`entry: usize` in the current table, `entry: u8` in the legacy one) are `nat`, bounded by a precondition;
- the writer's `column_position` (`usize`) is a `nat`, kept at most the row width by the writer's invariant;
- the legacy table's `modular_bitfield` fields (`B1`, `B2`, `B3`, `B5`) are natural numbers below 2, 4, 8 and 32.

An index past the end of a table makes the Rust code panic on the bounds check. The model turns that into a precondition (`entry < 31`, `entry < 16`, `row < height`); "## Left out" names the methods.

Some behaviours of the code worth knowing, each modelled as written. The page-fault error-code layout referred to is that of the Intel 64 and IA-32 Architectures Software Developer's Manual, Volume 3A, section 4.7 (bit 0 P, bit 1 W/R, bit 2 U/S, bit 3 RSVD, bit 4 I/D).

- **Page-fault error code `0x2`** decodes to `NonPresentWrite`, because bit 0 (P) is clear (`PageFault.SupervisorWriteNotPresent`).
- **User mode** is never reported, because bit 2 is masked with 0x4 and then compared with 1 (see Findings).
- **The current IDT** has 31 slots, so `load` computes a limit of 31*16-1 = 495 (`Idt.InterruptDescriptorTable.Load`).
- **`set_attributes`** writes bits 0-3 and 5-7 and leaves bit 4 as it was (`Idt.Entry.SetAttributes`).
- **`set_interrupt_stack_table(n)`** ORs all of `n` into the byte after clearing only the low 3 bits, so for `n >= 8` the upper bits change too. `Idt.Entry.SetInterruptStackTable` states both cases.

## Model

| member | source | states |
|---|---|---|
| Idt.PrivilegeLevel.Bits | src/kernel/arch/x86/interrupts/idt.rs:24-31 | the `#[repr(u8)]` value is below 4, and it is 0 exactly for Ring0 |
| Idt.PrivilegeLevelBitsDistinct | src/kernel/arch/x86/interrupts/idt.rs:24-31 | two privilege levels have the same value exactly when they are the same level |
| Idt.GateType.Bits | src/kernel/arch/x86/interrupts/idt.rs:33-36 | the value fits in the low nibble (0xE or 0xF), and bit 0 is set exactly for a trap gate |
| Idt.Attributes.New | src/kernel/arch/x86/interrupts/idt.rs:62-70 | the default attributes describe a present, ring-0 interrupt gate (0xE) |
| Idt.Entry.New | src/kernel/arch/x86/interrupts/idt.rs:84-95 | a new entry has handler address 0, selector 0, IST 0, reserved 0 and attribute byte 0, so it is not present; its packed image is 16 zero bytes |
| Idt.Entry.Bytes | src/kernel/arch/x86/interrupts/idt.rs:72-82 | the `#[repr(C, packed)]` image is exactly 16 bytes, with each field little-endian at its declaration-order offset: offset bits 15..0 at bytes 0-1, the selector at 2-3, IST at 4, attributes at 5, offset bits 31..16 at 6-7, offset bits 63..32 at 8-11, reserved at 12-15 |
| Idt.EntryBytesRoundTrip | src/kernel/arch/x86/interrupts/idt.rs:72-82 | an entry reads back from its 16-byte image, and any 16 bytes are the image of the entry read from them |
| Idt.FromLe16 | src/kernel/arch/x86/interrupts/idt.rs:72-82 | two bytes decode little-endian: the first is bits 7..0 of the value and the second bits 15..8 |
| Idt.FromLe32 | src/kernel/arch/x86/interrupts/idt.rs:72-82 | four bytes decode little-endian: byte k is bits 8k+7..8k of the value |
| Idt.Entry.SetInterruptStackTable | src/kernel/arch/x86/interrupts/idt.rs:97-99 | only `ist` changes; its low 3 bits become those of `n`; its upper 5 bits become the old ones ORed with `n`'s, so they are kept when `n < 8` |
| Idt.Entry.SetHandler | src/kernel/arch/x86/interrupts/idt.rs:101-108 | the selector is stored; low = ptr mod 2^16, middle = (ptr >> 16) mod 2^16, high = ptr >> 32; the reassembled address equals `ptr`; IST, attributes and reserved are unchanged |
| Idt.Entry.SetAttributes | src/kernel/arch/x86/interrupts/idt.rs:111-115 | only the attribute byte changes: `present` goes to bit 7, the privilege level to bits 5-6, the gate type to bits 0-3, and bit 4 keeps its old value |
| Idt.SetAttributesInjective | src/kernel/arch/x86/interrupts/idt.rs:111-115 | on the same entry, two attribute values give the same attribute byte exactly when they are equal, so the byte determines present, privilege level and gate type |
| Idt.SetAttributesIdempotent | src/kernel/arch/x86/interrupts/idt.rs:111-115 | writing the same attributes twice gives the same entry as writing them once |
| Idt.DefaultAttributesByte | src/kernel/arch/x86/interrupts/idt.rs:62-70 | `Attributes::new()` written into a zeroed entry gives attribute byte 0x8E |
| Idt.AttributesIndependent | src/kernel/arch/x86/interrupts/idt.rs:111-115 | flipping `present` changes bit 7 and leaves the other seven bits as they were |
| Idt.Registered | src/kernel/arch/x86/interrupts/idt.rs:142-146 | after `register_handler`, the slot holds the handler address and selector, attribute byte (old bit 4) or 0x8E, the old IST upper bits with low bits 0, and the old reserved field |
| Idt.InterruptDescriptorTable.constructor | src/kernel/arch/x86/interrupts/idt.rs:130-132 | a new table has 31 slots, each `Entry::new()` |
| Idt.InterruptDescriptorTable.DisableInterrupts | src/kernel/arch/x86/interrupts/idt.rs:134-136 | the gate-type nibble of the slot becomes 0xF; its high nibble, its other fields and every other slot are unchanged |
| Idt.InterruptDescriptorTable.EnableInterrupts | src/kernel/arch/x86/interrupts/idt.rs:138-140 | the gate-type nibble of the slot becomes 0xE; its high nibble, its other fields and every other slot are unchanged |
| Idt.InterruptDescriptorTable.RegisterHandler | src/kernel/arch/x86/interrupts/idt.rs:142-146 | the table becomes the old table with only slot `entry` replaced by `Registered` of its old value |
| Idt.InterruptDescriptorTable.SetPresentation | src/kernel/arch/x86/interrupts/idt.rs:148-150 | bit 7 of the slot's attributes becomes `value`; the other seven bits, the other fields and every other slot are unchanged |
| Idt.InterruptDescriptorTable.Load | src/kernel/arch/x86/interrupts/idt.rs:119-128 | the limit is the table's byte size (31 slots of `ENTRY_SIZE` bytes, the size `Entry.Bytes` fills) minus one, which is 495, and the base is the table's address |
| Idt.BootVectorRanges | src/kernel/arch/x86/interrupts/idt.rs:157-179 | the range test used by the proofs agrees with the set of vectors the boot block registers |
| Idt.BootSlotShape | src/kernel/arch/x86/interrupts/idt.rs:153-182 | after the boot block, a slot is present exactly when its vector was registered; a registered slot has attributes 0x8E, IST 0, its handler's address and the code selector; every other slot is still `Entry::new()` |
| Idt.ReservedVectorsEmpty | src/kernel/arch/x86/interrupts/idt.rs:166-178 | among vectors 0-30, the unregistered ones are exactly 9, 15, 18 and 21-29 |
| Idt.BootUpToSlots | src/kernel/arch/x86/interrupts/idt.rs:155-179 | after registering every boot vector below `n`, each slot below `n` is its boot-time entry and each slot from `n` up is still `Entry::new()` |
| Idt.BootUpToStep | src/kernel/arch/x86/interrupts/idt.rs:142-146 | registering boot vector `v` in a table holding every registration below `v` gives the table holding every registration up to `v` |
| Idt.BootUpToSkips | src/kernel/arch/x86/interrupts/idt.rs:166-178 | the vectors the block skips change nothing |
| Idt.BootRegister0To8 | src/kernel/arch/x86/interrupts/idt.rs:157-165 | the calls for vectors 0-8 register all boot vectors below 9 |
| Idt.BootRegister10To14 | src/kernel/arch/x86/interrupts/idt.rs:167-171 | the calls for vectors 10-14 extend this to every boot vector below 15 |
| Idt.BootRegister16To17 | src/kernel/arch/x86/interrupts/idt.rs:173-174 | the calls for vectors 16 and 17 extend this to every boot vector below 18 |
| Idt.BootRegister19To20 | src/kernel/arch/x86/interrupts/idt.rs:176-177 | the calls for vectors 19 and 20 extend this to every boot vector below 21 |
| Idt.BootRegister30 | src/kernel/arch/x86/interrupts/idt.rs:179 | the call for vector 30 completes the registration of every boot vector |
| Idt.BuildBootTable | src/kernel/arch/x86/interrupts/idt.rs:153-182 | the table built by the boot block has, in every slot, the entry `BootSlot` describes |
| PageFault.AccessMode.Discriminant | src/kernel/arch/x86/interrupts/page_fault.rs:6-12 | the discriminant is at most 2, and it is 0 exactly for Supervisor |
| PageFault.AccessModeDiscriminantsDistinct | src/kernel/arch/x86/interrupts/page_fault.rs:6-12 | two access modes have the same discriminant exactly when they are the same variant |
| PageFault.AccessMode.Name | src/kernel/arch/x86/interrupts/page_fault.rs:6-12 | `name()` is a non-empty identifier that starts with a capital letter |
| PageFault.PageFaultErrorCode.Discriminant | src/kernel/arch/x86/interrupts/page_fault.rs:14-22 | the discriminant is at most 4, and it is 4 exactly for Unknown |
| PageFault.PageFaultErrorCode.Name | src/kernel/arch/x86/interrupts/page_fault.rs:14-22 | `name()` is a non-empty identifier that starts with a capital letter |
| PageFault.Build | src/kernel/arch/x86/interrupts/page_fault.rs:61-83 | `addr` is the CR2 value; the description is never Unknown, is a protection violation exactly when bit 0 is set, and is a write exactly when bit 1 is set; the access mode is never User, and is Supervisor exactly when bit 2 is clear and Unknown exactly when it is set; the fetch flag is bit 4; `reserved` holds exactly when bit 0 or bit 3 is set |
| PageFault.ErrorCodeIsLowBits | src/kernel/arch/x86/interrupts/page_fault.rs:62-68 | the decoded description's discriminant equals `code & 3` |
| PageFault.EveryKnownErrorCodeReached | src/kernel/arch/x86/interrupts/page_fault.rs:62-68 | every description other than Unknown is produced, by the code equal to its discriminant |
| PageFault.OnlyLowBitsMatter | src/kernel/arch/x86/interrupts/page_fault.rs:61-83 | two codes that agree on bits 0-4 decode to the same record, apart from `addr` |
| PageFault.AddrIndependentOfCode | src/kernel/arch/x86/interrupts/page_fault.rs:76-82 | the address is the same whatever the code |
| PageFault.SupervisorWriteNotPresent | src/kernel/arch/x86/interrupts/page_fault.rs:62-80 | code 0x2 decodes to NonPresentWrite, Supervisor, no instruction fetch, not reserved |
| PageFault.AccessModeNamesDistinct | src/kernel/lib/enum_utils.rs:9-13 | two access modes have the same `name()` exactly when they are the same variant |
| PageFault.ErrorCodeNamesDistinct | src/kernel/lib/enum_utils.rs:9-13 | two error-code descriptions have the same `name()` exactly when they are the same variant |
| PageFault.NamesAreIdentifiers | src/kernel/lib/enum_utils.rs:9-13 | `name()` spells the variant's identifier, e.g. "NonPresentWrite"; both Unknown variants are "Unknown" |
| PageFault.UserFaultReportedUnknown | src/kernel/arch/x86/interrupts/page_fault.rs:70-74 | the code 0x4 of a user-mode fault decodes to access mode Unknown as written, and to User with the corrected decoder |
| PageFault.ProtectionViolationReportedReserved | src/kernel/arch/x86/interrupts/page_fault.rs:80 | code 0x1 (protection violation, bit 3 clear) is flagged reserved as written, and is not flagged reserved with the corrected decoder |
| PageFault.BuildCorrected | src/kernel/arch/x86/interrupts/page_fault.rs:70-80 | the access mode is User exactly when bit 2 is set and is never Unknown; `reserved` is exactly bit 3; the other fields are those of `build` |
| PageFault.CorrectedAccessModeIsBit2 | src/kernel/arch/x86/interrupts/page_fault.rs:70-74 | with the corrected decoder, the access mode's discriminant is bit 2 of the code |
| Registers.Hex | src/kernel/arch/x86/registers.rs:19 | `{:016x}` renders exactly `n` characters, each a lowercase hexadecimal digit |
| Registers.DigitRoundTrip | src/kernel/arch/x86/registers.rs:19 | a digit value and its lowercase character convert into each other |
| Registers.ParseHexOfHex | src/kernel/arch/x86/registers.rs:19 | a value below 16^n, rendered in n digits, parses back to itself |
| Registers.HexOfParseHex | src/kernel/arch/x86/registers.rs:19 | a string of lowercase hexadecimal digits, parsed and rendered at its own length, gives the same string |
| Registers.WordRoundTrip | src/kernel/arch/x86/registers.rs:19 | every 64-bit word fits in 16 digits and parses back from them |
| Registers.Line | src/kernel/arch/x86/registers.rs:19 | a dump line is its label followed by 21 characters: "= 0x", 16 digits and a space |
| Registers.LineRoundTrip | src/kernel/arch/x86/registers.rs:19 | a dump line is well formed, and its label and value read back as the ones it was printed from |
| Registers.ScratchRegisters.Words | src/kernel/arch/x86/registers.rs:4-15 | the scratch block is 9 words, in declaration order |
| Registers.ScratchRegisters.Dump | src/kernel/arch/x86/registers.rs:18-28 | the scratch dump prints 9 lines |
| Registers.ScratchDumpOrder | src/kernel/arch/x86/registers.rs:18-28 | the scratch dump prints RAX, RCX, RDX, RDI, RSI, R8, R9, R10, R11; its values are the block's words in reverse memory order |
| Registers.PreservedRegisters.Words | src/kernel/arch/x86/registers.rs:31-40 | the preserved block is 6 words, in declaration order |
| Registers.PreservedRegisters.Dump | src/kernel/arch/x86/registers.rs:43-50 | the preserved dump prints 6 lines |
| Registers.PreservedDumpOrder | src/kernel/arch/x86/registers.rs:43-50 | the preserved dump prints RBX, RBP, R12, R13, R14, R15; its values are the block's words in reverse memory order |
| Registers.IretRegisters.Words | src/kernel/arch/x86/registers.rs:53-61 | the iret block is 5 words, in declaration order |
| Registers.IretRegisters.Dump | src/kernel/arch/x86/registers.rs:64-70 | the iret dump prints 5 lines |
| Registers.IretDumpOrder | src/kernel/arch/x86/registers.rs:64-70 | the iret dump prints the labels "RFLAG ", "CS    ", "RIP   ", "RSP   ", "SS    ", with the values of rflags, cs, rip, rsp and ss |
| Registers.StackFrame.Words | src/kernel/arch/x86/registers.rs:73-79 | the packed frame is 20 words: preserved at words 0-5, scratch at 6-14, iret at 15-19 |
| Registers.StackFrame.Dump | src/kernel/arch/x86/registers.rs:81-86 | the frame dump prints 20 lines |
| Registers.FromWords | src/kernel/arch/x86/registers.rs:73-79 | reading 20 words as a frame and laying the frame out again gives the same words |
| Registers.FrameRoundTrip | src/kernel/arch/x86/registers.rs:73-79 | laying a frame out as words and reading them back gives the same frame |
| Registers.Reg.Index | src/kernel/arch/x86/registers.rs:73-79 | every register sits at one of the 20 word positions |
| Registers.Reg.DumpPosition | src/kernel/arch/x86/registers.rs:81-86 | every register is printed on one of the 20 lines |
| Registers.RegAt | src/kernel/arch/x86/registers.rs:73-79 | the register at word position `i` has index `i` |
| Registers.RegisterAtIndex | src/kernel/arch/x86/registers.rs:73-79 | the frame's word at a register's index is that register's value |
| Registers.RegAtIndex | src/kernel/arch/x86/registers.rs:73-79 | the register at a register's own word position is that register |
| Registers.IndexIsBijective | src/kernel/arch/x86/registers.rs:73-79 | two registers share a word position exactly when they are the same register |
| Registers.FrameOffsets | src/kernel/arch/x86/registers.rs:73-79 | `scratch.r11` is at byte 48, `scratch.rax` at 112, `iret.rip` at 120, and the frame is 160 bytes |
| Registers.DumpOrderAtPosition | src/kernel/arch/x86/registers.rs:81-86 | the dump's 20-entry order names every register, at its dump position |
| Registers.DumpOrderIsPermutation | src/kernel/arch/x86/registers.rs:81-86 | two registers are printed on the same line exactly when they are the same register |
| Registers.FrameDumpOrder | src/kernel/arch/x86/registers.rs:81-86 | the frame dump prints the scratch values (reversed), then the preserved values (reversed), then rflags, cs, rip, rsp and ss |
| Registers.DumpLineOfRegister | src/kernel/arch/x86/registers.rs:81-86 | each register's value is printed on the line its dump position names |
| Registers.DefaultIsZero | src/kernel/arch/x86/registers.rs:73-79 | `Default` is 20 zero words, and every line of its dump prints 0 |
| LegacyIdt.PrivilegeLevel.Value | src/kernel/interupts/idt.rs:10-17 | the `#[repr(u8)]` value is 0 exactly for Ring0 |
| LegacyIdt.PrivilegeLevelValuesDistinct | src/kernel/interupts/idt.rs:10-17 | two privilege levels have the same value exactly when they are the same level |
| LegacyIdt.Entry.New | src/kernel/interupts/idt.rs:46-58 | low = ptr mod 2^16, middle = (ptr >> 16) mod 2^16, high = ptr >> 32, so the address round-trips; the selector, IST and attributes are those given; reserved is 0 |
| LegacyIdt.Entry.WithHandler | src/kernel/interupts/idt.rs:84-91 | the selector and the address change, and the address round-trips; the IST, attributes and reserved field are as before |
| LegacyIdt.Entry.WithGateType | src/kernel/interupts/idt.rs:76-82 | `gate_type` takes the new value; every other attribute field and every other entry field are unchanged |
| LegacyIdt.Entry.WithPresent | src/kernel/interupts/idt.rs:93-95 | `present` takes the new value; every other attribute field and every other entry field are unchanged |
| LegacyIdt.BoolBit | src/kernel/interupts/idt.rs:93-95 | `value as u8` is 1 exactly when `value` holds |
| LegacyIdt.InitEntry | src/kernel/interupts/idt.rs:62-73 | `init` stores the handler address and code selector; IST offset 0 and unused 0; gate type 1, unused_one 1, unused_zero 0, privilege 0, present 1; reserved 0 |
| LegacyIdt.SettersIdempotent | src/kernel/interupts/idt.rs:76-95 | setting the gate type, the presence or the handler twice is the same as setting it once |
| LegacyIdt.EnableUndoesDisable | src/kernel/interupts/idt.rs:76-82 | disabling then enabling a slot that `init` filled restores it |
| LegacyIdt.SettersCommute | src/kernel/interupts/idt.rs:76-95 | the gate-type, presence and handler setters touch disjoint fields, so their order does not matter |
| LegacyIdt.Idt.constructor | src/kernel/interupts/idt.rs:8 | the tuple struct holds exactly the 16 entries it is built from |
| LegacyIdt.Idt.Init | src/kernel/interupts/idt.rs:62-74 | slot `entry` becomes `InitEntry` of the handler; every other slot is unchanged |
| LegacyIdt.Idt.DisableInterrupts | src/kernel/interupts/idt.rs:76-78 | only the gate type of slot `entry` changes, to 0 |
| LegacyIdt.Idt.EnableInterrupts | src/kernel/interupts/idt.rs:80-82 | only the gate type of slot `entry` changes, to 1 |
| LegacyIdt.Idt.SetHandler | src/kernel/interupts/idt.rs:84-91 | only the selector and address of slot `entry` change; the address round-trips |
| LegacyIdt.Idt.SetPresentation | src/kernel/interupts/idt.rs:93-95 | only the `present` field of slot `entry` changes, to `value as u8` |
| Print.BlankRow | src/kernel/lib/print.rs:65-68 | a blank row is `width` spaces in the given colour |
| Print.WriteByteSpec | src/kernel/lib/print.rs:22-42 | `write_byte` keeps the invariant: the grid keeps its shape and the column stays at most the width |
| Print.Sanitize | src/kernel/lib/print.rs:44-51 | a byte passes through unchanged exactly when it is 0x20-0x7e, a newline or already 0xfe; any other byte becomes 0xfe |
| Print.WriteStrSpec | src/kernel/lib/print.rs:44-51 | `write_str` keeps the same invariant |
| Print.ScrollMovesRowsUp | src/kernel/lib/print.rs:53-62 | after `new_line`, new row r-1 is old row r for 1 <= r < height, old row 0 is gone, and the last row is blank |
| Print.ClearTouchesOneRow | src/kernel/lib/print.rs:64-72 | `clear_row(r)` makes every cell of row r a space in the writer's colour and changes no other row |
| Print.NewlineResetsColumn | src/kernel/lib/print.rs:22-24 | writing `\n` scrolls and sets the column to 0, and does nothing else |
| Print.WriteWithoutWrap | src/kernel/lib/print.rs:30-39 | a non-newline byte with the column below the width changes only the cell at (last row, column) to (byte, colour), and advances the column by one |
| Print.WriteWithWrap | src/kernel/lib/print.rs:25-39 | a non-newline byte on a full row scrolls first, then lands in column 0 of the last row, leaving the column at 1 |
| Print.WriteStrAppend | src/kernel/lib/print.rs:44-51 | writing `a` then `b` leaves the same state as writing `a + b` |
| Print.WriteStrFits | src/kernel/lib/print.rs:44-51 | newline-free text that fits on the last row appears there one cell per byte, sanitized, starting at the column; the column advances by its length; nothing else changes |
| Print.Writer.constructor | src/kernel/lib/print.rs:12-17 | the writer starts at column 0 with the given colour and buffer |
| Print.Writer.ClearRow | src/kernel/lib/print.rs:64-72 | the buffer becomes `Cleared` of its old contents |
| Print.Writer.NewLine | src/kernel/lib/print.rs:53-62 | the buffer becomes `Scrolled` of its old contents, and the column becomes 0 |
| Print.Writer.WriteByte | src/kernel/lib/print.rs:22-42 | the new screen and column are `WriteByteSpec` of the old ones, and the invariant column <= width holds |
| Print.Writer.WriteStr | src/kernel/lib/print.rs:44-51 | the new screen and column are `WriteStrSpec` of the old ones and the bytes |
| Print.Writer.FmtWriteStr | src/kernel/lib/print.rs:75-80 | the `fmt::Write` wrapper always returns `Ok`, and its effect is that of `write_str` |

## Left out

- `src/kernel/arch/x86/interrupts/exception.rs`: the naked-assembly trampoline and the halting `loop {}`. These are about the hardware calling convention and cannot be expressed in Dafny.
- The `interrupt_error!`, `interrupt_error_with_code!` and `save_*`/`restore_*` macros: their definitions are not part of this model. Each handler they produce is an opaque 64-bit address, `handlers[v]` in `Idt.BuildBootTable`.
- The `lidt` instruction in `load_idt` and the CR2 read in `PageFault::get_addr`: hardware instructions. `load` is modelled up to the operand it builds, and CR2 is a parameter of `PageFault.Build`.
- `CS::get_reg()` and `SegmentSelector` (from the `x86_64` crate): the code selector is an opaque 16-bit parameter `cs`.
- `Idt.InterruptDescriptorTable.Load`: the base is the table's address, which a Dafny object does not have. It is passed in as `base`.
- `Idt.Entry.SetInterruptStackTable`, `SetHandler` and `SetAttributes`: in the source these mutate a `Copy` entry through `&mut self`. The model writes them as functions returning the updated entry, and the table's methods store the result back into the array slot.
- The `modular_bitfield` bit placement of the legacy `InterruptStackTable` and `Attributes`: it is defined by the library. The model keeps them as records of bounded fields and does not encode them into a byte.
- `Idt.InterruptDescriptorTable.DisableInterrupts`, `EnableInterrupts`, `RegisterHandler`, `SetPresentation`, and `LegacyIdt.Idt.Init`, `DisableInterrupts`, `EnableInterrupts`, `SetHandler`, `SetPresentation`: an `entry` past the end of the table makes the Rust code panic on the bounds check. These methods require `entry < 31` or `entry < 16` instead, so the panic is not modelled.
- `Print.Writer.ClearRow`: the same holds for a `row` past the last row of the buffer, which is a precondition here.
- `LegacyIdt.Idt.constructor`: the source never builds an `Idt`. The constructor takes the sixteen entries the tuple struct wraps and promises nothing about their contents.
- `Idt.BuildBootTable`: the `lazy_static` block is one flat list of 19 calls. The model runs the same calls, in the same order, grouped into five methods (`Idt.BootRegister0To8` and the others), one per contiguous run of vectors.
- `lazy_static`, `spin::Mutex`, `WRITER`, `_print` and the `print!`/`println!` macros: global initialisation, locking and `core::fmt` formatting. `Registers` models only the text each `println!` in a `dump` produces. The newline `println!` adds is not part of a modelled line.
- The `vga` module (`Buffer`, `ColorCode::new`, `Color`, `BUFFER_WIDTH`, `BUFFER_HEIGHT`) and the volatile MMIO at `0xb8000`: `vga` is not part of this model. The buffer is a plain `array2`, its dimensions stand for the two constants (any positive values), and `ColorCode` is an opaque byte.
- `Print.Writer.WriteStr`: it takes the bytes of the `&str` (what `str.bytes()` yields). The UTF-8 encoding of the string is not modelled.
- `src/kernel/lib/enum_utils.rs`: it is a compile-time macro. Its only run-time effect, `name()`, is modelled on the two page-fault enums.
- `src/main.rs` and `src/kernel/arch/x86/interrupts/mod.rs`: the entry point, the panic handler and module declarations. They contain no logic to model.

## Findings

| source | as written | input that shows it | evidently intended | confidence | as-written member | corrected member |
|---|---|---|---|---|---|---|
| src/kernel/arch/x86/interrupts/page_fault.rs:70-74 | the access-mode bits are masked with 0x4 and then compared with 0x1, so the User arm can never match | error code 0x4, a user-mode read of a non-present page, decodes to access mode Unknown | bit 2 set means User, bit 2 clear means Supervisor | high, not executed | PageFault.UserFaultReportedUnknown | PageFault.BuildCorrected |
| src/kernel/arch/x86/interrupts/page_fault.rs:30 | the reserved mask 0x9 includes bit 0, the present bit | error code 0x1, a supervisor read protection violation with bit 3 clear, is reported as reserved | `reserved` is bit 3 (RSVD) alone, mask 0x8 | medium, not executed | PageFault.ProtectionViolationReportedReserved | PageFault.BuildCorrected |
