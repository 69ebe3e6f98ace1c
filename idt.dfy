/**
 * The interrupt descriptor table of src/kernel/arch/x86/interrupts/idt.rs:
 * 16-byte 64-bit-mode gate descriptors (Intel 64 and IA-32 SDM, Vol. 3A,
 * section 6.14.1), a table of 31 of them updated slot by slot, the
 * IDTR limit computation (section 6.10) and the boot-time registration set.
 *
 * Rust's fixed-width integers are bit-vectors here (u8 = bv8, u16 = bv16,
 * u32 = bv32, u64 = bv64), so every `as u16` truncation and every masked
 * read-modify-write is exact.
 */
module Idt {

  /** Descriptor privilege level, `#[repr(u8)]` with values 0..3. */
  datatype PrivilegeLevel = Ring0 | Ring1 | Ring2 | Ring3 {
    function Bits(): (b: bv8)
      ensures b < 4
      ensures this == Ring0 <==> b == 0
    {
      match this
      case Ring0 => 0
      case Ring1 => 1
      case Ring2 => 2
      case Ring3 => 3
    }
  }

  /** Distinct privilege levels have distinct values. */
  lemma PrivilegeLevelBitsDistinct(a: PrivilegeLevel, b: PrivilegeLevel)
    ensures a.Bits() == b.Bits() <==> a == b
  {
  }

  /** Gate type nibble: 0xE interrupt gate, 0xF trap gate. */
  datatype GateType = Interrupt | Trap {
    function Bits(): (b: bv8)
      ensures b & 0xF0 == 0
      ensures b & 0x0E == 0x0E
      ensures (b & 1 == 1) <==> this == Trap
    {
      match this
      case Interrupt => 0xE
      case Trap => 0xF
    }
  }

  datatype Attributes = Attributes(gateType: GateType, privilegeLevel: PrivilegeLevel, present: bool)
  {
    /** `Attributes::new`: a present ring-0 interrupt gate. */
    static function New(): (a: Attributes)
      ensures a.present && a.privilegeLevel.Bits() == 0 && a.gateType.Bits() == 0xE
    {
      Attributes(Interrupt, Ring0, true)
    }
  }

  // Reading the fields back out of an attribute byte (section 6.14.1).

  predicate PresentBit(a: bv8) { a & 0x80 != 0 }

  function DplBits(a: bv8): bv8 { (a >> 5) & 0x3 }

  function GateTypeBits(a: bv8): bv8 { a & 0x0F }

  /** Bytes of a packed entry; `Entry.Bytes` proves its fields fill exactly this many. */
  const ENTRY_SIZE: nat := 16

  // Little-endian byte encodings of the multi-byte fields.

  function Le16(x: bv16): (bs: seq<bv8>)
    ensures |bs| == 2
  {
    [(x & 0xFF) as bv8, (x >> 8) as bv8]
  }

  function FromLe16(b0: bv8, b1: bv8): (x: bv16)
    ensures x & 0xFF == b0 as bv16 && x >> 8 == b1 as bv16
  {
    (b0 as bv16) | ((b1 as bv16) << 8)
  }

  function Le32(x: bv32): (bs: seq<bv8>)
    ensures |bs| == 4
  {
    [(x & 0xFF) as bv8, ((x >> 8) & 0xFF) as bv8, ((x >> 16) & 0xFF) as bv8, (x >> 24) as bv8]
  }

  function FromLe32(b0: bv8, b1: bv8, b2: bv8, b3: bv8): (x: bv32)
    ensures x & 0xFF == b0 as bv32 && (x >> 8) & 0xFF == b1 as bv32
    ensures (x >> 16) & 0xFF == b2 as bv32 && x >> 24 == b3 as bv32
  {
    (b0 as bv32) | ((b1 as bv32) << 8) | ((b2 as bv32) << 16) | ((b3 as bv32) << 24)
  }

  /** A 16-bit field decodes back from its two bytes. */
  lemma Le16Decodes(x: bv16)
    ensures FromLe16(Le16(x)[0], Le16(x)[1]) == x
  {
  }

  /** Two bytes are the encoding of the 16-bit value they decode to. */
  lemma Le16Encodes(b0: bv8, b1: bv8)
    ensures Le16(FromLe16(b0, b1)) == [b0, b1]
  {
  }

  /** A 32-bit field decodes back from its four bytes. */
  lemma Le32Decodes(x: bv32)
    ensures FromLe32(Le32(x)[0], Le32(x)[1], Le32(x)[2], Le32(x)[3]) == x
  {
  }

  /** Four bytes are the encoding of the 32-bit value they decode to. */
  lemma Le32Encodes(b0: bv8, b1: bv8, b2: bv8, b3: bv8)
    ensures Le32(FromLe32(b0, b1, b2, b3)) == [b0, b1, b2, b3]
  {
  }

  /** `InterruptDescriptorTable([Entry; 31])`. */
  const SLOTS: nat := 31

  /** One gate descriptor; the selector is an opaque 16-bit value. */
  datatype Entry = Entry(
    addressLow: bv16,
    selector: bv16,
    ist: bv8,
    attributes: bv8,
    addressMiddle: bv16,
    addressHigh: bv32,
    reserved: bv32)
  {
    /** `Entry::new`: every field zero (the selector `SegmentSelector::new(0, Ring0)` is 0). */
    static function New(): (e: Entry)
      ensures e.Address() == 0 && e.ist == 0 && e.reserved == 0
      ensures e.selector == 0
      ensures !PresentBit(e.attributes) && e.attributes == 0
      ensures e.Bytes() == seq(ENTRY_SIZE, _ => 0)
    {
      Entry(0, 0, 0, 0, 0, 0, 0)
    }

    /**
     * The `#[repr(C, packed)]` image: the fields in declaration order, each
     * little-endian, so offset bits 15..0 are at bytes 0-1, the selector at
     * 2-3, offset bits 31..16 at 6-7 and offset bits 63..32 at 8-11.
     */
    function Bytes(): (bs: seq<bv8>)
      ensures |bs| == ENTRY_SIZE
      ensures FromLe16(bs[0], bs[1]) == addressLow && FromLe16(bs[2], bs[3]) == selector
      ensures bs[4] == ist && bs[5] == attributes
      ensures FromLe16(bs[6], bs[7]) == addressMiddle
      ensures FromLe32(bs[8], bs[9], bs[10], bs[11]) == addressHigh
      ensures FromLe32(bs[12], bs[13], bs[14], bs[15]) == reserved
    {
      Le16Decodes(addressLow);
      Le16Decodes(selector);
      Le16Decodes(addressMiddle);
      Le32Decodes(addressHigh);
      Le32Decodes(reserved);
      Le16(addressLow) + Le16(selector) + [ist, attributes]
      + Le16(addressMiddle) + Le32(addressHigh) + Le32(reserved)
    }

    /** Reads an entry back from its 16-byte image. */
    static function FromBytes(bs: seq<bv8>): Entry
      requires |bs| == ENTRY_SIZE
    {
      Entry(FromLe16(bs[0], bs[1]), FromLe16(bs[2], bs[3]), bs[4], bs[5],
            FromLe16(bs[6], bs[7]), FromLe32(bs[8], bs[9], bs[10], bs[11]),
            FromLe32(bs[12], bs[13], bs[14], bs[15]))
    }

    /** The handler address the processor reassembles from the three offset fields. */
    function Address(): bv64
    {
      (addressLow as bv64) | ((addressMiddle as bv64) << 16) | ((addressHigh as bv64) << 32)
    }

    /** `set_interrupt_stack_table`: `ist = (ist & 0xF8) | n`, with no check on `n`. */
    function SetInterruptStackTable(n: bv8): (e: Entry)
      ensures e == this.(ist := e.ist)
      ensures e.ist & 0x07 == n & 0x07
      ensures e.ist & 0xF8 == (ist & 0xF8) | (n & 0xF8)
      ensures n < 8 ==> e.ist & 0xF8 == ist & 0xF8
    {
      this.(ist := (ist & 0xF8) | n)
    }

    /** `set_handler`: store the selector and split the 64-bit handler address. */
    function SetHandler(sel: bv16, ptr: bv64): (e: Entry)
      ensures e.selector == sel
      ensures e.addressLow as bv64 == ptr & 0xFFFF
      ensures e.addressMiddle as bv64 == (ptr >> 16) & 0xFFFF
      ensures e.addressHigh as bv64 == ptr >> 32
      ensures e.Address() == ptr
      ensures e.ist == ist && e.attributes == attributes && e.reserved == reserved
    {
      this.(selector := sel,
            addressLow := (ptr & 0xFFFF) as bv16,
            addressMiddle := ((ptr >> 16) & 0xFFFF) as bv16,
            addressHigh := (ptr >> 32) as bv32)
    }

    /** `set_attributes`: three masked writes, present, then privilege, then gate type. */
    function SetAttributes(attr: Attributes): (e: Entry)
      ensures e == this.(attributes := e.attributes)
      ensures PresentBit(e.attributes) == attr.present
      ensures DplBits(e.attributes) == attr.privilegeLevel.Bits()
      ensures GateTypeBits(e.attributes) == attr.gateType.Bits()
      ensures e.attributes & 0x10 == attributes & 0x10
    {
      var a1 := (attributes & 0x7F) | ((if attr.present then 1 else 0) << 7);
      var a2 := (a1 & 0x9F) | (attr.privilegeLevel.Bits() << 5);
      var a3 := (a2 & 0xF0) | attr.gateType.Bits();
      this.(attributes := a3)
    }
  }

  /** What `register_handler` leaves in a slot: handler, default attributes, IST 0. */
  function Registered(e: Entry, cs: bv16, handler: bv64): (r: Entry)
    ensures r.Address() == handler && r.selector == cs
    ensures r.attributes == (e.attributes & 0x10) | 0x8E
    ensures r.ist == e.ist & 0xF8
    ensures r.reserved == e.reserved
  {
    e.SetHandler(cs, handler).SetAttributes(Attributes.New()).SetInterruptStackTable(0)
  }

  /** `InterruptPointer`, the operand of `lidt`. */
  datatype InterruptPointer = InterruptPointer(limit: bv16, baseAddr: bv64)

  /** Writing the same attributes twice leaves the same byte as writing them once. */
  lemma SetAttributesIdempotent(e: Entry, attr: Attributes)
    ensures e.SetAttributes(attr).SetAttributes(attr) == e.SetAttributes(attr)
  {
  }

  /** `Attributes::new()` on a zeroed entry gives the attribute byte 0x8E. */
  lemma DefaultAttributesByte()
    ensures Entry.New().SetAttributes(Attributes.New()).attributes == 0x8E
  {
  }

  /** The attribute byte `set_attributes` writes determines the attributes it was given. */
  lemma SetAttributesInjective(e: Entry, a1: Attributes, a2: Attributes)
    ensures e.SetAttributes(a1).attributes == e.SetAttributes(a2).attributes <==> a1 == a2
  {
    if e.SetAttributes(a1).attributes == e.SetAttributes(a2).attributes {
      PrivilegeLevelBitsDistinct(a1.privilegeLevel, a2.privilegeLevel);
    }
  }

  /** Changing only `present` leaves the privilege and gate-type bits as they were. */
  lemma AttributesIndependent(e: Entry, attr: Attributes)
    ensures var a := e.SetAttributes(attr).attributes;
      var b := e.SetAttributes(attr.(present := !attr.present)).attributes;
      a & 0x7F == b & 0x7F && PresentBit(a) != PresentBit(b)
  {
  }

  /** The packed image loses nothing: an entry is read back from its bytes, and 16 bytes from their entry. */
  lemma EntryBytesRoundTrip(e: Entry, bs: seq<bv8>)
    ensures Entry.FromBytes(e.Bytes()) == e
    ensures |bs| == ENTRY_SIZE ==> Entry.FromBytes(bs).Bytes() == bs
  {
    if |bs| == ENTRY_SIZE {
      Le16Encodes(bs[0], bs[1]);
      Le16Encodes(bs[2], bs[3]);
      Le16Encodes(bs[6], bs[7]);
      Le32Encodes(bs[8], bs[9], bs[10], bs[11]);
      Le32Encodes(bs[12], bs[13], bs[14], bs[15]);
      assert bs == [bs[0], bs[1]] + [bs[2], bs[3]] + [bs[4], bs[5]] + [bs[6], bs[7]]
        + [bs[8], bs[9], bs[10], bs[11]] + [bs[12], bs[13], bs[14], bs[15]];
    }
  }

  class InterruptDescriptorTable {
    var slots: array<Entry>

    ghost predicate Valid()
      reads this
    {
      slots.Length == SLOTS
    }

    /** `InterruptDescriptorTable::new`: 31 copies of `Entry::new()`. */
    constructor ()
      ensures Valid() && fresh(slots)
      ensures forall i :: 0 <= i < SLOTS ==> slots[i] == Entry.New()
    {
      slots := new Entry[SLOTS](_ => Entry.New());
    }

    /** Sets the gate type nibble of slot `entry` to 0xF (trap gate). */
    method DisableInterrupts(entry: nat)
      requires Valid() && entry < SLOTS
      modifies slots
      ensures Valid()
      ensures forall i :: 0 <= i < SLOTS && i != entry ==> slots[i] == old(slots[i])
      ensures slots[entry] == old(slots[entry]).(attributes := slots[entry].attributes)
      ensures GateTypeBits(slots[entry].attributes) == GateType.Trap.Bits()
      ensures slots[entry].attributes & 0xF0 == old(slots[entry].attributes) & 0xF0
    {
      slots[entry] := slots[entry].(attributes := (slots[entry].attributes & 0xF0) | Trap.Bits());
    }

    /** Sets the gate type nibble of slot `entry` to 0xE (interrupt gate). */
    method EnableInterrupts(entry: nat)
      requires Valid() && entry < SLOTS
      modifies slots
      ensures Valid()
      ensures forall i :: 0 <= i < SLOTS && i != entry ==> slots[i] == old(slots[i])
      ensures slots[entry] == old(slots[entry]).(attributes := slots[entry].attributes)
      ensures GateTypeBits(slots[entry].attributes) == GateType.Interrupt.Bits()
      ensures slots[entry].attributes & 0xF0 == old(slots[entry].attributes) & 0xF0
    {
      slots[entry] := slots[entry].(attributes := (slots[entry].attributes & 0xF0) | Interrupt.Bits());
    }

    /** `register_handler`; the code selector `CS::get_reg()` is the parameter `cs`. */
    method RegisterHandler(entry: nat, cs: bv16, handler: bv64)
      requires Valid() && entry < SLOTS
      modifies slots
      ensures Valid()
      ensures slots[..] == RegisterSlot(old(slots[..]), entry, cs, handler)
    {
      slots[entry] := slots[entry].SetHandler(cs, handler);
      slots[entry] := slots[entry].SetAttributes(Attributes.New());
      slots[entry] := slots[entry].SetInterruptStackTable(0);
    }

    /** `set_presentation`: rewrites bit 7 of slot `entry`'s attributes. */
    method SetPresentation(entry: nat, value: bool)
      requires Valid() && entry < SLOTS
      modifies slots
      ensures Valid()
      ensures forall i :: 0 <= i < SLOTS && i != entry ==> slots[i] == old(slots[i])
      ensures slots[entry] == old(slots[entry]).(attributes := slots[entry].attributes)
      ensures PresentBit(slots[entry].attributes) == value
      ensures slots[entry].attributes & 0x7F == old(slots[entry].attributes) & 0x7F
    {
      slots[entry] := slots[entry].(attributes := (slots[entry].attributes & 0x7F) | ((if value then 1 else 0) << 7));
    }

    /**
     * `load`, without the `lidt` instruction: the operand it hands to the
     * processor, limit `size_of::<Self>() - 1` and base the table's address.
     */
    method Load(base: bv64) returns (p: InterruptPointer)
      requires Valid()
      ensures p.limit as int == slots.Length * ENTRY_SIZE - 1
      ensures p.limit == 495 && p.baseAddr == base
    {
      p := InterruptPointer((slots.Length * ENTRY_SIZE - 1) as bv16, base);
    }
  }

  /** The vectors the boot block registers: 0-8, 10-14, 16, 17, 19, 20 and 30. */
  const BOOT_VECTORS: set<nat> := {0, 1, 2, 3, 4, 5, 6, 7, 8, 10, 11, 12, 13, 14, 16, 17, 19, 20, 30}

  /** Membership in BOOT_VECTORS as ranges. */
  predicate IsBootVector(i: nat)
  {
    i <= 8 || 10 <= i <= 14 || i == 16 || i == 17 || i == 19 || i == 20 || i == 30
  }

  lemma BootVectorRanges(i: nat)
    ensures IsBootVector(i) <==> i in BOOT_VECTORS
  {
  }

  /** Slot `i` of the table the boot block builds, given each vector's handler address. */
  function BootSlot(handlers: seq<bv64>, cs: bv16, i: nat): Entry
    requires |handlers| == SLOTS && i < SLOTS
  {
    if IsBootVector(i) then Registered(Entry.New(), cs, handlers[i]) else Entry.New()
  }

  /** After the boot block, a slot is a present ring-0 interrupt gate with IST 0 exactly on BOOT_VECTORS. */
  lemma BootSlotShape(handlers: seq<bv64>, cs: bv16, i: nat)
    requires |handlers| == SLOTS && i < SLOTS
    ensures PresentBit(BootSlot(handlers, cs, i).attributes) <==> i in BOOT_VECTORS
    ensures i in BOOT_VECTORS ==>
      && BootSlot(handlers, cs, i).attributes == 0x8E
      && BootSlot(handlers, cs, i).ist == 0
      && BootSlot(handlers, cs, i).Address() == handlers[i]
      && BootSlot(handlers, cs, i).selector == cs
    ensures i !in BOOT_VECTORS ==> BootSlot(handlers, cs, i) == Entry.New()
  {
  }

  /** The vectors left empty are exactly the architecturally reserved ones in 0..30. */
  lemma ReservedVectorsEmpty(i: nat)
    requires i < SLOTS
    ensures i !in BOOT_VECTORS <==> i == 9 || i == 15 || i == 18 || 21 <= i <= 29
  {
  }

  /** Registering `handler` in slot `v` of the table value `s`. */
  function RegisterSlot(s: seq<Entry>, v: nat, cs: bv16, handler: bv64): (r: seq<Entry>)
    requires |s| == SLOTS && v < SLOTS
    ensures |r| == SLOTS
  {
    s[v := Registered(s[v], cs, handler)]
  }

  /** The table value once the boot block has run its registrations of every vector below `n`. */
  function BootUpTo(handlers: seq<bv64>, cs: bv16, n: nat): (r: seq<Entry>)
    requires |handlers| == SLOTS && n <= SLOTS
    ensures |r| == SLOTS
  {
    if n == 0 then seq(SLOTS, _ => Entry.New())
    else if IsBootVector(n - 1) then RegisterSlot(BootUpTo(handlers, cs, n - 1), n - 1, cs, handlers[n - 1])
    else BootUpTo(handlers, cs, n - 1)
  }

  /** Reserved vectors register nothing: the table value does not change across them. */
  lemma {:induction false} BootUpToSkips(handlers: seq<bv64>, cs: bv16, n: nat, m: nat)
    requires |handlers| == SLOTS && n <= m <= SLOTS
    requires forall j :: n <= j < m ==> !IsBootVector(j)
    ensures BootUpTo(handlers, cs, m) == BootUpTo(handlers, cs, n)
  {
    if n < m {
      BootUpToSkips(handlers, cs, n, m - 1);
    }
  }

  /** Slot by slot, the registrations below `n` leave BootSlot below `n` and `Entry::new()` above. */
  lemma {:induction false} BootUpToSlots(handlers: seq<bv64>, cs: bv16, n: nat, i: nat)
    requires |handlers| == SLOTS && n <= SLOTS && i < SLOTS
    ensures BootUpTo(handlers, cs, n)[i] == if i < n then BootSlot(handlers, cs, i) else Entry.New()
  {
    if n > 0 {
      BootUpToSlots(handlers, cs, n - 1, i);
    }
  }

  /** One registration of the boot block extends the registered prefix by one vector. */
  lemma BootUpToStep(handlers: seq<bv64>, cs: bv16, v: nat)
    requires |handlers| == SLOTS && v < SLOTS && IsBootVector(v)
    ensures RegisterSlot(BootUpTo(handlers, cs, v), v, cs, handlers[v]) == BootUpTo(handlers, cs, v + 1)
  {
  }

  /** The boot block's calls for vectors 0-8, on a table holding every registration below 0. */
  method BootRegister0To8(idt: InterruptDescriptorTable, handlers: seq<bv64>, cs: bv16)
    requires idt.Valid() && |handlers| == SLOTS
    requires idt.slots[..] == BootUpTo(handlers, cs, 0)
    modifies idt.slots
    ensures idt.slots[..] == BootUpTo(handlers, cs, 9)
  {
    BootUpToStep(handlers, cs, 0);
    idt.RegisterHandler(0, cs, handlers[0]);
    BootUpToStep(handlers, cs, 1);
    idt.RegisterHandler(1, cs, handlers[1]);
    BootUpToStep(handlers, cs, 2);
    idt.RegisterHandler(2, cs, handlers[2]);
    BootUpToStep(handlers, cs, 3);
    idt.RegisterHandler(3, cs, handlers[3]);
    BootUpToStep(handlers, cs, 4);
    idt.RegisterHandler(4, cs, handlers[4]);
    BootUpToStep(handlers, cs, 5);
    idt.RegisterHandler(5, cs, handlers[5]);
    BootUpToStep(handlers, cs, 6);
    idt.RegisterHandler(6, cs, handlers[6]);
    BootUpToStep(handlers, cs, 7);
    idt.RegisterHandler(7, cs, handlers[7]);
    BootUpToStep(handlers, cs, 8);
    idt.RegisterHandler(8, cs, handlers[8]);
  }

  /** The boot block's calls for vectors 10-14, on a table holding every registration below 9. */
  method BootRegister10To14(idt: InterruptDescriptorTable, handlers: seq<bv64>, cs: bv16)
    requires idt.Valid() && |handlers| == SLOTS
    requires idt.slots[..] == BootUpTo(handlers, cs, 9)
    modifies idt.slots
    ensures idt.slots[..] == BootUpTo(handlers, cs, 15)
  {
    BootUpToSkips(handlers, cs, 9, 10);
    BootUpToStep(handlers, cs, 10);
    idt.RegisterHandler(10, cs, handlers[10]);
    BootUpToStep(handlers, cs, 11);
    idt.RegisterHandler(11, cs, handlers[11]);
    BootUpToStep(handlers, cs, 12);
    idt.RegisterHandler(12, cs, handlers[12]);
    BootUpToStep(handlers, cs, 13);
    idt.RegisterHandler(13, cs, handlers[13]);
    BootUpToStep(handlers, cs, 14);
    idt.RegisterHandler(14, cs, handlers[14]);
  }

  /** The boot block's calls for vectors 16-17, on a table holding every registration below 15. */
  method BootRegister16To17(idt: InterruptDescriptorTable, handlers: seq<bv64>, cs: bv16)
    requires idt.Valid() && |handlers| == SLOTS
    requires idt.slots[..] == BootUpTo(handlers, cs, 15)
    modifies idt.slots
    ensures idt.slots[..] == BootUpTo(handlers, cs, 18)
  {
    BootUpToSkips(handlers, cs, 15, 16);
    BootUpToStep(handlers, cs, 16);
    idt.RegisterHandler(16, cs, handlers[16]);
    BootUpToStep(handlers, cs, 17);
    idt.RegisterHandler(17, cs, handlers[17]);
  }

  /** The boot block's calls for vectors 19-20, on a table holding every registration below 18. */
  method BootRegister19To20(idt: InterruptDescriptorTable, handlers: seq<bv64>, cs: bv16)
    requires idt.Valid() && |handlers| == SLOTS
    requires idt.slots[..] == BootUpTo(handlers, cs, 18)
    modifies idt.slots
    ensures idt.slots[..] == BootUpTo(handlers, cs, 21)
  {
    BootUpToSkips(handlers, cs, 18, 19);
    BootUpToStep(handlers, cs, 19);
    idt.RegisterHandler(19, cs, handlers[19]);
    BootUpToStep(handlers, cs, 20);
    idt.RegisterHandler(20, cs, handlers[20]);
  }

  /** The boot block's calls for vectors 30, on a table holding every registration below 21. */
  method BootRegister30(idt: InterruptDescriptorTable, handlers: seq<bv64>, cs: bv16)
    requires idt.Valid() && |handlers| == SLOTS
    requires idt.slots[..] == BootUpTo(handlers, cs, 21)
    modifies idt.slots
    ensures idt.slots[..] == BootUpTo(handlers, cs, 31)
  {
    BootUpToSkips(handlers, cs, 21, 30);
    BootUpToStep(handlers, cs, 30);
    idt.RegisterHandler(30, cs, handlers[30]);
  }

  /**
   * The `lazy_static` block building `IDT`; `handlers[v]` is the address the
   * handler-wrapping macro produced for vector `v`.
   */
  method BuildBootTable(handlers: seq<bv64>, cs: bv16) returns (idt: InterruptDescriptorTable)
    requires |handlers| == SLOTS
    ensures fresh(idt) && fresh(idt.slots) && idt.Valid()
    ensures forall i :: 0 <= i < SLOTS ==> idt.slots[i] == BootSlot(handlers, cs, i)
  {
    idt := new InterruptDescriptorTable();
    assert idt.slots[..] == BootUpTo(handlers, cs, 0);
    BootRegister0To8(idt, handlers, cs);
    BootRegister10To14(idt, handlers, cs);
    BootRegister16To17(idt, handlers, cs);
    BootRegister19To20(idt, handlers, cs);
    BootRegister30(idt, handlers, cs);
    forall i | 0 <= i < SLOTS {
      BootUpToSlots(handlers, cs, SLOTS, i);
    }
  }
}
