// The earlier, 16-slot interrupt descriptor table.
//
// Its IST byte and attribute byte are `modular_bitfield` records; the
// library decides where each field sits in the byte, so here they are
// records of bounded naturals, one per field, with no byte encoding.

module LegacyIdt {

  type B1 = x: nat | x < 2
  type B2 = x: nat | x < 4
  type B3 = x: nat | x < 8
  type B5 = x: nat | x < 32

  const ENTRIES := 16

  datatype PrivilegeLevel = Ring0 | Ring1 | Ring2 | Ring3
  {
    /** `PrivilegeLevel as u8`. */
    function Value(): (v: B2)
      ensures this == Ring0 <==> v == 0
    {
      match this
      case Ring0 => 0
      case Ring1 => 1
      case Ring2 => 2
      case Ring3 => 3
    }
  }

  /** Distinct privilege levels have distinct values. */
  lemma PrivilegeLevelValuesDistinct(a: PrivilegeLevel, b: PrivilegeLevel)
    ensures a.Value() == b.Value() <==> a == b
  {
  }

  datatype InterruptStackTable = InterruptStackTable(offset: B3, unused: B5)

  datatype Attributes = Attributes(
    gateType: B1,
    unusedOne: B3,
    unusedZero: B1,
    descriptorPrivilegeLevel: B2,
    present: B1)

  /** The IST record `init` builds: offset 0, unused 0. */
  const INIT_IST := InterruptStackTable(0, 0)

  /** The attributes `init` builds: gate type 1, `0b001`, 0, Ring0, present. */
  const INIT_ATTRIBUTES := Attributes(1, 1, 0, Ring0.Value(), 1)

  datatype Entry = Entry(
    addressLow: bv16,
    selector: bv16,
    ist: InterruptStackTable,
    attributes: Attributes,
    addressMiddle: bv16,
    addressHigh: bv32,
    reserved: bv32)
  {
    /** `Entry::new`: the handler address split into its three parts, reserved 0. */
    static function New(selector: bv16, ist: InterruptStackTable, attr: Attributes, ptr: bv64): (e: Entry)
      ensures e.Address() == ptr
      ensures e.addressLow as bv64 == ptr & 0xFFFF
      ensures e.addressMiddle as bv64 == (ptr >> 16) & 0xFFFF
      ensures e.addressHigh as bv64 == ptr >> 32
      ensures e.selector == selector && e.ist == ist && e.attributes == attr
      ensures e.reserved == 0
    {
      Entry((ptr & 0xFFFF) as bv16, selector, ist, attr,
            ((ptr >> 16) & 0xFFFF) as bv16, (ptr >> 32) as bv32, 0)
    }

    /** The handler address the processor reassembles from the three parts. */
    function Address(): bv64
    {
      addressLow as bv64 | (addressMiddle as bv64 << 16) | (addressHigh as bv64 << 32)
    }

    /** The slot after `set_handler`: new selector and address, nothing else. */
    function WithHandler(selector: bv16, ptr: bv64): (e: Entry)
      ensures e.Address() == ptr && e.selector == selector
      ensures e == New(selector, ist, attributes, ptr).(reserved := reserved)
    {
      this.(selector := selector,
            addressLow := (ptr & 0xFFFF) as bv16,
            addressMiddle := ((ptr >> 16) & 0xFFFF) as bv16,
            addressHigh := (ptr >> 32) as bv32)
    }

    /** The slot after `attributes.set_gate_type(g)`. */
    function WithGateType(g: B1): (e: Entry)
      ensures e.attributes.gateType == g
      ensures e.(attributes := attributes) == this
      ensures e.attributes.(gateType := attributes.gateType) == attributes
    {
      this.(attributes := attributes.(gateType := g))
    }

    /** The slot after `attributes.set_present(p)`. */
    function WithPresent(p: B1): (e: Entry)
      ensures e.attributes.present == p
      ensures e.(attributes := attributes) == this
      ensures e.attributes.(present := attributes.present) == attributes
    {
      this.(attributes := attributes.(present := p))
    }
  }

  /** `value as u8` for a `bool`. */
  function BoolBit(value: bool): (b: B1)
    ensures b == 1 <==> value
  {
    if value then 1 else 0
  }

  /** The entry `init` stores for `handler`, under code segment `cs`. */
  function InitEntry(cs: bv16, handler: bv64): (e: Entry)
    ensures e.Address() == handler && e.selector == cs && e.reserved == 0
    ensures e.ist.offset == 0 && e.ist.unused == 0
    ensures e.attributes.gateType == 1 && e.attributes.unusedOne == 1
    ensures e.attributes.unusedZero == 0 && e.attributes.present == 1
    ensures e.attributes.descriptorPrivilegeLevel == 0
  {
    Entry.New(cs, INIT_IST, INIT_ATTRIBUTES, handler)
  }

  /** Writing the same gate type or presence twice is the same as writing it once. */
  lemma SettersIdempotent(e: Entry, g: B1, p: B1, sel: bv16, ptr: bv64)
    ensures e.WithGateType(g).WithGateType(g) == e.WithGateType(g)
    ensures e.WithPresent(p).WithPresent(p) == e.WithPresent(p)
    ensures e.WithHandler(sel, ptr).WithHandler(sel, ptr) == e.WithHandler(sel, ptr)
  {
  }

  /** Disabling and re-enabling a slot `init` filled gives back that slot. */
  lemma EnableUndoesDisable(cs: bv16, handler: bv64)
    ensures InitEntry(cs, handler).WithGateType(0).WithGateType(1) == InitEntry(cs, handler)
  {
  }

  /** The setters touch disjoint fields, so their order does not matter. */
  lemma SettersCommute(e: Entry, g: B1, p: B1, sel: bv16, ptr: bv64)
    ensures e.WithGateType(g).WithPresent(p) == e.WithPresent(p).WithGateType(g)
    ensures e.WithHandler(sel, ptr).WithGateType(g) == e.WithGateType(g).WithHandler(sel, ptr)
    ensures e.WithHandler(sel, ptr).WithPresent(p) == e.WithPresent(p).WithHandler(sel, ptr)
  {
  }

  /** `Idt`: sixteen entries, changed in place. */
  class Idt {
    var entries: array<Entry>

    ghost predicate Valid()
      reads this
    {
      entries.Length == ENTRIES
    }

    /** The tuple struct `Idt([Entry; 16])`, built from the sixteen entries it wraps. */
    constructor(init: seq<Entry>)
      requires |init| == ENTRIES
      ensures Valid() && fresh(entries)
      ensures entries[..] == init
    {
      entries := new Entry[ENTRIES](i requires 0 <= i < ENTRIES => init[i]);
    }

    /** `init`: overwrite slot `entry` with a present Ring0 interrupt gate for `handler`. */
    method Init(entry: nat, cs: bv16, handler: bv64)
      requires Valid() && entry < ENTRIES
      modifies entries
      ensures Valid()
      ensures entries[entry] == InitEntry(cs, handler)
      ensures forall i :: 0 <= i < entries.Length && i != entry ==> entries[i] == old(entries[i])
    {
      entries[entry] := Entry.New(cs, INIT_IST, INIT_ATTRIBUTES, handler);
    }

    /** `disable_interrupts`: gate type 0, every other field and slot as before. */
    method DisableInterrupts(entry: nat)
      requires Valid() && entry < ENTRIES
      modifies entries
      ensures Valid()
      ensures entries[entry] == old(entries[entry]).WithGateType(0)
      ensures forall i :: 0 <= i < entries.Length && i != entry ==> entries[i] == old(entries[i])
    {
      entries[entry] := entries[entry].(attributes := entries[entry].attributes.(gateType := 0));
    }

    /** `enable_interrupts`: gate type 1, every other field and slot as before. */
    method EnableInterrupts(entry: nat)
      requires Valid() && entry < ENTRIES
      modifies entries
      ensures Valid()
      ensures entries[entry] == old(entries[entry]).WithGateType(1)
      ensures forall i :: 0 <= i < entries.Length && i != entry ==> entries[i] == old(entries[i])
    {
      entries[entry] := entries[entry].(attributes := entries[entry].attributes.(gateType := 1));
    }

    /** `set_handler`: the selector and the three address parts, one field at a time. */
    method SetHandler(entry: nat, cs: bv16, handler: bv64)
      requires Valid() && entry < ENTRIES
      modifies entries
      ensures Valid()
      ensures entries[entry] == old(entries[entry]).WithHandler(cs, handler)
      ensures entries[entry].Address() == handler
      ensures forall i :: 0 <= i < entries.Length && i != entry ==> entries[i] == old(entries[i])
    {
      entries[entry] := entries[entry].(selector := cs);
      entries[entry] := entries[entry].(addressLow := (handler & 0xFFFF) as bv16);
      entries[entry] := entries[entry].(addressMiddle := ((handler >> 16) & 0xFFFF) as bv16);
      entries[entry] := entries[entry].(addressHigh := (handler >> 32) as bv32);
    }

    /** `set_presentation`: the present bit, and nothing else. */
    method SetPresentation(entry: nat, value: bool)
      requires Valid() && entry < ENTRIES
      modifies entries
      ensures Valid()
      ensures entries[entry] == old(entries[entry]).WithPresent(BoolBit(value))
      ensures forall i :: 0 <= i < entries.Length && i != entry ==> entries[i] == old(entries[i])
    {
      entries[entry] := entries[entry].(attributes := entries[entry].attributes.(present := BoolBit(value)));
    }
  }
}
