// Decoding of the x86 page-fault error code into a readable record.
//
// `usize` on the x86_64 target is 64 bits wide, so error codes and linear
// addresses are `bv64`.  The CR2 register, which the kernel reads with
// inline assembly, is an input of the decoder here.

module PageFault {

  /** Who was running when the fault happened. */
  datatype AccessMode = Supervisor | User | Unknown
  {
    /** The enum's discriminant. */
    function Discriminant(): (d: bv64)
      ensures d <= 2
      ensures this == Supervisor <==> d == 0
    {
      match this
      case Supervisor => 0x0
      case User => 0x1
      case Unknown => 0x2
    }

    /** `name()`: the variant's identifier, as `stringify!` spells it. */
    function Name(): (s: string)
      ensures |s| > 0 && 'A' <= s[0] <= 'Z'
    {
      match this
      case Supervisor => "Supervisor"
      case User => "User"
      case Unknown => "Unknown"
    }
  }

  /** What kind of access faulted, and whether the page was present. */
  datatype PageFaultErrorCode =
    | NonPresentRead
    | ProtectionViolationRead
    | NonPresentWrite
    | ProtectionViolationWrite
    | Unknown
  {
    /** The enum's discriminant. */
    function Discriminant(): (d: bv64)
      ensures d <= 4
      ensures this == PageFaultErrorCode.Unknown <==> d == 4
    {
      match this
      case NonPresentRead => 0x0
      case ProtectionViolationRead => 0x1
      case NonPresentWrite => 0x2
      case ProtectionViolationWrite => 0x3
      case Unknown => 0x4
    }

    /** `name()`: the variant's identifier, as `stringify!` spells it. */
    function Name(): (s: string)
      ensures |s| > 0 && 'A' <= s[0] <= 'Z'
    {
      match this
      case NonPresentRead => "NonPresentRead"
      case ProtectionViolationRead => "ProtectionViolationRead"
      case NonPresentWrite => "NonPresentWrite"
      case ProtectionViolationWrite => "ProtectionViolationWrite"
      case Unknown => "Unknown"
    }

    predicate IsProtectionViolation()
    {
      this == ProtectionViolationRead || this == ProtectionViolationWrite
    }

    predicate IsWrite()
    {
      this == NonPresentWrite || this == ProtectionViolationWrite
    }
  }

  // `PageFaultBitMasks`
  const ERROR_CODE: bv64 := 0x3
  const ACCES_MODE: bv64 := 0x4
  const INSTRUCTION_FETCH: bv64 := 0x10
  const RESERVED: bv64 := 0x9

  datatype PageFault = PageFault(
    addr: bv64,
    errorCodeDescription: PageFaultErrorCode,
    accessMode: AccessMode,
    causedByInstructionFetch: bool,
    reserved: bool)

  /** A decoded fault with its address blanked, for comparing decodings of codes alone. */
  function WithoutAddr(pf: PageFault): PageFault
  {
    pf.(addr := 0)
  }

  /**
   * `PageFaultBuilder::build`, as written: `cr2` is the value the CR2
   * register holds when the decoder runs.
   */
  function Build(code: bv64, cr2: bv64): (pf: PageFault)
    ensures pf.addr == cr2
    // bit 0 is "page present", bit 1 is "write"
    ensures pf.errorCodeDescription != PageFaultErrorCode.Unknown
    ensures pf.errorCodeDescription.IsProtectionViolation() <==> code & 1 == 1
    ensures pf.errorCodeDescription.IsWrite() <==> (code >> 1) & 1 == 1
    // `code & 0x4` is 0 or 4, never 1
    ensures pf.accessMode != AccessMode.User
    ensures pf.accessMode == AccessMode.Supervisor <==> (code >> 2) & 1 == 0
    ensures pf.accessMode == AccessMode.Unknown <==> (code >> 2) & 1 == 1
    ensures pf.causedByInstructionFetch <==> (code >> 4) & 1 == 1
    ensures pf.reserved <==> (code & 1 == 1 || (code >> 3) & 1 == 1)
  {
    var errorCode := code & ERROR_CODE;
    var pageFaultError :=
      if errorCode == 0x0 then NonPresentRead
      else if errorCode == 0x1 then ProtectionViolationRead
      else if errorCode == 0x2 then NonPresentWrite
      else if errorCode == 0x3 then ProtectionViolationWrite
      else PageFaultErrorCode.Unknown;
    var accessBits := code & ACCES_MODE;
    var accessMode :=
      if accessBits == 0x0 then AccessMode.Supervisor
      else if accessBits == 0x1 then AccessMode.User
      else AccessMode.Unknown;
    PageFault(
      cr2,
      pageFaultError,
      accessMode,
      code & INSTRUCTION_FETCH != 0,
      code & RESERVED != 0)
  }

  /** The decoded description's discriminant is the two low bits of the code. */
  lemma ErrorCodeIsLowBits(code: bv64, cr2: bv64)
    ensures Build(code, cr2).errorCodeDescription.Discriminant() == code & 3
  {
  }

  /** Every description but `Unknown` is produced, by the code equal to its discriminant. */
  lemma EveryKnownErrorCodeReached(d: PageFaultErrorCode, cr2: bv64)
    requires d != PageFaultErrorCode.Unknown
    ensures Build(d.Discriminant(), cr2).errorCodeDescription == d
  {
  }

  /** Only bits 0 to 4 of the code matter; bits 5 and up are ignored. */
  lemma OnlyLowBitsMatter(c1: bv64, c2: bv64, a1: bv64, a2: bv64)
    requires c1 & 0x1F == c2 & 0x1F
    ensures WithoutAddr(Build(c1, a1)) == WithoutAddr(Build(c2, a2))
  {
    assert c1 & 3 == (c1 & 0x1F) & 3 && c2 & 3 == (c2 & 0x1F) & 3;
    assert c1 & 4 == (c1 & 0x1F) & 4 && c2 & 4 == (c2 & 0x1F) & 4;
    assert c1 & 0x10 == (c1 & 0x1F) & 0x10 && c2 & 0x10 == (c2 & 0x1F) & 0x10;
    assert c1 & 9 == (c1 & 0x1F) & 9 && c2 & 9 == (c2 & 0x1F) & 9;
  }

  /** The faulting address is taken from CR2 and never from the code. */
  lemma AddrIndependentOfCode(c1: bv64, c2: bv64, cr2: bv64)
    ensures Build(c1, cr2).addr == Build(c2, cr2).addr == cr2
  {
  }

  /** A supervisor write to a page that is not present. */
  lemma SupervisorWriteNotPresent(cr2: bv64)
    ensures Build(0x2, cr2) == PageFault(cr2, NonPresentWrite, AccessMode.Supervisor, false, false)
  {
  }

  /** Distinct access modes have distinct discriminants. */
  lemma AccessModeDiscriminantsDistinct(a: AccessMode, b: AccessMode)
    ensures a.Discriminant() == b.Discriminant() <==> a == b
  {
  }

  /** `name()` tells the variants apart. */
  lemma AccessModeNamesDistinct(a: AccessMode, b: AccessMode)
    ensures a.Name() == b.Name() <==> a == b
  {
  }

  lemma ErrorCodeNamesDistinct(a: PageFaultErrorCode, b: PageFaultErrorCode)
    ensures a.Name() == b.Name() <==> a == b
  {
  }

  lemma NamesAreIdentifiers()
    ensures NonPresentWrite.Name() == "NonPresentWrite"
    ensures AccessMode.Unknown.Name() == PageFaultErrorCode.Unknown.Name() == "Unknown"
  {
  }

  // ---------------------------------------------------------------------
  // What `build` reports for a fault raised from user mode, and for a
  // protection violation with no reserved bit involved.

  /** A user-mode read of a non-present page is reported with access mode `Unknown`. */
  lemma UserFaultReportedUnknown(cr2: bv64)
    ensures Build(0x4, cr2).accessMode == AccessMode.Unknown
    ensures BuildCorrected(0x4, cr2).accessMode == AccessMode.User
  {
  }

  /** A protection violation with bit 3 clear is reported as a reserved-bit fault. */
  lemma ProtectionViolationReportedReserved(cr2: bv64)
    ensures Build(0x1, cr2).reserved
    ensures !BuildCorrected(0x1, cr2).reserved
  {
  }

  /**
   * The decoder as the x86 error-code layout means it: bit 2 selects
   * user mode, and bit 3 alone is the reserved-bit flag.
   */
  function BuildCorrected(code: bv64, cr2: bv64): (pf: PageFault)
    ensures pf.addr == cr2
    ensures pf.accessMode != AccessMode.Unknown
    ensures pf.accessMode == AccessMode.User <==> (code >> 2) & 1 == 1
    ensures pf.reserved <==> (code >> 3) & 1 == 1
    ensures pf.errorCodeDescription == Build(code, cr2).errorCodeDescription
    ensures pf.causedByInstructionFetch == Build(code, cr2).causedByInstructionFetch
  {
    var pf := Build(code, cr2);
    pf.(accessMode := if code & ACCES_MODE == 0x0 then AccessMode.Supervisor else AccessMode.User,
        reserved := code & 0x8 != 0)
  }

  /** With the corrected decoder the access mode's discriminant is bit 2 of the code. */
  lemma CorrectedAccessModeIsBit2(code: bv64, cr2: bv64)
    ensures BuildCorrected(code, cr2).accessMode.Discriminant() == (code >> 2) & 1
  {
  }
}
