// The register save area an interrupt entry stub pushes, and the text
// its `dump` methods print.
//
// The structs are `#[repr(packed)]` records of `usize`, so a frame is 20
// consecutive 64-bit words.  `dump` prints with `println!`; here each dump
// is the list of lines it prints, in order, each without its trailing
// newline.

module Registers {

  type Word = x: nat | x < 0x1_0000_0000_0000_0000

  const WORD_SIZE := 8

  // ---------------------------------------------------------------------
  // Hexadecimal rendering, `{:016x}`

  function Pow16(n: nat): (p: nat)
    ensures p >= 1
  {
    if n == 0 then 1 else 16 * Pow16(n - 1)
  }

  lemma Pow16Word()
    ensures Pow16(16) == 0x1_0000_0000_0000_0000
  {
    assert Pow16(4) == 0x1_0000;
    assert Pow16(8) == 0x1_0000_0000;
    assert Pow16(12) == 0x1_0000_0000_0000;
  }

  predicate IsHexDigit(c: char)
  {
    '0' <= c <= '9' || 'a' <= c <= 'f'
  }

  function HexDigit(d: nat): (c: char)
    requires d < 16
    ensures IsHexDigit(c)
  {
    if d < 10 then '0' + d as char else 'a' + (d - 10) as char
  }

  function DigitValue(c: char): (d: nat)
    requires IsHexDigit(c)
    ensures d < 16
  {
    if c <= '9' then (c - '0') as nat else (c - 'a') as nat + 10
  }

  lemma DigitRoundTrip(d: nat, c: char)
    ensures d < 16 ==> DigitValue(HexDigit(d)) == d
    ensures IsHexDigit(c) ==> HexDigit(DigitValue(c)) == c
  {
  }

  /** The last `n` hexadecimal digits of `v`, lowercase, most significant first. */
  function Hex(v: nat, n: nat): (s: string)
    ensures |s| == n
    ensures forall i :: 0 <= i < |s| ==> IsHexDigit(s[i])
  {
    if n == 0 then "" else Hex(v / 16, n - 1) + [HexDigit(v % 16)]
  }

  /** The value of a string of lowercase hexadecimal digits. */
  function ParseHex(s: string): nat
    requires forall i :: 0 <= i < |s| ==> IsHexDigit(s[i])
  {
    if s == [] then 0 else ParseHex(s[..|s| - 1]) * 16 + DigitValue(s[|s| - 1])
  }

  /** Digits that fit in `n` places parse back to the value rendered. */
  lemma {:induction false} ParseHexOfHex(v: nat, n: nat)
    requires v < Pow16(n)
    ensures ParseHex(Hex(v, n)) == v
  {
    if n > 0 {
      var s := Hex(v / 16, n - 1);
      var c := HexDigit(v % 16);
      assert Hex(v, n) == s + [c];
      assert (s + [c])[..|s|] == s;
      assert v / 16 < Pow16(n - 1);
      ParseHexOfHex(v / 16, n - 1);
      DigitRoundTrip(v % 16, c);
    }
  }

  /** Rendering the value of `n` lowercase digits gives those digits back. */
  lemma {:induction false} HexOfParseHex(s: string)
    requires forall i :: 0 <= i < |s| ==> IsHexDigit(s[i])
    ensures Hex(ParseHex(s), |s|) == s
  {
    if s != [] {
      var p := s[..|s| - 1];
      var c := s[|s| - 1];
      var x := ParseHex(s);
      assert x == ParseHex(p) * 16 + DigitValue(c);
      assert x / 16 == ParseHex(p) && x % 16 == DigitValue(c);
      HexOfParseHex(p);
      DigitRoundTrip(0, c);
      assert s == p + [c];
    }
  }

  /** A word always fits in sixteen digits, so `{:016x}` never drops a digit. */
  lemma WordRoundTrip(v: Word)
    ensures ParseHex(Hex(v, 16)) == v
  {
    Pow16Word();
    ParseHexOfHex(v, 16);
  }

  // ---------------------------------------------------------------------
  // One dump line: `<tag>= 0x{:016x} `

  const PREFIX := "= 0x"

  /** `tag` is everything before `=`, padding spaces included. */
  function Line(tag: string, v: Word): (line: string)
    ensures |line| == |tag| + 21
  {
    tag + PREFIX + Hex(v, 16) + " "
  }

  predicate WellFormed(line: string)
  {
    |line| >= 21 && line[|line| - 21..|line| - 17] == PREFIX && line[|line| - 1] == ' '
    && forall i :: |line| - 17 <= i < |line| - 1 ==> IsHexDigit(line[i])
  }

  function LineLabel(line: string): string
    requires WellFormed(line)
  {
    line[..|line| - 21]
  }

  function LineValue(line: string): nat
    requires WellFormed(line)
  {
    ParseHex(line[|line| - 17..|line| - 1])
  }

  /** A printed line is read back as the tag and the value it was printed from. */
  lemma LineRoundTrip(tag: string, v: Word)
    ensures WellFormed(Line(tag, v))
    ensures LineLabel(Line(tag, v)) == tag
    ensures LineValue(Line(tag, v)) == v
  {
    var line := Line(tag, v);
    assert line[|line| - 17..|line| - 1] == Hex(v, 16);
    assert line[..|line| - 21] == tag;
    assert line[|line| - 21..|line| - 17] == PREFIX;
    WordRoundTrip(v);
  }

  predicate AllWellFormed(lines: seq<string>)
  {
    forall i :: 0 <= i < |lines| ==> WellFormed(lines[i])
  }

  function Labels(lines: seq<string>): seq<string>
    requires AllWellFormed(lines)
  {
    seq(|lines|, i requires 0 <= i < |lines| => LineLabel(lines[i]))
  }

  function Values(lines: seq<string>): seq<nat>
    requires AllWellFormed(lines)
  {
    seq(|lines|, i requires 0 <= i < |lines| => LineValue(lines[i]))
  }

  function Reverse<T>(s: seq<T>): (r: seq<T>)
    ensures |r| == |s|
    ensures forall i :: 0 <= i < |s| ==> r[i] == s[|s| - 1 - i]
  {
    if s == [] then [] else Reverse(s[1..]) + [s[0]]
  }

  // ---------------------------------------------------------------------
  // The three register groups, in declaration (= memory) order

  datatype ScratchRegisters = ScratchRegisters(
    r11: Word, r10: Word, r9: Word, r8: Word, rsi: Word,
    rdi: Word, rdx: Word, rcx: Word, rax: Word)
  {
    static function Default(): ScratchRegisters
    {
      ScratchRegisters(0, 0, 0, 0, 0, 0, 0, 0, 0)
    }

    /** The words as they lie in memory. */
    function Words(): (ws: seq<Word>)
      ensures |ws| == 9
    {
      [r11, r10, r9, r8, rsi, rdi, rdx, rcx, rax]
    }

    function Dump(): (lines: seq<string>)
      ensures |lines| == 9
    {
      [ Line("RAX ", rax), Line("RCX ", rcx), Line("RDX ", rdx),
        Line("RDI ", rdi), Line("RSI ", rsi), Line("R8  ", r8),
        Line("R9  ", r9), Line("R10 ", r10), Line("R11 ", r11) ]
    }
  }

  datatype PreservedRegisters = PreservedRegisters(
    r15: Word, r14: Word, r13: Word, r12: Word, rbp: Word, rbx: Word)
  {
    static function Default(): PreservedRegisters
    {
      PreservedRegisters(0, 0, 0, 0, 0, 0)
    }

    function Words(): (ws: seq<Word>)
      ensures |ws| == 6
    {
      [r15, r14, r13, r12, rbp, rbx]
    }

    function Dump(): (lines: seq<string>)
      ensures |lines| == 6
    {
      [ Line("RBX ", rbx), Line("RBP ", rbp), Line("R12 ", r12),
        Line("R13 ", r13), Line("R14 ", r14), Line("R15 ", r15) ]
    }
  }

  datatype IretRegisters = IretRegisters(
    rip: Word, cs: Word, rflags: Word, rsp: Word, ss: Word)
  {
    static function Default(): IretRegisters
    {
      IretRegisters(0, 0, 0, 0, 0)
    }

    function Words(): (ws: seq<Word>)
      ensures |ws| == 5
    {
      [rip, cs, rflags, rsp, ss]
    }

    function Dump(): (lines: seq<string>)
      ensures |lines| == 5
    {
      [ Line("RFLAG ", rflags), Line("CS    ", cs), Line("RIP   ", rip),
        Line("RSP   ", rsp), Line("SS    ", ss) ]
    }
  }

  /** The scratch dump prints the registers in reverse memory order. */
  lemma ScratchDumpOrder(s: ScratchRegisters)
    ensures AllWellFormed(s.Dump())
    ensures Values(s.Dump()) == Reverse(s.Words())
    ensures Labels(s.Dump()) == ["RAX ", "RCX ", "RDX ", "RDI ", "RSI ", "R8  ", "R9  ", "R10 ", "R11 "]
  {
    LineRoundTrip("RAX ", s.rax);
    LineRoundTrip("RCX ", s.rcx);
    LineRoundTrip("RDX ", s.rdx);
    LineRoundTrip("RDI ", s.rdi);
    LineRoundTrip("RSI ", s.rsi);
    LineRoundTrip("R8  ", s.r8);
    LineRoundTrip("R9  ", s.r9);
    LineRoundTrip("R10 ", s.r10);
    LineRoundTrip("R11 ", s.r11);
  }

  /** The preserved dump prints the registers in reverse memory order. */
  lemma PreservedDumpOrder(p: PreservedRegisters)
    ensures AllWellFormed(p.Dump())
    ensures Values(p.Dump()) == Reverse(p.Words())
    ensures Labels(p.Dump()) == ["RBX ", "RBP ", "R12 ", "R13 ", "R14 ", "R15 "]
  {
    LineRoundTrip("RBX ", p.rbx);
    LineRoundTrip("RBP ", p.rbp);
    LineRoundTrip("R12 ", p.r12);
    LineRoundTrip("R13 ", p.r13);
    LineRoundTrip("R14 ", p.r14);
    LineRoundTrip("R15 ", p.r15);
  }

  /** The iret dump prints RFLAG, CS, RIP, RSP, SS. */
  lemma IretDumpOrder(r: IretRegisters)
    ensures AllWellFormed(r.Dump())
    ensures Values(r.Dump()) == [r.rflags, r.cs, r.rip, r.rsp, r.ss]
    ensures Labels(r.Dump()) == ["RFLAG ", "CS    ", "RIP   ", "RSP   ", "SS    "]
  {
    LineRoundTrip("RFLAG ", r.rflags);
    LineRoundTrip("CS    ", r.cs);
    LineRoundTrip("RIP   ", r.rip);
    LineRoundTrip("RSP   ", r.rsp);
    LineRoundTrip("SS    ", r.ss);
  }

  // ---------------------------------------------------------------------
  // The whole frame

  datatype StackFrame = StackFrame(
    preserved: PreservedRegisters,
    scratch: ScratchRegisters,
    iret: IretRegisters)
  {
    static function Default(): StackFrame
    {
      StackFrame(PreservedRegisters.Default(), ScratchRegisters.Default(), IretRegisters.Default())
    }

    /** The 20 words of the packed frame, lowest address first. */
    function Words(): (ws: seq<Word>)
      ensures |ws| == 20
      ensures ws[..6] == preserved.Words()
      ensures ws[6..15] == scratch.Words()
      ensures ws[15..] == iret.Words()
    {
      preserved.Words() + scratch.Words() + iret.Words()
    }

    /** The register named `r`. */
    function Get(r: Reg): Word
    {
      match r
      case R15 => preserved.r15
      case R14 => preserved.r14
      case R13 => preserved.r13
      case R12 => preserved.r12
      case RBP => preserved.rbp
      case RBX => preserved.rbx
      case R11 => scratch.r11
      case R10 => scratch.r10
      case R9 => scratch.r9
      case R8 => scratch.r8
      case RSI => scratch.rsi
      case RDI => scratch.rdi
      case RDX => scratch.rdx
      case RCX => scratch.rcx
      case RAX => scratch.rax
      case RIP => iret.rip
      case CS => iret.cs
      case RFLAGS => iret.rflags
      case RSP => iret.rsp
      case SS => iret.ss
    }

    /** `StackFrame::dump`: scratch, then preserved, then iret. */
    function Dump(): (lines: seq<string>)
      ensures |lines| == 20
    {
      scratch.Dump() + preserved.Dump() + iret.Dump()
    }
  }

  /** Reads 20 words back as a frame. */
  function FromWords(ws: seq<Word>): (f: StackFrame)
    requires |ws| == 20
    ensures f.Words() == ws
  {
    StackFrame(
      PreservedRegisters(ws[0], ws[1], ws[2], ws[3], ws[4], ws[5]),
      ScratchRegisters(ws[6], ws[7], ws[8], ws[9], ws[10], ws[11], ws[12], ws[13], ws[14]),
      IretRegisters(ws[15], ws[16], ws[17], ws[18], ws[19]))
  }

  lemma FrameRoundTrip(f: StackFrame)
    ensures FromWords(f.Words()) == f
  {
  }

  /** The saved registers, each named once. */
  datatype Reg =
    | R15 | R14 | R13 | R12 | RBP | RBX
    | R11 | R10 | R9 | R8 | RSI | RDI | RDX | RCX | RAX
    | RIP | CS | RFLAGS | RSP | SS
  {
    /** Position of the register's word in the packed frame. */
    function Index(): (i: nat)
      ensures i < 20
    {
      match this
      case R15 => 0  case R14 => 1  case R13 => 2  case R12 => 3
      case RBP => 4  case RBX => 5
      case R11 => 6  case R10 => 7  case R9 => 8   case R8 => 9
      case RSI => 10 case RDI => 11 case RDX => 12 case RCX => 13
      case RAX => 14
      case RIP => 15 case CS => 16  case RFLAGS => 17 case RSP => 18
      case SS => 19
    }

    /** Byte offset of the register within the packed frame. */
    function Offset(): nat
    {
      WORD_SIZE * Index()
    }

    /** Line of `StackFrame::dump` that prints the register. */
    function DumpPosition(): (i: nat)
      ensures i < 20
    {
      match this
      case RAX => 0  case RCX => 1  case RDX => 2  case RDI => 3
      case RSI => 4  case R8 => 5   case R9 => 6   case R10 => 7
      case R11 => 8
      case RBX => 9  case RBP => 10 case R12 => 11 case R13 => 12
      case R14 => 13 case R15 => 14
      case RFLAGS => 15 case CS => 16 case RIP => 17 case RSP => 18
      case SS => 19
    }
  }

  /** The register stored in word `i` of the frame. */
  function RegAt(i: nat): (r: Reg)
    requires i < 20
    ensures r.Index() == i
  {
    if i == 0 then R15 else if i == 1 then R14 else if i == 2 then R13
    else if i == 3 then R12 else if i == 4 then RBP else if i == 5 then RBX
    else if i == 6 then R11 else if i == 7 then R10 else if i == 8 then R9
    else if i == 9 then R8 else if i == 10 then RSI else if i == 11 then RDI
    else if i == 12 then RDX else if i == 13 then RCX else if i == 14 then RAX
    else if i == 15 then RIP else if i == 16 then CS else if i == 17 then RFLAGS
    else if i == 18 then RSP else SS
  }

  /** Every word of the frame is the register its index names. */
  lemma RegisterAtIndex(f: StackFrame, r: Reg)
    ensures f.Words()[r.Index()] == f.Get(r)
  {
  }

  /** `RegAt` inverts `Index`. */
  lemma RegAtIndex(r: Reg)
    ensures RegAt(r.Index()) == r
  {
  }

  /** Word indices and registers are in one-to-one correspondence. */
  lemma IndexIsBijective(r1: Reg, r2: Reg)
    ensures r1.Index() == r2.Index() <==> r1 == r2
  {
    RegAtIndex(r1);
    RegAtIndex(r2);
  }

  lemma FrameOffsets()
    ensures R11.Offset() == 48 && RAX.Offset() == 112 && RIP.Offset() == 120
    ensures WORD_SIZE * |StackFrame.Default().Words()| == 160
  {
  }

  /** The registers in the order `StackFrame::dump` prints them. */
  const DUMP_ORDER: seq<Reg> :=
    [ RAX, RCX, RDX, RDI, RSI, R8, R9, R10, R11,
      RBX, RBP, R12, R13, R14, R15,
      RFLAGS, CS, RIP, RSP, SS ]

  /** Each register is printed on the line `DumpPosition` names. */
  lemma DumpOrderAtPosition(r: Reg)
    ensures |DUMP_ORDER| == 20
    ensures DUMP_ORDER[r.DumpPosition()] == r
  {
  }

  /** Each of the 20 registers is printed exactly once, on its own line. */
  lemma DumpOrderIsPermutation(r1: Reg, r2: Reg)
    ensures r1.DumpPosition() == r2.DumpPosition() <==> r1 == r2
  {
    DumpOrderAtPosition(r1);
    DumpOrderAtPosition(r2);
  }

  /** Reading the values of two blocks of lines one after the other. */
  lemma ValuesConcat(a: seq<string>, b: seq<string>)
    requires AllWellFormed(a) && AllWellFormed(b)
    ensures AllWellFormed(a + b)
    ensures Values(a + b) == Values(a) + Values(b)
  {
    assert AllWellFormed(a + b) by {
      forall i | 0 <= i < |a + b|
        ensures WellFormed((a + b)[i])
      {
        if i >= |a| {
          assert (a + b)[i] == b[i - |a|];
        }
      }
    }
  }

  /** `StackFrame::dump` prints the scratch, preserved and iret lines in that order. */
  lemma FrameDumpOrder(f: StackFrame)
    ensures AllWellFormed(f.Dump())
    ensures Values(f.Dump()) ==
      Reverse(f.scratch.Words()) + Reverse(f.preserved.Words())
      + [f.iret.rflags, f.iret.cs, f.iret.rip, f.iret.rsp, f.iret.ss]
  {
    ScratchDumpOrder(f.scratch);
    PreservedDumpOrder(f.preserved);
    IretDumpOrder(f.iret);
    ValuesConcat(f.scratch.Dump(), f.preserved.Dump());
    ValuesConcat(f.scratch.Dump() + f.preserved.Dump(), f.iret.Dump());
  }

  /** Each register's value is printed on the line `DumpPosition` names. */
  lemma DumpLineOfRegister(f: StackFrame, r: Reg)
    ensures AllWellFormed(f.Dump())
    ensures Values(f.Dump())[r.DumpPosition()] == f.Get(r)
  {
    FrameDumpOrder(f);
  }

  /** `Default` is all zeros, and its dump prints sixteen zero digits on every line. */
  lemma DefaultIsZero()
    ensures StackFrame.Default().Words() == seq(20, _ => 0)
    ensures AllWellFormed(StackFrame.Default().Dump())
    ensures Values(StackFrame.Default().Dump()) == seq(20, _ => 0)
  {
    FrameDumpOrder(StackFrame.Default());
  }
}
