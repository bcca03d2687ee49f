/** What the memory bus, reset, the dispatch and the run loop of `Machine` guarantee. */
module Properties {
  import opened Word
  import opened Machine

  // ---------------------------------------------------------------- memory bus

  /** Every address below 0x8000 reads its RAM cell modulo 2 KiB, so an address and the same
      address 0x800 higher read the same byte. */
  lemma ReadMirrored(s: State, address: u16)
    requires Valid(s) && address < 0x8000
    ensures Read(s, address) == s.ram[address as int % RamSize]
    ensures address < 0x7800 ==> Read(s, address) == Read(s, address + 0x800)
  {
  }

  /** Every address from 0x8000 up reads the ROM at an index within the 32 KiB window. */
  lemma ReadRomWindow(s: State, address: u16)
    requires Valid(s) && address >= 0x8000
    ensures 0 <= address as int - 0x8000 < RomSize
    ensures Read(s, address) == s.rom[address as int - 0x8000]
  {
  }

  /** A write below 0x8000 changes exactly its mirrored RAM cell, and nothing else. */
  lemma WriteTouchesOneCell(s: State, address: u16, value: u8)
    requires Valid(s) && address < 0x8000
    ensures Write(s, address, value).ram[RamIndex(address as nat)] == value
    ensures forall i :: 0 <= i < RamSize && i != RamIndex(address as nat) ==>
      Write(s, address, value).ram[i] == s.ram[i]
    ensures Write(s, address, value).(ram := s.ram) == s
  {
  }

  /** A write to the ROM window changes no state at all. */
  lemma WriteToRomIgnored(s: State, address: u16, value: u8)
    requires Valid(s) && address >= 0x8000
    ensures Write(s, address, value) == s
  {
  }

  /** Reading after a write: the written byte where the two addresses share a RAM cell,
      the old byte everywhere else. */
  lemma ReadAfterWrite(s: State, address: u16, value: u8, other: u16)
    requires Valid(s)
    ensures Read(Write(s, address, value), other) ==
      if address < 0x8000 && other < 0x8000 && RamIndex(address as nat) == RamIndex(other as nat)
      then value else Read(s, other)
  {
  }

  // ---------------------------------------------------------------- reset

  /** A successful reset copies the header and the ROM out of the image, loads pc from the
      little-endian reset vector and leaves RAM, registers, `halted` and `cycles` as they
      were. */
  lemma ResetLoadsImage(s: State, image: seq<u8>)
    requires Valid(s) && s.filepath != None && |image| >= HeaderSize + RomSize
    ensures Reset(s, image).Ok?
    ensures Reset(s, image).value.header == image[..HeaderSize]
    ensures Reset(s, image).value.rom == image[HeaderSize..HeaderSize + RomSize]
    ensures Reset(s, image).value.pc as int == image[HeaderSize + 0x7FFC] as int + 0x100 * image[HeaderSize + 0x7FFD] as int
    ensures Reset(s, image).value.pc as int ==
      Reset(s, image).value.rom[0x7FFC] as int + 0x100 * Reset(s, image).value.rom[0x7FFD] as int
    ensures Reset(s, image).value.(rom := s.rom, header := s.header, pc := s.pc) == s
  {
  }

  /** After a successful reset the ROM window 0x8000..0xFFFF reads the image verbatim, just
      past its 16-byte header. */
  lemma ResetMapsRom(s: State, image: seq<u8>, address: u16)
    requires Valid(s) && s.filepath != None && |image| >= HeaderSize + RomSize
    requires address >= 0x8000
    ensures Reset(s, image).Ok?
    ensures Read(Reset(s, image).value, address) == image[HeaderSize + address as int - 0x8000]
  {
    var t := Reset(s, image).value;
    assert t.rom == image[HeaderSize..HeaderSize + RomSize];
  }

  // ---------------------------------------------------------------- dispatch

  /** Distinct case labels dispatch to distinct instructions. */
  lemma DecodeInjective(op1: u8, op2: u8)
    requires Decode(op1).Some? && Decode(op1) == Decode(op2)
    ensures op1 == op2
  {
  }

  /** An absolute operand is read low byte first: the address's low byte is the byte at pc and
      its high byte the byte after it (wrapping past 0xFFFF). */
  lemma OperandAddressBytes(s: State)
    requires Valid(s)
    ensures Low(OperandAddress(s, Absolute)) == Read(s, s.pc)
    ensures High(OperandAddress(s, Absolute)) == Read(s, Inc(s.pc))
  {
    SplitJoin(Read(s, s.pc), Read(s, Inc(s.pc)));
  }

  /** Every handled instruction but JMP moves pc past its opcode and operand bytes (1, 2 or 3,
      modulo 65536), and takes 1, 2, 3 or 4 cycles as the table says. */
  lemma StepAdvancesPc(s: State)
    requires Valid(s)
    requires Decode(Read(s, s.pc)).Some? && Decode(Read(s, s.pc)).value != Jmp
    ensures Step(s).Done?
    ensures Step(s).next.pc == Advance(s.pc, Size(Decode(Read(s, s.pc)).value))
    ensures Step(s).next.cycles == Cycles(Decode(Read(s, s.pc)).value)
    ensures 1 <= Size(Decode(Read(s, s.pc)).value) <= 3 && 1 <= Step(s).next.cycles <= 4
  {
    IncTwice(s.pc);
    IncThrice(s.pc);
  }

  /** LDA, LDX and LDY immediate set their own register to the byte after the opcode and
      change no other register and no memory. */
  lemma StepLoadImmediate(s: State, r: Register)
    requires Valid(s) && Decode(Read(s, s.pc)) == Some(Load(r, Immediate))
    ensures Step(s) == Done(SetReg(s, r, Read(s, Inc(s.pc))).(pc := Advance(s.pc, 2), cycles := 2))
    ensures Reg(Step(s).next, r) == Read(s, Inc(s.pc))
    ensures forall q :: q != r ==> Reg(Step(s).next, q) == Reg(s, q)
    ensures Step(s).next.ram == s.ram
  {
    IncTwice(s.pc);
  }

  /** STA, STX and STY absolute write their register to the little-endian operand address
      and move pc three bytes on. */
  lemma StepStoreAbsolute(s: State, r: Register)
    requires Valid(s) && Decode(Read(s, s.pc)) == Some(Store(r, Absolute))
    ensures Step(s) == Done(Write(s, Join(Read(s, Inc(s.pc)), Read(s, Inc(Inc(s.pc)))), Reg(s, r)).(pc := Advance(s.pc, 3), cycles := 4))
  {
    IncThrice(s.pc);
  }

  /** LDA absolute loads A from the little-endian operand address and moves pc three bytes on. */
  lemma StepLoadAbsolute(s: State)
    requires Valid(s) && Read(s, s.pc) == 0xAD
    ensures Step(s) == Done(s.(a := Read(s, Join(Read(s, Inc(s.pc)), Read(s, Inc(Inc(s.pc))))), pc := Advance(s.pc, 3), cycles := 4))
  {
    IncThrice(s.pc);
  }

  /** The bytes the two instructions of `StoreThenLoad` read, before and after the store. */
  lemma StoreThenLoadOperands(s: State, target: u16)
    requires Valid(s) && 0x8000 <= s.pc <= 0xFFFA && target < 0x8000
    requires Read(s, s.pc) == 0x8D && Read(s, s.pc + 3) == 0xAD
    requires Read(s, s.pc + 1) == Low(target) && Read(s, s.pc + 2) == High(target)
    requires Read(s, s.pc + 4) == Low(target) && Read(s, s.pc + 5) == High(target)
    ensures Join(Read(s, Inc(s.pc)), Read(s, Inc(Inc(s.pc)))) == target
    ensures var s1 := Write(s, target, s.a).(pc := Advance(s.pc, 3), cycles := 4);
      && Read(s1, s1.pc) == 0xAD
      && Join(Read(s1, Inc(s1.pc)), Read(s1, Inc(Inc(s1.pc)))) == target
      && Read(s1, target) == s.a
      && Advance(s1.pc, 3) == Advance(s.pc, 6)
  {
    JoinSplit(target);
    ReadAfterWrite(s, target, s.a, target);
  }

  /** STA absolute to a RAM address followed by LDA absolute from the same address leaves A
      as it was and the stored byte in that RAM cell. The two instructions sit in ROM, where
      the store cannot overwrite them. */
  lemma StoreThenLoad(s: State, target: u16)
    requires Valid(s) && 0x8000 <= s.pc <= 0xFFFA && target < 0x8000
    requires Read(s, s.pc) == 0x8D && Read(s, s.pc + 3) == 0xAD
    requires Read(s, s.pc + 1) == Low(target) && Read(s, s.pc + 2) == High(target)
    requires Read(s, s.pc + 4) == Low(target) && Read(s, s.pc + 5) == High(target)
    ensures Step(s).Done? && Step(Step(s).next).Done?
    ensures Step(Step(s).next).next.a == s.a
    ensures Step(Step(s).next).next.pc == Advance(s.pc, 6)
    ensures Step(Step(s).next).next.ram == s.ram[RamIndex(target as nat) := s.a]
  {
    StoreThenLoadOperands(s, target);
    StepStoreAbsolute(s, A);
    StepLoadAbsolute(Write(s, target, s.a).(pc := Advance(s.pc, 3), cycles := 4));
  }

  /** JMP absolute loads pc with the little-endian address in the two bytes after the opcode
      (the high byte's address wraps past 0xFFFF), takes 3 cycles and changes nothing else. */
  lemma StepJmp(s: State)
    requires Valid(s) && Read(s, s.pc) == 0x4C
    ensures Step(s) == Done(s.(pc := Join(Read(s, Inc(s.pc)), Read(s, Inc(Inc(s.pc)))), cycles := 3))
  {
  }

  /** BRK (0x02) sets `halted`; like every opcode it has also advanced pc by one and set
      cycles to 1. Nothing else changes. */
  lemma StepBrk(s: State)
    requires Valid(s) && Read(s, s.pc) == 0x02
    ensures Step(s) == Done(s.(halted := true, pc := Inc(s.pc), cycles := 1))
  {
  }

  /** An opcode outside the table raises NotImplemented; registers, memory and `halted` are
      untouched, while pc has already moved past the opcode and cycles is 1. */
  lemma StepUnknownOpcode(s: State)
    requires Valid(s) && Decode(Read(s, s.pc)) == None
    ensures Step(s).Fault? && Step(s).error == NotImplemented(Read(s, s.pc))
    ensures Step(s).next.(pc := s.pc, cycles := s.cycles) == s
    ensures Step(s).next.pc == Inc(s.pc) && Step(s).next.cycles == 1
  {
  }

  // ---------------------------------------------------------------- run loop

  /** A halted CPU runs no instruction. */
  lemma RunWhenHalted(s: State, fuel: nat)
    requires Valid(s) && s.halted
    ensures Run(s, fuel) == Trace(Halted, s)
  {
  }

  /** A step that completes hands the rest of the fuel to the next state; one that raises
      ends the run with that exception. */
  lemma RunAfterStep(s: State, fuel: nat)
    requires Valid(s) && !s.halted && fuel > 0
    ensures Step(s).Done? ==> Run(s, fuel) == Run(Step(s).next, fuel - 1)
    ensures Step(s).Fault? ==> Run(s, fuel) == Trace(Faulted(Step(s).error), Step(s).next)
  {
  }

  /** Inside a run, a handled opcode hands the rest of the run, one step shorter, to the
      state its table entry produces. */
  lemma RunDecoded(s: State, fuel: nat)
    requires Valid(s) && !s.halted && fuel > 0 && Decode(Read(s, s.pc)).Some?
    ensures Run(s, fuel) == Run(Effect(Fetch(s), Decode(Read(s, s.pc)).value), fuel - 1)
  {
    RunAfterStep(s, fuel);
  }

  /** Once a run has stopped by halting or by an exception, more fuel changes nothing: the
      fuel bound only cuts off runs that have not finished. */
  lemma {:induction false} RunMoreFuel(s: State, fuel: nat, more: nat)
    requires Valid(s) && fuel <= more && Run(s, fuel).stop != OutOfFuel
    ensures Run(s, more) == Run(s, fuel)
    decreases fuel, 0
  {
    if !s.halted && fuel > 0 {
      RunStepMoreFuel(s, fuel - 1, more - 1);
    }
  }

  /** The same for one pass of the loop and the rest of the run. */
  lemma {:induction false} RunStepMoreFuel(s: State, fuel: nat, more: nat)
    requires Valid(s) && !s.halted && fuel <= more && RunStep(s, fuel).stop != OutOfFuel
    ensures RunStep(s, more) == RunStep(s, fuel)
    decreases fuel, 1
  {
    if Step(s).Done? {
      RunMoreFuel(Step(s).next, fuel, more);
    }
  }
}
