/** Concrete programs and images run through the model: a store/load program that halts, the
    reset vector, RAM mirroring and an unimplemented opcode. */
module Scenarios {
  import opened Word
  import opened Machine
  import opened Properties
  import Cpu

  /** LDA #$05; STA $0200; LDA #$00; LDA $0200; BRK */
  const Program: seq<u8> := [0xA9, 0x05, 0x8D, 0x00, 0x02, 0xA9, 0x00, 0xAD, 0x00, 0x02, 0x02]

  // The four instructions of the program, each as one step of a run.

  lemma RunLda(s: State, fuel: nat)
    requires Valid(s) && !s.halted && fuel > 0 && Read(s, s.pc) == 0xA9
    ensures Run(s, fuel) == Run(s.(a := Read(s, Inc(s.pc)), pc := Inc(Inc(s.pc)), cycles := 2), fuel - 1)
  {
    RunDecoded(s, fuel);
  }

  lemma RunStaAbsolute(s: State, fuel: nat)
    requires Valid(s) && !s.halted && fuel > 0 && Read(s, s.pc) == 0x8D
    ensures Run(s, fuel) ==
      Run(Write(s, Join(Read(s, Inc(s.pc)), Read(s, Inc(Inc(s.pc)))), s.a).(pc := Inc(Inc(Inc(s.pc))), cycles := 4), fuel - 1)
  {
    StepStoreAbsolute(s, A);
    IncThrice(s.pc);
    RunAfterStep(s, fuel);
  }

  lemma RunLdaAbsolute(s: State, fuel: nat)
    requires Valid(s) && !s.halted && fuel > 0 && Read(s, s.pc) == 0xAD
    ensures Run(s, fuel) ==
      Run(s.(a := Read(s, Join(Read(s, Inc(s.pc)), Read(s, Inc(Inc(s.pc))))), pc := Inc(Inc(Inc(s.pc))), cycles := 4), fuel - 1)
  {
    StepLoadAbsolute(s);
    IncThrice(s.pc);
    RunAfterStep(s, fuel);
  }

  lemma RunBrk(s: State, fuel: nat)
    requires Valid(s) && !s.halted && fuel > 0 && Read(s, s.pc) == 0x02
    ensures Run(s, fuel) == Run(s.(halted := true, pc := Inc(s.pc), cycles := 1), fuel - 1)
  {
    RunDecoded(s, fuel);
  }

  /** The last three instructions, from 0x8005 with 5 already stored at 0x0200: A ends as 5
      and the BRK halts with pc just past it. */
  lemma ProgramTail(t: State)
    requires Valid(t) && !t.halted && t.pc == 0x8005 && Read(t, 0x0200) == 5
    requires t.rom[5] == 0xA9 && t.rom[6] == 0x00 && t.rom[7] == 0xAD
    requires t.rom[8] == 0x00 && t.rom[9] == 0x02 && t.rom[10] == 0x02
    ensures Run(t, 3) == Trace(Halted, t.(a := 5, halted := true, pc := 0x800B, cycles := 1))
  {
    var t1 := t.(a := 0, pc := 0x8007, cycles := 2);
    RunLda(t, 3);
    assert Run(t, 3) == Run(t1, 2);
    var t2 := t1.(a := 5, pc := 0x800A, cycles := 4);
    RunLdaAbsolute(t1, 2);
    assert Run(t1, 2) == Run(t2, 1);
    RunBrk(t2, 1);
  }

  /** The first two instructions, from 0x8000: A becomes 5 and is stored at 0x0200. */
  lemma ProgramHead(s: State)
    requires Valid(s) && !s.halted && s.pc == 0x8000
    requires s.rom[0] == 0xA9 && s.rom[1] == 0x05 && s.rom[2] == 0x8D
    requires s.rom[3] == 0x00 && s.rom[4] == 0x02
    ensures Run(s, 5) == Run(Write(s, 0x0200, 5).(a := 5, pc := 0x8005, cycles := 4), 3)
  {
    var s1 := s.(a := 5, pc := 0x8002, cycles := 2);
    RunLda(s, 5);
    assert Run(s, 5) == Run(s1, 4);
    RunStaAbsolute(s1, 4);
  }

  /** The program placed at 0x8000 halts after five steps with A == 5, the byte 5 stored at
      0x0200 and pc just past the BRK; with more fuel the run ends the same way. */
  lemma ProgramHalts(s: State, fuel: nat)
    requires Valid(s) && !s.halted && s.pc == 0x8000 && s.rom[..|Program|] == Program
    requires fuel >= 5
    ensures Run(s, fuel).stop == Halted
    ensures Run(s, fuel).final.a == 5 && Read(Run(s, fuel).final, 0x0200) == 5
    ensures Run(s, fuel).final.pc == 0x800B
  {
    assert s.rom[0] == 0xA9 && s.rom[1] == 0x05 && s.rom[2] == 0x8D && s.rom[3] == 0x00;
    assert s.rom[4] == 0x02 && s.rom[5] == 0xA9 && s.rom[6] == 0x00 && s.rom[7] == 0xAD;
    assert s.rom[8] == 0x00 && s.rom[9] == 0x02 && s.rom[10] == 0x02;
    ProgramHead(s);
    ProgramTail(Write(s, 0x0200, 5).(a := 5, pc := 0x8005, cycles := 4));
    RunMoreFuel(s, 5, fuel);
  }

  /** An image whose ROM starts with the program and whose reset vector points at 0x8000:
      after LoadROM and Reset, running halts with A == 5 and 5 at 0x0200. */
  lemma ImageHalts(s: State, path: string, image: seq<u8>, fuel: nat)
    requires Valid(s) && !s.halted && |image| >= HeaderSize + RomSize
    requires image[HeaderSize..HeaderSize + |Program|] == Program
    requires image[HeaderSize + 0x7FFC] == 0x00 && image[HeaderSize + 0x7FFD] == 0x80
    requires fuel >= 5
    ensures Reset(LoadRom(s, path), image).Ok?
    ensures Run(Reset(LoadRom(s, path), image).value, fuel).stop == Halted
    ensures Run(Reset(LoadRom(s, path), image).value, fuel).final.a == 5
    ensures Read(Run(Reset(LoadRom(s, path), image).value, fuel).final, 0x0200) == 5
  {
    var t := Reset(LoadRom(s, path), image).value;
    ResetLoadsImage(LoadRom(s, path), image);
    assert t.rom[..|Program|] == image[HeaderSize..HeaderSize + |Program|];
    ProgramHalts(t, fuel);
  }

  /** Reset vector bytes 0x00 (low) and 0x90 (high) start execution at 0x9000. */
  lemma ResetVectorExample(s: State, image: seq<u8>)
    requires Valid(s) && s.filepath != None && |image| >= HeaderSize + RomSize
    requires image[HeaderSize + 0x7FFC] == 0x00 && image[HeaderSize + 0x7FFD] == 0x90
    ensures Reset(s, image).Ok? && Reset(s, image).value.pc == 0x9000
  {
    ResetLoadsImage(s, image);
  }

  /** A byte written at 0x0000 reads back at its mirrors 0x0800, 0x1000 and 0x1800. */
  lemma MirrorExample(s: State, v: u8)
    requires Valid(s)
    ensures Read(Write(s, 0x0000, v), 0x0800) == v
    ensures Read(Write(s, 0x0000, v), 0x1000) == v
    ensures Read(Write(s, 0x0000, v), 0x1800) == v
  {
    ReadAfterWrite(s, 0x0000, v, 0x0800);
    ReadAfterWrite(s, 0x0000, v, 0x1000);
    ReadAfterWrite(s, 0x0000, v, 0x1800);
  }

  /** A run that meets opcode 0xFF stops at once with NotImplemented(0xFF); only pc (one past
      the opcode) and cycles have changed. */
  lemma UnknownOpcodeStopsRun(s: State, fuel: nat)
    requires Valid(s) && !s.halted && fuel >= 1 && Read(s, s.pc) == 0xFF
    ensures Run(s, fuel) == Trace(Faulted(NotImplemented(0xFF)), s.(pc := Inc(s.pc), cycles := 1))
  {
    StepUnknownOpcode(s);
  }

  /** The same program driven through the CPU object: construct, load, reset, run. */
  method RunProgram(image: seq<u8>) returns (stop: Stop, a: u8, stored: u8)
    requires |image| >= HeaderSize + RomSize
    requires image[HeaderSize..HeaderSize + |Program|] == Program
    requires image[HeaderSize + 0x7FFC] == 0x00 && image[HeaderSize + 0x7FFD] == 0x80
    ensures stop == Halted && a == 5 && stored == 5
  {
    var cpu := new Cpu.CPU();
    cpu.LoadROM("program.nes");
    ImageHalts(Initial(), "program.nes", image, 5);
    var error := cpu.Reset(image);
    stop := cpu.Run(5);
    a := cpu.a;
    stored := cpu.Read(0x0200);
  }
}
