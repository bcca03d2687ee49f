# PicoNES CPU core in Dafny

This project models the 6502-style CPU of the PicoNES emulator (`PicoNES/CPU.cs`) and proves
properties of it. It covers:

- the CPU's fields;
- the memory bus: 2 KiB of RAM mirrored every 0x800 bytes below 0x8000, and a read-only 32 KiB ROM
  from 0x8000 up;
- `LoadROM` and `Reset`, which splits a cartridge image into a 16-byte header and 32 KiB of ROM and
  loads the program counter from the little-endian reset vector at 0xFFFC/0xFFFD;
- the fetch-decode-execute step `execute`, which handles BRK, LDA/LDX/LDY immediate, STA/STX/STY
  zero page and absolute, LDA zero page and absolute, and JMP absolute, and throws on every other
  opcode;
- the `Run` loop, which executes until `halted` is set.

The project has five modules:

- `Word` (`word.dfy`): `byte` and `ushort` as the newtypes `u8` and `u16`. It also has the wrapping
  `ProgramCounter++` (`Inc`) and the little-endian `(high << 8) | low` (`Join`).
- `Machine` (`machine.dfy`): the CPU state as a value, and the specification functions. `Read`,
  `Write`, `LoadRom` and `Reset` are the bus and lifecycle. `Decode` maps an opcode to an
  instruction, and `Effect` gives what each instruction does. `Step` is one call of `execute`.
  `Run` and `RunStep` are the run loop, bounded by fuel.
- `Properties` (`properties.dfy`): lemmas about the bus, reset, the dispatch and the run loop.
- `Cpu` (`cpu.dfy`): the class `CPU`. It holds the same fields as the C# object. RAM, ROM and the
  header are arrays updated in place. Each method is proved to change the object exactly as the
  matching `Machine` function says. `Execute` has the same `switch` as the source. Each case body is
  a small method (`LoadImmediate`, `StoreAbsolute`, ...), so that each can be proved on its own
  against the matching instruction. `LoadImmediate`, `StoreZeroPage` and `StoreAbsolute` also
  take the register as a parameter, because the source repeats the same body for A, X and Y.
  `Run` is a `while (!halted)` loop with a fuel bound.
- `Scenarios` (`scenarios.dfy`): a concrete program that runs end to end, and some small examples.
  The program is `LDA #5; STA $0200; LDA #0; LDA $0200; BRK`.

Integer widths are explicit:

- `ProgramCounter++` wraps from 0xFFFF to 0.
- `(ushort)((high << 8) | low)` is `high * 0x100 + low`.
- `address & 0x07FF` keeps the low eleven bits of a non-negative address, so `RamIndex` writes it
  as `address % 0x800`.

Two details of the code shape several contracts:

- Every step starts with the opcode fetch (PicoNES/CPU.cs:83-85), before the `switch`. The fetch
  advances pc by one and sets cycles to 1. This also holds for BRK, which then only sets `halted`,
  and for an opcode outside the `switch`, whose exception leaves that update in place.
- `Reset` replaces only the ROM, the header and pc. A missing path and an image shorter than the
  header plus 32 KiB are its two error results (`NoRomLoaded`, `ImageTooShort`), because the
  first `Array.Copy` throws before it copies anything. Registers, RAM, `halted` and `cycles`
  keep their values.

## Model

| member | source | states |
|---|---|---|
| Machine.Initial | PicoNES/CPU.cs:5-17 | A new CPU is not halted, has no ROM path, and its RAM, ROM and header have 0x800, 0x8000 and 0x10 bytes |
| Machine.RamIndex | PicoNES/CPU.cs:23 | The mirrored RAM index of any address is inside the 2 KiB RAM |
| Machine.Read | PicoNES/CPU.cs:19-35 | Below 0x8000 a read returns RAM at the address modulo 0x800; from 0x8000 up it returns ROM at address - 0x8000, an index inside the ROM |
| Machine.Write | PicoNES/CPU.cs:37-51 | A write keeps the RAM, ROM and header sizes |
| Machine.LoadRom | PicoNES/CPU.cs:68-71 | LoadROM sets the path to the given one and changes nothing else |
| Machine.Reset | PicoNES/CPU.cs:53-66 | Reset fails exactly when no ROM path was loaded (NoRomLoaded) or the image is shorter than header plus ROM (ImageTooShort, the copy throws); otherwise the new state keeps the buffer sizes |
| Machine.Decode | PicoNES/CPU.cs:86-196 | Exactly the thirteen case labels of the `switch` decode to an instruction; stores have no immediate form, and X and Y are only loaded immediate |
| Machine.Fetch | PicoNES/CPU.cs:83-85 | The opcode fetch moves pc one byte on modulo 65536, sets cycles to 1, and changes nothing else |
| Machine.OperandAddress | PicoNES/CPU.cs:95-191 | An immediate operand is the byte at pc itself; a zero-page operand is the address named by the byte at pc, below 0x100 |
| Machine.PastOperand | PicoNES/CPU.cs:96-142 | The `ProgramCounter++` after each operand byte move pc past the operand: one byte for immediate and zero page, two for absolute, modulo 65536 |
| Machine.Effect | PicoNES/CPU.cs:88-193 | Every handled instruction keeps the buffer sizes |
| Machine.Step | PicoNES/CPU.cs:81-197 | One `execute` keeps the buffer sizes and never changes ROM, header or the ROM path |
| Machine.Run | PicoNES/CPU.cs:73-79 | A run keeps ROM, header and path, and reports Halted exactly when the final state is halted |
| Machine.RunStep | PicoNES/CPU.cs:75-78 | One loop pass and the rest of the run: the same guarantees as Run |
| Word.Inc | PicoNES/CPU.cs:85 | `ProgramCounter++` is the increment modulo 65536 |
| Word.SplitJoin | PicoNES/CPU.cs:65 | Joining a low and a high byte into an address gives back both bytes |
| Word.JoinSplit | PicoNES/CPU.cs:125 | Every 16-bit address is the join of its own low and high bytes |
| Word.IncTwice | PicoNES/CPU.cs:122-124 | Two `ProgramCounter++` add 2 modulo 65536 |
| Word.IncThrice | PicoNES/CPU.cs:85-124 | Three `ProgramCounter++` add 3 modulo 65536 |
| Properties.ReadMirrored | PicoNES/CPU.cs:21-23 | Every address below 0x8000 reads RAM at the address modulo 0x800, and an address below 0x7800 reads the same byte as the address 0x800 higher |
| Properties.ReadRomWindow | PicoNES/CPU.cs:25-28 | From 0x8000 up a read returns ROM at address - 0x8000, and that index is always in 0..0x7FFF, so a read never indexes outside the ROM |
| Properties.WriteTouchesOneCell | PicoNES/CPU.cs:39-41 | A write below 0x8000 sets the mirrored RAM cell, and leaves every other RAM cell unchanged, together with `halted`, `cycles`, pc, A, X, Y, the ROM, the header and the path |
| Properties.WriteToRomIgnored | PicoNES/CPU.cs:43-46 | A write at 0x8000 or above changes no state at all |
| Properties.ReadAfterWrite | PicoNES/CPU.cs:19-51 | After a write, a read returns the written byte when both addresses are RAM addresses with the same mirrored cell, and the old byte otherwise |
| Properties.ResetLoadsImage | PicoNES/CPU.cs:59-65 | A reset with a loaded path and a long enough image succeeds. The header is image[0..16). ROM is image[16..16+0x8000). pc is ROM[0x7FFC] + 0x100 * ROM[0x7FFD]. Nothing else changes |
| Properties.ResetMapsRom | PicoNES/CPU.cs:60 | After a reset every address from 0x8000 up reads the image byte 16 + (address - 0x8000) |
| Properties.DecodeInjective | PicoNES/CPU.cs:86-196 | Two case labels never dispatch to the same instruction |
| Properties.OperandAddressBytes | PicoNES/CPU.cs:121-125 | An absolute operand address is read low byte first: its low byte is the byte at pc, its high byte the byte after it |
| Properties.StepAdvancesPc | PicoNES/CPU.cs:83-184 | Every handled opcode except JMP completes, moves pc on by its size (1, 2 or 3 bytes, modulo 65536), and sets cycles to its count, between 1 and 4 |
| Properties.StepLoadImmediate | PicoNES/CPU.cs:94-108 | LDA/LDX/LDY immediate set their own register to the byte after the opcode, leave the other registers and RAM unchanged, advance pc by 2 and take 2 cycles |
| Properties.StepStoreAbsolute | PicoNES/CPU.cs:119-128 | STA/STX/STY absolute write the register to the little-endian operand address, advance pc by 3 and take 4 cycles |
| Properties.StepLoadAbsolute | PicoNES/CPU.cs:137-146 | LDA absolute loads A from the little-endian operand address, advances pc by 3 and takes 4 cycles |
| Properties.StoreThenLoad | PicoNES/CPU.cs:119-146 | When the two instructions sit in ROM (pc from 0x8000 to 0xFFFA), STA absolute to a RAM address and then LDA absolute from the same address both complete. A keeps its value, the RAM cell holds it, and pc has moved 6 bytes. The ROM premise matters: code in RAM can have its LDA operand overwritten by the STA |
| Properties.StepJmp | PicoNES/CPU.cs:187-193 | JMP sets pc to the little-endian address in the two bytes after the opcode and takes 3 cycles. Nothing else changes |
| Properties.StepBrk | PicoNES/CPU.cs:83-90 | BRK sets halted, and the fetch has advanced pc by one and set cycles to 1. Nothing else changes |
| Properties.StepUnknownOpcode | PicoNES/CPU.cs:195-196 | Any other opcode raises NotImplemented with that opcode. Registers, RAM and halted are unchanged, and only the fetch's update to pc and cycles remains |
| Properties.RunWhenHalted | PicoNES/CPU.cs:75 | A halted CPU runs no instruction |
| Properties.RunAfterStep | PicoNES/CPU.cs:75-78 | A completed step hands the rest of the run to the next state. A step that throws ends the run with that exception |
| Properties.RunDecoded | PicoNES/CPU.cs:75-78 | Within a run, a handled opcode continues from the state its table entry produces |
| Properties.RunMoreFuel | PicoNES/CPU.cs:73-79 | Once a run has halted or thrown, more fuel gives the same result |
| Properties.RunStepMoreFuel | PicoNES/CPU.cs:75-78 | The same for one loop pass and the rest of the run |
| Cpu.CPU.constructor | PicoNES/CPU.cs:5-17 | A new object is the initial state, with freshly allocated buffers |
| Cpu.CPU.Read | PicoNES/CPU.cs:19-35 | The object's read returns what the bus specification reads from its state |
| Cpu.CPU.Write | PicoNES/CPU.cs:37-51 | The object's write changes its state exactly as the bus specification does, and touches only RAM |
| Cpu.CPU.LoadROM | PicoNES/CPU.cs:68-71 | LoadROM only records the path |
| Cpu.CPU.Reset | PicoNES/CPU.cs:53-66 | On success the object becomes the specification's reset state. On failure the error is returned and the object is unchanged |
| Cpu.CPU.Reg | PicoNES/CPU.cs:9-11 | Returns the named register of the object's state |
| Cpu.CPU.Execute | PicoNES/CPU.cs:81-197 | One call changes the object to the specification's next state, and returns the exception exactly when the specification raises one |
| Cpu.CPU.LoadImmediate | PicoNES/CPU.cs:94-108 | The immediate-load case body does what the specification's effect for that instruction says |
| Cpu.CPU.LoadZeroPage | PicoNES/CPU.cs:129-136 | The LDA zero-page case body does what the specification's effect says |
| Cpu.CPU.LoadAbsolute | PicoNES/CPU.cs:137-146 | The LDA absolute case body does what the specification's effect says |
| Cpu.CPU.StoreZeroPage | PicoNES/CPU.cs:111-118 | The STA/STX/STY zero-page case bodies (also lines 149-156 and 167-174) do what the specification's effect says |
| Cpu.CPU.StoreAbsolute | PicoNES/CPU.cs:119-128 | The STA/STX/STY absolute case bodies (also lines 157-166 and 175-184) do what the specification's effect says |
| Cpu.CPU.JumpAbsolute | PicoNES/CPU.cs:187-193 | The JMP case body does what the specification's effect says |
| Cpu.CPU.Run | PicoNES/CPU.cs:73-79 | The loop ends in the state the specification's run reaches with the same fuel, with the same stop reason |
| Scenarios.RunLda | PicoNES/CPU.cs:94-98 | Within a run, LDA immediate continues with A loaded and pc advanced by 2 |
| Scenarios.RunStaAbsolute | PicoNES/CPU.cs:119-128 | Within a run, STA absolute continues with A written to the operand address |
| Scenarios.RunLdaAbsolute | PicoNES/CPU.cs:137-146 | Within a run, LDA absolute continues with A loaded from the operand address |
| Scenarios.RunBrk | PicoNES/CPU.cs:88-90 | Within a run, BRK continues from the state with halted set, pc advanced by one and cycles 1 |
| Scenarios.ProgramHead | PicoNES/CPU.cs:94-128 | The program's first two instructions store 5 at 0x0200 |
| Scenarios.ProgramTail | PicoNES/CPU.cs:88-146 | The last three instructions reload the 5 and halt |
| Scenarios.ProgramHalts | PicoNES/CPU.cs:73-196 | With the program at 0x8000, a run of 5 or more steps halts with A == 5, 5 at 0x0200 and pc at 0x800B |
| Scenarios.ImageHalts | PicoNES/CPU.cs:53-79 | LoadROM, then Reset with an image whose vector points at the program, then Run halts with A == 5 and 5 at 0x0200 |
| Scenarios.ResetVectorExample | PicoNES/CPU.cs:63-65 | Vector bytes 0x00 (low) and 0x90 (high) start execution at 0x9000 |
| Scenarios.MirrorExample | PicoNES/CPU.cs:23 | A byte written at 0x0000 reads back at 0x0800, 0x1000 and 0x1800 |
| Scenarios.UnknownOpcodeStopsRun | PicoNES/CPU.cs:195-196 | A run that meets opcode 0xFF stops at once with NotImplemented(0xFF) |
| Scenarios.RunProgram | PicoNES/CPU.cs:53-79 | The CPU object, once loaded, reset and run on the program image, halts with A == 5 and 5 at 0x0200 |

## Left out

- `File.ReadAllBytes` (PicoNES/CPU.cs:59): file I/O. `Reset` takes the file's bytes as an argument, and the path is only recorded.
- `executePPU` (PicoNES/CPU.cs:199, 202-205): an empty stub with no effect. Each step that completes passes it `cycles * 3` (PicoNES/CPU.cs:199). A step that throws never reaches the call.
- Run's unbounded loop: the model takes a fuel bound. A run that uses up its fuel reports OutOfFuel. Nothing is said about ROMs that never reach BRK.
- The `else` branches of `Read` and `Write` (memory-mapped I/O placeholders) are not modelled. They can never run, because the tests `address < 0x8000` and `address >= 0x8000` together cover every `ushort`.
- Exception messages: an exception is modelled as an `Error` value (NoRomLoaded, ImageTooShort, NotImplemented(opcode)) without its text.
- `cycles` is a `uint` in the source. It is a `nat` here because it only ever holds 1 to 4, so no wrap-around can occur.
