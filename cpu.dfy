/** The CPU object: registers and buffers updated in place, as the emulator holds them. Each
    method is proved to do what the matching function of `Machine` says. */
module Cpu {
  import opened Word
  import opened Machine
  import opened Properties

  class CPU {
    var halted: bool
    var cycles: nat
    var pc: u16
    var a: u8
    var x: u8
    var y: u8
    const ram: array<u8>
    const rom: array<u8>
    const header: array<u8>
    var filepath: Option<string>

    /** The buffers have the sizes they were allocated with. */
    ghost predicate Valid()
      reads this
    {
      ram.Length == RamSize && rom.Length == RomSize && header.Length == HeaderSize
    }

    /** The object's state as a `Machine.State` value. */
    ghost function Model(): (m: State)
      reads this, ram, rom, header
      requires Valid()
      ensures Machine.Valid(m)
    {
      State(halted, cycles, pc, a, x, y, ram[..], rom[..], header[..], filepath)
    }

    constructor ()
      ensures Valid() && fresh(ram) && fresh(rom) && fresh(header)
      ensures Model() == Initial()
    {
      halted := false;
      cycles := 1;
      pc, a, x, y := 0, 0, 0, 0;
      ram := new u8[RamSize](_ => 0);
      rom := new u8[RomSize](_ => 0);
      header := new u8[HeaderSize](_ => 0);
      filepath := None;
    }

    /** The memory bus read: the RAM mirrored every 2 KiB below 0x8000, the ROM above. */
    function Read(address: u16): (r: u8)
      reads this, ram, rom, header
      requires Valid()
      ensures r == Machine.Read(Model(), address)
    {
      if address < 0x8000 then ram[RamIndex(address as nat)] else rom[address as int - 0x8000]
    }

    /** The memory bus write: the mirrored RAM cell below 0x8000; ROM writes are ignored. */
    method Write(address: u16, value: u8)
      requires Valid()
      modifies ram
      ensures Model() == Machine.Write(old(Model()), address, value)
    {
      if address < 0x8000 {
        ram[RamIndex(address as nat)] := value;
      }
    }

    method LoadROM(path: string)
      modifies this
      ensures Valid() == old(Valid())
      ensures Valid() ==> Model() == LoadRom(old(Model()), path)
    {
      filepath := Some(path);
    }

    /** Reset from `image`, the bytes of the file at `filepath`. Returns the exception it
        raises, if any; on an exception nothing has changed. */
    method Reset(image: seq<u8>) returns (error: Option<Error>)
      requires Valid()
      modifies this, rom, header
      ensures Valid()
      ensures match Machine.Reset(old(Model()), image)
        case Ok(t) => error == None && Model() == t
        case Err(e) => error == Some(e) && Model() == old(Model())
    {
      if filepath == None {
        return Some(NoRomLoaded);
      }
      if |image| < HeaderSize + RomSize {
        return Some(ImageTooShort(|image|));
      }
      forall i | 0 <= i < RomSize {
        rom[i] := image[HeaderSize + i];
      }
      forall i | 0 <= i < HeaderSize {
        header[i] := image[i];
      }
      assert rom[..] == image[HeaderSize..HeaderSize + RomSize];
      assert header[..] == image[..HeaderSize];
      var low := Read(0xFFFC);
      var high := Read(0xFFFD);
      pc := Join(low, high);
      error := None;
    }

    /** The register `r` names. */
    function Reg(r: Register): (v: u8)
      reads this
      ensures Valid() ==> v == Machine.Reg(Model(), r)
    {
      match r
      case A => a
      case X => x
      case Y => y
    }

    /** One fetch-decode-execute step. Returns the exception an unhandled opcode raises; the
        opcode fetch has then already advanced pc and set cycles to 1. */
    method Execute() returns (error: Option<Error>)
      requires Valid()
      modifies this, ram
      ensures Valid()
      ensures Step(old(Model())) == if error == None then Done(Model()) else Fault(Model(), error.value)
    {
      var opcode := Read(pc);
      cycles := 1;
      pc := Inc(pc);
      error := None;
      match opcode
      case 0x02 => halted := true;
      case 0xA9 => LoadImmediate(A);
      case 0xA2 => LoadImmediate(X);
      case 0xA0 => LoadImmediate(Y);
      case 0x85 => StoreZeroPage(A);
      case 0x8D => StoreAbsolute(A);
      case 0xA5 => LoadZeroPage();
      case 0xAD => LoadAbsolute();
      case 0x86 => StoreZeroPage(X);
      case 0x8E => StoreAbsolute(X);
      case 0x84 => StoreZeroPage(Y);
      case 0x8C => StoreAbsolute(Y);
      case 0x4C => JumpAbsolute();
      case _ => error := Some(NotImplemented(opcode));
    }

    // The bodies of the dispatch's cases. Each starts with pc at the byte after the opcode.

    /** LDA/LDX/LDY #imm: the register takes the operand byte. */
    method LoadImmediate(r: Register)
      requires Valid()
      modifies this
      ensures Valid()
      ensures Model() == Effect(old(Model()), Load(r, Immediate))
    {
      var value := Read(pc);
      match r {
        case A => a := value;
        case X => x := value;
        case Y => y := value;
      }
      pc := Inc(pc);
      cycles := 2;
    }

    /** LDA zp: A takes the byte at the zero-page address the operand names. */
    method LoadZeroPage()
      requires Valid()
      modifies this
      ensures Valid()
      ensures Model() == Effect(old(Model()), Load(A, ZeroPage))
    {
      var address := Read(pc);
      pc := Inc(pc);
      a := Read(address as u16);
      cycles := 3;
    }

    /** LDA abs: A takes the byte at the little-endian operand address. */
    method LoadAbsolute()
      requires Valid()
      modifies this
      ensures Valid()
      ensures Model() == Effect(old(Model()), Load(A, Absolute))
    {
      var low := Read(pc);
      pc := Inc(pc);
      var high := Read(pc);
      pc := Inc(pc);
      a := Read(Join(low, high));
      cycles := 4;
    }

    /** STA/STX/STY zp: the register is written to the zero-page address the operand names. */
    method StoreZeroPage(r: Register)
      requires Valid()
      modifies this, ram
      ensures Valid()
      ensures Model() == Effect(old(Model()), Store(r, ZeroPage))
    {
      var address := Read(pc);
      pc := Inc(pc);
      Write(address as u16, Reg(r));
      cycles := 3;
    }

    /** STA/STX/STY abs: the register is written to the little-endian operand address. */
    method StoreAbsolute(r: Register)
      requires Valid()
      modifies this, ram
      ensures Valid()
      ensures Model() == Effect(old(Model()), Store(r, Absolute))
    {
      var low := Read(pc);
      pc := Inc(pc);
      var high := Read(pc);
      pc := Inc(pc);
      Write(Join(low, high), Reg(r));
      cycles := 4;
    }

    /** JMP abs: pc takes the little-endian address in the operand; the high byte is read one
        past pc without moving pc first. */
    method JumpAbsolute()
      requires Valid()
      modifies this
      ensures Valid()
      ensures Model() == Effect(old(Model()), Jmp)
    {
      var low := Read(pc);
      var high := Read(Inc(pc));
      pc := Join(low, high);
      cycles := 3;
    }

    /** Execute until halted, for at most `fuel` steps. An exception ends the run. */
    method Run(fuel: nat) returns (stop: Stop)
      requires Valid()
      modifies this, ram
      ensures Valid()
      ensures Machine.Run(old(Model()), fuel) == Trace(stop, Model())
    {
      var left := fuel;
      while !halted && left > 0
        invariant Valid()
        invariant Machine.Run(old(Model()), fuel) == Machine.Run(Model(), left)
        decreases left
      {
        ghost var before := Model();
        var error := Execute();
        RunAfterStep(before, left);
        if error != None {
          return Faulted(error.value);
        }
        left := left - 1;
      }
      stop := if halted then Halted else OutOfFuel;
    }
  }
}
