/** The CPU as a value: its state, the memory bus, reset, one fetch-decode-execute step and the
    run loop. The class `Cpu.CPU` is proved to behave as these functions say. */
module Machine {
  import opened Word

  const RamSize := 0x800
  const RomSize := 0x8000
  const HeaderSize := 0x10

  datatype Option<T> = None | Some(value: T)

  datatype Result<T> = Ok(value: T) | Err(error: Error)

  /** The exceptions the CPU raises. */
  datatype Error =
    | NoRomLoaded                 // Reset before any LoadROM
    | ImageTooShort(length: nat)  // the header and ROM copy reads past the end of the image
    | NotImplemented(opcode: u8)  // an opcode outside the dispatch

  /** Every field of the CPU object. `filepath` is the path given to LoadROM (`null` is None). */
  datatype State = State(
    halted: bool,
    cycles: nat,
    pc: u16,
    a: u8,
    x: u8,
    y: u8,
    ram: seq<u8>,
    rom: seq<u8>,
    header: seq<u8>,
    filepath: Option<string>)

  /** The three buffers keep the sizes they are allocated with. */
  predicate Valid(s: State)
  {
    |s.ram| == RamSize && |s.rom| == RomSize && |s.header| == HeaderSize
  }

  /** A freshly constructed CPU: C# default values, except `cycles`, which starts at 1. */
  function Initial(): (s: State)
    ensures Valid(s) && !s.halted && s.filepath == None
  {
    State(false, 1, 0, 0, 0, 0, seq(RamSize, _ => 0), seq(RomSize, _ => 0), seq(HeaderSize, _ => 0), None)
  }

  // ---------------------------------------------------------------- memory bus

  /** The RAM cell an address below 0x8000 selects, `address & 0x07FF`: the low eleven bits
      of a non-negative address, which is the address modulo 0x800. So the 2 KiB RAM repeats
      every 0x800 bytes. */
  function RamIndex(address: nat): (i: nat)
    ensures i < RamSize
  {
    address % RamSize
  }

  /** Below 0x8000 the 2 KiB RAM, mirrored; from 0x8000 up the 32 KiB ROM. */
  function Read(s: State, address: u16): (r: u8)
    requires Valid(s)
    ensures address < 0x8000 ==> r == s.ram[address as int % RamSize]
    ensures address >= 0x8000 ==> 0 <= address as int - 0x8000 < RomSize && r == s.rom[address as int - 0x8000]
  {
    if address < 0x8000 then s.ram[RamIndex(address as nat)] else s.rom[address as int - 0x8000]
  }

  /** A RAM address stores into its mirrored cell; a ROM address is ignored. */
  function Write(s: State, address: u16, value: u8): (r: State)
    requires Valid(s)
    ensures Valid(r)
  {
    if address < 0x8000 then s.(ram := s.ram[RamIndex(address as nat) := value]) else s
  }

  // ---------------------------------------------------------------- lifecycle

  /** LoadROM records the path and changes nothing else. */
  function LoadRom(s: State, path: string): (r: State)
    ensures r.filepath == Some(path) && r.(filepath := s.filepath) == s
  {
    s.(filepath := Some(path))
  }

  /** Reset with `image` standing for the bytes of the file at `filepath`. Fails when no ROM
      was loaded, and when the image is shorter than the header plus 32 KiB (the ROM copy
      throws before it copies anything). Otherwise the ROM and header are replaced and the
      program counter is loaded from the reset vector at 0xFFFC (low) and 0xFFFD (high). */
  function Reset(s: State, image: seq<u8>): (r: Result<State>)
    requires Valid(s)
    ensures r.Err? <==> s.filepath == None || |image| < HeaderSize + RomSize
    ensures r.Err? ==> r.error == if s.filepath == None then NoRomLoaded else ImageTooShort(|image|)
    ensures r.Ok? ==> Valid(r.value)
  {
    if s.filepath == None then Err(NoRomLoaded)
    else if |image| < HeaderSize + RomSize then Err(ImageTooShort(|image|))
    else
      var t := s.(rom := image[HeaderSize..HeaderSize + RomSize], header := image[..HeaderSize]);
      var low := Read(t, 0xFFFC);
      var high := Read(t, 0xFFFD);
      Ok(t.(pc := Join(low, high)))
  }

  // ---------------------------------------------------------------- instructions

  datatype Register = A | X | Y

  datatype Mode = Immediate | ZeroPage | Absolute

  /** The instructions the dispatch handles. */
  datatype Instruction = Brk | Load(r: Register, mode: Mode) | Store(r: Register, mode: Mode) | Jmp

  /** The thirteen case labels of the dispatch. */
  const Opcodes: set<u8> := {0x02, 0xA9, 0xA2, 0xA0, 0x85, 0x8D, 0xA5, 0xAD, 0x86, 0x8E, 0x84, 0x8C, 0x4C}

  /** The opcode table of the dispatch; None for every byte it does not handle. Stores have no
      immediate form, and X and Y are only loaded immediate. */
  function Decode(opcode: u8): (r: Option<Instruction>)
    ensures r.Some? <==> opcode in Opcodes
    ensures r.Some? && r.value.Store? ==> r.value.mode != Immediate
    ensures r.Some? && r.value.Load? && r.value.r != A ==> r.value.mode == Immediate
  {
    match opcode
    case 0x02 => Some(Brk)
    case 0xA9 => Some(Load(A, Immediate))
    case 0xA2 => Some(Load(X, Immediate))
    case 0xA0 => Some(Load(Y, Immediate))
    case 0x85 => Some(Store(A, ZeroPage))
    case 0x8D => Some(Store(A, Absolute))
    case 0xA5 => Some(Load(A, ZeroPage))
    case 0xAD => Some(Load(A, Absolute))
    case 0x86 => Some(Store(X, ZeroPage))
    case 0x8E => Some(Store(X, Absolute))
    case 0x84 => Some(Store(Y, ZeroPage))
    case 0x8C => Some(Store(Y, Absolute))
    case 0x4C => Some(Jmp)
    case _ => None
  }

  /** Bytes an instruction occupies: the opcode plus its operand bytes. */
  function Size(i: Instruction): nat
  {
    match i
    case Brk => 1
    case Jmp => 3
    case Load(_, m) => 1 + OperandBytes(m)
    case Store(_, m) => 1 + OperandBytes(m)
  }

  function OperandBytes(m: Mode): nat
  {
    match m
    case Immediate => 1
    case ZeroPage => 1
    case Absolute => 2
  }

  /** The cycle count the dispatch assigns. */
  function Cycles(i: Instruction): nat
  {
    match i
    case Brk => 1
    case Jmp => 3
    case Load(_, m) => ModeCycles(m)
    case Store(_, m) => ModeCycles(m)
  }

  function ModeCycles(m: Mode): nat
  {
    match m
    case Immediate => 2
    case ZeroPage => 3
    case Absolute => 4
  }

  function Reg(s: State, r: Register): u8
  {
    match r
    case A => s.a
    case X => s.x
    case Y => s.y
  }

  function SetReg(s: State, r: Register, v: u8): State
  {
    match r
    case A => s.(a := v)
    case X => s.(x := v)
    case Y => s.(y := v)
  }

  // ---------------------------------------------------------------- execution

  /** The opcode fetch that starts every step: pc moves past the opcode and cycles is 1. */
  function Fetch(s: State): (t: State)
    ensures t.pc as int == (s.pc as int + 1) % 0x1_0000 && t.cycles == 1
    ensures t.(pc := s.pc, cycles := s.cycles) == s
  {
    s.(cycles := 1, pc := Inc(s.pc))
  }

  /** Where an instruction's operand lies, with pc at the first byte after the opcode: that
      byte itself (immediate), the zero-page address it holds, or the little-endian address
      in it and the next byte (absolute). */
  function OperandAddress(s: State, m: Mode): (address: u16)
    requires Valid(s)
    ensures m == Immediate ==> address == s.pc
    ensures m == ZeroPage ==> address < 0x100 && address as u8 == Read(s, s.pc)
  {
    match m
    case Immediate => s.pc
    case ZeroPage => Read(s, s.pc) as u16
    case Absolute => Join(Read(s, s.pc), Read(s, Inc(s.pc)))
  }

  /** pc once the operand bytes have been consumed, one `ProgramCounter++` per byte. */
  function PastOperand(pc: u16, m: Mode): (r: u16)
    ensures r == Advance(pc, OperandBytes(m))
  {
    IncTwice(pc);
    if m == Absolute then Inc(Inc(pc)) else Inc(pc)
  }

  /** What a decoded instruction does once its opcode has been fetched: BRK halts, JMP loads
      pc with its operand address, a load or store moves one byte between a register and the
      operand address and leaves pc past the operand; cycles becomes the instruction's count
      (BRK keeps the 1 the fetch set). */
  function Effect(s: State, i: Instruction): (t: State)
    requires Valid(s)
    ensures Valid(t)
  {
    match i
    case Brk => s.(halted := true)
    case Jmp => s.(pc := OperandAddress(s, Absolute), cycles := Cycles(i))
    case Load(r, m) =>
      SetReg(s, r, Read(s, OperandAddress(s, m))).(pc := PastOperand(s.pc, m), cycles := Cycles(i))
    case Store(r, m) =>
      Write(s, OperandAddress(s, m), Reg(s, r)).(pc := PastOperand(s.pc, m), cycles := Cycles(i))
  }

  /** What one step produced: the new state, and the exception if one was raised. The
      exception leaves the updates made before it in place. */
  datatype Outcome = Done(next: State) | Fault(next: State, error: Error)

  /** One call of `execute`: fetch the opcode at pc, then dispatch on it through the table.
      An opcode outside the table raises NotImplemented after the fetch. */
  function Step(s: State): (o: Outcome)
    requires Valid(s)
    ensures Valid(o.next)
    ensures o.next.rom == s.rom && o.next.header == s.header && o.next.filepath == s.filepath
  {
    var opcode := Read(s, s.pc);
    match Decode(opcode)
    case None => Fault(Fetch(s), NotImplemented(opcode))
    case Some(i) => Done(Effect(Fetch(s), i))
  }

  /** Why a run stopped. */
  datatype Stop = Halted | Faulted(error: Error) | OutOfFuel

  datatype Trace = Trace(stop: Stop, final: State)

  /** `Run`: step while not halted, for at most `fuel` steps (the source loops without bound).
      An exception ends the run. */
  function Run(s: State, fuel: nat): (t: Trace)
    requires Valid(s)
    ensures Valid(t.final)
    ensures t.final.rom == s.rom && t.final.header == s.header && t.final.filepath == s.filepath
    ensures t.stop == Halted <==> t.final.halted
    decreases fuel, 0
  {
    if s.halted then Trace(Halted, s)
    else if fuel == 0 then Trace(OutOfFuel, s)
    else RunStep(s, fuel - 1)
  }

  /** One pass of the loop body with `fuel` further passes allowed: execute, then go on from
      the new state, or stop with the exception the step raised. */
  function RunStep(s: State, fuel: nat): (t: Trace)
    requires Valid(s) && !s.halted
    ensures Valid(t.final)
    ensures t.final.rom == s.rom && t.final.header == s.header && t.final.filepath == s.filepath
    ensures t.stop == Halted <==> t.final.halted
    decreases fuel, 1
  {
    match Step(s)
    case Done(next) => Run(next, fuel)
    case Fault(next, e) => Trace(Faulted(e), next)
  }
}
