/** The CPU's integer widths: C# `byte` and `ushort`, with their wrap-around written out. */
module Word {

  /** An unsigned 8-bit value (C# `byte`). */
  newtype u8 = n: int | 0 <= n < 0x100

  /** An unsigned 16-bit value (C# `ushort`): addresses and the program counter. */
  newtype u16 = n: int | 0 <= n < 0x1_0000

  /** `w++` on a ushort: 0xFFFF wraps to 0. */
  function Inc(w: u16): (r: u16)
    ensures r as int == (w as int + 1) % 0x1_0000
  {
    if w == 0xFFFF then 0 else w + 1
  }

  /** The address `n` bytes after `w`, modulo 65536. */
  function Advance(w: u16, n: nat): u16
  {
    ((w as int + n) % 0x1_0000) as u16
  }

  /** `(ushort)((high << 8) | low)`: the little-endian pair, low byte first. Since `low` has
      only eight bits, the `|` adds it to the shifted high byte. */
  function Join(low: u8, high: u8): u16
  {
    (high as int * 0x100 + low as int) as u16
  }

  /** Low and high byte of a 16-bit value. */
  function Low(w: u16): u8 { (w as int % 0x100) as u8 }

  function High(w: u16): u8 { (w as int / 0x100) as u8 }

  /** Joining two bytes and splitting the result gives them back. */
  lemma SplitJoin(low: u8, high: u8)
    ensures Low(Join(low, high)) == low && High(Join(low, high)) == high
  {
  }

  /** Splitting a 16-bit value and joining the halves gives it back. */
  lemma JoinSplit(w: u16)
    ensures Join(Low(w), High(w)) == w
  {
  }

  /** Two (three) successive wrapping increments advance by two (three). */
  lemma IncTwice(w: u16)
    ensures Inc(Inc(w)) == Advance(w, 2)
  {
  }

  lemma IncThrice(w: u16)
    ensures Inc(Inc(Inc(w))) == Advance(w, 3)
  {
  }
}
