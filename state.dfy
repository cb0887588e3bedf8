/** The state of one CHIP-8 machine (`Chip8` in emulator/src/chip8.c) as a
    value, with machine initialisation and ROM loading.

    The layout follows `struct chip8`: sixteen byte registers, 4096 bytes of
    memory, a 16-bit index register and program counter, a byte stack pointer
    over a sixteen-entry stack of 16-bit return addresses, two byte timers,
    sixteen keys and a 64 x 32 framebuffer. A pixel is a `bool` (lit or not),
    a key is a `bool` (pressed or not). */
module State {
  import opened Wrappers
  import opened Bits

  const MemorySize: nat := 4096
  const RegisterCount: nat := 16
  const StackSize: nat := 16
  const KeyCount: nat := 16
  const VideoWidth: nat := 64
  const VideoHeight: nat := 32
  const VideoSize: nat := 64 * 32

  /** `START_ADDRESS`: where a ROM is loaded and execution starts. */
  const StartAddress: nat := 0x200

  /** `FONTSET_START_ADDRESS`: where the built-in hexadecimal font lives. */
  const FontsetStartAddress: nat := 0x50

  /** `FONTSET_SIZE`: sixteen glyphs of five rows each. */
  const FontsetSize: nat := 80

  /** The glyphs of the digits 0 to F, five bytes per glyph, one byte per row
      with the lit pixels in the high nibble. */
  const Fontset: seq<u8> := [
    0xF0, 0x90, 0x90, 0x90, 0xF0, // 0
    0x20, 0x60, 0x20, 0x20, 0x70, // 1
    0xF0, 0x10, 0xF0, 0x80, 0xF0, // 2
    0xF0, 0x10, 0xF0, 0x10, 0xF0, // 3
    0x90, 0x90, 0xF0, 0x10, 0x10, // 4
    0xF0, 0x80, 0xF0, 0x10, 0xF0, // 5
    0xF0, 0x80, 0xF0, 0x90, 0xF0, // 6
    0xF0, 0x10, 0x20, 0x40, 0x40, // 7
    0xF0, 0x90, 0xF0, 0x90, 0xF0, // 8
    0xF0, 0x90, 0xF0, 0x10, 0xF0, // 9
    0xF0, 0x90, 0xF0, 0x90, 0x90, // A
    0xE0, 0x90, 0xE0, 0x90, 0xE0, // B
    0xF0, 0x80, 0x80, 0x80, 0xF0, // C
    0xE0, 0x90, 0x90, 0x90, 0xE0, // D
    0xF0, 0x80, 0xF0, 0x80, 0xF0, // E
    0xF0, 0x80, 0xF0, 0x80, 0x80  // F
  ]

  /** The whole machine state. */
  datatype Machine = Machine(
    registers: seq<u8>,
    memory: seq<u8>,
    index: u16,
    pc: u16,
    sp: u8,
    stack: seq<u16>,
    delayTimer: u8,
    soundTimer: u8,
    keypad: seq<bool>,
    video: seq<bool>)
  {
    /** Every array of the record has its declared length, and the stack
        pointer stays within the stack. */
    predicate Valid()
    {
      |registers| == RegisterCount && |memory| == MemorySize && |stack| == StackSize
      && |keypad| == KeyCount && |video| == VideoSize && sp <= StackSize
    }
  }

  /** The `count` bytes from address `start` on lie inside memory. A copy of
      no bytes touches nothing, wherever it starts. */
  predicate InMemory(start: nat, count: nat)
  {
    count == 0 || start + count <= MemorySize
  }

  /** `dst` with `src` written over it from position `at` on, as `memcpy`
      does. */
  function CopyInto<T>(dst: seq<T>, at: nat, src: seq<T>): (r: seq<T>)
    requires at + |src| <= |dst|
    ensures |r| == |dst|
    ensures forall k :: 0 <= k < |r| ==> r[k] == if at <= k < at + |src| then src[k - at] else dst[k]
  {
    dst[..at] + src + dst[at + |src|..]
  }

  /** The memory image `Chip8Init` leaves: zero except for the font at
      `FONTSET_START_ADDRESS`. */
  function InitialMemory(): (mem: seq<u8>)
    ensures |mem| == MemorySize
    ensures forall a :: 0 <= a < MemorySize ==>
      mem[a] == if FontsetStartAddress <= a < FontsetStartAddress + FontsetSize then Fontset[a - FontsetStartAddress] else 0
  {
    CopyInto(seq(MemorySize, _ => 0), FontsetStartAddress, Fontset)
  }

  /** `Chip8Init`: the record cleared to zero, `pc` at `START_ADDRESS` and the
      font copied to `FONTSET_START_ADDRESS`. */
  function Initial(): (m: Machine)
    ensures m.Valid()
    ensures m.pc == StartAddress && m.sp == 0 && m.index == 0
    ensures m.memory[FontsetStartAddress..FontsetStartAddress + FontsetSize] == Fontset
  {
    Machine(
      seq(RegisterCount, _ => 0),
      InitialMemory(),
      0, StartAddress as u16, 0,
      seq(StackSize, _ => 0),
      0, 0,
      seq(KeyCount, _ => false),
      seq(VideoSize, _ => false))
  }

  /** After initialisation everything is zero, except that `pc` is
      `START_ADDRESS` and the font occupies memory from
      `FONTSET_START_ADDRESS` on. */
  lemma InitialState()
    ensures Initial().pc == 0x200 && Initial().index == 0 && Initial().sp == 0
    ensures Initial().delayTimer == 0 && Initial().soundTimer == 0
    ensures forall r :: 0 <= r < 16 ==> Initial().registers[r] == 0
    ensures forall s :: 0 <= s < 16 ==> Initial().stack[s] == 0
    ensures forall k :: 0 <= k < 16 ==> !Initial().keypad[k]
    ensures forall p :: 0 <= p < 2048 ==> !Initial().video[p]
    ensures forall a :: 0 <= a < 80 ==> Initial().memory[0x50 + a] == Fontset[a]
    ensures forall a :: 0 <= a < 4096 && !(0x50 <= a < 0x50 + 80) ==> Initial().memory[a] == 0
  {
  }

  /** Why `Chip8LoadRom` can fail. */
  datatype LoadError = RomTooBig(size: nat)

  /** The largest ROM that fits between `START_ADDRESS` and the end of memory. */
  const MaxRomSize: nat := MemorySize - StartAddress

  /** `Chip8LoadRom`: copy the ROM image to `START_ADDRESS`. A ROM larger than
      the space above `START_ADDRESS` is refused and nothing is copied. The
      image length is the ROM's `uint16_t rom_size`. */
  function LoadRom(m: Machine, image: seq<u8>): (r: Result<Machine, LoadError>)
    requires m.Valid() && |image| < 0x1_0000
    ensures r.Ok? <==> |image| <= MaxRomSize
    ensures r.Ok? ==> r.value.Valid()
  {
    if |image| > MaxRomSize then Err(RomTooBig(|image|))
    else Ok(m.(memory := CopyInto(m.memory, StartAddress, image)))
  }

  /** A loaded ROM occupies memory from `START_ADDRESS` on, and nothing else
      in the machine changes. */
  lemma LoadRomPlacesImage(m: Machine, image: seq<u8>)
    requires m.Valid() && |image| <= MaxRomSize
    ensures LoadRom(m, image).Ok?
    ensures var m' := LoadRom(m, image).value;
      && m'.memory[StartAddress..StartAddress + |image|] == image
      && m'.memory[..StartAddress] == m.memory[..StartAddress]
      && m'.memory[StartAddress + |image|..] == m.memory[StartAddress + |image|..]
      && m' == m.(memory := m'.memory)
  {
    var m' := LoadRom(m, image).value;
    assert m'.memory[StartAddress..StartAddress + |image|] == image;
  }

  /** The boundary of the size check: 3584 bytes load, 3585 do not. */
  lemma LoadRomBoundary(m: Machine)
    requires m.Valid()
    ensures LoadRom(m, seq(3584, _ => 0)).Ok?
    ensures LoadRom(m, seq(3585, _ => 0)) == Err(RomTooBig(3585))
  {
  }

  /** What `Chip8LoadRom` as written does with a ROM image: whether it
      reports the ROM as too big, and the bytes `memcpy` stores, by address.
      The copy happens whether or not the error was reported. */
  datatype LoadOutcome = LoadOutcome(reported: bool, written: map<int, u8>)

  /** The image byte `memcpy` stores at address `a`. */
  function StoredAt(image: seq<u8>, a: int): u8
    requires StartAddress <= a < StartAddress + |image|
  {
    image[a - StartAddress]
  }

  /** `Chip8LoadRom` as written: the size check only reports, and
      `rom_size` bytes are copied to `START_ADDRESS` regardless. */
  function LoadRomAsWritten(image: seq<u8>): (r: LoadOutcome)
    requires |image| < 0x1_0000
    ensures r.reported <==> |image| > MaxRomSize
    ensures forall a :: a in r.written <==> StartAddress <= a < StartAddress + |image|
    ensures forall k :: 0 <= k < |image| ==> r.written[StartAddress + k] == image[k]
  {
    var written := map a | StartAddress <= a < StartAddress + |image| :: StoredAt(image, a);
    LoadOutcome(|image| > MemorySize - StartAddress, written)
  }

  /** As written, the error is reported exactly when the copy stores a byte
      at or past address 4096, the end of `memory`: a 3585-byte ROM writes
      address 4096. When nothing is reported the stores are those of
      `LoadRom`. */
  lemma LoadRomAsWrittenOverruns(m: Machine, image: seq<u8>)
    requires m.Valid() && |image| < 0x1_0000
    ensures 4096 in LoadRomAsWritten(seq(3585, _ => 0)).written
    ensures LoadRomAsWritten(image).reported <==> exists a :: a in LoadRomAsWritten(image).written && a >= MemorySize
    ensures !LoadRomAsWritten(image).reported ==> forall a :: 0 <= a < MemorySize ==>
      LoadRom(m, image).value.memory[a] == if a in LoadRomAsWritten(image).written then LoadRomAsWritten(image).written[a] else m.memory[a]
  {
    var r := LoadRomAsWritten(image);
    if r.reported {
      assert StartAddress + |image| - 1 in r.written;
    }
  }

  /** The machine with register `r` set to `v`. */
  function SetRegister(m: Machine, r: nat, v: u8): (m': Machine)
    requires m.Valid() && r < RegisterCount
    ensures m'.Valid()
    ensures m'.registers[r] == v
    ensures forall s :: 0 <= s < RegisterCount && s != r ==> m'.registers[s] == m.registers[s]
    ensures m' == m.(registers := m'.registers)
  {
    m.(registers := m.registers[r := v])
  }

  /** `pc += 2` on a `uint16_t`. */
  function Advance(pc: u16): (next: u16)
    ensures next == (pc + 2) % 0x1_0000
  {
    if pc + 2 < 0x1_0000 then pc + 2 else pc + 2 - 0x1_0000
  }

  /** `pc -= 2` on a `uint16_t`. */
  function Rewind(pc: u16): (prev: u16)
    ensures prev == (pc - 2) % 0x1_0000
  {
    if pc >= 2 then pc - 2 else pc + 0x1_0000 - 2
  }

  /** Rewinding undoes advancing. */
  lemma RewindAdvance(pc: u16)
    ensures Rewind(Advance(pc)) == pc
  {
  }
}
