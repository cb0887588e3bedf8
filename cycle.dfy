/** One `Chip8Cycle` of emulator/src/chip8.c on the machine value: fetch the
    big-endian opcode at `pc`, advance `pc` by 2, run the handler the decoder
    selects, then tick both timers. An opcode the decoder does not know is
    reported and skipped: the `error` macro the cycle uses only prints. */
module Execution {
  import opened Wrappers
  import opened Bits
  import opened State
  import opened Instructions
  import opened Decoder
  import opened Ops
  import opened Sprites

  /** What the handler of `i` needs to stay inside the machine's arrays:
      a non-empty stack to return, room on it to call, a key number below 16
      for the key skips, the memory bytes from `I` on that the `Fx33`,
      `Fx55` and `Fx65` handlers touch, and a sprite that lands in the
      framebuffer. */
  predicate CanExecute(m: Machine, i: Instruction, op: u16)
    requires m.Valid()
  {
    match i
    case Ret => m.sp > 0
    case Call => m.sp < StackSize
    case Draw => CanDraw(m, op)
    case SkipNextKey => m.registers[X(op)] < KeyCount
    case SkipNextNKey => m.registers[X(op)] < KeyCount
    case LoadBcd => m.index + 2 < MemorySize
    case StoreIdxAll => InMemory(m.index, X(op))
    case LoadIdxAll => InMemory(m.index, X(op))
    case _ => true
  }

  /** With a count of zero, `Dxy0`, `Fx55` and `Fx65` touch no memory, so
      they may run whatever `I` holds; `Fx55` and `Fx65` then change
      nothing. */
  lemma ZeroCountRuns(m: Machine, op: u16)
    requires m.Valid()
    ensures N(op) == 0 ==> CanExecute(m, Draw, op)
    ensures X(op) == 0 ==> CanExecute(m, StoreIdxAll, op) && CanExecute(m, LoadIdxAll, op)
    ensures X(op) == 0 ==> OpFX55(m, op) == m && OpFX65(m, op) == m
  {
    if N(op) == 0 {
      EmptySprite(m, op);
    }
  }

  /** Run the handler of `i` on `op`; `rand` is what `rand()` returns when
      the handler is `Cxkk`. */
  function Execute(m: Machine, i: Instruction, op: u16, rand: nat): (m': Machine)
    requires m.Valid() && CanExecute(m, i, op)
    ensures m'.Valid()
    ensures m'.keypad == m.keypad
    ensures i != SetDTimer ==> m'.delayTimer == m.delayTimer
    ensures i != SetSTimer ==> m'.soundTimer == m.soundTimer
    ensures i != Call ==> m'.stack == m.stack
  {
    match i
    case Cls => Op00E0(m)
    case Ret => Op00EE(m)
    case Jump => Op1NNN(m, op)
    case Call => Op2NNN(m, op)
    case SkipNextImm => Op3XKK(m, op)
    case SkipNextNImm => Op4XKK(m, op)
    case SkipNextReg => Op5XY0(m, op)
    case LoadImm => Op6XKK(m, op)
    case AddImm => Op7XKK(m, op)
    case LoadReg => Op8XY0(m, op)
    case OrReg => Op8XY1(m, op)
    case AndReg => Op8XY2(m, op)
    case XorReg => Op8XY3(m, op)
    case AddReg => Op8XY4(m, op)
    case SubReg => Op8XY5(m, op)
    case Shr => Op8XY6(m, op)
    case SubnReg => Op8XY7(m, op)
    case Shl => Op8XYE(m, op)
    case SkipNextNReg => Op9XY0(m, op)
    case LoadIdxImm => OpANNN(m, op)
    case JumpAdd => OpBNNN(m, op)
    case Random => OpCXKK(m, op, rand)
    case Draw => OpDXYN(m, op)
    case SkipNextKey => OpEX9E(m, op)
    case SkipNextNKey => OpEXA1(m, op)
    case LoadDTimer => OpFX07(m, op)
    case StoreKey => OpFX0A(m, op)
    case SetDTimer => OpFX15(m, op)
    case SetSTimer => OpFX18(m, op)
    case AddIdxReg => OpFX1E(m, op)
    case LoadIdxSprite => OpFX29(m, op)
    case LoadBcd => OpFX33(m, op)
    case StoreIdxAll => OpFX55(m, op)
    case LoadIdxAll => OpFX65(m, op)
  }

  /** `(memory[pc] << 8u) | memory[pc + 1]`: the byte at `pc` is the high
      half of the opcode. Both bytes must lie in memory. */
  function Fetch(m: Machine): (op: u16)
    requires m.Valid() && m.pc + 1 < MemorySize
    ensures op / 0x100 == m.memory[m.pc] && op % 0x100 == m.memory[m.pc + 1]
  {
    m.memory[m.pc] as int * 0x100 + m.memory[m.pc + 1]
  }

  /** The opcode is big-endian: its high byte is `memory[pc]`, its low byte
      `memory[pc + 1]`, and its family is the high digit of `memory[pc]`. */
  lemma FetchIsBigEndian(m: Machine)
    requires m.Valid() && m.pc + 1 < MemorySize
    ensures Fetch(m) / 0x100 == m.memory[m.pc]
    ensures KK(Fetch(m)) == m.memory[m.pc + 1]
    ensures Family(Fetch(m)) == m.memory[m.pc] / 0x10
  {
  }

  /** The two timer decrements that end a cycle. */
  function Tick(m: Machine): (m': Machine)
    requires m.Valid()
    ensures m'.Valid()
    ensures m' == m.(delayTimer := m'.delayTimer, soundTimer := m'.soundTimer)
  {
    m.(delayTimer := if m.delayTimer > 0 then m.delayTimer - 1 else m.delayTimer,
       soundTimer := if m.soundTimer > 0 then m.soundTimer - 1 else m.soundTimer)
  }

  /** Each timer drops by exactly one when it is running and stays at zero
      when it is not; it never wraps to 255. */
  lemma TickCountsDown(m: Machine)
    requires m.Valid()
    ensures Tick(m).delayTimer as int == m.delayTimer as int - 1 <==> m.delayTimer > 0
    ensures Tick(m).delayTimer == m.delayTimer <==> m.delayTimer == 0
    ensures Tick(m).soundTimer as int == m.soundTimer as int - 1 <==> m.soundTimer > 0
    ensures Tick(m).soundTimer == m.soundTimer <==> m.soundTimer == 0
  {
  }

  /** The machine after the fetch step: `pc` already moved past the opcode. */
  function Fetched(m: Machine): (m': Machine)
    requires m.Valid()
    ensures m'.Valid()
  {
    m.(pc := Advance(m.pc))
  }

  /** What one cycle needs: both opcode bytes in memory, and whatever the
      selected handler needs once `pc` has moved on. */
  predicate CanCycle(m: Machine)
    requires m.Valid()
  {
    && m.pc + 1 < MemorySize
    && match Decode(Fetch(m))
       case Some(i) => CanExecute(Fetched(m), i, Fetch(m))
       case None => true
  }

  /** `Chip8Cycle`; `rand` is what `rand()` returns if the opcode is `Cxkk`. */
  function Cycle(m: Machine, rand: nat): (m': Machine)
    requires m.Valid() && CanCycle(m)
    ensures m'.Valid()
    ensures m'.keypad == m.keypad
    ensures Decode(Fetch(m)) != Some(SetDTimer) ==> m'.delayTimer as int == if m.delayTimer > 0 then m.delayTimer - 1 else 0
    ensures Decode(Fetch(m)) != Some(SetSTimer) ==> m'.soundTimer as int == if m.soundTimer > 0 then m.soundTimer - 1 else 0
  {
    var op := Fetch(m);
    var next := Fetched(m);
    match Decode(op)
    case Some(i) => Tick(Execute(next, i, op, rand))
    case None => Tick(next)
  }

  /** An opcode the decoder does not know changes nothing but `pc`, which
      moves past it, and the timers, which tick. */
  lemma UnknownOpcodeSkipped(m: Machine, rand: nat)
    requires m.Valid() && m.pc + 1 < MemorySize && Decode(Fetch(m)).None?
    ensures CanCycle(m)
    ensures var m' := Cycle(m, rand);
      && m'.pc as int == (m.pc as int + 2) % 0x1_0000
      && m' == m.(pc := m'.pc, delayTimer := m'.delayTimer, soundTimer := m'.soundTimer)
  {
  }

  /** `pc` moves on before the handler runs: a call pushes the address of
      the instruction after it. */
  lemma CallPushesNextAddress(m: Machine, rand: nat)
    requires m.Valid() && m.pc + 1 < MemorySize && Decode(Fetch(m)) == Some(Call)
    requires m.sp < StackSize
    ensures CanCycle(m)
    ensures Cycle(m, rand).stack[m.sp] as int == (m.pc as int + 2) % 0x1_0000
    ensures Cycle(m, rand).pc == NNN(Fetch(m))
  {
  }

  /** A conditional skip moves `pc` by 4 when its condition holds and by 2
      otherwise. */
  lemma SkipCycle(m: Machine, rand: nat)
    requires m.Valid() && m.pc + 1 < MemorySize && Decode(Fetch(m)) == Some(SkipNextImm)
    ensures CanCycle(m)
    ensures var op := Fetch(m);
      Cycle(m, rand).pc as int ==
        (m.pc as int + if m.registers[X(op)] == KK(op) then 4 else 2) % 0x1_0000
  {
  }

  /** Waiting for a key: with no key pressed, a whole `Fx0A` cycle leaves
      `pc`, the registers and memory as they were; only the timers tick. */
  lemma WaitingCycle(m: Machine, rand: nat)
    requires m.Valid() && m.pc + 1 < MemorySize && Decode(Fetch(m)) == Some(StoreKey)
    requires forall k :: 0 <= k < KeyCount ==> !m.keypad[k]
    ensures CanCycle(m)
    ensures Cycle(m, rand) == Tick(m)
  {
    WaitForKey(Fetched(m), Fetch(m));
    RewindAdvance(m.pc);
  }
}
