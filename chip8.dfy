/** The CHIP-8 machine of emulator/src/chip8.c as an object whose arrays and
    fields the operations update in place: `Chip8Init`, `Chip8LoadRom`, the
    opcode handlers and `Chip8Cycle`.

    Every operation is proved against the machine-value model: it leaves the
    object holding exactly the machine that the corresponding function of
    `State`, `Ops`, `Sprites` or `Execution` computes from the machine it
    held before, so every property proved about those functions holds of
    the object. */
module Cpu {
  import opened Wrappers
  import opened Bits
  import opened State
  import opened Instructions
  import opened Decoder
  import Ops
  import Sprites
  import Execution

  class Chip8 {
    const registers: array<u8>
    const memory: array<u8>
    const stack: array<u16>
    const keypad: array<bool>
    const video: array<bool>
    var index: u16
    var pc: u16
    var sp: u8
    var delayTimer: u8
    var soundTimer: u8

    /** The arrays have the lengths of `struct chip8`, the two byte arrays
        are distinct, and the stack pointer stays within the stack. */
    ghost predicate Valid()
      reads this
    {
      && registers.Length == RegisterCount
      && memory.Length == MemorySize
      && stack.Length == StackSize
      && keypad.Length == KeyCount
      && video.Length == VideoSize
      && registers != memory
      && sp as int <= StackSize
    }

    /** The machine the object holds. */
    ghost function Snapshot(): (m: Machine)
      requires Valid()
      reads this, registers, memory, stack, keypad, video
      ensures m.Valid()
    {
      Machine(registers[..], memory[..], index, pc, sp, stack[..],
              delayTimer, soundTimer, keypad[..], video[..])
    }

    /** `Chip8Init`: a zeroed machine with `pc` at `START_ADDRESS` and the
        font copied, byte by byte, to `FONTSET_START_ADDRESS`. */
    constructor ()
      ensures Valid() && Snapshot() == Initial()
      ensures fresh(registers) && fresh(memory) && fresh(stack) && fresh(keypad) && fresh(video)
    {
      registers := new u8[RegisterCount](_ => 0);
      memory := new u8[MemorySize](_ => 0);
      stack := new u16[StackSize](_ => 0);
      keypad := new bool[KeyCount](_ => false);
      video := new bool[VideoSize](_ => false);
      index, pc, sp := 0, StartAddress as u16, 0;
      delayTimer, soundTimer := 0, 0;
      new;
      var i := 0;
      while i < FontsetSize
        invariant 0 <= i <= FontsetSize
        invariant forall k :: 0 <= k < i ==> memory[FontsetStartAddress + k] == Fontset[k]
        invariant forall a :: 0 <= a < MemorySize && !(FontsetStartAddress <= a < FontsetStartAddress + i) ==> memory[a] == 0
        modifies memory
      {
        memory[FontsetStartAddress + i] := Fontset[i];
        i := i + 1;
      }
      assert memory[..] == InitialMemory();
      assert registers[..] == Initial().registers;
      assert stack[..] == Initial().stack;
      assert keypad[..] == Initial().keypad;
      assert video[..] == Initial().video;
    }

    /** `Chip8LoadRom`: copy the image to `START_ADDRESS`, or report that it
        does not fit and change nothing. */
    method LoadRom(image: seq<u8>) returns (r: Result<(), LoadError>)
      requires Valid() && |image| < 0x1_0000
      modifies memory
      ensures Valid()
      ensures State.LoadRom(old(Snapshot()), image).Ok? ==>
        r.Ok? && Snapshot() == State.LoadRom(old(Snapshot()), image).value
      ensures State.LoadRom(old(Snapshot()), image).Err? ==>
        r == Err(State.LoadRom(old(Snapshot()), image).error) && Snapshot() == old(Snapshot())
    {
      if |image| > MaxRomSize {
        return Err(RomTooBig(|image|));
      }
      forall k | 0 <= k < |image| {
        memory[StartAddress + k] := image[k];
      }
      assert memory[..] == CopyInto(old(memory[..]), StartAddress, image);
      return Ok(());
    }

    /** `OP_00E0`. */
    method Op00E0()
      requires Valid()
      modifies video
      ensures Valid() && Snapshot() == Ops.Op00E0(old(Snapshot()))
    {
      forall p | 0 <= p < VideoSize {
        video[p] := false;
      }
      assert video[..] == Ops.Op00E0(old(Snapshot())).video;
    }

    /** `OP_00EE`. */
    method Op00EE()
      requires Valid() && sp > 0
      modifies this
      ensures Valid() && Snapshot() == Ops.Op00EE(old(Snapshot()))
    {
      sp := sp - 1;
      pc := stack[sp];
    }

    /** `OP_1NNN`. */
    method Op1NNN(op: u16)
      requires Valid()
      modifies this
      ensures Valid() && Snapshot() == Ops.Op1NNN(old(Snapshot()), op)
    {
      pc := NNN(op);
    }

    /** `OP_2NNN`. */
    method Op2NNN(op: u16)
      requires Valid() && (sp as int) < StackSize
      modifies this, stack
      ensures Valid() && Snapshot() == Ops.Op2NNN(old(Snapshot()), op)
    {
      stack[sp] := pc;
      sp := sp + 1;
      pc := NNN(op);
    }

    /** `OP_3XKK`. */
    method Op3XKK(op: u16)
      requires Valid()
      modifies this
      ensures Valid() && Snapshot() == Ops.Op3XKK(old(Snapshot()), op)
    {
      if registers[X(op)] == KK(op) {
        pc := Advance(pc);
      }
    }

    /** `OP_4XKK`. */
    method Op4XKK(op: u16)
      requires Valid()
      modifies this
      ensures Valid() && Snapshot() == Ops.Op4XKK(old(Snapshot()), op)
    {
      if registers[X(op)] != KK(op) {
        pc := Advance(pc);
      }
    }

    /** `OP_5XY0`. */
    method Op5XY0(op: u16)
      requires Valid()
      modifies this
      ensures Valid() && Snapshot() == Ops.Op5XY0(old(Snapshot()), op)
    {
      if registers[X(op)] == registers[Y(op)] {
        pc := Advance(pc);
      }
    }

    /** `OP_6XKK`. */
    method Op6XKK(op: u16)
      requires Valid()
      modifies registers
      ensures Valid() && Snapshot() == Ops.Op6XKK(old(Snapshot()), op)
    {
      registers[X(op)] := KK(op);
    }

    /** `OP_7XKK`. */
    method Op7XKK(op: u16)
      requires Valid()
      modifies registers
      ensures Valid() && Snapshot() == Ops.Op7XKK(old(Snapshot()), op)
    {
      registers[X(op)] := (registers[X(op)] as int + KK(op)) % 0x100;
    }

    /** `OP_8XY0`. */
    method Op8XY0(op: u16)
      requires Valid()
      modifies registers
      ensures Valid() && Snapshot() == Ops.Op8XY0(old(Snapshot()), op)
    {
      registers[X(op)] := registers[Y(op)];
    }

    /** `OP_8XY1`. */
    method Op8XY1(op: u16)
      requires Valid()
      modifies registers
      ensures Valid() && Snapshot() == Ops.Op8XY1(old(Snapshot()), op)
    {
      registers[X(op)] := ByteOp(Or, registers[X(op)], registers[Y(op)]);
    }

    /** `OP_8XY2`. */
    method Op8XY2(op: u16)
      requires Valid()
      modifies registers
      ensures Valid() && Snapshot() == Ops.Op8XY2(old(Snapshot()), op)
    {
      registers[X(op)] := ByteOp(And, registers[X(op)], registers[Y(op)]);
    }

    /** `OP_8XY3`. */
    method Op8XY3(op: u16)
      requires Valid()
      modifies registers
      ensures Valid() && Snapshot() == Ops.Op8XY3(old(Snapshot()), op)
    {
      registers[X(op)] := ByteOp(Xor, registers[X(op)], registers[Y(op)]);
    }

    /** `OP_8XY4`. */
    method Op8XY4(op: u16)
      requires Valid()
      modifies registers
      ensures Valid() && Snapshot() == Ops.Op8XY4(old(Snapshot()), op)
    {
      var sum := registers[X(op)] as int + registers[Y(op)];
      if sum > 0xFF {
        registers[0xF] := 1;
      } else {
        registers[0xF] := 0;
      }
      registers[X(op)] := sum % 0x100;
    }

    /** `OP_8XY5`. */
    method Op8XY5(op: u16)
      requires Valid()
      modifies registers
      ensures Valid() && Snapshot() == Ops.Op8XY5(old(Snapshot()), op)
    {
      if registers[X(op)] > registers[Y(op)] {
        registers[0xF] := 1;
      } else {
        registers[0xF] := 0;
      }
      registers[X(op)] := (registers[X(op)] as int - registers[Y(op)]) % 0x100;
    }

    /** `OP_8XY6`. */
    method Op8XY6(op: u16)
      requires Valid()
      modifies registers
      ensures Valid() && Snapshot() == Ops.Op8XY6(old(Snapshot()), op)
    {
      registers[X(op)] := registers[X(op)] / 2;
    }

    /** `OP_8XY7`, with its chained assignment `Vx = Vy = Vx`. */
    method Op8XY7(op: u16)
      requires Valid()
      modifies registers
      ensures Valid() && Snapshot() == Ops.Op8XY7(old(Snapshot()), op)
    {
      if registers[Y(op)] > registers[X(op)] {
        registers[0xF] := 1;
      } else {
        registers[0xF] := 0;
      }
      var v := registers[X(op)];
      registers[Y(op)] := v;
      registers[X(op)] := v;
    }

    /** `OP_8XYE`. */
    method Op8XYE(op: u16)
      requires Valid()
      modifies registers
      ensures Valid() && Snapshot() == Ops.Op8XYE(old(Snapshot()), op)
    {
      registers[0xF] := registers[X(op)] / 0x80;
      registers[X(op)] := (registers[X(op)] as int * 2) % 0x100;
    }

    /** `OP_9XY0`. */
    method Op9XY0(op: u16)
      requires Valid()
      modifies this
      ensures Valid() && Snapshot() == Ops.Op9XY0(old(Snapshot()), op)
    {
      if registers[X(op)] != registers[Y(op)] {
        pc := Advance(pc);
      }
    }

    /** `OP_ANNN`. */
    method OpANNN(op: u16)
      requires Valid()
      modifies this
      ensures Valid() && Snapshot() == Ops.OpANNN(old(Snapshot()), op)
    {
      index := NNN(op);
    }

    /** `OP_BNNN`. */
    method OpBNNN(op: u16)
      requires Valid()
      modifies this
      ensures Valid() && Snapshot() == Ops.OpBNNN(old(Snapshot()), op)
    {
      pc := registers[0] as int + NNN(op);
    }

    /** `OP_CXKK`; `rand` is what `rand()` returned. */
    method OpCXKK(op: u16, rand: nat)
      requires Valid()
      modifies registers
      ensures Valid() && Snapshot() == Ops.OpCXKK(old(Snapshot()), op, rand)
    {
      registers[X(op)] := ByteOp(And, Ops.RandomByte(rand), KK(op));
    }

    /** `OP_DXYN`: the nested row and column loops, toggling each pixel
        under a set sprite bit and raising `VF` when it was lit. The loops
        meet the sprite's pixels in increasing position order, so the pixels
        drawn so far are the covered positions below the current one. */
    method OpDXYN(op: u16)
      requires Valid() && Sprites.CanDraw(Snapshot(), op)
      modifies registers, video
      ensures Valid() && Snapshot() == Sprites.OpDXYN(old(Snapshot()), op)
    {
      ghost var m := Snapshot();
      var height := N(op);
      var xpos := registers[X(op)] % 64;
      var ypos := registers[Y(op)] % 32;
      assert xpos == Sprites.XPos(m, op) && ypos == Sprites.YPos(m, op);
      registers[0xF] := 0;
      Sprites.DrawStart(m, op);
      var row := 0;
      while row < height
        invariant 0 <= row <= height
        invariant memory[..] == m.memory
        invariant forall r :: 0 <= r < 0xF ==> registers[r] == m.registers[r]
        invariant registers[0xF] == Sprites.PartialFlag(m, op, Sprites.PixelIndex(xpos, ypos, row, 0))
        invariant video[..] == Sprites.PartialVideo(m, op, Sprites.PixelIndex(xpos, ypos, row, 0))
      {
        var sbyte := memory[index as int + row];
        DrawRow(m, op, row, xpos, ypos, sbyte);
        Sprites.DrawNextRow(m, op, row);
        row := row + 1;
      }
      Sprites.DrawEnd(m, op);
      assert registers[..] == Sprites.OpDXYN(m, op).registers;
    }

    /** The column loop of `OP_DXYN` for sprite row `row`, whose bits are
        `sbyte`: the pixels of the row are drawn in turn. */
    method DrawRow(ghost m: Machine, op: u16, row: nat, xpos: nat, ypos: nat, sbyte: u8)
      requires Valid() && m.Valid() && Sprites.CanDraw(m, op) && row < N(op)
      requires xpos == Sprites.XPos(m, op) && ypos == Sprites.YPos(m, op)
      requires sbyte == m.memory[m.index + row]
      requires forall r :: 0 <= r < 0xF ==> registers[r] == m.registers[r]
      requires registers[0xF] == Sprites.PartialFlag(m, op, Sprites.PixelIndex(xpos, ypos, row, 0))
      requires video[..] == Sprites.PartialVideo(m, op, Sprites.PixelIndex(xpos, ypos, row, 0))
      modifies registers, video
      ensures forall r :: 0 <= r < 0xF ==> registers[r] == m.registers[r]
      ensures registers[0xF] == Sprites.PartialFlag(m, op, Sprites.PixelIndex(xpos, ypos, row, 8))
      ensures video[..] == Sprites.PartialVideo(m, op, Sprites.PixelIndex(xpos, ypos, row, 8))
    {
      var col := 0;
      while col < 8
        invariant 0 <= col <= 8
        invariant forall r :: 0 <= r < 0xF ==> registers[r] == m.registers[r]
        invariant registers[0xF] == Sprites.PartialFlag(m, op, Sprites.PixelIndex(xpos, ypos, row, col))
        invariant video[..] == Sprites.PartialVideo(m, op, Sprites.PixelIndex(xpos, ypos, row, col))
      {
        ghost var before, flag := video[..], registers[0xF];
        DrawColumn(sbyte, col, (ypos + row) * 64 + (xpos + col));
        Sprites.ColumnStep(m, op, row, col, before, video[..], flag, registers[0xF]);
        col := col + 1;
      }
    }

    /** The body of the column loop of `OP_DXYN`: if column `col` of the
        sprite row `sbyte` is set, toggle the pixel at position `q` and raise
        `VF` if that pixel was lit. */
    method DrawColumn(sbyte: u8, col: nat, q: nat)
      requires Valid() && col < 8
      requires Sprites.SpritePixel(sbyte, col) ==> q < VideoSize
      modifies registers, video
      ensures Valid()
      ensures forall r :: 0 <= r < 0xF ==> registers[r] == old(registers[r])
      ensures registers[0xF] == if Sprites.SpritePixel(sbyte, col) && old(video[q]) then 1 else old(registers[0xF])
      ensures video[..] == if Sprites.SpritePixel(sbyte, col) then old(video[..])[q := !old(video[q])] else old(video[..])
    {
      var spixel := ByteOp(And, sbyte, Sprites.ColumnMask(col));
      if spixel != 0 {
        if video[q] {
          registers[0xF] := 1;
        }
        video[q] := !video[q];
      }
    }

    /** `OP_EX9E`. */
    method OpEX9E(op: u16)
      requires Valid() && registers[X(op)] as int < KeyCount
      modifies this
      ensures Valid() && Snapshot() == Ops.OpEX9E(old(Snapshot()), op)
    {
      if keypad[registers[X(op)]] {
        pc := Advance(pc);
      }
    }

    /** `OP_EXA1`. */
    method OpEXA1(op: u16)
      requires Valid() && registers[X(op)] as int < KeyCount
      modifies this
      ensures Valid() && Snapshot() == Ops.OpEXA1(old(Snapshot()), op)
    {
      if !keypad[registers[X(op)]] {
        pc := Advance(pc);
      }
    }

    /** `OP_FX07`. */
    method OpFX07(op: u16)
      requires Valid()
      modifies registers
      ensures Valid() && Snapshot() == Ops.OpFX07(old(Snapshot()), op)
    {
      registers[X(op)] := delayTimer;
    }

    /** `OP_FX0A`: the keys are tested in order 0 to 15. */
    method OpFX0A(op: u16)
      requires Valid()
      modifies this, registers
      ensures Valid() && Snapshot() == Ops.OpFX0A(old(Snapshot()), op)
    {
      match Ops.FirstPressed(keypad[..], 0)
      case Some(key) =>
        registers[X(op)] := key;
      case None =>
        pc := Rewind(pc);
    }

    /** `OP_FX15`. */
    method OpFX15(op: u16)
      requires Valid()
      modifies this
      ensures Valid() && Snapshot() == Ops.OpFX15(old(Snapshot()), op)
    {
      delayTimer := registers[X(op)];
    }

    /** `OP_FX18`. */
    method OpFX18(op: u16)
      requires Valid()
      modifies this
      ensures Valid() && Snapshot() == Ops.OpFX18(old(Snapshot()), op)
    {
      soundTimer := registers[X(op)];
    }

    /** `OP_FX1E`. */
    method OpFX1E(op: u16)
      requires Valid()
      modifies this
      ensures Valid() && Snapshot() == Ops.OpFX1E(old(Snapshot()), op)
    {
      index := registers[X(op)];
    }

    /** `OP_FX29`. */
    method OpFX29(op: u16)
      requires Valid()
      modifies this
      ensures Valid() && Snapshot() == Ops.OpFX29(old(Snapshot()), op)
    {
      var digit := registers[X(op)];
      index := FontsetStartAddress + 5 * digit as int;
    }

    /** `OP_FX33`: the ones digit first, dividing `value` by ten in
        between. */
    method OpFX33(op: u16)
      requires Valid() && index as int + 2 < MemorySize
      modifies memory
      ensures Valid() && Snapshot() == Ops.OpFX33(old(Snapshot()), op)
    {
      var value := registers[X(op)];
      memory[index as int + 2] := value % 10;
      value := value / 10;
      memory[index as int + 1] := value % 10;
      value := value / 10;
      memory[index] := value % 10;
    }

    /** `OP_FX55`: `memory[I + i] := Vi` for `i < x`. */
    method OpFX55(op: u16)
      requires Valid() && InMemory(index as int, X(op))
      modifies memory
      ensures Valid() && Snapshot() == Ops.OpFX55(old(Snapshot()), op)
    {
      var vx := X(op);
      var i := 0;
      while i < vx
        invariant 0 <= i <= vx
        invariant forall a :: 0 <= a < MemorySize ==>
          memory[a] == if index as int <= a < index as int + i then registers[a - index as int] else old(memory[a])
      {
        memory[index as int + i] := registers[i];
        i := i + 1;
      }
      if vx > 0 {
        assert memory[..] == CopyInto(old(memory[..]), index as int, registers[..vx]);
      }
    }

    /** `OP_FX65`: `Vi := memory[I + i]` for `i < x`. */
    method OpFX65(op: u16)
      requires Valid() && InMemory(index as int, X(op))
      modifies registers
      ensures Valid() && Snapshot() == Ops.OpFX65(old(Snapshot()), op)
    {
      var vx := X(op);
      var i := 0;
      while i < vx
        invariant 0 <= i <= vx
        invariant forall r :: 0 <= r < RegisterCount ==>
          registers[r] == if r < i then memory[index as int + r] else old(registers[r])
      {
        registers[i] := memory[index as int + i];
        i := i + 1;
      }
      if vx > 0 {
        assert registers[..] == CopyInto(old(registers[..]), 0, memory[index..index as int + vx]);
      }
    }

    /** The handler call of `Chip8Cycle`'s switch for identity `i`. */
    method Execute(i: Instruction, op: u16, rand: nat)
      requires Valid() && Execution.CanExecute(Snapshot(), i, op)
      modifies this, registers, memory, stack, video
      ensures Valid() && Snapshot() == Execution.Execute(old(Snapshot()), i, op, rand)
    {
      match i
      case Cls => Op00E0();
      case Ret => Op00EE();
      case Jump => Op1NNN(op);
      case Call => Op2NNN(op);
      case SkipNextImm => Op3XKK(op);
      case SkipNextNImm => Op4XKK(op);
      case SkipNextReg => Op5XY0(op);
      case LoadImm => Op6XKK(op);
      case AddImm => Op7XKK(op);
      case LoadReg => Op8XY0(op);
      case OrReg => Op8XY1(op);
      case AndReg => Op8XY2(op);
      case XorReg => Op8XY3(op);
      case AddReg => Op8XY4(op);
      case SubReg => Op8XY5(op);
      case Shr => Op8XY6(op);
      case SubnReg => Op8XY7(op);
      case Shl => Op8XYE(op);
      case SkipNextNReg => Op9XY0(op);
      case LoadIdxImm => OpANNN(op);
      case JumpAdd => OpBNNN(op);
      case Random => OpCXKK(op, rand);
      case Draw => OpDXYN(op);
      case SkipNextKey => OpEX9E(op);
      case SkipNextNKey => OpEXA1(op);
      case LoadDTimer => OpFX07(op);
      case StoreKey => OpFX0A(op);
      case SetDTimer => OpFX15(op);
      case SetSTimer => OpFX18(op);
      case AddIdxReg => OpFX1E(op);
      case LoadIdxSprite => OpFX29(op);
      case LoadBcd => OpFX33(op);
      case StoreIdxAll => OpFX55(op);
      case LoadIdxAll => OpFX65(op);
    }

    /** `Chip8Cycle`: fetch, advance `pc`, dispatch, tick the timers. An
        opcode the decoder does not know only reaches the error report. */
    method Cycle(rand: nat)
      requires Valid() && Execution.CanCycle(Snapshot())
      modifies this, registers, memory, stack, video
      ensures Valid() && Snapshot() == Execution.Cycle(old(Snapshot()), rand)
    {
      ghost var m0 := Snapshot();
      var opcode: u16 := memory[pc] as int * 0x100 + memory[pc as int + 1];
      assert opcode == Execution.Fetch(m0);
      pc := Advance(pc);
      assert Snapshot() == Execution.Fetched(m0);
      match Decode(opcode) {
        case Some(i) => Execute(i, opcode, rand);
        case None =>
      }
      ghost var m1 := Snapshot();
      if delayTimer > 0 {
        delayTimer := delayTimer - 1;
      }
      if soundTimer > 0 {
        soundTimer := soundTimer - 1;
      }
      assert Snapshot() == Execution.Tick(m1);
    }
  }
}
