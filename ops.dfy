/** The opcode handlers of emulator/src/chip8.c (`OP_00E0` ... `OP_FX65`) as
    functions from the machine before the handler to the machine after it.

    Each handler runs after `Chip8Cycle` has already advanced `pc` past the
    opcode, so "skip the next instruction" is one more `pc += 2`. Operands
    are the opcode fields of module `Bits`: `x`, `y`, `n`, `kk` and `nnn`.
    Handlers are stated as the code performs them, including where the code
    departs from its own comment; the lemmas below say where. */
module Ops {
  import opened Wrappers
  import opened Bits
  import opened State

  /** `m'` is `m` with register `r` holding `v`; no other register and no
      other part of the machine changes. */
  predicate Loads(m: Machine, m': Machine, r: nat, v: int)
    requires m.Valid() && m'.Valid() && r < RegisterCount
  {
    && m'.registers[r] == v
    && (forall s :: 0 <= s < RegisterCount && s != r ==> m'.registers[s] == m.registers[s])
    && m' == m.(registers := m'.registers)
  }

  /** `m'` differs from `m` at most in register `r` and the flag register
      `VF`. */
  predicate TouchesOnly(m: Machine, m': Machine, r: nat)
    requires m.Valid() && m'.Valid() && r < RegisterCount
  {
    && (forall s :: 0 <= s < RegisterCount && s != r && s != 0xF ==> m'.registers[s] == m.registers[s])
    && m' == m.(registers := m'.registers)
  }

  /** `m'` is `m` with `pc` advanced past the next instruction exactly when
      `cond` holds, and otherwise unchanged. */
  predicate SkipsWhen(m: Machine, m': Machine, cond: bool)
  {
    m' == m.(pc := if cond then Advance(m.pc) else m.pc)
  }

  /** `OP_00E0`: every pixel goes dark; nothing else changes. */
  function Op00E0(m: Machine): (m': Machine)
    requires m.Valid()
    ensures m'.Valid()
    ensures forall p :: 0 <= p < VideoSize ==> !m'.video[p]
    ensures m' == m.(video := m'.video)
  {
    m.(video := seq(VideoSize, _ => false))
  }

  /** `OP_00EE`: pop the return address. An empty stack (`sp == 0`) would
      index `stack[255]`. */
  function Op00EE(m: Machine): (m': Machine)
    requires m.Valid() && m.sp > 0
    ensures m'.Valid()
    ensures m'.sp == m.sp - 1 && m'.pc == m.stack[m'.sp]
    ensures m' == m.(sp := m'.sp, pc := m'.pc)
  {
    var sp := m.sp - 1;
    m.(sp := sp, pc := m.stack[sp])
  }

  /** `OP_1NNN`: jump to `nnn`. */
  function Op1NNN(m: Machine, op: u16): (m': Machine)
    requires m.Valid()
    ensures m'.Valid()
    ensures m'.pc == op % 0x1000 && m' == m.(pc := m'.pc)
  {
    m.(pc := NNN(op))
  }

  /** `OP_2NNN`: push `pc`, then jump to `nnn`. A full stack (`sp == 16`)
      would write past `stack`. */
  function Op2NNN(m: Machine, op: u16): (m': Machine)
    requires m.Valid() && m.sp < StackSize
    ensures m'.Valid()
    ensures m'.sp == m.sp + 1 && m'.stack[m.sp] == m.pc && m'.pc == NNN(op)
    ensures forall s :: 0 <= s < StackSize && s != m.sp ==> m'.stack[s] == m.stack[s]
    ensures m' == m.(stack := m'.stack, sp := m'.sp, pc := m'.pc)
  {
    m.(stack := m.stack[m.sp := m.pc], sp := m.sp + 1, pc := NNN(op))
  }

  /** `OP_3XKK`: skip if `Vx == kk`. */
  function Op3XKK(m: Machine, op: u16): (m': Machine)
    requires m.Valid()
    ensures m'.Valid()
    ensures SkipsWhen(m, m', m.registers[X(op)] == KK(op))
  {
    if m.registers[X(op)] == KK(op) then m.(pc := Advance(m.pc)) else m
  }

  /** `OP_4XKK`: skip if `Vx != kk`. */
  function Op4XKK(m: Machine, op: u16): (m': Machine)
    requires m.Valid()
    ensures m'.Valid()
    ensures SkipsWhen(m, m', m.registers[X(op)] != KK(op))
  {
    if m.registers[X(op)] != KK(op) then m.(pc := Advance(m.pc)) else m
  }

  /** `OP_5XY0`: skip if `Vx == Vy`. */
  function Op5XY0(m: Machine, op: u16): (m': Machine)
    requires m.Valid()
    ensures m'.Valid()
    ensures SkipsWhen(m, m', m.registers[X(op)] == m.registers[Y(op)])
  {
    if m.registers[X(op)] == m.registers[Y(op)] then m.(pc := Advance(m.pc)) else m
  }

  /** `OP_6XKK`: `Vx := kk`. */
  function Op6XKK(m: Machine, op: u16): (m': Machine)
    requires m.Valid()
    ensures m'.Valid()
    ensures Loads(m, m', X(op), op % 0x100)
  {
    SetRegister(m, X(op), KK(op))
  }

  /** `OP_7XKK`: `Vx += kk` on a byte; no flag. */
  function Op7XKK(m: Machine, op: u16): (m': Machine)
    requires m.Valid()
    ensures m'.Valid()
    ensures Loads(m, m', X(op), (m.registers[X(op)] as int + op % 0x100) % 0x100)
  {
    SetRegister(m, X(op), (m.registers[X(op)] as int + KK(op)) % 0x100)
  }

  /** `OP_8XY0`: `Vx := Vy`. */
  function Op8XY0(m: Machine, op: u16): (m': Machine)
    requires m.Valid()
    ensures m'.Valid()
    ensures Loads(m, m', X(op), m.registers[Y(op)])
  {
    SetRegister(m, X(op), m.registers[Y(op)])
  }

  /** `OP_8XY1`: `Vx |= Vy`. */
  function Op8XY1(m: Machine, op: u16): (m': Machine)
    requires m.Valid()
    ensures m'.Valid()
    ensures Loads(m, m', X(op), m'.registers[X(op)])
    ensures forall k :: 0 <= k < 8 ==> Bit(m'.registers[X(op)], k) == ApplyBit(Or, Bit(m.registers[X(op)], k), Bit(m.registers[Y(op)], k))
  {
    LogicPerBit(Or, m.registers[X(op)], m.registers[Y(op)]);
    SetRegister(m, X(op), ByteOp(Or, m.registers[X(op)], m.registers[Y(op)]))
  }

  /** `OP_8XY2`: `Vx &= Vy`. */
  function Op8XY2(m: Machine, op: u16): (m': Machine)
    requires m.Valid()
    ensures m'.Valid()
    ensures Loads(m, m', X(op), m'.registers[X(op)])
    ensures forall k :: 0 <= k < 8 ==> Bit(m'.registers[X(op)], k) == ApplyBit(And, Bit(m.registers[X(op)], k), Bit(m.registers[Y(op)], k))
  {
    LogicPerBit(And, m.registers[X(op)], m.registers[Y(op)]);
    SetRegister(m, X(op), ByteOp(And, m.registers[X(op)], m.registers[Y(op)]))
  }

  /** `OP_8XY3`: `Vx ^= Vy`. */
  function Op8XY3(m: Machine, op: u16): (m': Machine)
    requires m.Valid()
    ensures m'.Valid()
    ensures Loads(m, m', X(op), m'.registers[X(op)])
    ensures forall k :: 0 <= k < 8 ==> Bit(m'.registers[X(op)], k) == ApplyBit(Xor, Bit(m.registers[X(op)], k), Bit(m.registers[Y(op)], k))
  {
    LogicPerBit(Xor, m.registers[X(op)], m.registers[Y(op)]);
    SetRegister(m, X(op), ByteOp(Xor, m.registers[X(op)], m.registers[Y(op)]))
  }

  /** `OP_8XY4`: the sum is taken first, then `VF` is set to the carry, then
      `Vx` receives the low byte of the sum. */
  function Op8XY4(m: Machine, op: u16): (m': Machine)
    requires m.Valid()
    ensures m'.Valid()
    ensures TouchesOnly(m, m', X(op))
  {
    var sum := m.registers[X(op)] as int + m.registers[Y(op)];
    var flagged := SetRegister(m, 0xF, if sum > 0xFF then 1 else 0);
    SetRegister(flagged, X(op), sum % 0x100)
  }

  /** `OP_8XY5`: `VF` is set to 1 if `Vx > Vy` and to 0 otherwise, then
      `Vx -= Vy` on a byte (reading the registers after the flag is set). */
  function Op8XY5(m: Machine, op: u16): (m': Machine)
    requires m.Valid()
    ensures m'.Valid()
    ensures TouchesOnly(m, m', X(op))
  {
    var flagged := SetRegister(m, 0xF, if m.registers[X(op)] > m.registers[Y(op)] then 1 else 0);
    SetRegister(flagged, X(op), (flagged.registers[X(op)] as int - flagged.registers[Y(op)]) % 0x100)
  }

  /** `OP_8XY6`: `Vx >>= 1`; `VF` is not written. */
  function Op8XY6(m: Machine, op: u16): (m': Machine)
    requires m.Valid()
    ensures m'.Valid()
    ensures Loads(m, m', X(op), m.registers[X(op)] / 2)
  {
    SetRegister(m, X(op), m.registers[X(op)] / 2)
  }

  /** `OP_8XY7`: `VF` is set to 1 if `Vy > Vx` and to 0 otherwise; then the
      statement `registers[vx] = registers[vy] = registers[vx]` copies `Vx`
      into `Vy` and stores it back into `Vx`. */
  function Op8XY7(m: Machine, op: u16): (m': Machine)
    requires m.Valid()
    ensures m'.Valid()
    ensures TouchesOnly(m, m', Y(op))
  {
    var flagged := SetRegister(m, 0xF, if m.registers[Y(op)] > m.registers[X(op)] then 1 else 0);
    var v := flagged.registers[X(op)];
    SetRegister(SetRegister(flagged, Y(op), v), X(op), v)
  }

  /** `OP_8XYE`: `VF := (Vx & 0x80) >> 7`, bit 7 of `Vx`; then `Vx <<= 1` on
      a byte (reading `Vx` after the flag is set). */
  function Op8XYE(m: Machine, op: u16): (m': Machine)
    requires m.Valid()
    ensures m'.Valid()
    ensures TouchesOnly(m, m', X(op))
  {
    var flagged := SetRegister(m, 0xF, m.registers[X(op)] / 0x80);
    SetRegister(flagged, X(op), (flagged.registers[X(op)] as int * 2) % 0x100)
  }

  /** `OP_9XY0`: skip if `Vx != Vy`. */
  function Op9XY0(m: Machine, op: u16): (m': Machine)
    requires m.Valid()
    ensures m'.Valid()
    ensures SkipsWhen(m, m', m.registers[X(op)] != m.registers[Y(op)])
  {
    if m.registers[X(op)] != m.registers[Y(op)] then m.(pc := Advance(m.pc)) else m
  }

  /** `OP_ANNN`: `I := nnn`. */
  function OpANNN(m: Machine, op: u16): (m': Machine)
    requires m.Valid()
    ensures m'.Valid()
    ensures m'.index == op % 0x1000 && m' == m.(index := m'.index)
  {
    m.(index := NNN(op))
  }

  /** `OP_BNNN`: jump to `V0 + nnn`, which may lie past the end of memory
      (up to 0x10FE). */
  function OpBNNN(m: Machine, op: u16): (m': Machine)
    requires m.Valid()
    ensures m'.Valid()
    ensures m'.pc == m.registers[0] as int + op % 0x1000 && m' == m.(pc := m'.pc)
    ensures m'.pc <= 0xFF + 0xFFF
  {
    m.(pc := m.registers[0] as int + NNN(op))
  }

  /** `RandomByte`: `rand() % UINT8_MAX`, where `rand` is the value `rand()`
      returned. `UINT8_MAX` is 255, so 0xFF is never produced. */
  function RandomByte(rand: nat): (b: u8)
    ensures b < 0xFF
  {
    rand % 0xFF
  }

  /** `OP_CXKK`: `Vx := RandomByte() & kk`. */
  function OpCXKK(m: Machine, op: u16, rand: nat): (m': Machine)
    requires m.Valid()
    ensures m'.Valid()
    ensures Loads(m, m', X(op), m'.registers[X(op)])
    ensures m'.registers[X(op)] <= op % 0x100 && m'.registers[X(op)] <= RandomByte(rand)
  {
    SetRegister(m, X(op), ByteOp(And, RandomByte(rand), KK(op)))
  }

  /** `OP_EX9E`: skip if the key numbered `Vx` is pressed. `keypad` has 16
      entries, so `Vx` must name one. */
  function OpEX9E(m: Machine, op: u16): (m': Machine)
    requires m.Valid() && m.registers[X(op)] < KeyCount
    ensures m'.Valid()
    ensures SkipsWhen(m, m', m.keypad[m.registers[X(op)]])
  {
    if m.keypad[m.registers[X(op)]] then m.(pc := Advance(m.pc)) else m
  }

  /** `OP_EXA1`: skip if the key numbered `Vx` is not pressed. */
  function OpEXA1(m: Machine, op: u16): (m': Machine)
    requires m.Valid() && m.registers[X(op)] < KeyCount
    ensures m'.Valid()
    ensures SkipsWhen(m, m', !m.keypad[m.registers[X(op)]])
  {
    if !m.keypad[m.registers[X(op)]] then m.(pc := Advance(m.pc)) else m
  }

  /** `OP_FX07`: `Vx := delay_timer`. */
  function OpFX07(m: Machine, op: u16): (m': Machine)
    requires m.Valid()
    ensures m'.Valid()
    ensures Loads(m, m', X(op), m.delayTimer)
  {
    SetRegister(m, X(op), m.delayTimer)
  }

  /** The lowest-numbered pressed key at or after `from`, the order in which
      `OP_FX0A` tests the keys; `None` when none of them is pressed. */
  function FirstPressed(keys: seq<bool>, from: nat): (k: Option<nat>)
    ensures k.Some? ==> from <= k.value < |keys| && keys[k.value]
    ensures k.Some? ==> forall j :: from <= j < k.value ==> !keys[j]
    ensures k.None? ==> forall j :: from <= j < |keys| ==> !keys[j]
    decreases |keys| - from
  {
    if from >= |keys| then None
    else if keys[from] then Some(from)
    else FirstPressed(keys, from + 1)
  }

  /** `OP_FX0A`: store the lowest-numbered pressed key in `Vx`; with no key
      pressed, `pc -= 2` so that the same opcode runs again next cycle. */
  function OpFX0A(m: Machine, op: u16): (m': Machine)
    requires m.Valid()
    ensures m'.Valid()
    ensures FirstPressed(m.keypad, 0).Some? ==> Loads(m, m', X(op), FirstPressed(m.keypad, 0).value)
    ensures FirstPressed(m.keypad, 0).None? ==> m' == m.(pc := Rewind(m.pc))
  {
    match FirstPressed(m.keypad, 0)
    case Some(key) => SetRegister(m, X(op), key)
    case None => m.(pc := Rewind(m.pc))
  }

  /** `OP_FX15`: `delay_timer := Vx`. */
  function OpFX15(m: Machine, op: u16): (m': Machine)
    requires m.Valid()
    ensures m'.Valid()
    ensures m'.delayTimer == m.registers[X(op)] && m' == m.(delayTimer := m'.delayTimer)
  {
    m.(delayTimer := m.registers[X(op)])
  }

  /** `OP_FX18`: `sound_timer := Vx`. */
  function OpFX18(m: Machine, op: u16): (m': Machine)
    requires m.Valid()
    ensures m'.Valid()
    ensures m'.soundTimer == m.registers[X(op)] && m' == m.(soundTimer := m'.soundTimer)
  {
    m.(soundTimer := m.registers[X(op)])
  }

  /** `OP_FX1E`: `I := Vx` (the comment says `I = I + Vx`). */
  function OpFX1E(m: Machine, op: u16): (m': Machine)
    requires m.Valid()
    ensures m'.Valid()
    ensures m'.index == m.registers[X(op)] && m' == m.(index := m'.index)
  {
    m.(index := m.registers[X(op)])
  }

  /** `OP_FX29`: point `I` at the font glyph of digit `Vx`. */
  function OpFX29(m: Machine, op: u16): (m': Machine)
    requires m.Valid()
    ensures m'.Valid()
    ensures m'.index == 0x50 + 5 * m.registers[X(op)] as int && m' == m.(index := m'.index)
  {
    m.(index := FontsetStartAddress + 5 * m.registers[X(op)] as int)
  }

  /** `OP_FX33`: the decimal digits of `Vx`, ones at `I + 2`, tens at
      `I + 1`, hundreds at `I`; all three bytes must lie in memory. */
  function OpFX33(m: Machine, op: u16): (m': Machine)
    requires m.Valid() && m.index + 2 < MemorySize
    ensures m'.Valid()
    ensures m' == m.(memory := m'.memory)
    ensures forall a :: 0 <= a < MemorySize && !(m.index <= a <= m.index + 2) ==> m'.memory[a] == m.memory[a]
  {
    var value := m.registers[X(op)];
    m.(memory := m.memory[m.index + 2 := value % 10][m.index + 1 := value / 10 % 10][m.index := value / 10 / 10 % 10])
  }

  /** `OP_FX55`: `memory[I + i] := Vi` for `i < x` (the comment says "V0
      through Vx"; the loop stops before `Vx`). With `x == 0` the loop does
      not run, whatever `I` is. */
  function OpFX55(m: Machine, op: u16): (m': Machine)
    requires m.Valid() && InMemory(m.index, X(op))
    ensures m'.Valid()
    ensures m' == m.(memory := m'.memory)
  {
    if X(op) == 0 then m
    else m.(memory := CopyInto(m.memory, m.index, m.registers[..X(op)]))
  }

  /** `OP_FX65`: `Vi := memory[I + i]` for `i < x` (again stopping before
      `Vx`); with `x == 0` nothing is read. */
  function OpFX65(m: Machine, op: u16): (m': Machine)
    requires m.Valid() && InMemory(m.index, X(op))
    ensures m'.Valid()
    ensures m' == m.(registers := m'.registers)
  {
    if X(op) == 0 then m
    else m.(registers := CopyInto(m.registers, 0, m.memory[m.index..m.index + X(op)]))
  }

  // Properties of the handlers.

  /** A return right after a call restores `pc` and `sp`; the stack slot
      keeps the return address. */
  lemma CallThenReturn(m: Machine, op: u16)
    requires m.Valid() && m.sp < StackSize
    ensures Op00EE(Op2NNN(m, op)) == m.(stack := m.stack[m.sp := m.pc])
  {
  }

  /** A jump lands on the address written in its own opcode. */
  lemma JumpTarget(m: Machine, op: u16)
    requires m.Valid() && Family(op) == 0x1
    ensures Op1NNN(m, op).pc == op - 0x1000
    ensures Op1NNN(m, op) == m.(pc := Op1NNN(m, op).pc)
  {
  }

  /** The four register skips add 2 to `pc` exactly when their condition
      holds and change nothing else; `3xkk`/`4xkk` and `5xy0`/`9xy0` skip in
      complementary cases. */
  lemma RegisterSkips(m: Machine, op: u16)
    requires m.Valid()
    ensures SkipsWhen(m, Op3XKK(m, op), m.registers[X(op)] == KK(op))
    ensures SkipsWhen(m, Op4XKK(m, op), m.registers[X(op)] != KK(op))
    ensures SkipsWhen(m, Op5XY0(m, op), m.registers[X(op)] == m.registers[Y(op)])
    ensures SkipsWhen(m, Op9XY0(m, op), m.registers[X(op)] != m.registers[Y(op)])
    ensures Op3XKK(m, op) == m <==> Op4XKK(m, op) != m
    ensures Op5XY0(m, op) == m <==> Op9XY0(m, op) != m
  {
  }

  /** The key skips add 2 to `pc` exactly when key `Vx` is (for `Ex9E`) or
      is not (for `ExA1`) pressed, change nothing else, and so skip in
      complementary cases. */
  lemma KeySkips(m: Machine, op: u16)
    requires m.Valid() && m.registers[X(op)] < KeyCount
    ensures SkipsWhen(m, OpEX9E(m, op), m.keypad[m.registers[X(op)]])
    ensures SkipsWhen(m, OpEXA1(m, op), !m.keypad[m.registers[X(op)]])
    ensures OpEX9E(m, op) == m <==> OpEXA1(m, op) != m
  {
  }

  /** `7xkk` adds modulo 256 and, unless `x` is F, leaves the flag alone. */
  lemma AddImmediate(m: Machine, op: u16)
    requires m.Valid()
    ensures Op7XKK(m, op).registers[X(op)] == (m.registers[X(op)] as int + KK(op)) % 0x100
    ensures X(op) != 0xF ==> Op7XKK(m, op).registers[0xF] == m.registers[0xF]
  {
  }

  /** `8xy4` is an add with carry: the flag is 1 exactly when the sum
      exceeds a byte and `Vx` and the flag together hold the full sum. When
      `x` is F, the low byte of the sum overwrites the flag. */
  lemma AddWithCarry(m: Machine, op: u16)
    requires m.Valid()
    ensures var r := Op8XY4(m, op).registers;
      X(op) != 0xF ==>
        && (r[0xF] == 1 <==> m.registers[X(op)] as int + m.registers[Y(op)] > 0xFF)
        && r[0xF] <= 1
        && r[X(op)] as int + 0x100 * (r[0xF] as int) == m.registers[X(op)] as int + m.registers[Y(op)]
    ensures X(op) == 0xF ==>
      Op8XY4(m, op).registers[0xF] == (m.registers[0xF] as int + m.registers[Y(op)]) % 0x100
    ensures forall s :: 0 <= s < 0xF && s != X(op) ==> Op8XY4(m, op).registers[s] == m.registers[s]
  {
  }

  /** `8xy5` subtracts modulo 256 and sets the flag to "not borrow", tested
      strictly: equal operands give flag 0 although nothing is borrowed. The
      flag is written before the subtraction reads its operands, so when `VF`
      is an operand the subtraction sees the new flag: with `x` F the flag is
      overwritten by `flag - Vy`, and with `y` F the flag is subtracted. */
  lemma SubtractNotBorrow(m: Machine, op: u16)
    requires m.Valid()
    ensures var r := Op8XY5(m, op).registers;
      X(op) != 0xF && Y(op) != 0xF ==>
        && (r[0xF] == 1 <==> m.registers[X(op)] > m.registers[Y(op)])
        && r[0xF] <= 1
        && r[X(op)] == (m.registers[X(op)] as int - m.registers[Y(op)]) % 0x100
        && (m.registers[X(op)] >= m.registers[Y(op)] ==> r[X(op)] == m.registers[X(op)] as int - m.registers[Y(op)])
    ensures var r := Op8XY5(m, op).registers;
      var flag := if m.registers[X(op)] > m.registers[Y(op)] then 1 else 0;
      && (X(op) == 0xF && Y(op) != 0xF ==> r[0xF] == (flag - m.registers[Y(op)] as int) % 0x100)
      && (X(op) != 0xF && Y(op) == 0xF ==> r[X(op)] == (m.registers[X(op)] as int - flag) % 0x100 && r[0xF] == flag)
      && (X(op) == 0xF && Y(op) == 0xF ==> r[0xF] == 0)
    ensures forall s :: 0 <= s < 0xF && s != X(op) ==> Op8XY5(m, op).registers[s] == m.registers[s]
  {
  }

  /** `8xy6` halves `Vx`; the bit shifted out is lost, not kept in `VF`. */
  lemma ShiftRightKeepsFlag(m: Machine, op: u16)
    requires m.Valid() && X(op) != 0xF
    ensures var r := Op8XY6(m, op).registers;
      && r[X(op)] == m.registers[X(op)] / 2
      && 2 * r[X(op)] as int + m.registers[X(op)] % 2 == m.registers[X(op)]
      && r[0xF] == m.registers[0xF]
  {
  }

  /** `8xy7` as written: the flag is "not borrow" for `Vy - Vx`, but `Vx`
      keeps its value and `Vy` receives it, so `Vx` holds `Vy - Vx` (what
      the comment promises) only when `Vy` is twice `Vx` modulo 256. The
      copy reads `Vx` after the flag is written: with `x` F both `VF` and
      `Vy` end as the flag, and with `y` F the copy of `Vx` overwrites it. */
  lemma SubtractReversedAsWritten(m: Machine, op: u16)
    requires m.Valid()
    ensures var r := Op8XY7(m, op).registers;
      X(op) != 0xF && Y(op) != 0xF ==>
        && (r[0xF] == 1 <==> m.registers[Y(op)] > m.registers[X(op)])
        && r[X(op)] == m.registers[X(op)]
        && r[Y(op)] == m.registers[X(op)]
        && (r[X(op)] == (m.registers[Y(op)] as int - m.registers[X(op)]) % 0x100
            <==> m.registers[Y(op)] == (2 * m.registers[X(op)] as int) % 0x100)
    ensures var r := Op8XY7(m, op).registers;
      var flag := if m.registers[Y(op)] > m.registers[X(op)] then 1 else 0;
      && (X(op) == 0xF ==> r[0xF] == flag && r[Y(op)] == flag)
      && (X(op) != 0xF && Y(op) == 0xF ==> r[0xF] == m.registers[X(op)] && r[X(op)] == m.registers[X(op)])
    ensures forall s :: 0 <= s < 0xF && s != Y(op) ==> Op8XY7(m, op).registers[s] == m.registers[s]
  {
  }

  /** `8xyE` moves bit 7 of `Vx` into the flag and doubles `Vx` modulo 256;
      the flag and the new `Vx` together give back the old `Vx`. With `x` F
      the doubling reads the new flag, so `VF` ends as 0 or 2. */
  lemma ShiftLeftCarriesBitSeven(m: Machine, op: u16)
    requires m.Valid()
    ensures var r := Op8XYE(m, op).registers;
      X(op) != 0xF ==>
        && r[0xF] == m.registers[X(op)] / 0x80
        && r[X(op)] == (2 * m.registers[X(op)] as int) % 0x100
        && 0x80 * r[0xF] as int + r[X(op)] / 2 == m.registers[X(op)]
    ensures X(op) == 0xF ==> Op8XYE(m, op).registers[0xF] == 2 * (m.registers[0xF] / 0x80)
    ensures forall s :: 0 <= s < 0xF && s != X(op) ==> Op8XYE(m, op).registers[s] == m.registers[s]
  {
  }

  /** The logical register operations applied to a register and itself:
      or and and leave it alone, xor clears it. */
  lemma LogicOnSameRegister(m: Machine, op: u16)
    requires m.Valid() && X(op) == Y(op)
    ensures Op8XY1(m, op) == m
    ensures Op8XY2(m, op) == m
    ensures Op8XY3(m, op).registers[X(op)] == 0
  {
    Pow2Eight();
    BitwiseSelf(m.registers[X(op)], 8);
    assert m.registers[X(op) := m.registers[X(op)]] == m.registers;
  }

  /** `8xy1`, `8xy2` and `8xy3` work bit by bit: each of the eight bits of
      the new `Vx` is the or, and, xor of the same bit of `Vx` and `Vy`. */
  lemma LogicPerBit(f: BitOp, a: u8, b: u8)
    ensures forall k :: 0 <= k < 8 ==> Bit(ByteOp(f, a, b), k) == ApplyBit(f, Bit(a, k), Bit(b, k))
  {
    forall k | 0 <= k < 8 {
      BitwisePerBit(f, a, b, 8, k);
    }
  }

  /** `Cxkk` leaves no bit outside `kk` set in `Vx`: the result is at most
      `kk` and masking it with `kk` again changes nothing. */
  lemma RandomIsMasked(m: Machine, op: u16, rand: nat)
    requires m.Valid()
    ensures var v := OpCXKK(m, op, rand).registers[X(op)];
      v <= KK(op) && ByteOp(And, v, KK(op)) == v
  {
    Pow2Eight();
    MaskIdempotent(RandomByte(rand), KK(op), 8);
  }

  /** Reading the delay timer right after setting it gives back the value it
      was set from; setting the sound timer touches nothing else. */
  lemma TimerRoundTrip(m: Machine, store: u16, load: u16)
    requires m.Valid()
    ensures OpFX07(OpFX15(m, store), load).registers[X(load)] == m.registers[X(store)]
    ensures OpFX18(m, store) == m.(soundTimer := m.registers[X(store)])
  {
  }

  /** `Fx0A` stores the lowest-numbered pressed key and leaves `pc` alone;
      with no key pressed it changes nothing but moving `pc` back by 2. */
  lemma WaitForKey(m: Machine, op: u16)
    requires m.Valid()
    ensures (exists k :: 0 <= k < KeyCount && m.keypad[k]) ==>
      var r := OpFX0A(m, op);
      && r.registers[X(op)] < KeyCount
      && m.keypad[r.registers[X(op)]]
      && (forall j :: 0 <= j < r.registers[X(op)] ==> !m.keypad[j])
      && r == SetRegister(m, X(op), r.registers[X(op)])
    ensures (forall k :: 0 <= k < KeyCount ==> !m.keypad[k]) ==>
      OpFX0A(m, op) == m.(pc := Rewind(m.pc))
  {
  }

  /** `Fx1E` as written loads `Vx` into `I` instead of adding it: the result
      equals `I + Vx` (what the comment promises) only when `I` is 0. */
  lemma AddIndexAsWritten(m: Machine, op: u16)
    requires m.Valid()
    ensures OpFX1E(m, op).index == m.registers[X(op)]
    ensures OpFX1E(m, op).index == (m.index as int + m.registers[X(op)]) % 0x1_0000 <==> m.index == 0
  {
  }

  /** While the font is intact, `Fx29` for a hexadecimal digit points `I` at
      the five rows of that digit's glyph. */
  lemma FontGlyph(m: Machine, op: u16)
    requires m.Valid() && m.registers[X(op)] < 16
    requires m.memory[FontsetStartAddress..FontsetStartAddress + FontsetSize] == Fontset
    ensures var r := OpFX29(m, op); var d := m.registers[X(op)] as int;
      r.memory[r.index..r.index + 5] == Fontset[5 * d..5 * d + 5]
  {
    var d := m.registers[X(op)] as int;
    var font := m.memory[FontsetStartAddress..FontsetStartAddress + FontsetSize];
    assert m.memory[FontsetStartAddress + 5 * d..FontsetStartAddress + 5 * d + 5] == font[5 * d..5 * d + 5];
  }

  /** `Fx33` writes the three decimal digits of `Vx`, most significant first,
      which spell `Vx` back; no other byte and no other part of the machine
      changes. */
  lemma DecimalDigits(m: Machine, op: u16)
    requires m.Valid() && m.index + 2 < MemorySize
    ensures var r := OpFX33(m, op); var i := m.index as int;
      && r.memory[i] < 10 && r.memory[i + 1] < 10 && r.memory[i + 2] < 10
      && 100 * r.memory[i] as int + 10 * r.memory[i + 1] as int + r.memory[i + 2] == m.registers[X(op)]
      && (forall a :: 0 <= a < MemorySize && !(i <= a <= i + 2) ==> r.memory[a] == m.memory[a])
      && r == m.(memory := r.memory)
  {
  }

  /** `Fx55` copies `V0` .. `V(x-1)` to memory from `I` on and leaves the rest
      of memory, including `I + x` where `Vx` should have gone, untouched. */
  lemma StoreRegisters(m: Machine, op: u16)
    requires m.Valid() && InMemory(m.index, X(op))
    ensures var r := OpFX55(m, op);
      && (forall i :: 0 <= i < X(op) ==> r.memory[m.index + i] == m.registers[i])
      && (forall a :: 0 <= a < MemorySize && !(m.index <= a < m.index + X(op)) ==> r.memory[a] == m.memory[a])
      && r == m.(memory := r.memory)
  {
  }

  /** `Fx65` loads `V0` .. `V(x-1)` from memory from `I` on; `Vx` and the
      registers above it keep their values. */
  lemma LoadRegisters(m: Machine, op: u16)
    requires m.Valid() && InMemory(m.index, X(op))
    ensures var r := OpFX65(m, op);
      && (forall i :: 0 <= i < X(op) ==> r.registers[i] == m.memory[m.index + i])
      && (forall i :: X(op) <= i < RegisterCount ==> r.registers[i] == m.registers[i])
      && r == m.(registers := r.registers)
  {
  }

  /** Loading right after storing, with the same `x` and `I`, gives every
      register back. */
  lemma StoreThenLoad(m: Machine, op: u16)
    requires m.Valid() && InMemory(m.index, X(op))
    ensures OpFX65(OpFX55(m, op), op).registers == m.registers
  {
    var r := OpFX65(OpFX55(m, op), op);
    assert forall i :: 0 <= i < RegisterCount ==> r.registers[i] == m.registers[i];
  }
}
