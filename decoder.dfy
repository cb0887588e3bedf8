/** The decode step of `Chip8Cycle`: from a fetched 16-bit opcode to the
    identity of the handler the cycle runs for it, or to "invalid opcode".

    The dispatcher first switches on the family digit and, for families 0, 8,
    E and F, switches again on the low digit or the low byte of the opcode.
    `Decode` is that dispatch; `DecodeAsWritten` is the dispatch the source
    actually performs, whose inner switches examine the family digit instead
    of the opcode. */
module Decoder {
  import opened Wrappers
  import opened Bits
  import opened Instructions

  /** Hexadecimal digit `k` of the opcode, counted from the most significant. */
  function Nibble(op: u16, k: nat): (d: nat)
    requires k < 4
    ensures d < 16
  {
    if k == 0 then Family(op) else if k == 1 then X(op) else if k == 2 then Y(op) else N(op)
  }

  /** `op` is an instance of the four-character pattern `p`: at every position
      where `p` has a hexadecimal digit, the opcode has that digit; operand
      letters stand for any digit. */
  predicate Matches(op: u16, p: string)
    requires |p| == 4
  {
    forall k :: 0 <= k < 4 ==> HexValue(p[k]).Some? ==> HexValue(p[k]) == Some(Nibble(op, k))
  }

  /** The switch of `Chip8Cycle` on the family digit `family`, where `low` is
      the value its inner switches of families 0, 8 and E test and `lowByte`
      the value the inner switch of family F tests. `None` is the "Invalid
      Opcode" branch. */
  function Dispatch(family: nat, low: nat, lowByte: nat): (r: Option<Instruction>)
    requires family < 16
  {
    match family
    case 0x0 => ZeroFamily(low)
    case 0x1 => Some(Jump)
    case 0x2 => Some(Call)
    case 0x3 => Some(SkipNextImm)
    case 0x4 => Some(SkipNextNImm)
    case 0x5 => Some(SkipNextReg)
    case 0x6 => Some(LoadImm)
    case 0x7 => Some(AddImm)
    case 0x8 => RegisterFamily(low)
    case 0x9 => Some(SkipNextNReg)
    case 0xA => Some(LoadIdxImm)
    case 0xB => Some(JumpAdd)
    case 0xC => Some(Random)
    case 0xD => Some(Draw)
    case 0xE => KeyFamily(low)
    case _ => MiscFamily(lowByte)
  }

  /** Inner switch of family 0. */
  function ZeroFamily(low: nat): Option<Instruction>
  {
    match low
    case 0x0 => Some(Cls)
    case 0xE => Some(Ret)
    case _ => None
  }

  /** Inner switch of family 8. */
  function RegisterFamily(low: nat): Option<Instruction>
  {
    match low
    case 0x0 => Some(LoadReg)
    case 0x1 => Some(OrReg)
    case 0x2 => Some(AndReg)
    case 0x3 => Some(XorReg)
    case 0x4 => Some(AddReg)
    case 0x5 => Some(SubReg)
    case 0x6 => Some(Shr)
    case 0x7 => Some(SubnReg)
    case 0xE => Some(Shl)
    case _ => None
  }

  /** Inner switch of family E. */
  function KeyFamily(low: nat): Option<Instruction>
  {
    match low
    case 0x1 => Some(SkipNextNKey)
    case 0xE => Some(SkipNextKey)
    case _ => None
  }

  /** Inner switch of family F. */
  function MiscFamily(lowByte: nat): Option<Instruction>
  {
    match lowByte
    case 0x07 => Some(LoadDTimer)
    case 0x0A => Some(StoreKey)
    case 0x15 => Some(SetDTimer)
    case 0x18 => Some(SetSTimer)
    case 0x1E => Some(AddIdxReg)
    case 0x29 => Some(LoadIdxSprite)
    case 0x33 => Some(LoadBcd)
    case 0x55 => Some(StoreIdxAll)
    case 0x65 => Some(LoadIdxAll)
    case _ => None
  }

  /** The decode step as intended: the inner switches test the opcode's low
      digit (`opcode & 0x000Fu`) and low byte (`opcode & 0x00FFu`). */
  function Decode(op: u16): (r: Option<Instruction>)
    ensures r.Some? ==> FamilyOf(r.value) == Family(op)
    ensures Family(op) !in {0x0, 0x8, 0xE, 0xF} ==> r.Some?
  {
    DispatchKeepsFamily(Family(op), N(op), KK(op));
    Dispatch(Family(op), N(op), KK(op))
  }

  /** How many trailing digits of the opcode the dispatcher examines, after
      the family digit, to choose identity `i`: none for the single-identity
      families, the low digit in families 0, 8 and E, the low byte in F. */
  function Examined(i: Instruction): (n: nat)
    ensures n <= 2
  {
    match FamilyOf(i)
    case 0x0 => 1
    case 0x8 => 1
    case 0xE => 1
    case 0xF => 2
    case _ => 0
  }

  /** `op` agrees with the pattern of `i` on the family digit and on every
      digit the dispatcher examines (the last one, or the last two). */
  predicate Selects(op: u16, i: Instruction)
  {
    Family(op) == FamilyOf(i)
    && (Examined(i) >= 1 ==> HexValue(Pattern(i)[3]) == Some(N(op)))
    && (Examined(i) >= 2 ==> HexValue(Pattern(i)[2]) == Some(Y(op)))
  }

  /** The digits the dispatcher examines are fixed digits of the pattern, never
      operand letters. */
  lemma ExaminedDigitsAreFixed(i: Instruction)
    ensures Examined(i) >= 1 ==> HexValue(Pattern(i)[3]).Some?
    ensures Examined(i) >= 2 ==> HexValue(Pattern(i)[2]).Some?
  {
  }

  /** A dispatch on family digit `family` only ever selects an identity of
      that family. */
  lemma DispatchKeepsFamily(family: nat, low: nat, lowByte: nat)
    requires family < 16
    ensures Dispatch(family, low, lowByte).Some? ==>
      FamilyOf(Dispatch(family, low, lowByte).value) == family
  {
  }

  /** Exactly characterises the dispatch: an opcode decodes to `i` if and only
      if it has the family of `i` and the digits the dispatcher examines are
      those of the pattern of `i`. */
  lemma DecodeSelects(op: u16, i: Instruction)
    ensures Decode(op) == Some(i) <==> Selects(op, i)
  {
    DispatchKeepsFamily(Family(op), N(op), KK(op));
    SharedFamilies(i);
    SingleFamilies(i);
    match FamilyOf(i)
    case 0x0 => ZeroFamilySelects(op, i);
    case 0x8 => RegisterFamilySelects(op, i);
    case 0xE => KeyFamilySelects(op, i);
    case 0xF => MiscFamilySelects(op, i);
    case _ =>
  }

  /** `DecodeSelects` for `00E0` and `00EE`, told apart by their low digit. */
  lemma ZeroFamilySelects(op: u16, i: Instruction)
    requires FamilyOf(i) == 0x0
    ensures Decode(op) == Some(i) <==> Selects(op, i)
  {
    DispatchKeepsFamily(Family(op), N(op), KK(op));
    SharedFamilies(i);
    if i == Cls { }
    else { }
  }

  /** `DecodeSelects` for the nine `8xyN` operations, told apart by their
      low digit. */
  lemma RegisterFamilySelects(op: u16, i: Instruction)
    requires FamilyOf(i) == 0x8
    ensures Decode(op) == Some(i) <==> Selects(op, i)
  {
    DispatchKeepsFamily(Family(op), N(op), KK(op));
    SharedFamilies(i);
    if i == LoadReg { }
    else if i == OrReg { }
    else if i == AndReg { }
    else if i == XorReg { }
    else if i == AddReg { }
    else if i == SubReg { }
    else if i == Shr { }
    else if i == SubnReg { }
    else { }
  }

  /** `DecodeSelects` for `Ex9E` and `ExA1`, told apart by their low digit. */
  lemma KeyFamilySelects(op: u16, i: Instruction)
    requires FamilyOf(i) == 0xE
    ensures Decode(op) == Some(i) <==> Selects(op, i)
  {
    DispatchKeepsFamily(Family(op), N(op), KK(op));
    SharedFamilies(i);
    if i == SkipNextKey { }
    else { }
  }

  /** `DecodeSelects` for the nine `Fxkk` identities, told apart by their
      low byte; split into the timer and the index groups. */
  lemma MiscFamilySelects(op: u16, i: Instruction)
    requires FamilyOf(i) == 0xF
    ensures Decode(op) == Some(i) <==> Selects(op, i)
  {
    SharedFamilies(i);
    if i in {LoadDTimer, StoreKey, SetDTimer, SetSTimer} {
      TimerFamilySelects(op, i);
    } else {
      IndexFamilySelects(op, i);
    }
  }

  /** The timer and key-wait identities of family F. */
  lemma TimerFamilySelects(op: u16, i: Instruction)
    requires i in {LoadDTimer, StoreKey, SetDTimer, SetSTimer}
    ensures Decode(op) == Some(i) <==> Selects(op, i)
  {
    DispatchKeepsFamily(Family(op), N(op), KK(op));
    if Family(op) == 0xF {
      OperandFields(op);
      assert Decode(op) == MiscFamily(KK(op));
      if i == LoadDTimer {
        assert Selects(op, i) <==> KK(op) == 0x07;
      } else if i == StoreKey {
        assert Selects(op, i) <==> KK(op) == 0x0A;
      } else if i == SetDTimer {
        assert Selects(op, i) <==> KK(op) == 0x15;
      } else {
        assert Selects(op, i) <==> KK(op) == 0x18;
      }
    }
  }

  /** The identities of family F that work on the index register. */
  lemma IndexFamilySelects(op: u16, i: Instruction)
    requires i in {AddIdxReg, LoadIdxSprite, LoadBcd, StoreIdxAll, LoadIdxAll}
    ensures Decode(op) == Some(i) <==> Selects(op, i)
  {
    DispatchKeepsFamily(Family(op), N(op), KK(op));
    if Family(op) == 0xF {
      OperandFields(op);
      assert Decode(op) == MiscFamily(KK(op));
      if i == AddIdxReg {
        assert Selects(op, i) <==> KK(op) == 0x1E;
      } else if i == LoadIdxSprite {
        assert Selects(op, i) <==> KK(op) == 0x29;
      } else if i == LoadBcd {
        assert Selects(op, i) <==> KK(op) == 0x33;
      } else if i == StoreIdxAll {
        assert Selects(op, i) <==> KK(op) == 0x55;
      } else {
        assert Selects(op, i) <==> KK(op) == 0x65;
      }
    }
  }

  /** Every opcode written as the enum documents an identity is run by that
      identity's handler. */
  lemma PatternInstancesDecode(op: u16, i: Instruction)
    requires Matches(op, Pattern(i))
    ensures Decode(op) == Some(i)
  {
    ExaminedDigitsAreFixed(i);
    assert HexValue(Pattern(i)[0]) == Some(Nibble(op, 0));
    assert Examined(i) >= 1 ==> HexValue(Pattern(i)[3]) == Some(Nibble(op, 3));
    assert Examined(i) >= 2 ==> HexValue(Pattern(i)[2]) == Some(Nibble(op, 2));
    DecodeSelects(op, i);
  }

  /** No opcode is an instance of two documented patterns. */
  lemma PatternsAreDisjoint(op: u16, i: Instruction, j: Instruction)
    requires Matches(op, Pattern(i)) && Matches(op, Pattern(j))
    ensures i == j
  {
    PatternInstancesDecode(op, i);
    PatternInstancesDecode(op, j);
  }

  /** The decode step as written: the inner switches test
      `expression & 0x000Fu` and `expression & 0x00FFu`, where `expression`
      is the family digit itself. */
  function DecodeAsWritten(op: u16): (r: Option<Instruction>)
    ensures r.Some? ==> FamilyOf(r.value) == Family(op)
    ensures Family(op) in {0x8, 0xF} ==> r.None?
  {
    DispatchKeepsFamily(Family(op), Family(op) % 0x10, Family(op) % 0x100);
    var expression := Family(op);
    Dispatch(expression, expression % 0x10, expression % 0x100)
  }

  /** As written, every family-0 opcode clears the screen (`00EE` never
      returns), every family-E opcode runs the `Ex9E` handler, and no opcode
      of family 8 or F reaches a handler; the other families dispatch as
      intended. */
  lemma AsWrittenDispatch(op: u16)
    ensures Family(op) == 0x0 ==> DecodeAsWritten(op) == Some(Cls)
    ensures Family(op) == 0x8 ==> DecodeAsWritten(op) == None
    ensures Family(op) == 0xE ==> DecodeAsWritten(op) == Some(SkipNextKey)
    ensures Family(op) == 0xF ==> DecodeAsWritten(op) == None
    ensures Family(op) !in {0x0, 0x8, 0xE, 0xF} ==> DecodeAsWritten(op) == Decode(op)
  {
  }

  /** Four documented opcodes that the dispatch as written sends to the wrong
      place: `00EE` (return), `8014` (add with carry), `E0A1` (skip if key
      up) and `F00A` (wait for key). */
  lemma AsWrittenMisroutes()
    ensures Decode(0x00EE) == Some(Ret) && DecodeAsWritten(0x00EE) == Some(Cls)
    ensures Decode(0x8014) == Some(AddReg) && DecodeAsWritten(0x8014) == None
    ensures Decode(0xE0A1) == Some(SkipNextNKey) && DecodeAsWritten(0xE0A1) == Some(SkipNextKey)
    ensures Decode(0xF00A) == Some(StoreKey) && DecodeAsWritten(0xF00A) == None
  {
    AsWrittenDispatch(0x00EE);
    AsWrittenDispatch(0x8014);
    AsWrittenDispatch(0xE0A1);
    AsWrittenDispatch(0xF00A);
  }
}
