/** The instruction identities of the CHIP-8 instruction set
    (common/include/instructions.h) and the read-only catalogue that
    describes each of them (common/src/instructions.c). */
module Instructions {
  import opened Wrappers

  /** One identity per member of the C enum `InstructionEnum`, in its order. */
  datatype Instruction =
    | Cls | Ret | Jump | Call
    | SkipNextImm | SkipNextNImm | SkipNextReg | LoadImm | AddImm
    | LoadReg | OrReg | AndReg | XorReg | AddReg | SubReg | Shr | SubnReg | Shl
    | SkipNextNReg | LoadIdxImm | JumpAdd | Random | Draw
    | SkipNextKey | SkipNextNKey
    | LoadDTimer | StoreKey | SetDTimer | SetSTimer | AddIdxReg
    | LoadIdxSprite | LoadBcd | StoreIdxAll | LoadIdxAll

  /** `INSTR_SET_SIZE`, the enumerator that follows the last identity. */
  const InstrSetSize: nat := 34

  /** The C enumerator value of an identity. */
  function Ordinal(i: Instruction): (k: nat)
    ensures k < InstrSetSize
  {
    match i
    case Cls => 0
    case Ret => 1
    case Jump => 2
    case Call => 3
    case SkipNextImm => 4
    case SkipNextNImm => 5
    case SkipNextReg => 6
    case LoadImm => 7
    case AddImm => 8
    case LoadReg => 9
    case OrReg => 10
    case AndReg => 11
    case XorReg => 12
    case AddReg => 13
    case SubReg => 14
    case Shr => 15
    case SubnReg => 16
    case Shl => 17
    case SkipNextNReg => 18
    case LoadIdxImm => 19
    case JumpAdd => 20
    case Random => 21
    case Draw => 22
    case SkipNextKey => 23
    case SkipNextNKey => 24
    case LoadDTimer => 25
    case StoreKey => 26
    case SetDTimer => 27
    case SetSTimer => 28
    case AddIdxReg => 29
    case LoadIdxSprite => 30
    case LoadBcd => 31
    case StoreIdxAll => 32
    case LoadIdxAll => 33
  }

  /** The identity whose enumerator is `k`. */
  function FromOrdinal(k: nat): (i: Instruction)
    requires k < InstrSetSize
  {
    match k
    case 0 => Cls
    case 1 => Ret
    case 2 => Jump
    case 3 => Call
    case 4 => SkipNextImm
    case 5 => SkipNextNImm
    case 6 => SkipNextReg
    case 7 => LoadImm
    case 8 => AddImm
    case 9 => LoadReg
    case 10 => OrReg
    case 11 => AndReg
    case 12 => XorReg
    case 13 => AddReg
    case 14 => SubReg
    case 15 => Shr
    case 16 => SubnReg
    case 17 => Shl
    case 18 => SkipNextNReg
    case 19 => LoadIdxImm
    case 20 => JumpAdd
    case 21 => Random
    case 22 => Draw
    case 23 => SkipNextKey
    case 24 => SkipNextNKey
    case 25 => LoadDTimer
    case 26 => StoreKey
    case 27 => SetDTimer
    case 28 => SetSTimer
    case 29 => AddIdxReg
    case 30 => LoadIdxSprite
    case 31 => LoadBcd
    case 32 => StoreIdxAll
    case _ => LoadIdxAll
  }

  /** The enumerators are exactly 0, 1, ..., `INSTR_SET_SIZE - 1`, one per
      identity: `Ordinal` is a bijection onto that range, with inverse
      `FromOrdinal` (this lemma and the next). */
  lemma FromOrdinalInverse(k: nat)
    requires k < InstrSetSize
    ensures Ordinal(FromOrdinal(k)) == k
  {
    if k == 0 { }
    else if k == 1 { }
    else if k == 2 { }
    else if k == 3 { }
    else if k == 4 { }
    else if k == 5 { }
    else if k == 6 { }
    else if k == 7 { }
    else if k == 8 { }
    else if k == 9 { }
    else if k == 10 { }
    else if k == 11 { }
    else if k == 12 { }
    else if k == 13 { }
    else if k == 14 { }
    else if k == 15 { }
    else if k == 16 { }
    else if k == 17 { }
    else if k == 18 { }
    else if k == 19 { }
    else if k == 20 { }
    else if k == 21 { }
    else if k == 22 { }
    else if k == 23 { }
    else if k == 24 { }
    else if k == 25 { }
    else if k == 26 { }
    else if k == 27 { }
    else if k == 28 { }
    else if k == 29 { }
    else if k == 30 { }
    else if k == 31 { }
    else if k == 32 { }
    else { }
  }

  lemma OrdinalIsBijective(i: Instruction)
    ensures FromOrdinal(Ordinal(i)) == i
  {
  }

  /** The opcode pattern documented next to each identity: four characters,
      each an upper-case hexadecimal digit that the opcode must have at that
      position or a lower-case operand letter (`x`, `y`, `k`, `n`). */
  function Pattern(i: Instruction): (p: string)
    ensures |p| == 4
    ensures forall k :: 0 <= k < 4 ==> HexValue(p[k]).Some? || p[k] in "xykn"
  {
    match i
    case Cls => "00E0"
    case Ret => "00EE"
    case Jump => "1nnn"
    case Call => "2nnn"
    case SkipNextImm => "3xkk"
    case SkipNextNImm => "4xkk"
    case SkipNextReg => "5xy0"
    case LoadImm => "6xkk"
    case AddImm => "7xkk"
    case LoadReg => "8xy0"
    case OrReg => "8xy1"
    case AndReg => "8xy2"
    case XorReg => "8xy3"
    case AddReg => "8xy4"
    case SubReg => "8xy5"
    case Shr => "8xy6"
    case SubnReg => "8xy7"
    case Shl => "8xyE"
    case SkipNextNReg => "9xy0"
    case LoadIdxImm => "Annn"
    case JumpAdd => "Bnnn"
    case Random => "Cxkk"
    case Draw => "Dxyn"
    case SkipNextKey => "Ex9E"
    case SkipNextNKey => "ExA1"
    case LoadDTimer => "Fx07"
    case StoreKey => "Fx0A"
    case SetDTimer => "Fx15"
    case SetSTimer => "Fx18"
    case AddIdxReg => "Fx1E"
    case LoadIdxSprite => "Fx29"
    case LoadBcd => "Fx33"
    case StoreIdxAll => "Fx55"
    case LoadIdxAll => "Fx65"
  }

  /** The value of an upper-case hexadecimal digit; `None` for anything else. */
  function HexValue(c: char): (v: Option<nat>)
    ensures v.Some? ==> v.value < 16
    ensures v.Some? <==> ('0' <= c <= '9' || 'A' <= c <= 'F')
  {
    if '0' <= c <= '9' then Some(c as int - '0' as int)
    else if 'A' <= c <= 'F' then Some(c as int - 'A' as int + 10)
    else None
  }

  /** The family of an identity: the leading hexadecimal digit of its pattern. */
  function FamilyOf(i: Instruction): (f: nat)
    ensures f < 16
    ensures HexValue(Pattern(i)[0]) == Some(f)
  {
    match i
    case Cls | Ret => 0x0
    case Jump => 0x1
    case Call => 0x2
    case SkipNextImm => 0x3
    case SkipNextNImm => 0x4
    case SkipNextReg => 0x5
    case LoadImm => 0x6
    case AddImm => 0x7
    case LoadReg | OrReg | AndReg | XorReg | AddReg | SubReg | Shr | SubnReg | Shl => 0x8
    case SkipNextNReg => 0x9
    case LoadIdxImm => 0xA
    case JumpAdd => 0xB
    case Random => 0xC
    case Draw => 0xD
    case SkipNextKey | SkipNextNKey => 0xE
    case LoadDTimer | StoreKey | SetDTimer | SetSTimer | AddIdxReg
      | LoadIdxSprite | LoadBcd | StoreIdxAll | LoadIdxAll => 0xF
  }

  /** Family 0 holds exactly the two `00Ex` identities, family 8 the nine
      `8xyN` register operations, family E the two key skips and family F
      the nine `Fxkk` identities. */
  lemma SharedFamilies(i: Instruction)
    ensures FamilyOf(i) == 0x0 <==> i == Cls || i == Ret
    ensures FamilyOf(i) == 0x8 <==>
      i in {LoadReg, OrReg, AndReg, XorReg, AddReg, SubReg, Shr, SubnReg, Shl}
    ensures FamilyOf(i) == 0xE <==> i == SkipNextKey || i == SkipNextNKey
    ensures FamilyOf(i) == 0xF <==>
      i in {LoadDTimer, StoreKey, SetDTimer, SetSTimer, AddIdxReg,
            LoadIdxSprite, LoadBcd, StoreIdxAll, LoadIdxAll}
  {
  }

  /** Every other family holds exactly one identity. */
  lemma SingleFamilies(i: Instruction)
    ensures FamilyOf(i) == 0x1 <==> i == Jump
    ensures FamilyOf(i) == 0x2 <==> i == Call
    ensures FamilyOf(i) == 0x3 <==> i == SkipNextImm
    ensures FamilyOf(i) == 0x4 <==> i == SkipNextNImm
    ensures FamilyOf(i) == 0x5 <==> i == SkipNextReg
    ensures FamilyOf(i) == 0x6 <==> i == LoadImm
    ensures FamilyOf(i) == 0x7 <==> i == AddImm
    ensures FamilyOf(i) == 0x9 <==> i == SkipNextNReg
    ensures FamilyOf(i) == 0xA <==> i == LoadIdxImm
    ensures FamilyOf(i) == 0xB <==> i == JumpAdd
    ensures FamilyOf(i) == 0xC <==> i == Random
    ensures FamilyOf(i) == 0xD <==> i == Draw
  {
  }

  /** One record of the catalogue (`InstructionInfo`). */
  datatype InstructionInfo = InstructionInfo(
    nicename: string, realname: string, description: string, value: Instruction)

  /* The static array `instruction_info` holds one row per identity, at the
     index given by the identity's enumerator. It is stored here column by
     column; `Info` reassembles a row. */

  /** Column `nicename` of the table. */
  function Nicename(i: Instruction): string
  {
    match i
    case Cls => "CLS"
    case Ret => "RETURN"
    case Jump => "JUMP"
    case Call => "CALL"
    case SkipNextImm => "SKIP NEXT INSTRUCTION IMMEDIATE"
    case SkipNextNImm => "SKIP NEXT INSTRUCTION NOT IMMEDIATE"
    case SkipNextReg => "SKIP NEXT INSTRUCTION REGISTER"
    case LoadImm => "LOAD IMMEDIATE"
    case AddImm => "ADD IMMEDIATE"
    case LoadReg => "LOAD REGISTER"
    case OrReg => "OR REGISTER"
    case AndReg => "AND REGISTER"
    case XorReg => "XOR REGISTER"
    case AddReg => "ADD REGISTER"
    case SubReg => "SUB REGISTER SET BORROW"
    case Shr => "SHIFT RIGHT"
    case SubnReg => "SUBN REGISTER SET BORROW"
    case Shl => "SHIFT LEFT"
    case SkipNextNReg => "SKIP NEXT INSTRUCTION NO REGISTER"
    case LoadIdxImm => "LOAD INDEX IMMEDIATE"
    case JumpAdd => "JUMP WITH OFFSET IMMEDIATE"
    case Random => "SET RANDOM BYTE TO REGISTER"
    case Draw => "DRAW SPRITE TO DISPLAY"
    case SkipNextKey => "SKIP NEXT INSTRUCTION IF KEY"
    case SkipNextNKey => "SKIP NEXT INSTRUCTION IF NOT KEY"
    case LoadDTimer => "LOAD DELAY TIME INTO REGISTER"
    case StoreKey => "WAIT FOR KEY PRESS INTO REGISTER"
    case SetDTimer => "SET DTIMER WITH REGISTER VALUE"
    case SetSTimer => "SET SOUND TIMER WITH REGISTER VALUE"
    case AddIdxReg => "ADD TO INDEX IMMEDIATE"
    case LoadIdxSprite => "LOAD SPRITE INTO INDEX"
    case LoadBcd => "STORE BCD REP"
    case StoreIdxAll => "STORE ALL REGISTERS AT INDEX"
    case LoadIdxAll => "READ ALL REGISTERS AT INDEX"
  }

  /** Column `realname` of the table. */
  function Realname(i: Instruction): string
  {
    match i
    case Cls => "CLS"
    case Ret => "RET"
    case Jump => "JP"
    case Call => "CALL"
    case SkipNextImm => "SE"
    case SkipNextNImm => "SNE"
    case SkipNextReg => "SE"
    case LoadImm => "LD"
    case AddImm => "ADD"
    case LoadReg => "LD"
    case OrReg => "OR"
    case AndReg => "AND"
    case XorReg => "XOR"
    case AddReg => "ADD"
    case SubReg => "SUB"
    case Shr => "SHR"
    case SubnReg => "SUBN"
    case Shl => "SHL"
    case SkipNextNReg => "SNE"
    case LoadIdxImm => "LD"
    case JumpAdd => "JP"
    case Random => "RND"
    case Draw => "DRW"
    case SkipNextKey => "SKP"
    case SkipNextNKey => "SKNP"
    case LoadDTimer => "LD"
    case StoreKey => "LD"
    case SetDTimer => "LD"
    case SetSTimer => "LD"
    case AddIdxReg => "ADD"
    case LoadIdxSprite => "LD"
    case LoadBcd => "LD"
    case StoreIdxAll => "LD"
    case LoadIdxAll => "LD"
  }

  /** Column `description` of the table, character for character: the
      opcode pattern, a colon, the assembly form and what the instruction
      does. The longer strings are written in pieces joined by `+`. */
  function Description(i: Instruction): string
  {
    match i
    case Cls =>
      "00E0: CLS - Clear the "
      + "display"
    case Ret =>
      "00EE: RET - Return from "
      + "a subroutine"
    case Jump =>
      "1nnn: JP addr - Jump to "
      + "nnn, set PC to nnn"
    case Call =>
      "2nnn: CALL addr - Call "
      + "subroutine at nnn"
    case SkipNextImm =>
      "3xkk: SE Vx, byte - "
      + "Skip next instruction "
      + "if Vx = kk"
    case SkipNextNImm =>
      "4xkk: SNE Vx, byte - "
      + "Skip next instruction "
      + "if Vx != kk"
    case SkipNextReg =>
      "5xy0: SE Vx, Vy - Skip "
      + "next instruction if Vx "
      + "= Vy"
    case LoadImm =>
      "6xkk: LD Vx, byte - Set "
      + "Vx = kk"
    case AddImm =>
      "7xkk: ADD Vx, byte - "
      + "Set Vx = Vx + kk"
    case LoadReg =>
      "8xy0: LD Vx, Vy - Set "
      + "Vx = Vy"
    case OrReg =>
      "8xy1: OR Vx, Vy - Set "
      + "Vx = Vx OR Vy"
    case AndReg =>
      "8xy2: AND Vx, Vy - Set "
      + "Vx = Vx AND Vy"
    case XorReg =>
      "8xy3: XOR Vx, Vy - Set "
      + "Vx = Vx XOR Vy"
    case AddReg =>
      "8xy4: ADD Vx, Vy - Set "
      + "Vx = Vx + Vy, set VF = "
      + "carry"
    case SubReg =>
      "8xy5: SUB Vx, Vy - Set "
      + "Vx = Vx - Vy, set VF = "
      + "NOT borrow"
    case Shr =>
      "8xy6: SHR Vx - Set Vx = "
      + "Vx SHR 1"
    case SubnReg =>
      "8xy7: SUBN Vx, Vy - Set "
      + "Vx = Vy - Vx, set VF = "
      + "NOT borrow"
    case Shl =>
      "8xyE: SHL Vx {, Vy} - "
      + "Set Vx = Vx SHL 1"
    case SkipNextNReg =>
      "9xy0: SNE Vx, Vy - Skip "
      + "next instruction if Vx "
      + "!= Vy"
    case LoadIdxImm =>
      "Annn: LD I, addr - Set "
      + "I = nnn"
    case JumpAdd =>
      "Bnnn: JP V0, addr - "
      + "Jump to location nnn + "
      + "V0"
    case Random =>
      "Cxkk: RND Vx, byte, Set "
      + "Vx = random byte AND kk"
    case Draw =>
      "Dxyn: DRW Vx, Vy, "
      + "nibble - Display n-byte "
      + "sprite starting at "
      + "memory location I at "
      + "(Vx, Vy), set VF = "
      + "collision"
    case SkipNextKey =>
      "Ex9E: SKP Vx - Skip "
      + "next instruction if key "
      + "with the value of Vx is "
      + "pressed"
    case SkipNextNKey =>
      "ExA1: SKNP Vx - Skip "
      + "next instruction if key "
      + "with the value of Vx is "
      + "not pressed"
    case LoadDTimer =>
      "Fx07: LD Vx, DT - Set "
      + "Vx = delay timer value"
    case StoreKey =>
      "Fx0A: LD Vx, K - Wait "
      + "for a key press, store "
      + "the value of the key in "
      + "Vx"
    case SetDTimer =>
      "Fx15: LD DT, Vx - Set "
      + "delay timer = Vx"
    case SetSTimer =>
      "Fx18: LD ST, Vx - Set "
      + "sound timer = Vx"
    case AddIdxReg =>
      "Fx1E: ADD I, Vx - Set I "
      + "= I + Vx"
    case LoadIdxSprite =>
      "Fx29: LD F, Vx - Set I "
      + "= location of sprite "
      + "for digit Vx"
    case LoadBcd =>
      "Fx33: LD B, Vx - Store "
      + "BCD representation of "
      + "Vx in memory locations "
      + "I, I+1, and I+2"
    case StoreIdxAll =>
      "Fx55: LD [I], Vx - "
      + "Store registers V0 "
      + "through Vx in memory "
      + "starting at location I"
    case LoadIdxAll =>
      "Fx65: LD Vx, [I] - Read "
      + "registers V0 through Vx "
      + "from memory starting at "
      + "location I"
  }



  /** Column `value` of the table. */
  function ValueColumn(i: Instruction): Instruction
  {
    match i
    case Cls => Cls
    case Ret => Ret
    case Jump => Jump
    case Call => Call
    case SkipNextImm => SkipNextImm
    case SkipNextNImm => SkipNextNImm
    case SkipNextReg => SkipNextReg
    case LoadImm => LoadImm
    case AddImm => AddImm
    case LoadReg => LoadReg
    case OrReg => OrReg
    case AndReg => AndReg
    case XorReg => XorReg
    case AddReg => AddReg
    case SubReg => SubReg
    case Shr => Shr
    case SubnReg => SubnReg
    case Shl => Shl
    case SkipNextNReg => SkipNextNReg
    case LoadIdxImm => LoadIdxImm
    case JumpAdd => JumpAdd
    case Random => Random
    case Draw => Draw
    case SkipNextKey => SkipNextKey
    case SkipNextNKey => SkipNextNKey
    case LoadDTimer => LoadDTimer
    case StoreKey => StoreKey
    case SetDTimer => SetDTimer
    case SetSTimer => SetSTimer
    case AddIdxReg => AddIdxReg
    case LoadIdxSprite => LoadIdxSprite
    case LoadBcd => LoadBcd
    case StoreIdxAll => StoreIdxAll
    case LoadIdxAll => LoadIdxAll
  }

  /** The row of the table that describes identity `i`. */
  function Info(i: Instruction): InstructionInfo
  {
    InstructionInfo(Nicename(i), Realname(i), Description(i), ValueColumn(i))
  }

  /** The table is well formed: the row stored at enumerator `k` has `value`
      equal to the identity with enumerator `k`, and its description opens
      with the pattern documented next to that identity in the enum,
      followed by ": ". */
  lemma RowsAgreeWithEnum(i: Instruction)
    ensures Info(i).value == i
    ensures Pattern(i) + ": " <= Info(i).description
  {
    match i
    case Cls => ClsOpensWithPattern();
    case Ret => RetOpensWithPattern();
    case Jump => JumpOpensWithPattern();
    case Call => CallOpensWithPattern();
    case SkipNextImm => SkipNextImmOpensWithPattern();
    case SkipNextNImm => SkipNextNImmOpensWithPattern();
    case SkipNextReg => SkipNextRegOpensWithPattern();
    case LoadImm => LoadImmOpensWithPattern();
    case AddImm => AddImmOpensWithPattern();
    case LoadReg => LoadRegOpensWithPattern();
    case OrReg => OrRegOpensWithPattern();
    case AndReg => AndRegOpensWithPattern();
    case XorReg => XorRegOpensWithPattern();
    case AddReg => AddRegOpensWithPattern();
    case SubReg => SubRegOpensWithPattern();
    case Shr => ShrOpensWithPattern();
    case SubnReg => SubnRegOpensWithPattern();
    case Shl => ShlOpensWithPattern();
    case SkipNextNReg => SkipNextNRegOpensWithPattern();
    case LoadIdxImm => LoadIdxImmOpensWithPattern();
    case JumpAdd => JumpAddOpensWithPattern();
    case Random => RandomOpensWithPattern();
    case Draw => DrawOpensWithPattern();
    case SkipNextKey => SkipNextKeyOpensWithPattern();
    case SkipNextNKey => SkipNextNKeyOpensWithPattern();
    case LoadDTimer => LoadDTimerOpensWithPattern();
    case StoreKey => StoreKeyOpensWithPattern();
    case SetDTimer => SetDTimerOpensWithPattern();
    case SetSTimer => SetSTimerOpensWithPattern();
    case AddIdxReg => AddIdxRegOpensWithPattern();
    case LoadIdxSprite => LoadIdxSpriteOpensWithPattern();
    case LoadBcd => LoadBcdOpensWithPattern();
    case StoreIdxAll => StoreIdxAllOpensWithPattern();
    case LoadIdxAll => LoadIdxAllOpensWithPattern();
  }

  /** Row by row: each description opens with its pattern and ": ". One
      lemma per row keeps each proof obligation small. */
  lemma ClsOpensWithPattern()
    ensures Pattern(Cls) + ": " <= Description(Cls)
  {
  }

  lemma RetOpensWithPattern()
    ensures Pattern(Ret) + ": " <= Description(Ret)
  {
  }

  lemma JumpOpensWithPattern()
    ensures Pattern(Jump) + ": " <= Description(Jump)
  {
  }

  lemma CallOpensWithPattern()
    ensures Pattern(Call) + ": " <= Description(Call)
  {
  }

  lemma SkipNextImmOpensWithPattern()
    ensures Pattern(SkipNextImm) + ": " <= Description(SkipNextImm)
  {
  }

  lemma SkipNextNImmOpensWithPattern()
    ensures Pattern(SkipNextNImm) + ": " <= Description(SkipNextNImm)
  {
  }

  lemma SkipNextRegOpensWithPattern()
    ensures Pattern(SkipNextReg) + ": " <= Description(SkipNextReg)
  {
  }

  lemma LoadImmOpensWithPattern()
    ensures Pattern(LoadImm) + ": " <= Description(LoadImm)
  {
  }

  lemma AddImmOpensWithPattern()
    ensures Pattern(AddImm) + ": " <= Description(AddImm)
  {
  }

  lemma LoadRegOpensWithPattern()
    ensures Pattern(LoadReg) + ": " <= Description(LoadReg)
  {
  }

  lemma OrRegOpensWithPattern()
    ensures Pattern(OrReg) + ": " <= Description(OrReg)
  {
  }

  lemma AndRegOpensWithPattern()
    ensures Pattern(AndReg) + ": " <= Description(AndReg)
  {
  }

  lemma XorRegOpensWithPattern()
    ensures Pattern(XorReg) + ": " <= Description(XorReg)
  {
  }

  lemma AddRegOpensWithPattern()
    ensures Pattern(AddReg) + ": " <= Description(AddReg)
  {
  }

  lemma SubRegOpensWithPattern()
    ensures Pattern(SubReg) + ": " <= Description(SubReg)
  {
  }

  lemma ShrOpensWithPattern()
    ensures Pattern(Shr) + ": " <= Description(Shr)
  {
  }

  lemma SubnRegOpensWithPattern()
    ensures Pattern(SubnReg) + ": " <= Description(SubnReg)
  {
  }

  lemma ShlOpensWithPattern()
    ensures Pattern(Shl) + ": " <= Description(Shl)
  {
  }

  lemma SkipNextNRegOpensWithPattern()
    ensures Pattern(SkipNextNReg) + ": " <= Description(SkipNextNReg)
  {
  }

  lemma LoadIdxImmOpensWithPattern()
    ensures Pattern(LoadIdxImm) + ": " <= Description(LoadIdxImm)
  {
  }

  lemma JumpAddOpensWithPattern()
    ensures Pattern(JumpAdd) + ": " <= Description(JumpAdd)
  {
  }

  lemma RandomOpensWithPattern()
    ensures Pattern(Random) + ": " <= Description(Random)
  {
  }

  lemma DrawOpensWithPattern()
    ensures Pattern(Draw) + ": " <= Description(Draw)
  {
  }

  lemma SkipNextKeyOpensWithPattern()
    ensures Pattern(SkipNextKey) + ": " <= Description(SkipNextKey)
  {
  }

  lemma SkipNextNKeyOpensWithPattern()
    ensures Pattern(SkipNextNKey) + ": " <= Description(SkipNextNKey)
  {
  }

  lemma LoadDTimerOpensWithPattern()
    ensures Pattern(LoadDTimer) + ": " <= Description(LoadDTimer)
  {
  }

  lemma StoreKeyOpensWithPattern()
    ensures Pattern(StoreKey) + ": " <= Description(StoreKey)
  {
  }

  lemma SetDTimerOpensWithPattern()
    ensures Pattern(SetDTimer) + ": " <= Description(SetDTimer)
  {
  }

  lemma SetSTimerOpensWithPattern()
    ensures Pattern(SetSTimer) + ": " <= Description(SetSTimer)
  {
  }

  lemma AddIdxRegOpensWithPattern()
    ensures Pattern(AddIdxReg) + ": " <= Description(AddIdxReg)
  {
  }

  lemma LoadIdxSpriteOpensWithPattern()
    ensures Pattern(LoadIdxSprite) + ": " <= Description(LoadIdxSprite)
  {
  }

  lemma LoadBcdOpensWithPattern()
    ensures Pattern(LoadBcd) + ": " <= Description(LoadBcd)
  {
  }

  lemma StoreIdxAllOpensWithPattern()
    ensures Pattern(StoreIdxAll) + ": " <= Description(StoreIdxAll)
  {
  }

  lemma LoadIdxAllOpensWithPattern()
    ensures Pattern(LoadIdxAll) + ": " <= Description(LoadIdxAll)
  {
  }

  /** `GetInstructionInfo`: the catalogue entry for enumerator `inst`. The C
      function asserts `inst >= 0 && inst < INSTR_SET_SIZE`; that assertion is
      the precondition here. The entry describes the identity whose enumerator
      is `inst`, and its description starts with that identity's documented
      pattern. */
  function GetInstructionInfo(inst: int): (info: InstructionInfo)
    requires 0 <= inst < InstrSetSize
    ensures info.value == FromOrdinal(inst) && Ordinal(info.value) == inst
    ensures Pattern(info.value) + ": " <= info.description
  {
    var i := FromOrdinal(inst);
    FromOrdinalInverse(inst);
    RowsAgreeWithEnum(i);
    Info(i)
  }

  /** Every identity has an entry: looking up its enumerator yields it. */
  lemma LookupIsTotal(i: Instruction)
    ensures GetInstructionInfo(Ordinal(i)).value == i
  {
    OrdinalIsBijective(i);
  }
}
